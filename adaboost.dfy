/** AdaBoost training over (feature, block) weak learners
    (main/adaboostTrain.py).

    Collaborators the trainer does not define are parameters: the feature
    functions, the decision stump (fitted on one key's feature values and
    the labels, then asked to predict those same values), the order in
    which the feature table's keys are enumerated, and the real functions
    exp and ln, of which only the laws in IsExp, IsLn and HalfLogExp are
    assumed. */
module AdaBoost {
  import opened Images

  // ---------------------------------------------------------------------
  // Data

  /** A feature function: image and block to a scalar. */
  type Feature = (Image, Block) -> real

  /** A decision stump: fitted on (values, labels), it returns its
      predictions (+1 or -1) for the same values. */
  type Stump = (seq<real>, seq<int>) -> seq<int>

  /** Key of the feature table: (feature index, block index). */
  datatype Key = Key(feature: nat, block: nat)

  datatype Option<T> = None | Some(value: T)

  /** A fitted stump, identified by the values it was fitted on, with its
      predictions on them. */
  datatype Fitted = Fitted(values: seq<real>, predictions: seq<int>)

  /** What weak_learner returns: model, block, feature, lowest error rate
      and the per-image correctness list. None stands for the empty list
      the source starts from. */
  datatype Choice = Choice(model: Option<Fitted>, block: Option<nat>, feature: Option<nat>,
                           error: real, correct: seq<bool>)

  /** The fixed inputs of every round. */
  datatype Pool = Pool(table: map<Key, seq<real>>, stump: Stump, labels: seq<int>)

  /** What adaboost_train returns. */
  datatype Trained = Trained(alphas: seq<real>, models: seq<Option<Fitted>>, blocks: seq<Option<nat>>,
                             features: seq<Option<nat>>, errors: seq<real>)

  /** The trainer's state between rounds. */
  datatype State = State(dists: seq<real>, trained: Trained)

  /** Indexing the correctness list past its end in round `round`. */
  datatype TrainError = IndexError(round: nat)

  datatype Result<T> = Success(value: T) | Failure(error: TrainError)

  // ---------------------------------------------------------------------
  // The laws assumed of exp and ln

  ghost predicate IsExp(exp: real -> real)
  {
    && (forall a :: exp(a) > 0.0)
    && exp(0.0) == 1.0
  }

  ghost predicate IsLn(ln: real -> real)
  {
    && ln(1.0) == 0.0
    && (forall u, v :: 0.0 < u < v ==> ln(u) < ln(v))
  }

  // ---------------------------------------------------------------------
  // Sums

  function Sum(s: seq<real>): real
  {
    if |s| == 0 then 0.0 else s[0] + Sum(s[1..])
  }

  predicate Positive(s: seq<real>)
  {
    forall i :: 0 <= i < |s| ==> s[i] > 0.0
  }

  predicate NonNegativeReals(s: seq<real>)
  {
    forall i :: 0 <= i < |s| ==> s[i] >= 0.0
  }

  lemma {:induction false} SumNonNegative(s: seq<real>)
    requires NonNegativeReals(s)
    ensures Sum(s) >= 0.0
  {
    if |s| > 0 {
      SumNonNegative(s[1..]);
    }
  }

  lemma {:induction false} SumPositive(s: seq<real>)
    requires Positive(s) && |s| > 0
    ensures Sum(s) > 0.0
  {
    if |s| > 1 {
      SumPositive(s[1..]);
    }
  }

  /** A sequence of n copies of v sums to n * v. */
  lemma {:induction false} SumConstant(s: seq<real>, v: real)
    requires forall i :: 0 <= i < |s| ==> s[i] == v
    ensures Sum(s) == |s| as real * v
  {
    if |s| > 0 {
      SumConstant(s[1..], v);
    }
  }

  lemma SumSign(s: seq<real>)
    ensures NonNegativeReals(s) ==> Sum(s) >= 0.0
    ensures Positive(s) && |s| > 0 ==> Sum(s) > 0.0
  {
    if NonNegativeReals(s) {
      SumNonNegative(s);
    }
    if Positive(s) && |s| > 0 {
      SumPositive(s);
    }
  }

  /** Dividing every entry by c divides the sum by c. */
  lemma {:induction false} SumDivided(s: seq<real>, r: seq<real>, c: real)
    requires c != 0.0 && |r| == |s|
    requires forall i :: 0 <= i < |s| ==> r[i] == s[i] / c
    ensures Sum(r) == Sum(s) / c
  {
    if |s| > 0 {
      SumDivided(s[1..], r[1..], c);
      assert r[0] + Sum(s[1..]) / c == (s[0] + Sum(s[1..])) / c;
    }
  }

  // ---------------------------------------------------------------------
  // calculate_error, calculate_alpha, normalization_constant

  /** 0 for a correct prediction, 1 for a wrong one. */
  function CalculateError(prediction: int, actual: int): (r: nat)
    ensures r <= 1
    ensures r == 0 <==> prediction == actual
  {
    if prediction == actual then 0 else 1
  }

  /** Stump weight; the log is not evaluated for error 0. */
  function CalculateAlpha(ln: real -> real, error: real): (alpha: real)
    ensures error == 0.0 ==> alpha == 0.0
  {
    if error != 0.0 then 0.5 * ln((1.0 - error) / error) else 0.0
  }

  /** Alpha is 0 at error 0.5, positive below it and negative above it. */
  lemma AlphaSign(ln: real -> real, error: real)
    requires IsLn(ln)
    ensures error == 0.5 ==> CalculateAlpha(ln, error) == 0.0
    ensures 0.0 < error < 0.5 ==> CalculateAlpha(ln, error) > 0.0
    ensures 0.5 < error < 1.0 ==> CalculateAlpha(ln, error) < 0.0
  {
    if 0.0 < error < 1.0 {
      var q := (1.0 - error) / error;
      assert q * error == 1.0 - error;
      if error == 0.5 {
        assert q == 1.0;
      } else if error < 0.5 {
        assert q > 1.0;
        assert ln(1.0) < ln(q);
      } else {
        assert 0.0 < q < 1.0;
        assert ln(q) < ln(1.0);
      }
    }
  }

  /** The constant the distribution is divided by: positive for a
      non-empty positive distribution. */
  function NormalizationConstant(dists: seq<real>): (total: real)
    ensures NonNegativeReals(dists) ==> total >= 0.0
    ensures Positive(dists) && |dists| > 0 ==> total > 0.0
  {
    SumSign(dists);
    Sum(dists)
  }

  // ---------------------------------------------------------------------
  // Errors of one key

  /** incorrectly_classified: zip truncates to the shorter list. */
  function Misclassified(predictions: seq<int>, labels: seq<int>): seq<bool>
  {
    seq(if |predictions| < |labels| then |predictions| else |labels|,
        i requires 0 <= i < |predictions| && i < |labels| => predictions[i] != labels[i])
  }

  /** correctly_classified: the pointwise negation of Misclassified. */
  function Correctness(predictions: seq<int>, labels: seq<int>): (r: seq<bool>)
    ensures |r| == |Misclassified(predictions, labels)|
    ensures forall i :: 0 <= i < |r| ==> r[i] == !Misclassified(predictions, labels)[i]
  {
    seq(if |predictions| < |labels| then |predictions| else |labels|,
        i requires 0 <= i < |predictions| && i < |labels| => predictions[i] == labels[i])
  }

  /** Sum of dist[i] * miss[i] over the zipped lists; a True counts as 1
      and a False as 0, so each term is dist[i] or 0. */
  function WeightedError(dist: seq<real>, miss: seq<bool>): real
  {
    if |dist| == 0 || |miss| == 0 then 0.0
    else (if miss[0] then dist[0] else 0.0) + WeightedError(dist[1..], miss[1..])
  }

  /** Reference: the weights of the images calculate_error calls wrong. */
  function ErrorSum(dist: seq<real>, predictions: seq<int>, labels: seq<int>): real
  {
    if |dist| == 0 || |predictions| == 0 || |labels| == 0 then 0.0
    else dist[0] * CalculateError(predictions[0], labels[0]) as real
         + ErrorSum(dist[1..], predictions[1..], labels[1..])
  }

  /** The weighted error of a key is the total weight of the images whose
      prediction differs from the label. */
  lemma {:induction false} WeightedErrorCountsMistakes(dist: seq<real>, predictions: seq<int>, labels: seq<int>)
    ensures WeightedError(dist, Misclassified(predictions, labels)) == ErrorSum(dist, predictions, labels)
  {
    var miss := Misclassified(predictions, labels);
    if |dist| > 0 && |predictions| > 0 && |labels| > 0 {
      assert miss[1..] == Misclassified(predictions[1..], labels[1..]);
      WeightedErrorCountsMistakes(dist[1..], predictions[1..], labels[1..]);
    }
  }

  /** For a non-negative distribution the weighted error lies between 0 and
      the total weight, so in [0, 1] when the weights sum to 1. */
  lemma {:induction false} WeightedErrorBounds(dist: seq<real>, miss: seq<bool>)
    requires NonNegativeReals(dist)
    ensures 0.0 <= WeightedError(dist, miss) <= Sum(dist)
  {
    if |dist| == 0 {
    } else if |miss| == 0 {
      SumNonNegative(dist);
    } else {
      WeightedErrorBounds(dist[1..], miss[1..]);
    }
  }

  // ---------------------------------------------------------------------
  // get_feature_values

  /** The keys get_feature_values produces: none without images, otherwise
      every (i, j) with i < featureCount and j < 9. */
  function FeatureKeys(imageCount: nat, featureCount: nat): set<Key>
  {
    if imageCount == 0 then {}
    else set i: nat, j: nat | i < featureCount && j < 9 :: Key(i, j)
  }

  /** Values of one key over the first m images, in image order. */
  function Column(imgs: seq<Image>, features: seq<Feature>, k: Key, m: nat): seq<real>
    requires m <= |imgs| && k.feature < |features| && k.block < 9
  {
    seq(m, n requires 0 <= n < m => features[k.feature](imgs[n], PartitionImage(imgs[n])[k.block]))
  }

  /** The feature table: each key maps to its values over all images. */
  function FeatureTable(imgs: seq<Image>, features: seq<Feature>): (table: map<Key, seq<real>>)
    ensures table.Keys == FeatureKeys(|imgs|, |features|)
  {
    map k | k in FeatureKeys(|imgs|, |features|) :: Column(imgs, features, k, |imgs|)
  }

  /** (i, j) comes before the loop position (fi, bj). */
  predicate Before(k: Key, fi: nat, bj: nat)
  {
    k.feature < fi || (k.feature == fi && k.block < bj)
  }

  /** The table after images 0..m-1 and, of image m, the keys before (fi, bj). */
  ghost predicate Filled(table: map<Key, seq<real>>, imgs: seq<Image>, features: seq<Feature>,
                         m: nat, fi: nat, bj: nat)
    requires m <= |imgs|
  {
    && (forall k :: k in table <==>
          k.feature < |features| && k.block < 9 && (m > 0 || (m < |imgs| && Before(k, fi, bj))))
    && (forall k :: k in table ==>
          table[k] == Column(imgs, features, k, if m < |imgs| && Before(k, fi, bj) then m + 1 else m))
  }

  /** Lines 52-55: append to the key's list, or start it. */
  function Appended(table: map<Key, seq<real>>, key: Key, diff: real): (r: map<Key, seq<real>>)
    ensures r.Keys == table.Keys + {key}
  {
    if key in table then table[key := table[key] + [diff]] else table[key := [diff]]
  }

  lemma ColumnSnoc(imgs: seq<Image>, features: seq<Feature>, k: Key, m: nat)
    requires m < |imgs| && k.feature < |features| && k.block < 9
    ensures Column(imgs, features, k, m) + [features[k.feature](imgs[m], PartitionImage(imgs[m])[k.block])]
         == Column(imgs, features, k, m + 1)
  {
  }

  lemma FilledAppend(table: map<Key, seq<real>>, imgs: seq<Image>, features: seq<Feature>,
                     m: nat, i: nat, j: nat, diff: real)
    requires m < |imgs| && i < |features| && j < 9
    requires Filled(table, imgs, features, m, i, j)
    requires diff == features[i](imgs[m], PartitionImage(imgs[m])[j])
    ensures Filled(Appended(table, Key(i, j), diff), imgs, features, m, i, j + 1)
  {
    var key := Key(i, j);
    var t' := Appended(table, key, diff);
    ColumnSnoc(imgs, features, key, m);
    forall k | k in t'
      ensures t'[k] == Column(imgs, features, k, if m < |imgs| && Before(k, i, j + 1) then m + 1 else m)
    {
      if k != key {
        assert Before(k, i, j) <==> Before(k, i, j + 1);
      }
    }
  }

  lemma FilledNextFeature(table: map<Key, seq<real>>, imgs: seq<Image>, features: seq<Feature>, m: nat, i: nat)
    requires m < |imgs|
    requires Filled(table, imgs, features, m, i, 9)
    ensures Filled(table, imgs, features, m, i + 1, 0)
  {
    assert forall k: Key :: k.block < 9 ==> (Before(k, i, 9) <==> Before(k, i + 1, 0));
  }

  lemma FilledNextImage(table: map<Key, seq<real>>, imgs: seq<Image>, features: seq<Feature>, m: nat)
    requires m < |imgs|
    requires Filled(table, imgs, features, m, |features|, 0)
    ensures Filled(table, imgs, features, m + 1, 0, 0)
  {
    assert forall k: Key :: k.feature < |features| ==> Before(k, |features|, 0);
  }

  lemma FilledDone(table: map<Key, seq<real>>, imgs: seq<Image>, features: seq<Feature>)
    requires Filled(table, imgs, features, |imgs|, 0, 0)
    ensures table == FeatureTable(imgs, features)
  {
    var ft := FeatureTable(imgs, features);
    forall k ensures k in table <==> k in ft {
      if k.feature < |features| && k.block < 9 && |imgs| > 0 {
        assert k == Key(k.feature, k.block);
      }
    }
    assert table.Keys == ft.Keys;
  }

  /** get_feature_values: for every image, every feature and every block,
      appends the feature value to the list of key (feature, block). */
  method GetFeatureValues(imgs: seq<Image>, features: seq<Feature>) returns (table: map<Key, seq<real>>)
    ensures table == FeatureTable(imgs, features)
    ensures forall k :: k in table ==> |table[k]| == |imgs|
  {
    table := map[];
    var m := 0;
    while m < |imgs|
      invariant 0 <= m <= |imgs|
      invariant Filled(table, imgs, features, m, 0, 0)
    {
      var img := imgs[m];
      var blocks := PartitionImage(img);
      var i := 0;
      while i < |features|
        invariant 0 <= i <= |features|
        invariant Filled(table, imgs, features, m, i, 0)
      {
        var j := 0;
        while j < |blocks|
          invariant 0 <= j <= 9
          invariant Filled(table, imgs, features, m, i, j)
        {
          var key := Key(i, j);
          var diff := features[i](img, blocks[j]);
          FilledAppend(table, imgs, features, m, i, j, diff);
          table := Appended(table, key, diff);
          j := j + 1;
        }
        assert j == 9;
        FilledNextFeature(table, imgs, features, m, i);
        i := i + 1;
      }
      FilledNextImage(table, imgs, features, m);
      m := m + 1;
    }
    FilledDone(table, imgs, features);
  }

  // ---------------------------------------------------------------------
  // weak_learner

  /** Every element of the order is a key of the table and every key is listed. */
  ghost predicate Enumerates(order: seq<Key>, keys: set<Key>)
  {
    forall k :: k in order <==> k in keys
  }

  /** What key k would be chosen as: its fitted stump, its error, its correctness. */
  function Candidate(pool: Pool, dist: seq<real>, k: Key): Choice
    requires k in pool.table
  {
    var values := pool.table[k];
    var predictions := pool.stump(values, pool.labels);
    Choice(Some(Fitted(values, predictions)), Some(k.block), Some(k.feature),
           WeightedError(dist, Misclassified(predictions, pool.labels)),
           Correctness(predictions, pool.labels))
  }

  function ErrorOfKey(pool: Pool, dist: seq<real>, k: Key): real
    requires k in pool.table
  {
    Candidate(pool, dist, k).error
  }

  /** The initial best: empty model, block and feature, error 1.0. */
  const NoChoice := Choice(None, None, None, 1.0, [])

  /** The selection loop from best-so-far `acc` over the keys in `order`:
      a key replaces the best only with a strictly lower error. */
  function Scan(pool: Pool, dist: seq<real>, order: seq<Key>, acc: Choice): Choice
    requires forall k :: k in order ==> k in pool.table
    decreases |order|
  {
    if |order| == 0 then acc
    else
      var c := Candidate(pool, dist, order[0]);
      Scan(pool, dist, order[1..], if c.error < acc.error then c else acc)
  }

  function WeakLearnerSpec(pool: Pool, dist: seq<real>, order: seq<Key>): Choice
    requires forall k :: k in order ==> k in pool.table
  {
    Scan(pool, dist, order, NoChoice)
  }

  /** Every key in `order` has error at least e. */
  ghost predicate AllAtLeast(pool: Pool, dist: seq<real>, order: seq<Key>, e: real)
    requires forall k :: k in order ==> k in pool.table
  {
    forall t :: 0 <= t < |order| ==> ErrorOfKey(pool, dist, order[t]) >= e
  }

  /** Index w is the first in `order` whose error is the minimum e. */
  ghost predicate FirstMinimumAt(pool: Pool, dist: seq<real>, order: seq<Key>, w: int, e: real)
    requires forall k :: k in order ==> k in pool.table
  {
    && 0 <= w < |order| && ErrorOfKey(pool, dist, order[w]) == e
    && (forall t :: 0 <= t < w ==> ErrorOfKey(pool, dist, order[t]) > e)
    && (forall t :: w <= t < |order| ==> ErrorOfKey(pool, dist, order[t]) >= e)
  }

  lemma AllAtLeastCons(pool: Pool, dist: seq<real>, order: seq<Key>, e: real)
    requires |order| > 0 && forall k :: k in order ==> k in pool.table
    requires ErrorOfKey(pool, dist, order[0]) >= e && AllAtLeast(pool, dist, order[1..], e)
    ensures AllAtLeast(pool, dist, order, e)
  {
    forall t | 0 < t < |order| ensures ErrorOfKey(pool, dist, order[t]) >= e {
      assert order[t] == order[1..][t - 1];
    }
  }

  lemma FirstMinimumCons(pool: Pool, dist: seq<real>, order: seq<Key>, w: int, e: real)
    requires |order| > 0 && forall k :: k in order ==> k in pool.table
    requires ErrorOfKey(pool, dist, order[0]) > e && FirstMinimumAt(pool, dist, order[1..], w, e)
    ensures FirstMinimumAt(pool, dist, order, w + 1, e)
  {
    forall t | 0 < t < |order| ensures order[t] == order[1..][t - 1] {
    }
  }

  lemma FirstMinimumHead(pool: Pool, dist: seq<real>, order: seq<Key>, e: real)
    requires |order| > 0 && forall k :: k in order ==> k in pool.table
    requires ErrorOfKey(pool, dist, order[0]) == e && AllAtLeast(pool, dist, order[1..], e)
    ensures FirstMinimumAt(pool, dist, order, 0, e)
  {
    AllAtLeastCons(pool, dist, order, e);
  }

  /** The scan keeps `acc` when no key beats it; otherwise it returns the
      candidate at the first index whose error is the minimum. */
  lemma {:induction false} ScanFindsFirstMinimum(pool: Pool, dist: seq<real>, order: seq<Key>, acc: Choice)
    requires forall k :: k in order ==> k in pool.table
    ensures var r := Scan(pool, dist, order, acc);
      || (r == acc && AllAtLeast(pool, dist, order, acc.error))
      || (r.error < acc.error
          && exists w :: FirstMinimumAt(pool, dist, order, w, r.error) && r == Candidate(pool, dist, order[w]))
    decreases |order|
  {
    if |order| > 0 {
      var c := Candidate(pool, dist, order[0]);
      var acc' := if c.error < acc.error then c else acc;
      var rest := order[1..];
      ScanFindsFirstMinimum(pool, dist, rest, acc');
      var r := Scan(pool, dist, rest, acc');
      assert r == Scan(pool, dist, order, acc);
      if r == acc' && AllAtLeast(pool, dist, rest, acc'.error) {
        if c.error < acc.error {
          FirstMinimumHead(pool, dist, order, r.error);
          assert r == Candidate(pool, dist, order[0]);
        } else {
          AllAtLeastCons(pool, dist, order, acc.error);
        }
      } else {
        var w' :| FirstMinimumAt(pool, dist, rest, w', r.error) && r == Candidate(pool, dist, rest[w']);
        FirstMinimumCons(pool, dist, order, w', r.error);
        assert order[w' + 1] == rest[w'];
      }
    }
  }

  /** weak_learner's result: the lowest error is min(1.0, every key's error);
      when some key is below 1.0 the winner is the key at the first index in
      iteration order reaching that minimum (ties go to the earlier key), with
      its stump, block, feature and correctness list; otherwise the initial
      empty choice with error 1.0 and an empty correctness list. */
  lemma WeakLearnerSelects(pool: Pool, dist: seq<real>, order: seq<Key>)
    requires Enumerates(order, pool.table.Keys)
    ensures var c := WeakLearnerSpec(pool, dist, order);
      && c.error <= 1.0
      && (forall k :: k in pool.table ==> c.error <= ErrorOfKey(pool, dist, k))
      && ((forall k :: k in pool.table ==> ErrorOfKey(pool, dist, k) >= 1.0) <==> c == NoChoice)
      && (c != NoChoice ==>
            exists w :: 0 <= w < |order| && c == Candidate(pool, dist, order[w])
              && (forall t :: 0 <= t < w ==> ErrorOfKey(pool, dist, order[t]) > c.error))
  {
    var c := WeakLearnerSpec(pool, dist, order);
    ScanFindsFirstMinimum(pool, dist, order, NoChoice);
    if c == NoChoice {
      assert AllAtLeast(pool, dist, order, 1.0);
    } else {
      var w :| FirstMinimumAt(pool, dist, order, w, c.error) && c == Candidate(pool, dist, order[w]);
      assert ErrorOfKey(pool, dist, order[w]) < 1.0;
    }
    forall k | k in pool.table ensures c.error <= ErrorOfKey(pool, dist, k) {
      var t :| 0 <= t < |order| && order[t] == k;
    }
  }

  /** With a non-negative distribution the chosen error lies in [0, 1]. */
  lemma WeakLearnerErrorInUnitRange(pool: Pool, dist: seq<real>, order: seq<Key>)
    requires Enumerates(order, pool.table.Keys) && NonNegativeReals(dist)
    ensures 0.0 <= WeakLearnerSpec(pool, dist, order).error <= 1.0
  {
    var c := WeakLearnerSpec(pool, dist, order);
    WeakLearnerSelects(pool, dist, order);
    if c != NoChoice {
      var w :| 0 <= w < |order| && c == Candidate(pool, dist, order[w]);
      var predictions := pool.stump(pool.table[order[w]], pool.labels);
      WeightedErrorBounds(dist, Misclassified(predictions, pool.labels));
    }
  }

  /** weak_learner: fits a stump per key in iteration order and keeps the
      first strictly lowest weighted error. */
  method WeakLearner(pool: Pool, dist: seq<real>, order: seq<Key>) returns (best: Choice)
    requires Enumerates(order, pool.table.Keys)
    ensures best == WeakLearnerSpec(pool, dist, order)
  {
    best := NoChoice;
    var t := 0;
    while t < |order|
      invariant 0 <= t <= |order|
      invariant Scan(pool, dist, order[t..], best) == WeakLearnerSpec(pool, dist, order)
    {
      var k := order[t];
      var values := pool.table[k];
      var predictions := pool.stump(values, pool.labels);
      var incorrectlyClassified := Misclassified(predictions, pool.labels);
      var errorRate := WeightedError(dist, incorrectlyClassified);
      assert order[t..][1..] == order[t + 1..];
      if errorRate < best.error {
        best := Choice(Some(Fitted(values, predictions)), Some(k.block), Some(k.feature),
                       errorRate, Correctness(predictions, pool.labels));
      }
      t := t + 1;
    }
  }

  // ---------------------------------------------------------------------
  // adaboost_train

  /** [1.0/n for i in range(n)]. */
  function Uniform(n: nat): (d: seq<real>)
    ensures |d| == n && Positive(d)
    ensures n > 0 ==> Sum(d) == 1.0
  {
    var d := seq(n, i requires 0 <= i < n => 1.0 / n as real);
    SumConstant(d, if n == 0 then 0.0 else 1.0 / n as real);
    d
  }

  /** Lines 139-142 for one weight: times exp(-alpha) if correct, exp(alpha) if not. */
  function Reweighted(w: real, correct: bool, alpha: real, exp: real -> real): real
  {
    if correct then w * exp(-alpha) else w * exp(alpha)
  }

  /** Lines 138-142 applied to the whole distribution. */
  function Reweight(dists: seq<real>, correct: seq<bool>, alpha: real, exp: real -> real): (d: seq<real>)
    requires |correct| >= |dists|
    ensures |d| == |dists|
  {
    seq(|dists|, i requires 0 <= i < |dists| => Reweighted(dists[i], correct[i], alpha, exp))
  }

  /** exp(0) is 1, so reweighting with alpha 0 changes nothing. */
  lemma ReweightByZero(dists: seq<real>, correct: seq<bool>, exp: real -> real)
    requires |correct| >= |dists| && IsExp(exp)
    ensures Reweight(dists, correct, 0.0, exp) == dists
  {
  }

  /** exp is positive, so reweighting keeps every weight positive. */
  lemma ReweightKeepsPositive(dists: seq<real>, correct: seq<bool>, alpha: real, exp: real -> real)
    requires |correct| >= |dists| && IsExp(exp) && Positive(dists)
    ensures Positive(Reweight(dists, correct, alpha, exp))
  {
  }

  /** The in-place update has reached index i: entries before it are
      reweighted, the rest still hold the previous distribution. */
  ghost predicate ReweightedBelow(cur: seq<real>, prev: seq<real>, correct: seq<bool>, alpha: real,
                                  exp: real -> real, i: nat)
  {
    && |cur| == |prev| && i <= |prev| && i <= |correct|
    && (forall j :: 0 <= j < i ==> cur[j] == Reweighted(prev[j], correct[j], alpha, exp))
    && (forall j :: i <= j < |prev| ==> cur[j] == prev[j])
  }

  lemma ReweightedStep(cur: seq<real>, prev: seq<real>, correct: seq<bool>, alpha: real,
                       exp: real -> real, i: nat)
    requires ReweightedBelow(cur, prev, correct, alpha, exp, i)
    requires i < |prev| && i < |correct|
    ensures ReweightedBelow(cur[i := Reweighted(cur[i], correct[i], alpha, exp)], prev, correct, alpha, exp, i + 1)
  {
  }

  lemma ReweightedAll(cur: seq<real>, prev: seq<real>, correct: seq<bool>, alpha: real, exp: real -> real)
    requires IsExp(exp) && |correct| >= |prev|
    requires ReweightedBelow(cur, prev, correct, alpha, exp, |prev|)
    ensures cur == Reweight(prev, correct, alpha, exp)
  {
  }

  /** Division of every entry by the normalization constant. */
  function Normalize(dists: seq<real>): (d: seq<real>)
    requires Positive(dists)
    ensures |d| == |dists| && Positive(d)
    ensures |dists| > 0 ==> Sum(d) == 1.0
    ensures |dists| > 0 && Sum(dists) == 1.0 ==> d == dists
  {
    var total := NormalizationConstant(dists);
    if |dists| == 0 then []
    else
      var d := seq(|dists|, i requires 0 <= i < |dists| => dists[i] / total);
      SumDivided(dists, d, total);
      assert total == Sum(dists) && total > 0.0;
      DivideBySelf(total);
      assert total == 1.0 ==> d == dists by {
        if total == 1.0 {
          forall i | 0 <= i < |d| ensures d[i] == dists[i] {
            DivideByOne(dists[i]);
          }
        }
      }
      d
  }

  function Start(n: nat): State
  {
    State(Uniform(n), Trained([], [], [], [], []))
  }

  /** One round: select, record, reweight and renormalise. The round fails
      when the correctness list is shorter than the distribution. */
  function Round(pool: Pool, order: seq<Key>, exp: real -> real, ln: real -> real, t: nat, st: State): (r: Result<State>)
    requires Enumerates(order, pool.table.Keys)
    requires IsExp(exp) && Positive(st.dists)
    ensures r.Failure? <==> |WeakLearnerSpec(pool, st.dists, order).correct| < |st.dists|
    ensures r.Success? ==>
      && |r.value.dists| == |st.dists| && Positive(r.value.dists)
      && (|st.dists| > 0 ==> Sum(r.value.dists) == 1.0)
  {
    var c := WeakLearnerSpec(pool, st.dists, order);
    var alpha := CalculateAlpha(ln, c.error);
    var trained := Trained(st.trained.alphas + [alpha], st.trained.models + [c.model],
                           st.trained.blocks + [c.block], st.trained.features + [c.feature],
                           st.trained.errors + [c.error]);
    if |c.correct| < |st.dists| then Failure(IndexError(t))
    else
      ReweightKeepsPositive(st.dists, c.correct, alpha, exp);
      Success(State(Normalize(Reweight(st.dists, c.correct, alpha, exp)), trained))
  }

  /** T rounds from the uniform distribution over n images. */
  function Train(pool: Pool, order: seq<Key>, exp: real -> real, ln: real -> real, n: nat, T: nat): (r: Result<State>)
    requires Enumerates(order, pool.table.Keys)
    requires IsExp(exp)
    ensures r.Success? ==>
      var st := r.value;
      && |st.dists| == n && Positive(st.dists) && (n > 0 ==> Sum(st.dists) == 1.0)
      && |st.trained.alphas| == T && |st.trained.models| == T && |st.trained.blocks| == T
      && |st.trained.features| == T && |st.trained.errors| == T
      && forall t :: 0 <= t < T ==> st.trained.alphas[t] == CalculateAlpha(ln, st.trained.errors[t])
    decreases T
  {
    if T == 0 then Success(Start(n))
    else
      match Train(pool, order, exp, ln, n, T - 1)
      case Failure(e) => Failure(e)
      case Success(st) => Round(pool, order, exp, ln, T - 1, st)
  }

  function Outcome(r: Result<State>): Result<Trained>
  {
    match r
    case Success(st) => Success(st.trained)
    case Failure(e) => Failure(e)
  }

  lemma TrainStep(pool: Pool, order: seq<Key>, exp: real -> real, ln: real -> real, n: nat, t: nat, st: State)
    requires Enumerates(order, pool.table.Keys) && IsExp(exp)
    requires Train(pool, order, exp, ln, n, t) == Success(st)
    ensures Positive(st.dists)
    ensures Train(pool, order, exp, ln, n, t + 1) == Round(pool, order, exp, ln, t, st)
  {
  }

  /** Once a round fails, every longer run fails the same way. */
  lemma {:induction false} TrainFailureSticks(pool: Pool, order: seq<Key>, exp: real -> real, ln: real -> real,
                                              n: nat, t: nat, T: nat)
    requires Enumerates(order, pool.table.Keys) && IsExp(exp)
    requires t <= T && Train(pool, order, exp, ln, n, t).Failure?
    ensures Train(pool, order, exp, ln, n, T) == Train(pool, order, exp, ln, n, t)
    decreases T - t
  {
    if t < T {
      TrainFailureSticks(pool, order, exp, ln, n, t, T - 1);
    }
  }

  /** A round whose alpha is 0 (error 0 or 0.5) leaves a normalised
      distribution unchanged. */
  lemma ZeroAlphaKeepsDistribution(pool: Pool, order: seq<Key>, exp: real -> real, ln: real -> real,
                                   t: nat, st: State)
    requires Enumerates(order, pool.table.Keys)
    requires IsExp(exp) && Positive(st.dists) && |st.dists| > 0 && Sum(st.dists) == 1.0
    requires CalculateAlpha(ln, WeakLearnerSpec(pool, st.dists, order).error) == 0.0
    requires Round(pool, order, exp, ln, t, st).Success?
    ensures Round(pool, order, exp, ln, t, st).value.dists == st.dists
  {
    ReweightByZero(st.dists, WeakLearnerSpec(pool, st.dists, order).correct, exp);
  }

  /** A round whose weak learner has error 0 records alpha 0 and keeps the
      distribution. */
  lemma PerfectRoundKeepsDistribution(pool: Pool, order: seq<Key>, exp: real -> real, ln: real -> real,
                                      t: nat, st: State)
    requires Enumerates(order, pool.table.Keys)
    requires IsExp(exp) && Positive(st.dists) && |st.dists| > 0 && Sum(st.dists) == 1.0
    requires WeakLearnerSpec(pool, st.dists, order).error == 0.0
    requires Round(pool, order, exp, ln, t, st).Success?
    ensures Round(pool, order, exp, ln, t, st).value.dists == st.dists
    ensures Round(pool, order, exp, ln, t, st).value.trained.alphas == st.trained.alphas + [0.0]
  {
    ZeroAlphaKeepsDistribution(pool, order, exp, ln, t, st);
  }

  /** The laws of exp and ln the halving property needs, for the alpha of
      an error e with q = (1 - e) / e: exp(ln(q) / 2) squared is q and its
      product with exp(-ln(q) / 2) is 1. */
  ghost predicate HalfLogExp(exp: real -> real, ln: real -> real)
  {
    forall x :: 0.0 < x ==>
      && exp(0.5 * ln(x)) * exp(0.5 * ln(x)) == x
      && exp(0.5 * ln(x)) * exp(-(0.5 * ln(x))) == 1.0
  }

  /** Reweighting multiplies the total weight of the misclassified images
      by exp(alpha). */
  lemma {:induction false} ReweightScalesMissed(d: seq<real>, miss: seq<bool>, correct: seq<bool>,
                                                alpha: real, exp: real -> real)
    requires |correct| >= |d| && |miss| >= |d|
    requires forall i :: 0 <= i < |d| ==> correct[i] == !miss[i]
    ensures WeightedError(Reweight(d, correct, alpha, exp), miss) == Product(exp(alpha), WeightedError(d, miss))
  {
    if |d| > 0 {
      var r := Reweight(d, correct, alpha, exp);
      assert r[1..] == Reweight(d[1..], correct[1..], alpha, exp);
      ReweightScalesMissed(d[1..], miss[1..], correct[1..], alpha, exp);
      var e := exp(alpha);
      var rest := WeightedError(d[1..], miss[1..]);
      if miss[0] {
        assert r[0] == d[0] * e;
        Distribute(e, d[0], rest);
      } else {
        Distribute(e, 0.0, rest);
      }
    }
  }

  /** Reweighting multiplies the total weight of the correctly classified
      images by exp(-alpha). */
  lemma {:induction false} ReweightScalesCorrect(d: seq<real>, correct: seq<bool>, alpha: real, exp: real -> real)
    requires |correct| >= |d|
    ensures WeightedError(Reweight(d, correct, alpha, exp), correct) == Product(exp(-alpha), WeightedError(d, correct))
  {
    if |d| > 0 {
      var r := Reweight(d, correct, alpha, exp);
      assert r[1..] == Reweight(d[1..], correct[1..], alpha, exp);
      ReweightScalesCorrect(d[1..], correct[1..], alpha, exp);
      var e := exp(-alpha);
      var rest := WeightedError(d[1..], correct[1..]);
      if correct[0] {
        assert r[0] == d[0] * e;
        Distribute(e, d[0], rest);
      } else {
        Distribute(e, 0.0, rest);
      }
    }
  }

  /** Each weight is either misclassified or correctly classified. */
  lemma {:induction false} SumSplits(d: seq<real>, miss: seq<bool>, correct: seq<bool>)
    requires |miss| >= |d| && |correct| >= |d|
    requires forall i :: 0 <= i < |d| ==> correct[i] == !miss[i]
    ensures Sum(d) == WeightedError(d, miss) + WeightedError(d, correct)
  {
    if |d| > 0 {
      SumSplits(d[1..], miss[1..], correct[1..]);
    }
  }

  /** Dividing every weight by c divides the weighted error by c. */
  lemma {:induction false} WeightedErrorDivided(s: seq<real>, r: seq<real>, c: real, miss: seq<bool>)
    requires c != 0.0 && |r| == |s|
    requires forall i :: 0 <= i < |s| ==> r[i] == s[i] / c
    ensures WeightedError(r, miss) == WeightedError(s, miss) / c
  {
    if |s| > 0 && |miss| > 0 {
      WeightedErrorDivided(s[1..], r[1..], c, miss[1..]);
      var we := WeightedError(s[1..], miss[1..]);
      if miss[0] {
        assert WeightedError(s, miss) == s[0] + we;
        assert WeightedError(r, miss) == s[0] / c + we / c;
        DivideSum(s[0], we, c);
      } else {
        assert WeightedError(s, miss) == we;
      }
    }
  }

  /** When the misclassified weight w is scaled by e and the correctly
      classified weight c by f, with e * f == 1 and e * e * w == c, the two
      scaled weights are equal. */
  lemma BalanceAlgebra(w: real, c: real, e: real, f: real, rw: real, rc: real)
    requires e > 0.0 && Product(e, Product(e, w)) == c && Product(e, f) == 1.0
    requires rw == Product(e, w) && rc == Product(f, c)
    ensures rw == rc
  {
    assert e * (e * w) == e * (f * c);
  }

  /** Normalising weights whose two groups balance gives each group 1/2. */
  lemma BalancedHalves(d: seq<real>, miss: seq<bool>, correct: seq<bool>)
    requires |correct| >= |d| && |miss| >= |d| && |d| > 0 && Positive(d)
    requires forall i :: 0 <= i < |d| ==> correct[i] == !miss[i]
    requires WeightedError(d, miss) == WeightedError(d, correct)
    ensures WeightedError(Normalize(d), miss) == 0.5
  {
    var n := Normalize(d);
    WeightedErrorDivided(d, n, Sum(d), miss);
    WeightedErrorDivided(d, n, Sum(d), correct);
    SumSplits(n, miss, correct);
  }

  /** Reweighting by exp(alpha) and exp(-alpha), whose product is 1 and
      where exp(alpha) squared is the odds C / W of the correctly classified
      weight C against the misclassified weight W, then normalising, gives
      the misclassified images weight 1/2. */
  lemma ReweightHalvesError(dists: seq<real>, miss: seq<bool>, correct: seq<bool>, alpha: real,
                            exp: real -> real)
    requires IsExp(exp) && |correct| >= |dists| && |miss| >= |dists|
    requires forall i :: 0 <= i < |dists| ==> correct[i] == !miss[i]
    requires Positive(dists) && |dists| > 0
    requires Product(exp(alpha), exp(-alpha)) == 1.0
    requires Product(exp(alpha), Product(exp(alpha), WeightedError(dists, miss))) == WeightedError(dists, correct)
    ensures var d := Reweight(dists, correct, alpha, exp);
      Positive(d) && WeightedError(Normalize(d), miss) == 0.5
  {
    ReweightKeepsPositive(dists, correct, alpha, exp);
    var d := Reweight(dists, correct, alpha, exp);
    ReweightScalesMissed(dists, miss, correct, alpha, exp);
    ReweightScalesCorrect(dists, correct, alpha, exp);
    BalanceAlgebra(WeightedError(dists, miss), WeightedError(dists, correct), exp(alpha), exp(-alpha),
                   WeightedError(d, miss), WeightedError(d, correct));
    BalancedHalves(d, miss, correct);
  }

  /** For an error w strictly between 0 and 1 and c = 1 - w, the factors
      exp(alpha) and exp(-alpha) of its alpha multiply to 1, and exp(alpha)
      squared times w is c. */
  lemma AlphaFactors(exp: real -> real, ln: real -> real, w: real, c: real)
    requires HalfLogExp(exp, ln)
    requires 0.0 < w < 1.0 && c == 1.0 - w
    ensures var alpha := CalculateAlpha(ln, w);
      && Product(exp(alpha), exp(-alpha)) == 1.0
      && Product(exp(alpha), Product(exp(alpha), w)) == c
  {
    var q := (1.0 - w) / w;
    var e := exp(CalculateAlpha(ln, w));
    assert e * e == q;
    assert q * w == c;
  }

  /** Reweighting a distribution by the alpha of its own weighted error,
      when that error lies strictly between 0 and 1, then normalising,
      gives the misclassified images weight 1/2. */
  lemma AlphaHalvesError(dists: seq<real>, miss: seq<bool>, correct: seq<bool>, exp: real -> real,
                         ln: real -> real)
    requires IsExp(exp) && HalfLogExp(exp, ln) && |correct| >= |dists| && |miss| >= |dists|
    requires forall i :: 0 <= i < |dists| ==> correct[i] == !miss[i]
    requires Positive(dists) && |dists| > 0 && Sum(dists) == 1.0
    requires 0.0 < WeightedError(dists, miss) < 1.0
    ensures var d := Reweight(dists, correct, CalculateAlpha(ln, WeightedError(dists, miss)), exp);
      Positive(d) && WeightedError(Normalize(d), miss) == 0.5
  {
    SumSplits(dists, miss, correct);
    var w := WeightedError(dists, miss);
    var c := WeightedError(dists, correct);
    AlphaFactors(exp, ln, w, c);
    ReweightHalvesError(dists, miss, correct, CalculateAlpha(ln, w), exp);
  }

  /** The AdaBoost invariant: when the chosen error lies strictly between
      0 and 1, the stump chosen in a round has weighted error exactly 1/2
      under the distribution that round produces. */
  lemma ChosenErrorBecomesHalf(pool: Pool, order: seq<Key>, exp: real -> real, ln: real -> real,
                               t: nat, st: State)
    requires Enumerates(order, pool.table.Keys)
    requires IsExp(exp) && HalfLogExp(exp, ln)
    requires Positive(st.dists) && |st.dists| > 0 && Sum(st.dists) == 1.0
    requires 0.0 < WeakLearnerSpec(pool, st.dists, order).error < 1.0
    requires Round(pool, order, exp, ln, t, st).Success?
    ensures var c := WeakLearnerSpec(pool, st.dists, order);
      && c.model.Some?
      && WeightedError(Round(pool, order, exp, ln, t, st).value.dists,
                       Misclassified(c.model.value.predictions, pool.labels)) == 0.5
  {
    var c := WeakLearnerSpec(pool, st.dists, order);
    WeakLearnerSelects(pool, st.dists, order);
    assert c != NoChoice;
    var w :| 0 <= w < |order| && c == Candidate(pool, st.dists, order[w]);
    var miss := Misclassified(c.model.value.predictions, pool.labels);
    AlphaHalvesError(st.dists, miss, c.correct, exp, ln);
  }

  /** Lines 138-144: reweight every entry of the distribution in place,
      then divide it by the normalization constant. Fails, as the indexing
      at line 139 does, when the correctness list is shorter than the
      distribution. */
  method UpdateDistribution(dists: seq<real>, correct: seq<bool>, alpha: real, exp: real -> real)
    returns (ok: bool, next: seq<real>)
    requires IsExp(exp) && Positive(dists)
    ensures ok <==> |correct| >= |dists|
    ensures ok ==> && Positive(Reweight(dists, correct, alpha, exp))
                   && next == Normalize(Reweight(dists, correct, alpha, exp))
  {
    var d := dists;
    var i := 0;
    while i < |d|
      invariant ReweightedBelow(d, dists, correct, alpha, exp, i)
    {
      if i >= |correct| {
        return false, d;
      }
      ReweightedStep(d, dists, correct, alpha, exp, i);
      d := d[i := Reweighted(d[i], correct[i], alpha, exp)];
      i := i + 1;
    }
    ReweightedAll(d, dists, correct, alpha, exp);
    ReweightKeepsPositive(dists, correct, alpha, exp);
    var normalization := NormalizationConstant(d);
    next := seq(|d|, j requires 0 <= j < |d| => d[j] / normalization);
    ok := true;
  }

  /** adaboost_train from line 112 on, with images and labels given. */
  method AdaBoostTrain(imgs: seq<Image>, labels: seq<int>, features: seq<Feature>, order: seq<Key>,
                       stump: Stump, exp: real -> real, ln: real -> real, T: nat)
    returns (r: Result<Trained>)
    requires |labels| == |imgs|
    requires Enumerates(order, FeatureKeys(|imgs|, |features|))
    requires IsExp(exp)
    ensures r == Outcome(Train(Pool(FeatureTable(imgs, features), stump, labels), order, exp, ln, |imgs|, T))
  {
    var n := |imgs|;
    var dists := seq(n, i requires 0 <= i < n => 1.0 / n as real);
    var alphas: seq<real> := [];
    var integralImagesDict := GetFeatureValues(imgs, features);
    var pool := Pool(integralImagesDict, stump, labels);
    var bestModels: seq<Option<Fitted>> := [];
    var bestFeatures: seq<Option<nat>> := [];
    var bestBlocks: seq<Option<nat>> := [];
    var errorRateList: seq<real> := [];
    assert dists == Uniform(n);
    var t := 0;
    while t < T
      invariant 0 <= t <= T
      invariant Train(pool, order, exp, ln, n, t)
             == Success(State(dists, Trained(alphas, bestModels, bestBlocks, bestFeatures, errorRateList)))
    {
      ghost var st := State(dists, Trained(alphas, bestModels, bestBlocks, bestFeatures, errorRateList));
      TrainStep(pool, order, exp, ln, n, t, st);
      var best := WeakLearner(pool, dists, order);
      errorRateList := errorRateList + [best.error];
      bestModels := bestModels + [best.model];
      bestFeatures := bestFeatures + [best.feature];
      bestBlocks := bestBlocks + [best.block];
      var alpha := CalculateAlpha(ln, best.error);
      alphas := alphas + [alpha];
      var ok, next := UpdateDistribution(dists, best.correct, alpha, exp);
      if !ok {
        r := Failure(IndexError(t));
        TrainFailureSticks(pool, order, exp, ln, n, t + 1, T);
        return;
      }
      dists := next;
      t := t + 1;
    }
    r := Success(Trained(alphas, bestModels, bestBlocks, bestFeatures, errorRateList));
  }

  // ---------------------------------------------------------------------
  // Proof helpers: arithmetic facts on reals that the proofs above call
  // by name. They model nothing in the trainer.

  /** Multiplication as a named function: the reweighting lemmas state
      their products through it, so that the solver treats each product
      as a single term instead of expanding nonlinear arithmetic. */
  function Product(a: real, b: real): real
  {
    a * b
  }

  lemma DivideBySelf(c: real)
    requires c != 0.0
    ensures c / c == 1.0
  {
  }

  lemma DivideByOne(x: real)
    ensures x / 1.0 == x
  {
  }

  lemma Distribute(e: real, a: real, b: real)
    ensures e * (a + b) == e * a + e * b
  {
  }

  lemma DivideSum(a: real, b: real, c: real)
    requires c != 0.0
    ensures a / c + b / c == (a + b) / c
  {
  }
}
