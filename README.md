# Viola-Jones AdaBoost trainer: integral images and boosting rounds

This project models the two computational parts of a face-detection trainer
written in Python:

- **The integral image and the 3x3 block grid** (`sandbox_parallel/adaboostImages2.py`), in `images.dfy`, module `Images`.
  - `s(img, x, y)` is the recursive column prefix sum.
  - `ii(img, x, y)` is the recursive integral image.
  - `integralImage2` is the four-corner value D - C - B + A of a block.
  - `iiA` .. `iiD` are the four corners taken separately.
  - `partition_image` produces the nine blocks of an image.

  All of these are pure and are modelled as functions. They are proved against a brute-force reference sum `Box`: the sum of every pixel in columns x0+1..x1 and rows y0+1..y1, added up row by row.

- **AdaBoost training** (`main/adaboostTrain.py`), in `adaboost.dfy`, module `AdaBoost`. It covers `calculate_error`, `calculate_alpha`, `normalization_constant`, `get_feature_values`, `weak_learner`, and `adaboost_train` from line 112 on, with the images and labels given as inputs.
  - The loops of the source are methods with loop invariants:
    - the triple loop that fills the feature table;
    - the selection loop of `weak_learner`;
    - the in-place reweighting of the distribution;
    - the round loop.
  - Each method is proved equal to a specification function: `FeatureTable`, `WeakLearnerSpec` (a left fold `Scan` over the keys), `Normalize(Reweight(...))` for the in-place reweighting (`UpdateDistribution`) and `Train` (T applications of `Round`).
  - What the trainer promises is proved as lemmas about those functions.

Collaborators that the trainer calls but does not define are parameters:

- the feature functions `(Image, Block) -> real`;
- the decision stump, which is fitted on one key's values and the labels and returns its predictions on the same values;
- the order in which the dictionary of keys is enumerated, a sequence `order` that lists every key of the table and nothing else (a repeated key is allowed, and every proved property holds then too);
- `exp` and `ln`. Only the laws the proofs use are assumed of them:
  - `IsExp`: `exp` is positive and `exp(0) = 1`;
  - `IsLn`: `ln(1) = 0` and `ln` is strictly increasing;
  - `HalfLogExp`: for `q > 0`, `exp(ln(q)/2)` squared is `q`, and its product with `exp(-ln(q)/2)` is 1.

What the code does that a reader might not expect, and that the model keeps:

- The docstring of `integralImage2` (sandbox_parallel/adaboostImages2.py:75) calls its result the sum of all the pixels above and to the left of (x1, y1). The code computes D - C - B + A, which is the half-open box: it excludes column x0 and row y0, and it is not a sum up to (x1, y1) alone.
- `partition_image` takes the first entry of the array shape, which is the number of rows, as its width (sandbox_parallel/adaboostImages2.py:135). Each block spans `w/3 - 1` in x and `h/3 - 1` in y, counted as the difference of its corner coordinates.
- The stump is fitted without the sample weights (main/adaboostTrain.py:79-80). Only the error used to select it is weighted.
- Training on zero images does not fail: the comprehension at main/adaboostTrain.py:115 never divides, so the distribution is empty, no index is out of range, and every round succeeds.
- `get_feature_values` calls `partition_image` (main/adaboostTrain.py:47). The name reaches `main/adaboostTrain.py` through the two star imports at lines 9-10, of `adaboostFeatures` and `adaboostImages`. Neither module is part of this model, so which of them defines it is not visible here. The model uses the definition in `sandbox_parallel/adaboostImages2.py`.

Pixel sums are unbounded integers. In `s`, the first addition adds a `uint8` pixel to the Python integer 0, and numpy 1.x promotes the result to a 64-bit integer. No pixel total of an image comes close to that bound.

## Model

| member | source | states |
|---|---|---|
| Images.S | sandbox_parallel/adaboostImages2.py:41-53 | body of `s`: the pixel at (x, y) plus `s` one row up, 0 at y = -1; `SIsColumnSum` relates it to `Box` |
| Images.II | sandbox_parallel/adaboostImages2.py:56-68 | body of `ii`: `ii` one column left plus `s` of this column, 0 at x = -1; `IIIsPrefixBox` relates it to `Box` |
| Images.IntegralImage2 | sandbox_parallel/adaboostImages2.py:71-84 | body of `integralImage2`: D - C - B + A from four calls of `ii`; `IntegralImage2IsBoxSum` and `CornersCombine` relate it to `Box` |
| Images.SIsColumnSum | sandbox_parallel/adaboostImages2.py:41-53 | `s(img, x, y)` is the sum of column x over rows 0..y; it is 0 for y = -1 |
| Images.IIIsPrefixBox | sandbox_parallel/adaboostImages2.py:56-68 | `ii(img, x, y)` is the sum of every pixel with column <= x and row <= y; it is 0 for x = -1 |
| Images.IntegralImage2IsBoxSum | sandbox_parallel/adaboostImages2.py:71-84 | for x0 <= x1 and y0 <= y1, D - C - B + A is the brute-force sum over columns x0+1..x1 and rows y0+1..y1; it is 0 when x0 = x1 or y0 = y1 |
| Images.IiD | sandbox_parallel/adaboostImages2.py:110-113 | corner D is the box sum of everything up to (x1, y1) |
| Images.IiC | sandbox_parallel/adaboostImages2.py:115-118 | corner C is the box sum of everything up to (x0, y1) |
| Images.IiB | sandbox_parallel/adaboostImages2.py:120-123 | corner B is the box sum of everything up to (x1, y0) |
| Images.IiA | sandbox_parallel/adaboostImages2.py:125-128 | corner A is the box sum of everything up to (x0, y0) |
| Images.CornersCombine | sandbox_parallel/adaboostImages2.py:100-106 | the four separately computed corners combine as data1 - data2 - data3 + data4 into the value of `integralImage2`, which is the box sum for ordered corners |
| Images.IIMonotone | sandbox_parallel/adaboostImages2.py:56-68 | for non-negative pixels, `ii` is non-negative and non-decreasing in x and in y |
| Images.Partition | sandbox_parallel/adaboostImages2.py:130-150 | the grid has exactly nine blocks |
| Images.PartitionImage | sandbox_parallel/adaboostImages2.py:130-135 | `partition_image` of an image returns nine blocks, taking the row count as width |
| Images.PartitionGrid | sandbox_parallel/adaboostImages2.py:136-146 | block k lies in grid column k % 3 and grid row k / 3, starting at (k%3)*(w/3), (k/3)*(h/3), with x1 - x0 = w/3 - 1 and y1 - y0 = h/3 - 1 |
| Images.PartitionRowMajor | sandbox_parallel/adaboostImages2.py:138-150 | with w, h >= 3 the blocks come in row-major order, strictly increasing in (y0, x0) |
| Images.PartitionDisjoint | sandbox_parallel/adaboostImages2.py:138-146 | no point lies in two different blocks |
| Images.PartitionCoverage | sandbox_parallel/adaboostImages2.py:136-146 | a point lies in some block exactly when 0 <= px < 3*(w/3) and 0 <= py < 3*(h/3) |
| Images.PartitionBounds | sandbox_parallel/adaboostImages2.py:136-146 | with w, h >= 3 every block has ordered corners inside 0..w-1 by 0..h-1 |
| Images.PartitionFitsSquareImage | sandbox_parallel/adaboostImages2.py:135-146 | on a non-empty square image every block is a valid argument of `integralImage2` |
| AdaBoost.CalculateError | main/adaboostTrain.py:14-23 | the error is 0 or 1, and it is 0 exactly when the prediction equals the label |
| AdaBoost.CalculateAlpha | main/adaboostTrain.py:25-33 | alpha is 0 when the error is 0; the log is not taken then |
| AdaBoost.AlphaSign | main/adaboostTrain.py:25-33 | alpha is 0 at error 0.5, positive for 0 < e < 0.5 and negative for 0.5 < e < 1 |
| AdaBoost.NormalizationConstant | main/adaboostTrain.py:35-41 | the sum is non-negative for a non-negative distribution and positive for a non-empty positive one |
| AdaBoost.Misclassified | main/adaboostTrain.py:85 | body of the `incorrectly_classified` comprehension over the zipped lists; `Correctness` and `WeightedErrorCountsMistakes` state what it means |
| AdaBoost.WeightedError | main/adaboostTrain.py:86 | body of the weighted sum of line 86; `WeightedErrorCountsMistakes`, `WeightedErrorBounds`, `SumSplits` and `WeightedErrorDivided` state its properties |
| AdaBoost.Correctness | main/adaboostTrain.py:85-95 | `correctly_classified` has the zipped length and is the pointwise negation of `incorrectly_classified` |
| AdaBoost.WeightedErrorCountsMistakes | main/adaboostTrain.py:85-86 | a key's weighted error is the total weight of the images that `calculate_error` marks wrong |
| AdaBoost.WeightedErrorBounds | main/adaboostTrain.py:86 | for non-negative weights the error lies between 0 and the total weight, so in [0, 1] when the weights sum to 1 |
| AdaBoost.FeatureTable | main/adaboostTrain.py:43-58 | the table has exactly the keys (i, j) with i < number of features and j < 9, and no keys when there are no images |
| AdaBoost.Appended | main/adaboostTrain.py:52-55 | appending to a key's list, or starting it, leaves the key set extended by exactly that key |
| AdaBoost.GetFeatureValues | main/adaboostTrain.py:43-58 | the triple loop builds exactly `FeatureTable`: each key's list has one entry per image, and entry n is `features[i](imgs[n], blocks_n[j])`, in image order |
| AdaBoost.Candidate | main/adaboostTrain.py:76-95 | body of one iteration: fit the stump on the key's values, and record its error and correctness list; `WeakLearnerSelects` states which candidate wins |
| AdaBoost.Scan | main/adaboostTrain.py:76-95 | body of the selection loop as a left fold with a strict `<`; `ScanFindsFirstMinimum` states what it returns |
| AdaBoost.WeakLearnerSpec | main/adaboostTrain.py:60-98 | body of `weak_learner`: the fold from the initial choice with error 1.0; `WeakLearnerSelects` and `WeakLearnerErrorInUnitRange` state its result |
| AdaBoost.ScanFindsFirstMinimum | main/adaboostTrain.py:76-95 | the strict-`<` scan either keeps its start, when no key beats it, or returns the candidate at the first index that reaches the minimum error |
| AdaBoost.WeakLearnerSelects | main/adaboostTrain.py:69-95 | the lowest error is at most 1.0 and at most every key's error. The initial empty choice is returned exactly when no key is below 1.0; otherwise the first key in iteration order that reaches the minimum is returned, with its stump, block, feature and correctness |
| AdaBoost.WeakLearnerErrorInUnitRange | main/adaboostTrain.py:71-86 | with a non-negative distribution the chosen error is in [0, 1] |
| AdaBoost.WeakLearner | main/adaboostTrain.py:60-98 | the selection loop returns `WeakLearnerSpec` |
| AdaBoost.Uniform | main/adaboostTrain.py:115 | the initial distribution has n positive entries that sum to 1 when n > 0 |
| AdaBoost.Reweighted | main/adaboostTrain.py:139-142 | body of one reweighting step, by exp(-alpha) when correct and exp(alpha) otherwise; `ReweightScalesMissed` and `ReweightScalesCorrect` state its effect on the totals |
| AdaBoost.Reweight | main/adaboostTrain.py:138-142 | reweighting keeps the length of the distribution |
| AdaBoost.ReweightByZero | main/adaboostTrain.py:138-142 | with alpha 0 reweighting changes nothing |
| AdaBoost.ReweightKeepsPositive | main/adaboostTrain.py:138-142 | reweighting keeps every weight positive |
| AdaBoost.ReweightScalesMissed | main/adaboostTrain.py:138-142 | reweighting multiplies the total weight of the misclassified images by exp(alpha) |
| AdaBoost.ReweightScalesCorrect | main/adaboostTrain.py:138-142 | reweighting multiplies the total weight of the correctly classified images by exp(-alpha) |
| AdaBoost.SumSplits | main/adaboostTrain.py:85-95 | the total weight is the misclassified weight plus the correctly classified weight |
| AdaBoost.Normalize | main/adaboostTrain.py:143-144 | dividing by the normalization constant keeps the length and positivity, gives sum 1, and leaves an already normalised distribution unchanged |
| AdaBoost.WeightedErrorDivided | main/adaboostTrain.py:143-144 | dividing every weight by c divides every weighted error by c |
| AdaBoost.BalancedHalves | main/adaboostTrain.py:143-144 | when the misclassified and correctly classified weights are equal, normalising gives each group weight 1/2 |
| AdaBoost.ReweightHalvesError | main/adaboostTrain.py:138-144 | if exp(alpha) squared is the odds of correct to misclassified weight, and exp(alpha) times exp(-alpha) is 1, the new distribution gives the misclassified images weight 1/2 |
| AdaBoost.AlphaFactors | main/adaboostTrain.py:30-33 | for 0 < e < 1, the alpha of e makes exp(alpha) times exp(-alpha) equal 1 and exp(alpha) squared times e equal 1 - e |
| AdaBoost.AlphaHalvesError | main/adaboostTrain.py:136-144 | reweighting a normalised distribution by the alpha of its own error, with the error in (0, 1), and then normalising, gives that error weight 1/2 |
| AdaBoost.Start | main/adaboostTrain.py:115-127 | body of the initial state: the uniform distribution and five empty lists; `Train` states what the rounds keep from it |
| AdaBoost.Round | main/adaboostTrain.py:128-144 | a round fails exactly when the correctness list is shorter than the distribution. Otherwise the new distribution has the same length, stays positive and sums to 1 |
| AdaBoost.Train | main/adaboostTrain.py:115-144 | after T successful rounds the distribution has length n, is positive and sums to 1; the five result lists have length T; and alphas[t] = calculate_alpha(errors[t]) for every t |
| AdaBoost.TrainFailureSticks | main/adaboostTrain.py:138-139 | once a round raises the index error, training ends with that error |
| AdaBoost.ZeroAlphaKeepsDistribution | main/adaboostTrain.py:136-144 | a round whose alpha is 0 leaves a normalised distribution unchanged |
| AdaBoost.PerfectRoundKeepsDistribution | main/adaboostTrain.py:128-144 | a round with error 0 records alpha 0 and keeps the distribution |
| AdaBoost.ChosenErrorBecomesHalf | main/adaboostTrain.py:128-144 | when the chosen error is strictly between 0 and 1, the chosen stump has weighted error exactly 1/2 under the distribution its round produces |
| AdaBoost.UpdateDistribution | main/adaboostTrain.py:138-144 | the in-place loop and the division fail exactly when the correctness list is too short; otherwise they produce the normalised reweighted distribution |
| AdaBoost.AdaBoostTrain | main/adaboostTrain.py:112-145 | the training procedure returns the trained lists of `Train` after T rounds, or the index error of the first failing round |

## Left out

- Image loading (`read_image` and `get_gray_imgs`, sandbox_parallel/adaboostImages2.py:12-38) and the call at main/adaboostTrain.py:107-110 are left out. They read files through OpenCV; the model takes the gray images and labels as inputs.
- The MPI version `integralImage` (sandbox_parallel/adaboostImages2.py:86-108) is left out: message passing between processes is not modelled. `Images.CornersCombine` states what its rank-4 process computes.
- The decision stump (scikit-learn's `DecisionTreeClassifier` of depth 1) is a parameter. The model records the values a stump was fitted on and its predictions, not the fitted tree object.
- `best_feature` is the feature function itself in the source. The model records its index.
- Dictionary iteration order is the parameter `order`. Any sequence that lists every key of the table and nothing else is allowed.
- The default `T=3` of `adaboost_train` (main/adaboostTrain.py:101) is not modelled: the number of rounds is a required parameter of `AdaBoost.AdaBoostTrain`.
- The fixed feature list `feat_two_rectangles`, `feat_three_rectangles`, `feat_four_rectangles` (main/adaboostTrain.py:121) comes from `adaboostFeatures`, which is not part of this model. The features are a parameter.
- Floating point is not modelled: weights and errors are exact reals. `exp` and `ln` are known only through `IsExp`, `IsLn` and `HalfLogExp`. The model is silent on the case `calculate_alpha(1.0)`, where the source takes `ln(0)`.
- The timing calls, the `print` statements and `sys.setrecursionlimit` are left out.
- Images.S: pixel indices must lie inside the image when a pixel is read. Python's negative indices, which count from the end, are not modelled. `s` recurses once per row (sandbox_parallel/adaboostImages2.py:52), so under the recursion limit of 10000 the source raises `RecursionError` on a tall enough query. `S` is defined for every size.
- Images.II: x must be at least -1, and the pixels it reads must lie inside the image. It returns 0 at x = -1 for every y, and at y = -1 for every x >= -1, as the source does. Below x = -1 the source recurses without end. `ii` recurses once per column and then calls `s` (sandbox_parallel/adaboostImages2.py:67), so a query whose x + y approaches 10000 raises `RecursionError` in the source. `II` is defined for every size.
- Images.IntegralImage2, Images.IiA, Images.IiB, Images.IiC, Images.IiD: every corner they read must lie in -1..W-1 by -1..H-1, where W and H are the column and row counts. In the source, `ii(x, -1)` with x >= W and `ii(-1, y)` with y >= H also return 0. `Images.II` accepts those arguments, but the four-corner functions and the corner helpers do not.
- AdaBoost.Reweight: its contract states only the length. What reweighting does to the weights is stated by `ReweightByZero`, `ReweightKeepsPositive`, `ReweightScalesMissed` and `ReweightScalesCorrect`.
- AdaBoost.ChosenErrorBecomesHalf: it assumes exact arithmetic and the `HalfLogExp` law of exp and ln. In floating point the error is 1/2 only up to rounding.
