/** Integral image and 3x3 block grid of the Viola-Jones trainer
    (sandbox_parallel/adaboostImages2.py).

    An image is a sequence of rows; img[y][x] is the pixel in row y and
    column x. Sums are unbounded integers: the first addition in s adds a
    uint8 pixel to the Python integer 0, which numpy 1.x promotes to a
    64-bit integer, far beyond any image's pixel total. */
module Images {

  type Image = seq<seq<int>>

  /** Number of columns (the second entry of the numpy shape). */
  function Cols(img: Image): nat
  {
    if |img| == 0 then 0 else |img[0]|
  }

  /** Every row has the same length, as in a 2-D numpy array. */
  predicate Rectangular(img: Image)
  {
    forall y :: 0 <= y < |img| ==> |img[y]| == Cols(img)
  }

  predicate NonNegative(img: Image)
  {
    forall y, x :: 0 <= y < |img| && 0 <= x < |img[y]| ==> img[y][x] >= 0
  }

  /** A rectangle given by two corners (x0, y0) and (x1, y1). */
  datatype Block = Block(x0: int, y0: int, x1: int, y1: int)

  // ---------------------------------------------------------------------
  // Brute-force reference sums

  /** Sum of img[y][c] for x0 < c <= x1. */
  function RowSum(img: Image, y: int, x0: int, x1: int): int
    requires Rectangular(img) && 0 <= y < |img|
    requires -1 <= x0 <= x1 < Cols(img)
    decreases x1 - x0
  {
    if x1 == x0 then 0 else RowSum(img, y, x0, x1 - 1) + img[y][x1]
  }

  /** Sum of img[r][c] for y0 < r <= y1 and x0 < c <= x1, row by row. */
  function Box(img: Image, x0: int, x1: int, y0: int, y1: int): int
    requires Rectangular(img)
    requires -1 <= x0 <= x1 < Cols(img)
    requires -1 <= y0 <= y1 < |img|
    decreases y1 - y0
  {
    if y1 == y0 then 0 else Box(img, x0, x1, y0, y1 - 1) + RowSum(img, y1, x0, x1)
  }

  // ---------------------------------------------------------------------
  // The recursive cumulative sums

  /** Column prefix sum: img[0][x] + ... + img[y][x]; 0 when y is -1,
      whatever x is, since that branch reads no pixel. */
  function S(img: Image, x: int, y: int): int
    requires Rectangular(img)
    requires -1 <= y < |img| && (y == -1 || 0 <= x < Cols(img))
    decreases y + 1
  {
    if y == -1 then 0 else img[y][x] + S(img, x, y - 1)
  }

  /** Integral image: S summed over columns 0..x; 0 when x is -1,
      whatever y is, and 0 when y is -1, whatever x >= -1 is, since
      neither reads a pixel. */
  function II(img: Image, x: int, y: int): int
    requires Rectangular(img)
    requires -1 <= x && (x == -1 || (-1 <= y < |img| && (y == -1 || x < Cols(img))))
    decreases x + 1
  {
    if x == -1 then 0 else II(img, x - 1, y) + S(img, x, y)
  }

  /** (x, y) is a valid corner: an argument of II whose prefix box exists. */
  predicate IsCorner(img: Image, x: int, y: int)
  {
    -1 <= x < Cols(img) && -1 <= y < |img|
  }

  /** The corners of a block are valid arguments of II. */
  predicate InDomain(img: Image, b: Block)
  {
    IsCorner(img, b.x0, b.y0) && IsCorner(img, b.x1, b.y1)
  }

  /** Four-corner rectangle value D - C - B + A. */
  function IntegralImage2(img: Image, b: Block): int
    requires Rectangular(img) && InDomain(img, b)
  {
    var d := II(img, b.x1, b.y1);
    var c := II(img, b.x0, b.y1);
    var bb := II(img, b.x1, b.y0);
    var a := II(img, b.x0, b.y0);
    d - c - bb + a
  }

  /** Corner D: everything up to row y1 and column x1. */
  function IiD(img: Image, b: Block): (r: int)
    requires Rectangular(img) && IsCorner(img, b.x1, b.y1)
    ensures r == Box(img, -1, b.x1, -1, b.y1)
  {
    IIIsPrefixBox(img, b.x1, b.y1);
    II(img, b.x1, b.y1)
  }

  /** Corner C: everything up to row y1 and column x0. */
  function IiC(img: Image, b: Block): (r: int)
    requires Rectangular(img) && IsCorner(img, b.x0, b.y1)
    ensures r == Box(img, -1, b.x0, -1, b.y1)
  {
    IIIsPrefixBox(img, b.x0, b.y1);
    II(img, b.x0, b.y1)
  }

  /** Corner B: everything up to row y0 and column x1. */
  function IiB(img: Image, b: Block): (r: int)
    requires Rectangular(img) && IsCorner(img, b.x1, b.y0)
    ensures r == Box(img, -1, b.x1, -1, b.y0)
  {
    IIIsPrefixBox(img, b.x1, b.y0);
    II(img, b.x1, b.y0)
  }

  /** Corner A: everything up to row y0 and column x0. */
  function IiA(img: Image, b: Block): (r: int)
    requires Rectangular(img) && IsCorner(img, b.x0, b.y0)
    ensures r == Box(img, -1, b.x0, -1, b.y0)
  {
    IIIsPrefixBox(img, b.x0, b.y0);
    II(img, b.x0, b.y0)
  }

  // ---------------------------------------------------------------------
  // Lemmas about the sums

  lemma {:induction false} RowSumSplit(img: Image, y: int, x0: int, m: int, x1: int)
    requires Rectangular(img) && 0 <= y < |img|
    requires -1 <= x0 <= m <= x1 < Cols(img)
    ensures RowSum(img, y, x0, m) + RowSum(img, y, m, x1) == RowSum(img, y, x0, x1)
    decreases x1 - m
  {
    if x1 != m {
      RowSumSplit(img, y, x0, m, x1 - 1);
    }
  }

  /** Splitting a box at column m. */
  lemma {:induction false} BoxSplitCols(img: Image, x0: int, m: int, x1: int, y0: int, y1: int)
    requires Rectangular(img)
    requires -1 <= x0 <= m <= x1 < Cols(img)
    requires -1 <= y0 <= y1 < |img|
    ensures Box(img, x0, m, y0, y1) + Box(img, m, x1, y0, y1) == Box(img, x0, x1, y0, y1)
    decreases y1 - y0
  {
    if y1 != y0 {
      BoxSplitCols(img, x0, m, x1, y0, y1 - 1);
      RowSumSplit(img, y1, x0, m, x1);
    }
  }

  /** Splitting a box at row m. */
  lemma {:induction false} BoxSplitRows(img: Image, x0: int, x1: int, y0: int, m: int, y1: int)
    requires Rectangular(img)
    requires -1 <= x0 <= x1 < Cols(img)
    requires -1 <= y0 <= m <= y1 < |img|
    ensures Box(img, x0, x1, y0, m) + Box(img, x0, x1, m, y1) == Box(img, x0, x1, y0, y1)
    decreases y1 - m
  {
    if y1 != m {
      BoxSplitRows(img, x0, x1, y0, m, y1 - 1);
    }
  }

  /** A box with no columns sums to 0. */
  lemma {:induction false} BoxNoColumns(img: Image, x: int, y0: int, y1: int)
    requires Rectangular(img)
    requires -1 <= x < Cols(img) && -1 <= y0 <= y1 < |img|
    ensures Box(img, x, x, y0, y1) == 0
    decreases y1 - y0
  {
    if y1 != y0 {
      BoxNoColumns(img, x, y0, y1 - 1);
    }
  }

  /** s(img, x, y) is the sum of column x over rows 0..y. */
  lemma {:induction false} SIsColumnSum(img: Image, x: int, y: int)
    requires Rectangular(img)
    requires 0 <= x < Cols(img) && -1 <= y < |img|
    ensures S(img, x, y) == Box(img, x - 1, x, -1, y)
    decreases y + 1
  {
    if y != -1 {
      SIsColumnSum(img, x, y - 1);
      assert RowSum(img, y, x - 1, x) == img[y][x];
    }
  }

  /** ii(img, x, y) is the sum of all pixels with row <= y and column <= x. */
  lemma {:induction false} IIIsPrefixBox(img: Image, x: int, y: int)
    requires Rectangular(img)
    requires -1 <= x < Cols(img) && -1 <= y < |img|
    ensures II(img, x, y) == Box(img, -1, x, -1, y)
    decreases x + 1
  {
    if x == -1 {
      BoxNoColumns(img, -1, -1, y);
    } else {
      IIIsPrefixBox(img, x - 1, y);
      SIsColumnSum(img, x, y);
      BoxSplitCols(img, -1, x - 1, x, -1, y);
    }
  }

  /** For ordered corners the four-corner value is the brute-force sum over
      columns x0+1..x1 and rows y0+1..y1: column x0 and row y0 are left out.
      It is 0 when the block has no width or no height. */
  lemma IntegralImage2IsBoxSum(img: Image, b: Block)
    requires Rectangular(img) && InDomain(img, b)
    requires b.x0 <= b.x1 && b.y0 <= b.y1
    ensures IntegralImage2(img, b) == Box(img, b.x0, b.x1, b.y0, b.y1)
    ensures b.x0 == b.x1 || b.y0 == b.y1 ==> IntegralImage2(img, b) == 0
  {
    IIIsPrefixBox(img, b.x1, b.y1);
    IIIsPrefixBox(img, b.x0, b.y1);
    IIIsPrefixBox(img, b.x1, b.y0);
    IIIsPrefixBox(img, b.x0, b.y0);
    BoxSplitCols(img, -1, b.x0, b.x1, -1, b.y1);
    BoxSplitCols(img, -1, b.x0, b.x1, -1, b.y0);
    BoxSplitRows(img, b.x0, b.x1, -1, b.y0, b.y1);
    BoxNoColumns(img, b.x0, b.y0, b.y1);
  }

  /** The four corner helpers combine by inclusion-exclusion into the
      rectangle value, which is the box sum when the corners are ordered. */
  lemma CornersCombine(img: Image, b: Block)
    requires Rectangular(img) && InDomain(img, b)
    ensures IiD(img, b) - IiC(img, b) - IiB(img, b) + IiA(img, b) == IntegralImage2(img, b)
    ensures b.x0 <= b.x1 && b.y0 <= b.y1 ==>
      IiD(img, b) - IiC(img, b) - IiB(img, b) + IiA(img, b) == Box(img, b.x0, b.x1, b.y0, b.y1)
  {
    if b.x0 <= b.x1 && b.y0 <= b.y1 {
      IntegralImage2IsBoxSum(img, b);
    }
  }

  lemma {:induction false} RowSumNonNegative(img: Image, y: int, x0: int, x1: int)
    requires Rectangular(img) && NonNegative(img) && 0 <= y < |img|
    requires -1 <= x0 <= x1 < Cols(img)
    ensures RowSum(img, y, x0, x1) >= 0
    decreases x1 - x0
  {
    if x1 != x0 {
      RowSumNonNegative(img, y, x0, x1 - 1);
    }
  }

  lemma {:induction false} BoxNonNegative(img: Image, x0: int, x1: int, y0: int, y1: int)
    requires Rectangular(img) && NonNegative(img)
    requires -1 <= x0 <= x1 < Cols(img)
    requires -1 <= y0 <= y1 < |img|
    ensures Box(img, x0, x1, y0, y1) >= 0
    decreases y1 - y0
  {
    if y1 != y0 {
      BoxNonNegative(img, x0, x1, y0, y1 - 1);
      RowSumNonNegative(img, y1, x0, x1);
    }
  }

  /** For non-negative pixels ii is non-negative and non-decreasing in x and in y. */
  lemma IIMonotone(img: Image, x: int, y: int, x': int, y': int)
    requires Rectangular(img) && NonNegative(img)
    requires -1 <= x <= x' < Cols(img) && -1 <= y <= y' < |img|
    ensures 0 <= II(img, x, y) <= II(img, x', y')
  {
    IIIsPrefixBox(img, x, y);
    IIIsPrefixBox(img, x', y');
    IIIsPrefixBox(img, x', y);
    BoxNonNegative(img, -1, x, -1, y);
    BoxSplitCols(img, -1, x, x', -1, y);
    BoxNonNegative(img, x, x', -1, y);
    BoxSplitRows(img, -1, x', -1, y, y');
    BoxNonNegative(img, -1, x', y, y');
  }

  // ---------------------------------------------------------------------
  // The 3x3 block grid

  /** The nine blocks for shape (width, height), row by row. */
  function Partition(width: nat, height: nat): (blocks: seq<Block>)
    ensures |blocks| == 9
  {
    var x := width / 3;
    var y := height / 3;
    [Block(0, 0, x - 1, y - 1), Block(x, 0, 2 * x - 1, y - 1), Block(2 * x, 0, 3 * x - 1, y - 1),
     Block(0, y, x - 1, 2 * y - 1), Block(x, y, 2 * x - 1, 2 * y - 1), Block(2 * x, y, 3 * x - 1, 2 * y - 1),
     Block(0, 2 * y, x - 1, 3 * y - 1), Block(x, 2 * y, 2 * x - 1, 3 * y - 1), Block(2 * x, 2 * y, 3 * x - 1, 3 * y - 1)]
  }

  /** partition_image: width is the first entry of the shape (the row count). */
  function PartitionImage(img: Image): (blocks: seq<Block>)
    ensures |blocks| == 9
  {
    Partition(|img|, Cols(img))
  }

  predicate Covers(b: Block, px: int, py: int)
  {
    b.x0 <= px <= b.x1 && b.y0 <= py <= b.y1
  }

  /** Block k sits in grid column k % 3 and grid row k / 3, each block
      spanning width / 3 x-values and height / 3 y-values. */
  lemma PartitionGrid(width: nat, height: nat, k: int)
    requires 0 <= k < 9
    ensures var b := Partition(width, height)[k];
      && b.x0 == (k % 3) * (width / 3) && b.x1 - b.x0 == width / 3 - 1
      && b.y0 == (k / 3) * (height / 3) && b.y1 - b.y0 == height / 3 - 1
  {
    var x, y := width / 3, height / 3;
    if k == 0 {} else if k == 1 {} else if k == 2 {}
    else if k == 3 {} else if k == 4 {} else if k == 5 {}
    else if k == 6 {} else if k == 7 {} else {}
  }

  /** With at least three rows and columns the blocks come in row-major
      order: strictly increasing in (y0, x0). */
  lemma PartitionRowMajor(width: nat, height: nat, k: int, l: int)
    requires width >= 3 && height >= 3
    requires 0 <= k < l < 9
    ensures var bs := Partition(width, height);
      bs[k].y0 < bs[l].y0 || (bs[k].y0 == bs[l].y0 && bs[k].x0 < bs[l].x0)
  {
    PartitionGrid(width, height, k);
    PartitionGrid(width, height, l);
    var x, y := width / 3, height / 3;
    assert x >= 1 && y >= 1;
    if k / 3 < l / 3 {
      assert (k / 3) * y < (l / 3) * y;
    } else {
      assert k % 3 < l % 3;
      assert (k % 3) * x < (l % 3) * x;
    }
  }

  /** No point lies in two different blocks. */
  lemma PartitionDisjoint(width: nat, height: nat, k: int, l: int, px: int, py: int)
    requires 0 <= k < 9 && 0 <= l < 9 && k != l
    requires Covers(Partition(width, height)[k], px, py)
    ensures !Covers(Partition(width, height)[l], px, py)
  {
    PartitionGrid(width, height, k);
    PartitionGrid(width, height, l);
    var x, y := width / 3, height / 3;
    if k % 3 != l % 3 {
      BandsDisjoint(k % 3, l % 3, x, px);
    } else {
      BandsDisjoint(k / 3, l / 3, y, py);
    }
  }

  /** Bands [i*s, (i+1)*s - 1] and [j*s, (j+1)*s - 1] share no point when i != j. */
  lemma BandsDisjoint(i: int, j: int, s: int, p: int)
    requires 0 <= i < 3 && 0 <= j < 3 && i != j && s >= 0
    ensures !(i * s <= p <= i * s + s - 1 && j * s <= p <= j * s + s - 1)
  {
    if i < j {
      assert i * s + s <= j * s by {
        assert (j - i) * s >= s;
      }
    } else {
      assert j * s + s <= i * s by {
        assert (i - j) * s >= s;
      }
    }
  }

  /** A point lies in some block exactly when 0 <= px < 3 * (width / 3) and
      0 <= py < 3 * (height / 3): the last width % 3 x-values and
      height % 3 y-values belong to no block. */
  lemma PartitionCoverage(width: nat, height: nat, px: int, py: int)
    ensures (exists k :: 0 <= k < 9 && Covers(Partition(width, height)[k], px, py))
        <==> (0 <= px < 3 * (width / 3) && 0 <= py < 3 * (height / 3))
  {
    var bs := Partition(width, height);
    var x, y := width / 3, height / 3;
    if 0 <= px < 3 * x && 0 <= py < 3 * y {
      var c := if px < x then 0 else if px < 2 * x then 1 else 2;
      var r := if py < y then 0 else if py < 2 * y then 1 else 2;
      PartitionGrid(width, height, 3 * r + c);
      assert Covers(bs[3 * r + c], px, py);
    } else {
      forall k | 0 <= k < 9
        ensures !Covers(bs[k], px, py)
      {
        PartitionGrid(width, height, k);
        assert 0 <= k % 3 < 3 && 0 <= k / 3 < 3;
        assert (k % 3) * x <= 2 * x && (k / 3) * y <= 2 * y;
      }
    }
  }

  /** With at least three rows and columns every block has ordered corners
      with x in 0..width-1 and y in 0..height-1. */
  lemma PartitionBounds(width: nat, height: nat, k: int)
    requires width >= 3 && height >= 3 && 0 <= k < 9
    ensures var b := Partition(width, height)[k];
      && 0 <= b.x0 <= b.x1 <= width - 1
      && 0 <= b.y0 <= b.y1 <= height - 1
  {
    PartitionGrid(width, height, k);
    var x, y := width / 3, height / 3;
    assert (k % 3) * x <= 2 * x && (k / 3) * y <= 2 * y;
  }

  /** On a non-empty square image every block is a valid argument of integralImage2. */
  lemma PartitionFitsSquareImage(img: Image, k: int)
    requires Rectangular(img) && |img| == Cols(img) && |img| > 0 && 0 <= k < 9
    ensures InDomain(img, PartitionImage(img)[k])
  {
    var n := |img|;
    PartitionGrid(n, n, k);
    var x := n / 3;
    assert (k % 3) * x <= 2 * x && (k / 3) * x <= 2 * x;
  }
}
