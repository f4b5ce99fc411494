/**
 * The two array operations the wrapper borrows from NumPy, on rank-3 integer
 * arrays: the cast `astype(np.uint8)` and `np.dstack`, which concatenates
 * arrays along the third (channel) axis.
 */
module NdImage {
  import opened Wrappers

  /** A rank-3 array of extent (width, height, depth), read as px[i][j][k]. */
  datatype Array3 = Array3(width: nat, height: nat, depth: nat, px: seq<seq<seq<int>>>)

  /** A NumPy array is always rectangular: every row and every pixel has the declared extent. */
  predicate Rectangular(a: Array3)
  {
    && |a.px| == a.width
    && (forall i :: 0 <= i < a.width ==> |a.px[i]| == a.height)
    && (forall i, j :: 0 <= i < a.width && 0 <= j < a.height ==> |a.px[i][j]| == a.depth)
  }

  type Image = a: Array3 | Rectangular(a) witness Array3(0, 0, 0, [])

  /** Why `np.dstack` refuses its arguments: the first two extents differ. */
  datatype StackError = ExtentMismatch

  /** Value of an integer after NumPy's conversion to uint8: it keeps the low eight bits. */
  function ToUint8(v: int): (b: int)
    ensures 0 <= b <= 255
    ensures 0 <= v <= 255 ==> b == v
    ensures (v - b) % 256 == 0
  {
    v % 256
  }

  /** Every element of the array lies in the range of uint8. */
  predicate InByteRange(a: Image)
  {
    forall i, j, k :: 0 <= i < a.width && 0 <= j < a.height && 0 <= k < a.depth ==> 0 <= a.px[i][j][k] <= 255
  }

  /** `a.astype(np.uint8)`: same extent, every element cast. */
  function AsUint8(a: Image): (r: Image)
    ensures r.width == a.width && r.height == a.height && r.depth == a.depth
    ensures forall i, j, k :: 0 <= i < a.width && 0 <= j < a.height && 0 <= k < a.depth ==>
              r.px[i][j][k] == ToUint8(a.px[i][j][k])
  {
    Array3(a.width, a.height, a.depth,
      seq(a.width, i requires 0 <= i < a.width =>
        seq(a.height, j requires 0 <= j < a.height =>
          seq(a.depth, k requires 0 <= k < a.depth => ToUint8(a.px[i][j][k])))))
  }

  /** The cast always yields uint8 values. */
  lemma AsUint8InRange(a: Image)
    ensures InByteRange(AsUint8(a))
  {
  }

  /** Casting an array whose values already fit in uint8 leaves it unchanged. */
  lemma AsUint8KeepsBytes(a: Image)
    requires InByteRange(a)
    ensures AsUint8(a) == a
  {
    var r := AsUint8(a);
    forall i | 0 <= i < a.width
      ensures r.px[i] == a.px[i]
    {
      forall j | 0 <= j < a.height
        ensures r.px[i][j] == a.px[i][j]
      {
      }
    }
  }

  function Last(images: seq<Image>): Image
    requires |images| > 0
  {
    images[|images| - 1]
  }

  /** Total channel depth of a list of arrays. */
  function Depth(images: seq<Image>): nat
  {
    if images == [] then 0 else Depth(images[..|images| - 1]) + Last(images).depth
  }

  /** Every array of the list is at least (i + 1) wide and (j + 1) high. */
  predicate Covers(images: seq<Image>, i: nat, j: nat)
  {
    forall n :: 0 <= n < |images| ==> i < images[n].width && j < images[n].height
  }

  /** The channels of pixel (i, j) of every array, in list order. */
  function Channels(images: seq<Image>, i: nat, j: nat): (c: seq<int>)
    requires Covers(images, i, j)
    ensures |c| == Depth(images)
    decreases |images|
  {
    if images == [] then [] else Channels(images[..|images| - 1], i, j) + Last(images).px[i][j]
  }

  /** All arrays share the first array's width and height, as `np.dstack` demands. */
  predicate SameExtent(images: seq<Image>)
    requires |images| > 0
  {
    forall n :: 0 <= n < |images| ==> images[n].width == images[0].width && images[n].height == images[0].height
  }

  /**
   * `np.dstack(images)`: the arrays joined along the channel axis, in list
   * order; an error when their first two extents differ. NumPy also refuses an
   * empty list, which the wrapper never passes.
   */
  function DStack(images: seq<Image>): (r: Result<Image, StackError>)
    requires |images| > 0
    ensures r.Ok? <==> SameExtent(images)
    ensures r.Ok? ==> r.value.width == images[0].width && r.value.height == images[0].height
    ensures r.Ok? ==> r.value.depth == Depth(images)
  {
    if !SameExtent(images) then Err(ExtentMismatch)
    else
      var w, h := images[0].width, images[0].height;
      Ok(Array3(w, h, Depth(images),
        seq(w, i requires 0 <= i < w =>
          seq(h, j requires 0 <= j < h => Channels(images, i, j)))))
  }

  /** Frame n occupies channels [Depth(images[..n]), Depth(images[..n + 1])) of every pixel. */
  lemma {:induction false} ChannelsSlice(images: seq<Image>, i: nat, j: nat, n: nat)
    requires Covers(images, i, j)
    requires n < |images|
    ensures Depth(images[..n]) + images[n].depth <= Depth(images)
    ensures Channels(images, i, j)[Depth(images[..n]) .. Depth(images[..n]) + images[n].depth] == images[n].px[i][j]
  {
    var m := |images| - 1;
    var front := images[..m];
    assert Covers(front, i, j);
    if n == m {
      assert images[..n] == front;
    } else {
      assert front[..n] == images[..n];
      assert front[n] == images[n];
      ChannelsSlice(front, i, j, n);
    }
  }

  /** A list of three-channel arrays has depth three times its length. */
  lemma {:induction false} DepthOfRgb(images: seq<Image>)
    requires forall n :: 0 <= n < |images| ==> images[n].depth == 3
    ensures Depth(images) == 3 * |images|
  {
    if images != [] {
      DepthOfRgb(images[..|images| - 1]);
    }
  }

  /**
   * Stacking three-channel arrays: the result has 3·|images| channels and
   * channels [3n, 3n + 3) of every pixel are those of array n.
   */
  lemma DStackRgbSlices(images: seq<Image>)
    requires |images| > 0 && SameExtent(images)
    requires forall n :: 0 <= n < |images| ==> images[n].depth == 3
    ensures DStack(images).value.depth == 3 * |images|
    ensures forall n, i, j :: 0 <= n < |images| && 0 <= i < images[0].width && 0 <= j < images[0].height ==>
              DStack(images).value.px[i][j][3 * n .. 3 * n + 3] == images[n].px[i][j]
  {
    DepthOfRgb(images);
    var r := DStack(images).value;
    forall n, i, j | 0 <= n < |images| && 0 <= i < images[0].width && 0 <= j < images[0].height
      ensures r.px[i][j][3 * n .. 3 * n + 3] == images[n].px[i][j]
    {
      DepthOfRgb(images[..n]);
      ChannelsSlice(images, i, j, n);
    }
  }

  /** Stacking arrays of uint8 values yields uint8 values. */
  lemma {:induction false} ChannelsInRange(images: seq<Image>, i: nat, j: nat)
    requires Covers(images, i, j)
    requires forall n :: 0 <= n < |images| ==> InByteRange(images[n])
    ensures forall k :: 0 <= k < |Channels(images, i, j)| ==> 0 <= Channels(images, i, j)[k] <= 255
  {
    if images != [] {
      var front := images[..|images| - 1];
      assert Covers(front, i, j);
      ChannelsInRange(front, i, j);
      var last := Last(images);
      assert InByteRange(last);
      assert forall k :: 0 <= k < last.depth ==> 0 <= last.px[i][j][k] <= 255;
    }
  }

  lemma DStackInRange(images: seq<Image>)
    requires |images| > 0 && SameExtent(images)
    requires forall n :: 0 <= n < |images| ==> InByteRange(images[n])
    ensures InByteRange(DStack(images).value)
  {
    var r := DStack(images).value;
    forall i, j | 0 <= i < r.width && 0 <= j < r.height
      ensures forall k :: 0 <= k < r.depth ==> 0 <= r.px[i][j][k] <= 255
    {
      ChannelsInRange(images, i, j);
    }
  }

  /** Stacking a single array gives that array back. */
  lemma DStackSingle(a: Image)
    ensures DStack([a]) == Ok(a)
  {
    var r := DStack([a]).value;
    assert [a][..0] == [];
    assert Depth([a]) == a.depth;
    forall i | 0 <= i < a.width
      ensures r.px[i] == a.px[i]
    {
      forall j | 0 <= j < a.height
        ensures r.px[i][j] == a.px[i][j]
      {
        assert Channels([a], i, j) == Channels([], i, j) + a.px[i][j];
      }
    }
    assert r.px == a.px;
  }
}
