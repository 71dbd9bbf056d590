/**
  Properties of the unpooling layer's configuration and shape inference:
  the output shape per layout, when and how inference fails, which inputs
  and configuration fields it ignores, and how it relates to the pooling
  step whose argmax indices the layer consumes.
 */
module UnpoolingProperties {
  import opened Unpooling

  /** Channels-last `(b, h, w, c)` becomes `(b, h * pool_size[0], w * pool_size[1], c)`. */
  lemma ChannelsLastOutputShape(c: Config, b: Dim, h: int, w: int, ch: Dim, rest: Shape, others: seq<Shape>)
    requires c.dataFormat == ChannelsLast
    ensures ComputeOutputShape(c, [[b, Known(h), Known(w), ch] + rest] + others)
         == Ok([b, Known(h * c.poolSize.0), Known(w * c.poolSize.1), ch])
  {
  }

  /** Channels-first `(b, c, h, w)` becomes `(b, c, h * pool_size[0], w * pool_size[1])`. */
  lemma ChannelsFirstOutputShape(c: Config, b: Dim, ch: Dim, h: int, w: int, rest: Shape, others: seq<Shape>)
    requires c.dataFormat == ChannelsFirst
    ensures ComputeOutputShape(c, [[b, ch, Known(h), Known(w)] + rest] + others)
         == Ok([b, ch, Known(h * c.poolSize.0), Known(w * c.poolSize.1)])
  {
  }

  /**
    Shape inference succeeds exactly when there is a first shape, it has at
    least four entries, and its two spatial entries are ints.
   */
  lemma OutputShapeSucceedsIff(c: Config, inputShapes: seq<Shape>)
    ensures ComputeOutputShape(c, inputShapes).Ok? <==>
      && |inputShapes| > 0
      && |inputShapes[0]| >= 4
      && inputShapes[0][RowsAxis(c.dataFormat)].Known?
      && inputShapes[0][RowsAxis(c.dataFormat) + 1].Known?
  {
  }

  /**
    When inference fails, a `TypeError` is raised exactly when both spatial
    entries could be read and one of them is `None`; every other failure is
    an `IndexError`. For channels-last a 3-entry shape with a `None` spatial
    entry therefore raises `TypeError` before the channel entry is looked up.
   */
  lemma OutputShapeErrorKind(c: Config, inputShapes: seq<Shape>)
    requires ComputeOutputShape(c, inputShapes).Err?
    ensures ComputeOutputShape(c, inputShapes).error == IndexError
         || ComputeOutputShape(c, inputShapes).error == TypeError
    ensures ComputeOutputShape(c, inputShapes).error == TypeError <==>
      && |inputShapes| > 0
      && |inputShapes[0]| > RowsAxis(c.dataFormat) + 1
      && (inputShapes[0][RowsAxis(c.dataFormat)].Unknown? || inputShapes[0][RowsAxis(c.dataFormat) + 1].Unknown?)
  {
  }

  /** Only the first shape is read: the indices tensor's shape has no influence. */
  lemma IndicesShapeIgnored(c: Config, values: Shape, indices1: seq<Shape>, indices2: seq<Shape>)
    ensures ComputeOutputShape(c, [values] + indices1) == ComputeOutputShape(c, [values] + indices2)
  {
  }

  /** `strides` and `padding` do not enter the shape formula. */
  lemma StridesAndPaddingIgnored(c1: Config, c2: Config, inputShapes: seq<Shape>)
    requires c1.poolSize == c2.poolSize && c1.dataFormat == c2.dataFormat
    ensures ComputeOutputShape(c1, inputShapes) == ComputeOutputShape(c2, inputShapes)
  {
  }

  /** With `pool_size == (1, 1)` a rank-4 shape with known spatial entries comes back unchanged. */
  lemma UnitPoolIsIdentity(c: Config, s: Shape, others: seq<Shape>)
    requires c.poolSize == (1, 1)
    requires |s| == 4 && s[RowsAxis(c.dataFormat)].Known? && s[RowsAxis(c.dataFormat) + 1].Known?
    ensures ComputeOutputShape(c, [s] + others) == Ok(s)
  {
    var i := RowsAxis(c.dataFormat);
    assert s[i].n * 1 == s[i].n && s[i + 1].n * 1 == s[i + 1].n;
    assert ([s] + others)[0] == s;
    match c.dataFormat
    case ChannelsFirst => assert [s[0], s[1], s[2], s[3]] == s;
    case ChannelsLast => assert [s[0], s[1], s[2], s[3]] == s;
  }

  /** Omitting `strides` is the same as passing `pool_size` for it. */
  lemma OmittedStridesArePoolSize(poolSize: (int, int), padding: Padding, dataFormat: Option<DataFormat>, imageDataFormat: DataFormat)
    ensures NewUnpooling(poolSize, None, padding, dataFormat, imageDataFormat)
         == NewUnpooling(poolSize, Some(poolSize), padding, dataFormat, imageDataFormat)
  {
  }

  /** A layer built with every argument left at its default. */
  lemma DefaultConfiguration(imageDataFormat: DataFormat)
    ensures NewUnpooling(DefaultPoolSize, None, DefaultPadding, None, imageDataFormat)
         == Config((2, 2), (2, 2), Valid, imageDataFormat)
  {
  }

  /**
    The number of elements of a tensor of shape `s`, or `None` when some
    entry is unknown.
   */
  function ElementCount(s: Shape): (r: Option<int>)
    ensures r.Some? <==> forall i :: 0 <= i < |s| ==> s[i].Known?
  {
    if |s| == 0 then Some(1)
    else
      var tail := ElementCount(s[1..]);
      match s[0]
      case Unknown => None
      case Known(n) => if tail.None? then None else Some(n * tail.value)
  }

  /** The element count of a fully known 4-tuple is the product of its entries. */
  lemma {:induction false} ElementCountOfFour(a: int, b: int, c: int, d: int)
    ensures ElementCount([Known(a), Known(b), Known(c), Known(d)]) == Some(a * b * c * d)
  {
    var s := [Known(a), Known(b), Known(c), Known(d)];
    assert [Known(d)][1..] == [];
    assert ElementCount([Known(d)]) == Some(d * 1);
    assert [Known(c), Known(d)][1..] == [Known(d)];
    assert ElementCount([Known(c), Known(d)]) == Some(c * d);
    assert [Known(b), Known(c), Known(d)][1..] == [Known(c), Known(d)];
    assert ElementCount([Known(b), Known(c), Known(d)]) == Some(b * (c * d));
    assert s[1..] == [Known(b), Known(c), Known(d)];
    assert ElementCount(s) == Some(a * (b * (c * d)));
    assert a * (b * (c * d)) == a * b * c * d;
  }

  /**
    Every value is scattered into a `pool_size[0]` by `pool_size[1]` window,
    so a fully known rank-4 input gives an output with that many times as
    many elements.
   */
  lemma {:induction false} OutputElementCount(c: Config, s: Shape, others: seq<Shape>)
    requires |s| == 4 && ElementCount(s).Some?
    ensures ComputeOutputShape(c, [s] + others).Ok?
    ensures ElementCount(ComputeOutputShape(c, [s] + others).value)
         == Some(ElementCount(s).value * c.poolSize.0 * c.poolSize.1)
  {
    var (p, q) := c.poolSize;
    assert s[0].Known? && s[1].Known? && s[2].Known? && s[3].Known?;
    var (a, b, x, y) := (s[0].n, s[1].n, s[2].n, s[3].n);
    assert s == [Known(a), Known(b), Known(x), Known(y)];
    ElementCountOfFour(a, b, x, y);
    match c.dataFormat
    case ChannelsFirst =>
      ElementCountOfFour(a, b, x * p, y * q);
      assert a * b * (x * p) * (y * q) == a * b * x * y * p * q;
    case ChannelsLast =>
      ElementCountOfFour(a, b * p, x * q, y);
      assert a * (b * p) * (x * q) * y == a * b * x * y * p * q;
  }

  /**
    Stacking two unpooling layers of the same layout scales like one layer
    whose pool size is the componentwise product.
   */
  lemma UnpoolTwice(c1: Config, c2: Config, s: Shape)
    requires c1.dataFormat == c2.dataFormat
    requires ComputeOutputShape(c1, [s]).Ok?
    ensures ComputeOutputShape(c2, [ComputeOutputShape(c1, [s]).value])
         == ComputeOutputShape(c1.(poolSize := (c1.poolSize.0 * c2.poolSize.0, c1.poolSize.1 * c2.poolSize.1)), [s])
  {
    var (p1, q1) := c1.poolSize;
    var (p2, q2) := c2.poolSize;
    var i := RowsAxis(c1.dataFormat);
    var h, w := s[i].n, s[i + 1].n;
    assert h * p1 * p2 == h * (p1 * p2);
    assert w * q1 * q2 == w * (q1 * q2);
  }

  /**
    The length a pooling window of size `pool` moved by `stride` produces
    over `n` positions without padding: the number of window positions that
    fit, floor((n - pool) / stride) + 1.
   */
  function PooledLength(n: int, pool: int, stride: int): (r: int)
    requires stride > 0
    ensures n >= pool ==> r >= 1 && (r - 1) * stride + pool <= n < r * stride + pool
  {
    (n - pool + stride) / stride
  }

  /**
    The shape that a pooling step without padding, with the layer's pool size
    and strides, produces from a rank-4 shape with known spatial entries.
   */
  function PooledShape(c: Config, s: Shape): (r: Shape)
    requires c.strides.0 > 0 && c.strides.1 > 0
    requires |s| == 4 && s[RowsAxis(c.dataFormat)].Known? && s[RowsAxis(c.dataFormat) + 1].Known?
    ensures |r| == 4
  {
    var i := RowsAxis(c.dataFormat);
    s[i := Known(PooledLength(s[i].n, c.poolSize.0, c.strides.0))]
     [i + 1 := Known(PooledLength(s[i + 1].n, c.poolSize.1, c.strides.1))]
  }

  /** The only multiple of `p` in `[0, p)` is 0. */
  lemma OnlyZeroFitsBelow(k: int, p: int, r: int)
    requires p > 0 && 0 <= r < p && k * p == r
    ensures k == 0
  {
  }

  lemma {:induction false} PooledLengthOfScaled(n: int, p: int)
    requires p > 0
    ensures PooledLength(n * p, p, p) == n
  {
    var q, r := (n * p) / p, (n * p) % p;
    assert n * p == q * p + r && 0 <= r < p;
    OnlyZeroFitsBelow(n - q, p, r);
  }

  /**
    Unpooling inverts the shape change of the pooling it undoes: for a layer
    built without `strides` (so strides equal the pool size) and with valid
    padding, pooling the inferred output shape gives back the input shape.
   */
  lemma {:induction false} PoolingUndoesUnpooling(
    poolSize: (int, int), dataFormat: Option<DataFormat>, imageDataFormat: DataFormat, s: Shape)
    requires poolSize.0 > 0 && poolSize.1 > 0
    requires |s| == 4
    requires var c := NewUnpooling(poolSize, None, Valid, dataFormat, imageDataFormat);
      && s[RowsAxis(c.dataFormat)].Known? && s[RowsAxis(c.dataFormat) + 1].Known?
    ensures var c := NewUnpooling(poolSize, None, Valid, dataFormat, imageDataFormat);
      && ComputeOutputShape(c, [s]).Ok?
      && PooledShape(c, ComputeOutputShape(c, [s]).value) == s
  {
    var c := NewUnpooling(poolSize, None, Valid, dataFormat, imageDataFormat);
    var i := RowsAxis(c.dataFormat);
    PooledLengthOfScaled(s[i].n, poolSize.0);
    PooledLengthOfScaled(s[i + 1].n, poolSize.1);
  }
}
