/**
  The configuration and the shape-inference rule of the 2D index-unpooling
  layer (`_UnpoolingIndex2D` and its concrete subclass `UnpoolingIndex2D`).

  Python values are modelled as follows:
  - a shape entry is a Python int or `None` (a dimension not known yet): `Dim`;
  - a shape tuple is a sequence of entries; `compute_output_shape` receives a
    list of shapes, one per input tensor (values first, indices second);
  - the exceptions the code can raise while evaluating are values of `PyError`,
    produced in the order the Python statements are evaluated.
 */
module Unpooling {

  /** The two layouts `conv_utils.normalize_data_format` can return. */
  datatype DataFormat = ChannelsFirst | ChannelsLast

  /**
    The paddings `conv_utils.normalize_padding` accepts: `full` only when the
    backend is Theano. The layer stores the value and never reads it again.
   */
  datatype Padding = Valid | Same | Causal | Full

  /** One entry of a shape tuple: a Python int, or `None` when unknown. */
  datatype Dim = Known(n: int) | Unknown

  type Shape = seq<Dim>

  /** The Python exceptions the modelled code raises. */
  datatype PyError =
    | IndexError           // a tuple or list read past its end
    | TypeError            // `None *= int`
    | NameError(name: string)  // a global name that is not defined

  datatype Result<T> = Ok(value: T) | Err(error: PyError)

  datatype Option<T> = None | Some(value: T)

  /**
    What an `_UnpoolingIndex2D` layer stores when it is constructed. Nothing
    assigns these fields again afterwards, so the configuration is a value.
   */
  datatype Config = Config(
    poolSize: (int, int),
    strides: (int, int),
    padding: Padding,
    dataFormat: DataFormat)

  /** The defaults of the constructor's keyword arguments. */
  const DefaultPoolSize: (int, int) := (2, 2)
  const DefaultPadding: Padding := Valid

  /**
    `_UnpoolingIndex2D.__init__` (and `UnpoolingIndex2D.__init__`, which only
    forwards its arguments). `None` for `strides` or `dataFormat` means the
    argument was omitted; `imageDataFormat` is the framework-wide default
    layout that `normalize_data_format` substitutes for an omitted one.
   */
  function NewUnpooling(
    poolSize: (int, int),
    strides: Option<(int, int)>,
    padding: Padding,
    dataFormat: Option<DataFormat>,
    imageDataFormat: DataFormat): (c: Config)
    ensures c.poolSize == poolSize && c.padding == padding
    ensures strides.None? ==> c.strides == c.poolSize
    ensures strides.Some? ==> c.strides == strides.value
    ensures dataFormat.None? ==> c.dataFormat == imageDataFormat
    ensures dataFormat.Some? ==> c.dataFormat == dataFormat.value
  {
    var format := match dataFormat
      case None => imageDataFormat
      case Some(f) => f;
    var s := match strides
      case None => poolSize
      case Some(st) => st;
    Config(poolSize, s, padding, format)
  }

  /** `d *= k` on one shape entry: an int is multiplied, `None` raises. */
  function Scale(d: Dim, k: int): (r: Result<Dim>)
    ensures r.Ok? <==> d.Known?
    ensures d.Known? ==> r == Ok(Known(d.n * k))
    ensures d.Unknown? ==> r == Err(TypeError)
  {
    match d
    case Known(n) => Ok(Known(n * k))
    case Unknown => Err(TypeError)
  }

  /** The position of the rows entry in a shape of the given layout; cols follow it. */
  function RowsAxis(f: DataFormat): nat
  {
    match f
    case ChannelsFirst => 2
    case ChannelsLast => 1
  }

  /** The position of the channel entry in a rank-4 shape of the given layout. */
  function ChannelAxis(f: DataFormat): nat
  {
    match f
    case ChannelsFirst => 1
    case ChannelsLast => 3
  }

  /**
    `_UnpoolingIndex2D.compute_output_shape`. Only the first shape of the
    list (that of the values tensor) is read: its rows and cols entries are
    multiplied by the pool size, and the result is put back together as a
    4-tuple with the batch and channel entries where the layout keeps them.
   */
  function ComputeOutputShape(c: Config, inputShapes: seq<Shape>): (r: Result<Shape>)
    ensures r.Ok? ==> |inputShapes| > 0 && |inputShapes[0]| >= 4 && |r.value| == 4
    ensures r.Ok? ==> r.value[0] == inputShapes[0][0]
    ensures r.Ok? ==> r.value[ChannelAxis(c.dataFormat)] == inputShapes[0][ChannelAxis(c.dataFormat)]
  {
    if |inputShapes| == 0 then Err(IndexError)
    else
      var s := inputShapes[0];
      match c.dataFormat
      case ChannelsFirst =>
        // rows = s[2]; cols = s[3]
        if |s| < 4 then Err(IndexError)
        else
          var rows := Scale(s[2], c.poolSize.0);
          var cols := Scale(s[3], c.poolSize.1);
          if rows.Err? then Err(rows.error)
          else if cols.Err? then Err(cols.error)
          else Ok([s[0], s[1], rows.value, cols.value])
      case ChannelsLast =>
        // rows = s[1]; cols = s[2]; the channel entry s[3] is read only on return
        if |s| < 3 then Err(IndexError)
        else
          var rows := Scale(s[1], c.poolSize.0);
          var cols := Scale(s[2], c.poolSize.1);
          if rows.Err? then Err(rows.error)
          else if cols.Err? then Err(cols.error)
          else if |s| < 4 then Err(IndexError)
          else Ok([s[0], rows.value, cols.value, s[3]])
  }
}
