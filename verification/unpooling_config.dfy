/**
  Serialisation of the unpooling layer's configuration (`get_config`) and
  reconstruction from it (`cls(**config)`, which the framework's base layer
  performs).

  As written, `get_config` looks up the base class with
  `super(_Unpooling2D, self)`, a name that the module never defines, so every
  call raises `NameError`. `GetConfigAsWritten` models that; `GetConfig` is the
  evidently intended method, with `super(_UnpoolingIndex2D, self)`, and the
  round trip is proved about it.
 */
module UnpoolingConfig {
  import opened Unpooling

  /**
    A value in a serialised configuration. `OtherValue` stands for whatever
    the base layer puts there (name, trainable, dtype, ...), which is not
    modelled; `NoneValue` is Python's `None`.
   */
  datatype ConfigValue =
    | PairValue(pair: (int, int))
    | PaddingValue(padding: Padding)
    | FormatValue(format: DataFormat)
    | NoneValue
    | OtherValue

  /** The keys the unpooling layer itself contributes. */
  const OwnKeys: set<string> := {"pool_size", "padding", "strides", "data_format"}

  /** The dictionary built on the first line of `get_config`. */
  function OwnEntries(c: Config): (m: map<string, ConfigValue>)
    ensures m.Keys == OwnKeys
    ensures m["pool_size"] == PairValue(c.poolSize) && m["strides"] == PairValue(c.strides)
    ensures m["padding"] == PaddingValue(c.padding) && m["data_format"] == FormatValue(c.dataFormat)
  {
    map["pool_size" := PairValue(c.poolSize),
        "padding" := PaddingValue(c.padding),
        "strides" := PairValue(c.strides),
        "data_format" := FormatValue(c.dataFormat)]
  }

  /**
    `get_config` as written: the layer's own entries are built, then the
    lookup of the undefined global `_Unpooling2D` raises before the base
    configuration is fetched.
   */
  function GetConfigAsWritten(c: Config): (r: Result<map<string, ConfigValue>>)
    ensures r.Err? && r.error == NameError("_Unpooling2D")
  {
    // lines 56-59 build the dictionary before line 60's lookup fails
    var config := OwnEntries(c);
    Err(NameError("_Unpooling2D"))
  }

  /**
    No layer can be serialised by the code as written: whatever the base
    layer would contribute, the call never yields the intended dictionary.
   */
  lemma GetConfigAsWrittenAlwaysRaises(c: Config, base: map<string, ConfigValue>)
    ensures GetConfigAsWritten(c).Err? && GetConfigAsWritten(c) != Ok(GetConfig(c, base))
  {
  }

  /**
    `get_config` with the base class named correctly: the base layer's
    configuration merged with the layer's own entries, the latter winning on
    a shared key (`dict(base + own)` keeps the last pair for each key).
   */
  function GetConfig(c: Config, base: map<string, ConfigValue>): (m: map<string, ConfigValue>)
    ensures m.Keys == base.Keys + OwnKeys
    ensures m["pool_size"] == PairValue(c.poolSize) && m["strides"] == PairValue(c.strides)
    ensures m["padding"] == PaddingValue(c.padding) && m["data_format"] == FormatValue(c.dataFormat)
    ensures forall k :: k in base && k !in OwnKeys ==> m[k] == base[k]
  {
    base + OwnEntries(c)
  }

  /**
    Whether keyword argument `key` reaches the constructor as `None`: either
    it is absent (the default is `None`) or it is passed as `None`.
   */
  predicate IsNone(m: map<string, ConfigValue>, key: string)
  {
    key !in m || m[key].NoneValue?
  }

  /**
    `cls(**config)`: each of the four keys is passed as the keyword argument
    of that name. A missing key leaves the constructor's default in place;
    for `strides` and `data_format` that default is `None`, so an explicit
    `None` acts like a missing key. A value of the wrong kind (including
    `None` for `pool_size` or `padding`) is refused (`None` result). Every
    other key is forwarded through `**kwargs` to the base layer's constructor,
    which refuses a keyword outside the set it understands, `baseKeys`; the
    keys it accepts do not affect the unpooling configuration.
   */
  function FromConfig(m: map<string, ConfigValue>, baseKeys: set<string>, imageDataFormat: DataFormat): (r: Option<Config>)
    ensures r.Some? <==>
      && (forall k :: k in m && k !in OwnKeys ==> k in baseKeys)
      && ("pool_size" in m ==> m["pool_size"].PairValue?)
      && (!IsNone(m, "strides") ==> m["strides"].PairValue?)
      && ("padding" in m ==> m["padding"].PaddingValue?)
      && (!IsNone(m, "data_format") ==> m["data_format"].FormatValue?)
    ensures r.Some? && "pool_size" !in m ==> r.value.poolSize == DefaultPoolSize
    ensures r.Some? && "pool_size" in m ==> m["pool_size"] == PairValue(r.value.poolSize)
    ensures r.Some? && !IsNone(m, "strides") ==> m["strides"] == PairValue(r.value.strides)
    ensures r.Some? && IsNone(m, "strides") ==> r.value.strides == r.value.poolSize
    ensures r.Some? && "padding" in m ==> m["padding"] == PaddingValue(r.value.padding)
    ensures r.Some? && "padding" !in m ==> r.value.padding == DefaultPadding
    ensures r.Some? && !IsNone(m, "data_format") ==> m["data_format"] == FormatValue(r.value.dataFormat)
    ensures r.Some? && IsNone(m, "data_format") ==> r.value.dataFormat == imageDataFormat
  {
    var poolSize := if "pool_size" !in m then Some(DefaultPoolSize)
      else if m["pool_size"].PairValue? then Some(m["pool_size"].pair) else None;
    var strides := if IsNone(m, "strides") then Some(None)
      else if m["strides"].PairValue? then Some(Some(m["strides"].pair)) else None;
    var padding := if "padding" !in m then Some(DefaultPadding)
      else if m["padding"].PaddingValue? then Some(m["padding"].padding) else None;
    var format := if IsNone(m, "data_format") then Some(None)
      else if m["data_format"].FormatValue? then Some(Some(m["data_format"].format)) else None;
    if exists k :: k in m && k !in OwnKeys && k !in baseKeys then None
    else if poolSize.None? || strides.None? || padding.None? || format.None? then None
    else Some(NewUnpooling(poolSize.value, strides.value, padding.value, format.value, imageDataFormat))
  }

  /**
    Reconstructing a layer from its serialised configuration gives back the
    same configuration, whatever the base layer adds (as long as its own
    constructor accepts those keys back) and whatever the default layout is at
    reconstruction time, and so the same shape inference.
   */
  lemma ConfigRoundTrip(c: Config, base: map<string, ConfigValue>, baseKeys: set<string>, imageDataFormat: DataFormat, inputShapes: seq<Shape>)
    requires base.Keys <= baseKeys
    ensures FromConfig(GetConfig(c, base), baseKeys, imageDataFormat) == Some(c)
    ensures ComputeOutputShape(FromConfig(GetConfig(c, base), baseKeys, imageDataFormat).value, inputShapes)
         == ComputeOutputShape(c, inputShapes)
  {
  }
}
