// VECTOR schema fields: the FLAT, HNSW and SVS-VAMANA index algorithms, their optional
// attributes, the builders that set them (with the clamping the VAMANA builder applies) and
// the serialiser. A vector field writes
//   `[AS alias] VECTOR <algorithm> <count> TYPE t DIM d DISTANCE_METRIC m <attributes> [INDEXMISSING]`
// where `count` is the number of tokens between it and the optional INDEXMISSING.
module FtCreateVectors {
  import opened Wrappers
  import opened RedisArgs
  import opened ArgLayout
  import opened FtCreateTypes
  import opened FtCreateFields

  // ---------------------------------------------------------------- enumerations

  datatype VectorAlgorithm = Flat | Hnsw | Vamana

  function AlgorithmToken(a: VectorAlgorithm): string
  {
    match a
    case Flat => "FLAT"
    case Hnsw => "HNSW"
    case Vamana => "SVS-VAMANA"
  }

  function ParseAlgorithm(s: string): Option<VectorAlgorithm>
  {
    if s == "FLAT" then Some(VectorAlgorithm.Flat)
    else if s == "HNSW" then Some(VectorAlgorithm.Hnsw)
    else if s == "SVS-VAMANA" then Some(VectorAlgorithm.Vamana)
    else None
  }

  lemma AlgorithmRoundTrip(a: VectorAlgorithm)
    ensures ParseAlgorithm(AlgorithmToken(a)) == Some(a)
  {
  }

  datatype VectorType = Float32 | Float64 | BFloat16 | Float16 | Int8 | UInt8

  function VectorTypeToken(t: VectorType): string
  {
    match t
    case Float32 => "FLOAT32"
    case Float64 => "FLOAT64"
    case BFloat16 => "BFLOAT16"
    case Float16 => "FLOAT16"
    case Int8 => "INT8"
    case UInt8 => "UINT8"
  }

  function ParseVectorType(s: string): Option<VectorType>
  {
    if s == "FLOAT32" then Some(VectorType.Float32)
    else if s == "FLOAT64" then Some(Float64)
    else if s == "BFLOAT16" then Some(BFloat16)
    else if s == "FLOAT16" then Some(VectorType.Float16)
    else if s == "INT8" then Some(Int8)
    else if s == "UINT8" then Some(UInt8)
    else None
  }

  lemma VectorTypeRoundTrip(t: VectorType)
    ensures ParseVectorType(VectorTypeToken(t)) == Some(t)
  {
  }

  /** The element types the SVS-VAMANA algorithm accepts. */
  datatype VamanaVectorType = Float16 | Float32

  /** `From<VamanaVectorType> for VectorType`. */
  function VamanaToVectorType(t: VamanaVectorType): (r: VectorType)
    ensures r.Float16? <==> t.Float16?
    ensures r.Float32? <==> t.Float32?
  {
    match t
    case Float16 => VectorType.Float16
    case Float32 => VectorType.Float32
  }

  datatype DistanceMetric = L2 | IP | Cosine

  function MetricToken(m: DistanceMetric): string
  {
    match m
    case L2 => "L2"
    case IP => "IP"
    case Cosine => "COSINE"
  }

  function ParseMetric(s: string): Option<DistanceMetric>
  {
    if s == "L2" then Some(L2) else if s == "IP" then Some(IP) else if s == "COSINE" then Some(Cosine) else None
  }

  lemma MetricRoundTrip(m: DistanceMetric)
    ensures ParseMetric(MetricToken(m)) == Some(m)
  {
  }

  datatype CompressionType = LVQ8 | LVQ4 | LVQ4x4 | LVQ4x8 | LeanVec4x8 | LeanVec8x8
  {
    /** The two compressions that reduce dimensionality, and so take REDUCE. */
    predicate IsLeanVec() { LeanVec4x8? || LeanVec8x8? }
  }

  function CompressionToken(c: CompressionType): string
  {
    match c
    case LVQ8 => "LVQ8"
    case LVQ4 => "LVQ4"
    case LVQ4x4 => "LVQ4x4"
    case LVQ4x8 => "LVQ4x8"
    case LeanVec4x8 => "LeanVec4x8"
    case LeanVec8x8 => "LeanVec8x8"
  }

  function ParseCompression(s: string): Option<CompressionType>
  {
    if s == "LVQ8" then Some(LVQ8)
    else if s == "LVQ4" then Some(LVQ4)
    else if s == "LVQ4x4" then Some(LVQ4x4)
    else if s == "LVQ4x8" then Some(LVQ4x8)
    else if s == "LeanVec4x8" then Some(LeanVec4x8)
    else if s == "LeanVec8x8" then Some(LeanVec8x8)
    else None
  }

  lemma CompressionRoundTrip(c: CompressionType)
    ensures ParseCompression(CompressionToken(c)) == Some(c)
  {
  }

  // ---------------------------------------------------------------- the shared vector attributes

  datatype SchemaVectorField = SchemaVectorField(
    base: BaseSchemaField,
    algorithm: VectorAlgorithm,
    vectorType: VectorType,
    dim: u32,
    distanceMetric: DistanceMetric)

  /** `[AS alias] VECTOR <algorithm> <count>`: the algorithm and the count ride on the type keyword. */
  function VectorTypeLayout(t: FieldType): seq<Slot>
  {
    [Slot("AS", Fixed(1)), Slot(FieldTypeToken(t), Fixed(2))]
  }

  function VectorTypeClauses(s: SchemaVectorField, count: nat): seq<Clause>
  {
    [ValueClause(s.base.alias, Verbatim), Present([AlgorithmToken(s.algorithm), NatToString(count)])]
  }

  /** `TYPE t DIM d DISTANCE_METRIC m`, which every vector field writes. */
  const AttributeLayout: seq<Slot> := [Slot("TYPE", Fixed(1)), Slot("DIM", Fixed(1)), Slot("DISTANCE_METRIC", Fixed(1))]

  function AttributeClauses(s: SchemaVectorField): seq<Clause>
  {
    [Present([VectorTypeToken(s.vectorType)]), Present([U32Token(s.dim)]), Present([MetricToken(s.distanceMetric)])]
  }

  /** The three attribute pairs, in the order `VectorField::write_redis_args` writes them. */
  function AttributeArgs(s: SchemaVectorField): seq<string>
  {
    ["TYPE", VectorTypeToken(s.vectorType), "DIM", U32Token(s.dim), "DISTANCE_METRIC", MetricToken(s.distanceMetric)]
  }

  /** The attribute pairs are their layout filled with their clauses. */
  lemma AttributeArgsAsLayout(s: SchemaVectorField)
    ensures AttributeArgs(s) == Emit(AttributeLayout, AttributeClauses(s))
  {
    var cs := AttributeClauses(s);
    Emit3(AttributeLayout[0], AttributeLayout[1], AttributeLayout[2], cs[0], cs[1], cs[2]);
    assert AttributeLayout == [AttributeLayout[0], AttributeLayout[1], AttributeLayout[2]];
    assert cs == [cs[0], cs[1], cs[2]];
  }

  /** `SchemaVectorField::num_of_args`: the three attribute pairs every vector field writes. */
  function SchemaVectorNumOfArgs(s: SchemaVectorField): (n: nat)
    ensures n == |AttributeArgs(s)|
  {
    6
  }

  // ---------------------------------------------------------------- algorithm options

  datatype FlatVectorOptions = FlatVectorOptions(blockSize: Option<u32>)

  const FlatLayout: seq<Slot> := [Slot("BLOCK_SIZE", Fixed(1))]

  function FlatClauses(o: FlatVectorOptions): seq<Clause>
  {
    [ValueClause(o.blockSize, U32Token)]
  }

  datatype HnswVectorOptions = HnswVectorOptions(
    m: Option<u32>,
    efConstruction: Option<u32>,
    efRuntime: Option<u32>,
    epsilon: Option<FloatArg>)

  const HnswLayout: seq<Slot> := [
    Slot("M", Fixed(1)), Slot("EF_CONSTRUCTION", Fixed(1)), Slot("EF_RUNTIME", Fixed(1)), Slot("EPSILON", Fixed(1))]

  function HnswClauses(o: HnswVectorOptions): seq<Clause>
  {
    [ValueClause(o.m, U32Token), ValueClause(o.efConstruction, U32Token), ValueClause(o.efRuntime, U32Token),
     ValueClause(o.epsilon, Verbatim)]
  }

  datatype VamanaVectorOptions = VamanaVectorOptions(
    compression: Option<CompressionType>,
    constructionWindowSize: Option<u32>,
    graphMaxDegree: Option<u32>,
    searchWindowSize: Option<u32>,
    epsilon: Option<FloatArg>,
    trainingThreshold: Option<u32>,
    reduce: Option<u32>)

  const VamanaLayout: seq<Slot> := [
    Slot("COMPRESSION", Fixed(1)), Slot("CONSTRUCTION_WINDOW_SIZE", Fixed(1)), Slot("GRAPH_MAX_DEGREE", Fixed(1)),
    Slot("SEARCH_WINDOW_SIZE", Fixed(1)), Slot("EPSILON", Fixed(1)), Slot("TRAINING_THRESHOLD", Fixed(1)),
    Slot("REDUCE", Fixed(1))]

  function VamanaClauses(o: VamanaVectorOptions): seq<Clause>
  {
    [ValueClause(o.compression, CompressionToken), ValueClause(o.constructionWindowSize, U32Token),
     ValueClause(o.graphMaxDegree, U32Token), ValueClause(o.searchWindowSize, U32Token),
     ValueClause(o.epsilon, Verbatim), ValueClause(o.trainingThreshold, U32Token), ValueClause(o.reduce, U32Token)]
  }

  lemma FlatOptionsFit(o: FlatVectorOptions)
    ensures PairsOnly(FlatLayout) && DistinctKeywords(FlatLayout) && FitsAll(FlatLayout, FlatClauses(o))
  {
  }

  lemma HnswOptionsFit(o: HnswVectorOptions)
    ensures PairsOnly(HnswLayout) && DistinctKeywords(HnswLayout) && FitsAll(HnswLayout, HnswClauses(o))
  {
  }

  lemma VamanaOptionsFit(o: VamanaVectorOptions)
    ensures PairsOnly(VamanaLayout) && DistinctKeywords(VamanaLayout) && FitsAll(VamanaLayout, VamanaClauses(o))
  {
  }

  /** The tokens `FlatVectorOptions::write_redis_args` writes, option by option. */
  function FlatOptionsArgs(o: FlatVectorOptions): seq<string>
  {
    OptionPair("BLOCK_SIZE", o.blockSize, U32Token)
  }

  /** The tokens `HnswVectorOptions::write_redis_args` writes, option by option. */
  function HnswOptionsArgs(o: HnswVectorOptions): seq<string>
  {
    OptionPair("M", o.m, U32Token)
    + (OptionPair("EF_CONSTRUCTION", o.efConstruction, U32Token)
    + (OptionPair("EF_RUNTIME", o.efRuntime, U32Token)
    + OptionPair("EPSILON", o.epsilon, Verbatim)))
  }

  /** The tokens `VamanaVectorOptions::write_redis_args` writes, option by option. */
  function VamanaOptionsArgs(o: VamanaVectorOptions): seq<string>
  {
    OptionPair("COMPRESSION", o.compression, CompressionToken)
    + (OptionPair("CONSTRUCTION_WINDOW_SIZE", o.constructionWindowSize, U32Token)
    + (OptionPair("GRAPH_MAX_DEGREE", o.graphMaxDegree, U32Token)
    + (OptionPair("SEARCH_WINDOW_SIZE", o.searchWindowSize, U32Token)
    + (OptionPair("EPSILON", o.epsilon, Verbatim)
    + (OptionPair("TRAINING_THRESHOLD", o.trainingThreshold, U32Token)
    + OptionPair("REDUCE", o.reduce, U32Token))))))
  }

  /** The flat options are their layout filled with their clauses. */
  lemma FlatOptionsAsLayout(o: FlatVectorOptions)
    ensures FlatOptionsArgs(o) == Emit(FlatLayout, FlatClauses(o))
  {
    Emit1(Slot("BLOCK_SIZE", Fixed(1)), ValueClause(o.blockSize, U32Token));
    OptionPairIsClause("BLOCK_SIZE", o.blockSize, U32Token);
  }

  lemma HnswOptionsAsLayout(o: HnswVectorOptions)
    ensures HnswOptionsArgs(o) == Emit(HnswLayout, HnswClauses(o))
  {
    Emit4(Slot("M", Fixed(1)), Slot("EF_CONSTRUCTION", Fixed(1)), Slot("EF_RUNTIME", Fixed(1)), Slot("EPSILON", Fixed(1)),
      ValueClause(o.m, U32Token), ValueClause(o.efConstruction, U32Token), ValueClause(o.efRuntime, U32Token),
      ValueClause(o.epsilon, Verbatim));
    OptionPairIsClause("M", o.m, U32Token);
    OptionPairIsClause("EF_CONSTRUCTION", o.efConstruction, U32Token);
    OptionPairIsClause("EF_RUNTIME", o.efRuntime, U32Token);
    OptionPairIsClause("EPSILON", o.epsilon, Verbatim);
  }

  lemma VamanaOptionsAsLayout(o: VamanaVectorOptions)
    ensures VamanaOptionsArgs(o) == Emit(VamanaLayout, VamanaClauses(o))
  {
    Emit7(Slot("COMPRESSION", Fixed(1)), Slot("CONSTRUCTION_WINDOW_SIZE", Fixed(1)), Slot("GRAPH_MAX_DEGREE", Fixed(1)),
      Slot("SEARCH_WINDOW_SIZE", Fixed(1)), Slot("EPSILON", Fixed(1)), Slot("TRAINING_THRESHOLD", Fixed(1)),
      Slot("REDUCE", Fixed(1)),
      ValueClause(o.compression, CompressionToken), ValueClause(o.constructionWindowSize, U32Token),
      ValueClause(o.graphMaxDegree, U32Token), ValueClause(o.searchWindowSize, U32Token),
      ValueClause(o.epsilon, Verbatim), ValueClause(o.trainingThreshold, U32Token), ValueClause(o.reduce, U32Token));
    OptionPairIsClause("COMPRESSION", o.compression, CompressionToken);
    OptionPairIsClause("CONSTRUCTION_WINDOW_SIZE", o.constructionWindowSize, U32Token);
    OptionPairIsClause("GRAPH_MAX_DEGREE", o.graphMaxDegree, U32Token);
    OptionPairIsClause("SEARCH_WINDOW_SIZE", o.searchWindowSize, U32Token);
    OptionPairIsClause("EPSILON", o.epsilon, Verbatim);
    OptionPairIsClause("TRAINING_THRESHOLD", o.trainingThreshold, U32Token);
    OptionPairIsClause("REDUCE", o.reduce, U32Token);
  }

  /** `FlatVectorOptions::num_of_args`: two tokens for each option that is set. */
  method FlatNumOfArgs(o: FlatVectorOptions) returns (count: nat)
    ensures count == |FlatOptionsArgs(o)|
  {
    FlatOptionsFit(o);
    FlatOptionsAsLayout(o);
    count := CountPairs(FlatLayout, FlatClauses(o));
  }

  /** `HnswVectorOptions::num_of_args`. */
  method HnswNumOfArgs(o: HnswVectorOptions) returns (count: nat)
    ensures count == |HnswOptionsArgs(o)|
  {
    HnswOptionsFit(o);
    HnswOptionsAsLayout(o);
    count := CountPairs(HnswLayout, HnswClauses(o));
  }

  /** `VamanaVectorOptions::num_of_args`. */
  method VamanaNumOfArgs(o: VamanaVectorOptions) returns (count: nat)
    ensures count == |VamanaOptionsArgs(o)|
  {
    VamanaOptionsFit(o);
    VamanaOptionsAsLayout(o);
    count := CountPairs(VamanaLayout, VamanaClauses(o));
  }

  // ---------------------------------------------------------------- the vector field

  datatype VectorField =
    | Flat(base: SchemaVectorField, flat: FlatVectorOptions)
    | Hnsw(base: SchemaVectorField, hnsw: HnswVectorOptions)
    | Vamana(base: SchemaVectorField, vamana: VamanaVectorOptions)
  {
    /** The algorithm the variant's options belong to. */
    function Algorithm(): VectorAlgorithm
    {
      match this
      case Flat(_, _) => VectorAlgorithm.Flat
      case Hnsw(_, _) => VectorAlgorithm.Hnsw
      case Vamana(_, _) => VectorAlgorithm.Vamana
    }

    /** What the constructors build and every setter keeps: type VECTOR, algorithm of the variant. */
    predicate Valid() { base.base.fieldType == FieldType.Vector && base.algorithm == Algorithm() }

    function Alias(a: string): (r: VectorField)
      ensures r.base.base == base.base.Alias(a) && r.base.(base := base.base) == base
      ensures r.(base := base) == this
      ensures Valid() ==> r.Valid()
    {
      this.(base := base.(base := base.base.Alias(a)))
    }

    function IndexMissing(b: bool): (r: VectorField)
      ensures r.base.base == base.base.IndexMissing(b) && r.base.(base := base.base) == base
      ensures r.(base := base) == this
      ensures Valid() ==> r.Valid()
    {
      this.(base := base.(base := base.base.IndexMissing(b)))
    }
  }

  function OptionsLayoutOf(a: VectorAlgorithm): seq<Slot>
  {
    match a
    case Flat => FlatLayout
    case Hnsw => HnswLayout
    case Vamana => VamanaLayout
  }

  function VectorOptionsClauses(v: VectorField): (cs: seq<Clause>)
    ensures |cs| == |OptionsLayoutOf(v.Algorithm())|
  {
    match v
    case Flat(_, o) => FlatClauses(o)
    case Hnsw(_, o) => HnswClauses(o)
    case Vamana(_, o) => VamanaClauses(o)
  }

  /** The algorithm-specific `KEY value` pairs the variant's options write. */
  function VectorOptionsArgs(v: VectorField): seq<string>
  {
    match v
    case Flat(_, o) => FlatOptionsArgs(o)
    case Hnsw(_, o) => HnswOptionsArgs(o)
    case Vamana(_, o) => VamanaOptionsArgs(o)
  }

  /** Whatever the algorithm, its options are its layout filled with its clauses. */
  lemma VectorOptionsAsLayout(v: VectorField)
    ensures VectorOptionsArgs(v) == Emit(OptionsLayoutOf(v.Algorithm()), VectorOptionsClauses(v))
  {
    var l := OptionsLayoutOf(v.Algorithm());
    var cs := VectorOptionsClauses(v);
    match v
    case Flat(_, o) =>
      FlatOptionsAsLayout(o);
      EmitCongruent(FlatLayout, FlatClauses(o), l, cs);
    case Hnsw(_, o) =>
      HnswOptionsAsLayout(o);
      EmitCongruent(HnswLayout, HnswClauses(o), l, cs);
    case Vamana(_, o) =>
      VamanaOptionsAsLayout(o);
      EmitCongruent(VamanaLayout, VamanaClauses(o), l, cs);
  }

  /** The tokens `SchemaVectorField::write_redis_args` writes: any alias, the type, the algorithm. */
  function SchemaVectorArgs(s: SchemaVectorField): seq<string>
  {
    (if s.base.alias.Some? then ["AS", s.base.alias.value] else []) + [FieldTypeToken(s.base.fieldType), AlgorithmToken(s.algorithm)]
  }

  function IndexMissingArgs(b: bool): seq<string>
  {
    if b then ["INDEXMISSING"] else []
  }

  /**
   * The tokens `VectorField::write_redis_args` writes: the count after the algorithm is the
   * number of attribute tokens that follow it, the shared ones and the algorithm's own.
   */
  function VectorFieldArgs(v: VectorField): seq<string>
  {
    var attributes := AttributeArgs(v.base) + VectorOptionsArgs(v);
    SchemaVectorArgs(v.base) + [NatToString(|attributes|)] + attributes + IndexMissingArgs(v.base.base.indexMissing)
  }

  method WriteSchemaVectorField(s: SchemaVectorField, out: ArgWriter)
    modifies out
    ensures out.args == old(out.args) + SchemaVectorArgs(s)
  {
    if s.base.alias.Some? {
      out.WriteArg("AS");
      out.WriteArg(s.base.alias.value);
    }
    out.WriteArg(FieldTypeToken(s.base.fieldType));
    out.WriteArg(AlgorithmToken(s.algorithm));
  }

  /** The three attribute pairs, written by `VectorField::write_redis_args` after the count. */
  method WriteAttributes(s: SchemaVectorField, out: ArgWriter)
    modifies out
    ensures out.args == old(out.args) + AttributeArgs(s)
  {
    out.WriteArg("TYPE");
    out.WriteArg(VectorTypeToken(s.vectorType));
    out.WriteArg("DIM");
    out.WriteArg(U32Token(s.dim));
    out.WriteArg("DISTANCE_METRIC");
    out.WriteArg(MetricToken(s.distanceMetric));
  }

  /** `FlatVectorOptions::write_redis_args`. */
  method WriteFlatOptions(o: FlatVectorOptions, out: ArgWriter)
    modifies out
    ensures out.args == old(out.args) + FlatOptionsArgs(o)
  {
    WriteLayout(FlatLayout, FlatClauses(o), out);
    FlatOptionsAsLayout(o);
  }

  /** `HnswVectorOptions::write_redis_args`. */
  method WriteHnswOptions(o: HnswVectorOptions, out: ArgWriter)
    modifies out
    ensures out.args == old(out.args) + HnswOptionsArgs(o)
  {
    WriteLayout(HnswLayout, HnswClauses(o), out);
    HnswOptionsAsLayout(o);
  }

  /** `VamanaVectorOptions::write_redis_args`. */
  method WriteVamanaOptions(o: VamanaVectorOptions, out: ArgWriter)
    modifies out
    ensures out.args == old(out.args) + VamanaOptionsArgs(o)
  {
    WriteLayout(VamanaLayout, VamanaClauses(o), out);
    VamanaOptionsAsLayout(o);
  }

  /** The options part of `VectorField::write_redis_args`: the variant's own options. */
  method WriteVectorOptions(v: VectorField, out: ArgWriter)
    modifies out
    ensures out.args == old(out.args) + VectorOptionsArgs(v)
  {
    match v
    case Flat(_, o) => WriteFlatOptions(o, out);
    case Hnsw(_, o) => WriteHnswOptions(o, out);
    case Vamana(_, o) => WriteVamanaOptions(o, out);
  }

  /** The `num_of_args` of the variant's options. */
  method VectorOptionsNumOfArgs(v: VectorField) returns (count: nat)
    ensures count == |VectorOptionsArgs(v)|
  {
    match v
    case Flat(_, o) => count := FlatNumOfArgs(o);
    case Hnsw(_, o) => count := HnswNumOfArgs(o);
    case Vamana(_, o) => count := VamanaNumOfArgs(o);
  }

  lemma Regroup<T>(o: seq<T>, s: seq<T>, n: seq<T>, a: seq<T>, p: seq<T>, i: seq<T>)
    ensures o + s + n + a + p + i == o + (s + n + (a + p) + i)
  {
  }

  /** `VectorField::write_redis_args`. */
  method WriteVectorField(v: VectorField, out: ArgWriter)
    modifies out
    ensures out.args == old(out.args) + VectorFieldArgs(v)
  {
    var s := v.base;
    WriteSchemaVectorField(s, out);
    var optionsCount := VectorOptionsNumOfArgs(v);
    var count := SchemaVectorNumOfArgs(s) + optionsCount;
    out.WriteArg(NatToString(count));
    WriteAttributes(s, out);
    WriteVectorOptions(v, out);
    if s.base.indexMissing {
      out.WriteArg("INDEXMISSING");
    }
    Regroup(old(out.args), SchemaVectorArgs(s), [NatToString(count)], AttributeArgs(s), VectorOptionsArgs(v),
            IndexMissingArgs(s.base.indexMissing));
  }

  // ---------------------------------------------------------------- reading a vector field back

  /** A clause that every vector field writes, with its one value. */
  function DecodeRequired<T>(c: Clause, parse: string -> Option<T>): Option<T>
  {
    match c
    case Absent => None
    case Present(vs) => if |vs| == 1 then parse(vs[0]) else None
  }

  /** The alias, the algorithm, the count and the three shared attributes. */
  function DecodeVectorHead(cs: seq<Clause>, indexMissing: bool): Option<(SchemaVectorField, nat)>
    requires |cs| == 5
  {
    var alias :- DecodeValue(cs[0], ParseVerbatim);
    if !(cs[1].Present? && |cs[1].values| == 2) then None
    else
      var algorithm :- ParseAlgorithm(cs[1].values[0]);
      var count :- ParseDecimal(cs[1].values[1]);
      var vectorType :- DecodeRequired(cs[2], ParseVectorType);
      var dim :- DecodeRequired(cs[3], ParseU32);
      var metric :- DecodeRequired(cs[4], ParseMetric);
      Some((SchemaVectorField(BaseSchemaField(FieldType.Vector, alias, indexMissing), algorithm, vectorType, dim, metric), count))
  }

  function DecodeFlatOptions(cs: seq<Clause>): Option<FlatVectorOptions>
    requires |cs| == 1
  {
    var blockSize :- DecodeValue(cs[0], ParseU32);
    Some(FlatVectorOptions(blockSize))
  }

  function DecodeHnswOptions(cs: seq<Clause>): Option<HnswVectorOptions>
    requires |cs| == 4
  {
    var m :- DecodeValue(cs[0], ParseU32);
    var efConstruction :- DecodeValue(cs[1], ParseU32);
    var efRuntime :- DecodeValue(cs[2], ParseU32);
    var epsilon :- DecodeValue(cs[3], ParseVerbatim);
    Some(HnswVectorOptions(m, efConstruction, efRuntime, epsilon))
  }

  function DecodeVamanaOptions(cs: seq<Clause>): Option<VamanaVectorOptions>
    requires |cs| == 7
  {
    var compression :- DecodeValue(cs[0], ParseCompression);
    var constructionWindowSize :- DecodeValue(cs[1], ParseU32);
    var graphMaxDegree :- DecodeValue(cs[2], ParseU32);
    var searchWindowSize :- DecodeValue(cs[3], ParseU32);
    var epsilon :- DecodeValue(cs[4], ParseVerbatim);
    var trainingThreshold :- DecodeValue(cs[5], ParseU32);
    var reduce :- DecodeValue(cs[6], ParseU32);
    Some(VamanaVectorOptions(compression, constructionWindowSize, graphMaxDegree, searchWindowSize, epsilon, trainingThreshold, reduce))
  }

  function DecodeVectorOptions(s: SchemaVectorField, cs: seq<Clause>): Option<VectorField>
    requires |cs| == |OptionsLayoutOf(s.algorithm)|
  {
    match s.algorithm
    case Flat =>
      var o :- DecodeFlatOptions(cs);
      Some(VectorField.Flat(s, o))
    case Hnsw =>
      var o :- DecodeHnswOptions(cs);
      Some(VectorField.Hnsw(s, o))
    case Vamana =>
      var o :- DecodeVamanaOptions(cs);
      Some(VectorField.Vamana(s, o))
  }

  /** `[AS alias] VECTOR <algorithm> <count> TYPE t DIM d DISTANCE_METRIC m`. */
  function VectorHeadLayout(): seq<Slot>
  {
    VectorTypeLayout(FieldType.Vector) + AttributeLayout
  }

  function VectorHeadClauses(s: SchemaVectorField, count: nat): seq<Clause>
  {
    VectorTypeClauses(s, count) + AttributeClauses(s)
  }

  const IndexMissingLayout: seq<Slot> := [Slot("INDEXMISSING", Fixed(0))]

  function IndexMissingClauses(b: bool): seq<Clause> { [FlagClause(b)] }

  /**
   * Reads the tokens of exactly one vector field. The algorithm after VECTOR says which
   * attributes may follow, and the count must match the attributes actually read.
   */
  function ParseVectorField(ts: seq<string>): Option<VectorField>
  {
    var k := if |ts| > 0 && ts[0] == "AS" then 2 else 0;
    if |ts| < k + 2 then None
    else
      var algorithm :- ParseAlgorithm(ts[k + 1]);
      var layout := OptionsLayoutOf(algorithm);
      match Parse(VectorHeadLayout() + layout + IndexMissingLayout, ts)
      case None => None
      case Some((cs, rest)) =>
        if |cs| != 6 + |layout| || rest != [] then None
        else
          var indexMissing :- DecodeFlag(cs[5 + |layout|]);
          var head :- DecodeVectorHead(cs[..5], indexMissing);
          if head.0.algorithm != algorithm then None
          else
            var v :- DecodeVectorOptions(head.0, cs[5..5 + |layout|]);
            if head.1 == |AttributeArgs(v.base) + VectorOptionsArgs(v)| then Some(v) else None
  }

  lemma FlatOptionsDecode(o: FlatVectorOptions)
    ensures DecodeFlatOptions(FlatClauses(o)) == Some(o)
  {
    if o.blockSize.Some? {
      U32RoundTrip(o.blockSize.value);
    }
    DecodeValueClause(o.blockSize, U32Token, ParseU32);
  }

  lemma HnswOptionsDecode(o: HnswVectorOptions)
    ensures DecodeHnswOptions(HnswClauses(o)) == Some(o)
  {
    if o.m.Some? {
      U32RoundTrip(o.m.value);
    }
    if o.efConstruction.Some? {
      U32RoundTrip(o.efConstruction.value);
    }
    if o.efRuntime.Some? {
      U32RoundTrip(o.efRuntime.value);
    }
    DecodeValueClause(o.m, U32Token, ParseU32);
    DecodeValueClause(o.efConstruction, U32Token, ParseU32);
    DecodeValueClause(o.efRuntime, U32Token, ParseU32);
    DecodeValueClause(o.epsilon, Verbatim, ParseVerbatim);
  }

  lemma VamanaGroup1(o: VamanaVectorOptions)
    ensures var cs := VamanaClauses(o);
      && DecodeValue(cs[0], ParseCompression) == Some(o.compression)
      && DecodeValue(cs[1], ParseU32) == Some(o.constructionWindowSize)
      && DecodeValue(cs[2], ParseU32) == Some(o.graphMaxDegree)
      && DecodeValue(cs[3], ParseU32) == Some(o.searchWindowSize)
  {
    if o.compression.Some? {
      CompressionRoundTrip(o.compression.value);
    }
    if o.constructionWindowSize.Some? {
      U32RoundTrip(o.constructionWindowSize.value);
    }
    if o.graphMaxDegree.Some? {
      U32RoundTrip(o.graphMaxDegree.value);
    }
    if o.searchWindowSize.Some? {
      U32RoundTrip(o.searchWindowSize.value);
    }
    DecodeValueClause(o.compression, CompressionToken, ParseCompression);
    DecodeValueClause(o.constructionWindowSize, U32Token, ParseU32);
    DecodeValueClause(o.graphMaxDegree, U32Token, ParseU32);
    DecodeValueClause(o.searchWindowSize, U32Token, ParseU32);
  }

  lemma VamanaGroup2(o: VamanaVectorOptions)
    ensures var cs := VamanaClauses(o);
      && DecodeValue(cs[4], ParseVerbatim) == Some(o.epsilon)
      && DecodeValue(cs[5], ParseU32) == Some(o.trainingThreshold)
      && DecodeValue(cs[6], ParseU32) == Some(o.reduce)
  {
    if o.trainingThreshold.Some? {
      U32RoundTrip(o.trainingThreshold.value);
    }
    if o.reduce.Some? {
      U32RoundTrip(o.reduce.value);
    }
    DecodeValueClause(o.epsilon, Verbatim, ParseVerbatim);
    DecodeValueClause(o.trainingThreshold, U32Token, ParseU32);
    DecodeValueClause(o.reduce, U32Token, ParseU32);
  }

  lemma VamanaOptionsDecode(o: VamanaVectorOptions)
    ensures DecodeVamanaOptions(VamanaClauses(o)) == Some(o)
  {
    VamanaGroup1(o);
    VamanaGroup2(o);
  }

  /** The options of the field's own algorithm are well formed and read back to themselves. */
  lemma VectorOptionsWellFormed(v: VectorField)
    requires v.Valid()
    ensures var l := OptionsLayoutOf(v.Algorithm());
      DistinctKeywords(l) && FitsAll(l, VectorOptionsClauses(v))
    ensures DecodeVectorOptions(v.base, VectorOptionsClauses(v)) == Some(v)
  {
    match v
    case Flat(_, o) => FlatOptionsFit(o); FlatOptionsDecode(o);
    case Hnsw(_, o) => HnswOptionsFit(o); HnswOptionsDecode(o);
    case Vamana(_, o) => VamanaOptionsFit(o); VamanaOptionsDecode(o);
  }

  /** No option keyword of any algorithm is a keyword of the head or INDEXMISSING. */
  lemma OptionsLayoutsDisjoint(a: VectorAlgorithm)
    ensures DisjointKeywords(VectorHeadLayout(), OptionsLayoutOf(a))
    ensures DisjointKeywords(OptionsLayoutOf(a), IndexMissingLayout)
  {
  }

  /** The head keywords repeat nothing, and INDEXMISSING is not among them. */
  lemma HeadLayoutDistinct()
    ensures DistinctKeywords(VectorHeadLayout()) && DisjointKeywords(VectorHeadLayout(), IndexMissingLayout)
  {
    var ks := ["AS", "VECTOR", "TYPE", "DIM", "DISTANCE_METRIC"];
    assert KeywordsAre(VectorHeadLayout(), ks);
    assert DistinctStrings(ks);
    DistinctViaKeywords(VectorHeadLayout(), ks);
  }

  lemma HeadDecoded(s: SchemaVectorField, count: nat)
    requires s.base.fieldType == FieldType.Vector
    ensures DecodeVectorHead(VectorHeadClauses(s, count), s.base.indexMissing) == Some((s, count))
  {
    var cs := VectorHeadClauses(s, count);
    DecodeValueClause(s.base.alias, Verbatim, ParseVerbatim);
    AlgorithmRoundTrip(s.algorithm);
    DecimalRoundTrip(count);
    VectorTypeRoundTrip(s.vectorType);
    U32RoundTrip(s.dim);
    MetricRoundTrip(s.distanceMetric);
    assert cs[1] == Present([AlgorithmToken(s.algorithm), NatToString(count)]);
  }

  lemma HeadWellFormed(s: SchemaVectorField, count: nat)
    requires s.base.fieldType == FieldType.Vector
    ensures var cs := VectorHeadClauses(s, count);
      && DistinctKeywords(VectorHeadLayout()) && FitsAll(VectorHeadLayout(), cs)
      && DisjointKeywords(VectorHeadLayout(), IndexMissingLayout)
      && DecodeVectorHead(cs, s.base.indexMissing) == Some((s, count))
  {
    HeadLayoutDistinct();
    HeadDecoded(s, count);
    var cs := VectorHeadClauses(s, count);
    assert FitsAll(VectorHeadLayout(), cs);
  }

  /** The count of the tokens a vector field writes, as a layout with its clauses. */
  function VectorCount(v: VectorField): nat
  {
    |AttributeArgs(v.base) + VectorOptionsArgs(v)|
  }

  lemma VectorTypeArgs(s: SchemaVectorField, count: nat)
    ensures Emit(VectorTypeLayout(s.base.fieldType), VectorTypeClauses(s, count)) == SchemaVectorArgs(s) + [NatToString(count)]
  {
  }

  /** The written tokens are the head, option and INDEXMISSING layouts, filled in. */
  lemma VectorArgsAsLayouts(v: VectorField)
    requires v.Valid()
    ensures VectorFieldArgs(v)
         == Emit(VectorHeadLayout(), VectorHeadClauses(v.base, VectorCount(v)))
          + Emit(OptionsLayoutOf(v.Algorithm()), VectorOptionsClauses(v))
          + Emit(IndexMissingLayout, IndexMissingClauses(v.base.base.indexMissing))
  {
    var s := v.base;
    var count := VectorCount(v);
    var typeArgs := Emit(VectorTypeLayout(FieldType.Vector), VectorTypeClauses(s, count));
    VectorTypeArgs(s, count);
    AttributeArgsAsLayout(s);
    EmitAppend(VectorTypeLayout(FieldType.Vector), VectorTypeClauses(s, count), AttributeLayout, AttributeClauses(s));
    assert Emit(IndexMissingLayout, IndexMissingClauses(s.base.indexMissing)) == IndexMissingArgs(s.base.indexMissing);
    VectorOptionsAsLayout(v);
    ConcatAssoc(typeArgs, AttributeArgs(s), VectorOptionsArgs(v));
  }

  /** Parsing the written tokens with the layouts of the field's algorithm gives back its clauses. */
  lemma VectorClausesParsed(v: VectorField)
    requires v.Valid()
    ensures Parse(VectorHeadLayout() + OptionsLayoutOf(v.Algorithm()) + IndexMissingLayout, VectorFieldArgs(v))
         == Some((VectorHeadClauses(v.base, VectorCount(v)) + VectorOptionsClauses(v)
                  + IndexMissingClauses(v.base.base.indexMissing), []))
  {
    var s := v.base;
    var hc := VectorHeadClauses(s, VectorCount(v));
    var ic := IndexMissingClauses(s.base.indexMissing);
    HeadWellFormed(s, VectorCount(v));
    VectorOptionsWellFormed(v);
    OptionsLayoutsDisjoint(v.Algorithm());
    VectorArgsAsLayouts(v);
    assert FitsAll(IndexMissingLayout, ic) && DistinctKeywords(IndexMissingLayout);
    ParseEmit3(VectorHeadLayout(), hc, OptionsLayoutOf(v.Algorithm()), VectorOptionsClauses(v), IndexMissingLayout, ic);
  }

  /** The parsed clauses decode to the field. */
  lemma VectorClausesDecoded(v: VectorField)
    requires v.Valid()
    ensures var l := OptionsLayoutOf(v.Algorithm());
      var cs := VectorHeadClauses(v.base, VectorCount(v)) + VectorOptionsClauses(v) + IndexMissingClauses(v.base.base.indexMissing);
      && |cs| == 6 + |l|
      && DecodeFlag(cs[5 + |l|]) == Some(v.base.base.indexMissing)
      && DecodeVectorHead(cs[..5], v.base.base.indexMissing) == Some((v.base, VectorCount(v)))
      && DecodeVectorOptions(v.base, cs[5..5 + |l|]) == Some(v)
  {
    var hc := VectorHeadClauses(v.base, VectorCount(v));
    var oc := VectorOptionsClauses(v);
    var ic := IndexMissingClauses(v.base.base.indexMissing);
    PartsOf(hc, oc, ic);
    HeadWellFormed(v.base, VectorCount(v));
    VectorOptionsWellFormed(v);
  }

  /** The algorithm token comes second, after VECTOR, once any `AS alias` is skipped. */
  lemma AlgorithmFollowsType(v: VectorField)
    requires v.Valid()
    ensures var ts := VectorFieldArgs(v);
      var k := if v.base.base.alias.Some? then 2 else 0;
      && |ts| >= k + 3 && (|ts| > 0 && ts[0] == "AS" <==> v.base.base.alias.Some?)
      && ts[k] == "VECTOR" && ts[k + 1] == AlgorithmToken(v.base.algorithm)
  {
    var attributes := AttributeArgs(v.base) + VectorOptionsArgs(v);
    var head := SchemaVectorArgs(v.base);
    LeadingPart(VectorFieldArgs(v), head, [NatToString(|attributes|)], attributes,
      IndexMissingArgs(v.base.base.indexMissing));
    if v.base.base.alias.Some? {
      assert head == ["AS", v.base.base.alias.value, "VECTOR", AlgorithmToken(v.base.algorithm)];
    } else {
      assert head == ["VECTOR", AlgorithmToken(v.base.algorithm)];
    }
  }

  /** The first part of `head + b + c + d` is `head`. */
  lemma LeadingPart<T>(ts: seq<T>, head: seq<T>, b: seq<T>, c: seq<T>, d: seq<T>)
    requires ts == head + b + c + d
    ensures |ts| >= |head| + |b| && forall i :: 0 <= i < |head| ==> ts[i] == head[i]
  {
  }

  /** A vector field is recovered from the tokens it writes. */
  lemma VectorFieldRoundTrip(v: VectorField)
    requires v.Valid()
    ensures ParseVectorField(VectorFieldArgs(v)) == Some(v)
  {
    AlgorithmFollowsType(v);
    AlgorithmRoundTrip(v.base.algorithm);
    VectorClausesParsed(v);
    VectorClausesDecoded(v);
  }

  /**
   * The token at `k + 2` counts the tokens after it, apart from the last `n`: where a vector
   * field's count sits (`k` is 2 with an alias, `n` is 1 with INDEXMISSING).
   */
  predicate CountedFrom(ts: seq<string>, k: nat, n: nat)
  {
    |ts| >= k + 3 + n && ts[k + 2] == NatToString(|ts| - (k + 3) - n)
  }

  /**
   * The count after the algorithm is the number of tokens between it and the optional
   * trailing INDEXMISSING, which is present exactly when the field sets it.
   */
  lemma VectorCountCoversAttributes(v: VectorField)
    ensures CountedFrom(VectorFieldArgs(v), if v.base.base.alias.Some? then 2 else 0,
      if v.base.base.indexMissing then 1 else 0)
    ensures v.base.base.indexMissing ==> VectorFieldArgs(v)[|VectorFieldArgs(v)| - 1] == "INDEXMISSING"
  {
    var attributes := AttributeArgs(v.base) + VectorOptionsArgs(v);
    var head := SchemaVectorArgs(v.base);
    var tail := IndexMissingArgs(v.base.base.indexMissing);
    CountedPartsAt(VectorFieldArgs(v), head, attributes, tail,
      if v.base.base.alias.Some? then 2 else 0, if v.base.base.indexMissing then 1 else 0);
  }

  /** Where the parts of `head + [count] + items + tail` sit, the count being that of the items. */
  lemma CountedPartsAt(ts: seq<string>, head: seq<string>, items: seq<string>, tail: seq<string>, k: nat, n: nat)
    requires ts == head + [NatToString(|items|)] + items + tail && |head| == k + 2 && |tail| == n
    ensures CountedFrom(ts, k, n)
    ensures n > 0 ==> ts[|ts| - 1] == tail[n - 1]
  {
    assert ts[k + 2] == NatToString(|items|);
    SameDecimal(|ts| - (k + 3) - n, |items|);
  }

  /** Equal numbers are written alike (stated on its own to keep the arithmetic out of sight). */
  lemma SameDecimal(a: nat, b: nat)
    requires a == b
    ensures NatToString(a) == NatToString(b)
  {
  }

  // ---------------------------------------------------------------- builders

  const VECTOR_DIM_PANIC: string := "Vector dimension must be positive (greater than 0)"
  const DEFAULT_BLOCK_SIZE: u32 := 1024
  /** The largest TRAINING_THRESHOLD the builder writes: 100 blocks of the default size. */
  const MAX_TRAINING_THRESHOLD: u32 := 100 * DEFAULT_BLOCK_SIZE

  /** The shared attributes of a new vector field: no alias, INDEXMISSING off. */
  function NewSchemaVectorField(a: VectorAlgorithm, t: VectorType, dim: u32, m: DistanceMetric): (r: SchemaVectorField)
    ensures r.base == NewBaseSchemaField(FieldType.Vector)
    ensures r.algorithm == a && r.vectorType == t && r.dim == dim && r.distanceMetric == m
  {
    SchemaVectorField(NewBaseSchemaField(FieldType.Vector), a, t, dim, m)
  }

  datatype FlatVectorFieldBuilder = FlatVectorFieldBuilder(base: SchemaVectorField, blockSize: Option<u32>)
  {
    predicate Valid() { base.base.fieldType == FieldType.Vector && base.algorithm == VectorAlgorithm.Flat }

    function BlockSize(b: u32): (r: FlatVectorFieldBuilder)
      ensures r.blockSize == Some(b) && r.(blockSize := blockSize) == this
      ensures Valid() ==> r.Valid()
    {
      this.(blockSize := Some(b))
    }

    function Alias(a: string): (r: FlatVectorFieldBuilder)
      ensures r.base.base == base.base.Alias(a) && r.base.(base := base.base) == base
      ensures r.(base := base) == this
      ensures Valid() ==> r.Valid()
    {
      this.(base := base.(base := base.base.Alias(a)))
    }

    function IndexMissing(b: bool): (r: FlatVectorFieldBuilder)
      ensures r.base.base == base.base.IndexMissing(b) && r.base.(base := base.base) == base
      ensures r.(base := base) == this
      ensures Valid() ==> r.Valid()
    {
      this.(base := base.(base := base.base.IndexMissing(b)))
    }

    function Build(): (r: VectorField)
      ensures r.Flat? && r.base == base && r.flat.blockSize == blockSize
      ensures Valid() ==> r.Valid()
    {
      VectorField.Flat(base, FlatVectorOptions(blockSize))
    }
  }

  /** `VectorField::flat`: panics on a zero dimension, otherwise a builder with no options set. */
  function NewFlatVectorField(t: VectorType, dim: u32, m: DistanceMetric): (r: Result<FlatVectorFieldBuilder, Panic>)
    ensures r.Failure? <==> dim == 0
    ensures r.Failure? ==> r.error == Panic(VECTOR_DIM_PANIC)
    ensures r.Success? ==> r.value.Valid() && r.value.base == NewSchemaVectorField(VectorAlgorithm.Flat, t, dim, m)
                           && r.value.blockSize.None?
  {
    if dim == 0 then Failure(Panic(VECTOR_DIM_PANIC))
    else Success(FlatVectorFieldBuilder(NewSchemaVectorField(VectorAlgorithm.Flat, t, dim, m), None))
  }

  datatype HnswVectorFieldBuilder = HnswVectorFieldBuilder(
    base: SchemaVectorField,
    m: Option<u32>,
    efConstruction: Option<u32>,
    efRuntime: Option<u32>,
    epsilon: Option<FloatArg>)
  {
    predicate Valid() { base.base.fieldType == FieldType.Vector && base.algorithm == VectorAlgorithm.Hnsw }

    function M(n: u32): (r: HnswVectorFieldBuilder)
      ensures r.m == Some(n) && r.(m := m) == this
      ensures Valid() ==> r.Valid()
    {
      this.(m := Some(n))
    }

    function EfConstruction(n: u32): (r: HnswVectorFieldBuilder)
      ensures r.efConstruction == Some(n) && r.(efConstruction := efConstruction) == this
      ensures Valid() ==> r.Valid()
    {
      this.(efConstruction := Some(n))
    }

    function EfRuntime(n: u32): (r: HnswVectorFieldBuilder)
      ensures r.efRuntime == Some(n) && r.(efRuntime := efRuntime) == this
      ensures Valid() ==> r.Valid()
    {
      this.(efRuntime := Some(n))
    }

    function Epsilon(e: FloatArg): (r: HnswVectorFieldBuilder)
      ensures r.epsilon == Some(e) && r.(epsilon := epsilon) == this
      ensures Valid() ==> r.Valid()
    {
      this.(epsilon := Some(e))
    }

    function Alias(a: string): (r: HnswVectorFieldBuilder)
      ensures r.base.base == base.base.Alias(a) && r.base.(base := base.base) == base
      ensures r.(base := base) == this
      ensures Valid() ==> r.Valid()
    {
      this.(base := base.(base := base.base.Alias(a)))
    }

    function IndexMissing(b: bool): (r: HnswVectorFieldBuilder)
      ensures r.base.base == base.base.IndexMissing(b) && r.base.(base := base.base) == base
      ensures r.(base := base) == this
      ensures Valid() ==> r.Valid()
    {
      this.(base := base.(base := base.base.IndexMissing(b)))
    }

    function Build(): (r: VectorField)
      ensures r.Hnsw? && r.base == base && r.hnsw == HnswVectorOptions(m, efConstruction, efRuntime, epsilon)
      ensures Valid() ==> r.Valid()
    {
      VectorField.Hnsw(base, HnswVectorOptions(m, efConstruction, efRuntime, epsilon))
    }
  }

  /** `VectorField::hnsw`. */
  function NewHnswVectorField(t: VectorType, dim: u32, metric: DistanceMetric): (r: Result<HnswVectorFieldBuilder, Panic>)
    ensures r.Failure? <==> dim == 0
    ensures r.Failure? ==> r.error == Panic(VECTOR_DIM_PANIC)
    ensures r.Success? ==> r.value.Valid() && r.value.base == NewSchemaVectorField(VectorAlgorithm.Hnsw, t, dim, metric)
                           && r.value.m.None? && r.value.efConstruction.None? && r.value.efRuntime.None?
                           && r.value.epsilon.None?
  {
    if dim == 0 then Failure(Panic(VECTOR_DIM_PANIC))
    else Success(HnswVectorFieldBuilder(NewSchemaVectorField(VectorAlgorithm.Hnsw, t, dim, metric), None, None, None, None))
  }

  /** `dim.saturating_sub(1).max(1)`: the largest REDUCE for a dimension. */
  function MaxReduce(dim: u32): (r: u32)
    ensures r >= 1
    ensures dim >= 2 ==> r == dim - 1
    ensures dim < 2 ==> r == 1
  {
    var d := if dim >= 1 then dim - 1 else 0;
    if d >= 1 then d else 1
  }

  datatype VamanaVectorFieldBuilder = VamanaVectorFieldBuilder(
    base: SchemaVectorField,
    compression: Option<CompressionType>,
    constructionWindowSize: Option<u32>,
    graphMaxDegree: Option<u32>,
    searchWindowSize: Option<u32>,
    epsilon: Option<FloatArg>,
    trainingThreshold: Option<u32>,
    reduce: Option<u32>)
  {
    predicate Valid() { base.base.fieldType == FieldType.Vector && base.algorithm == VectorAlgorithm.Vamana }

    function Compression(c: CompressionType): (r: VamanaVectorFieldBuilder)
      ensures r.compression == Some(c) && r.(compression := compression) == this
      ensures Valid() ==> r.Valid()
    {
      this.(compression := Some(c))
    }

    function ConstructionWindowSize(n: u32): (r: VamanaVectorFieldBuilder)
      ensures r.constructionWindowSize == Some(n) && r.(constructionWindowSize := constructionWindowSize) == this
      ensures Valid() ==> r.Valid()
    {
      this.(constructionWindowSize := Some(n))
    }

    function GraphMaxDegree(n: u32): (r: VamanaVectorFieldBuilder)
      ensures r.graphMaxDegree == Some(n) && r.(graphMaxDegree := graphMaxDegree) == this
      ensures Valid() ==> r.Valid()
    {
      this.(graphMaxDegree := Some(n))
    }

    function SearchWindowSize(n: u32): (r: VamanaVectorFieldBuilder)
      ensures r.searchWindowSize == Some(n) && r.(searchWindowSize := searchWindowSize) == this
      ensures Valid() ==> r.Valid()
    {
      this.(searchWindowSize := Some(n))
    }

    function Epsilon(e: FloatArg): (r: VamanaVectorFieldBuilder)
      ensures r.epsilon == Some(e) && r.(epsilon := epsilon) == this
      ensures Valid() ==> r.Valid()
    {
      this.(epsilon := Some(e))
    }

    /**
     * Takes effect only once a compression is set (otherwise it is ignored with a warning),
     * and stores the threshold clamped to MAX_TRAINING_THRESHOLD.
     */
    function TrainingThreshold(t: u32): (r: VamanaVectorFieldBuilder)
      ensures compression.None? ==> r == this
      ensures compression.Some? ==>
        && r == this.(trainingThreshold := r.trainingThreshold)
        && r.trainingThreshold.Some? && r.trainingThreshold.value <= MAX_TRAINING_THRESHOLD
        && (t <= MAX_TRAINING_THRESHOLD ==> r.trainingThreshold.value == t)
        && (t > MAX_TRAINING_THRESHOLD ==> r.trainingThreshold.value == MAX_TRAINING_THRESHOLD)
    {
      if compression.Some? then
        var clamped := if t < MAX_TRAINING_THRESHOLD then t else MAX_TRAINING_THRESHOLD;
        this.(trainingThreshold := Some(clamped))
      else this
    }

    /**
     * Takes effect only under a LeanVec compression (otherwise it is ignored with a warning),
     * and stores the value clamped into `1..=MaxReduce(dim)`.
     */
    function Reduce(n: u32): (r: VamanaVectorFieldBuilder)
      ensures !(compression.Some? && compression.value.IsLeanVec()) ==> r == this
      ensures compression.Some? && compression.value.IsLeanVec() ==>
        && r == this.(reduce := r.reduce)
        && r.reduce.Some? && 1 <= r.reduce.value <= MaxReduce(base.dim)
        && (1 <= n <= MaxReduce(base.dim) ==> r.reduce.value == n)
        && (n > MaxReduce(base.dim) ==> r.reduce.value == MaxReduce(base.dim))
        && (n == 0 ==> r.reduce.value == 1)
    {
      if compression.Some? && compression.value.IsLeanVec() then
        var maxReduce := MaxReduce(base.dim);
        var lowered := if n < maxReduce then n else maxReduce;
        var clamped := if lowered > 1 then lowered else 1;
        this.(reduce := Some(clamped))
      else this
    }

    function Alias(a: string): (r: VamanaVectorFieldBuilder)
      ensures r.base.base == base.base.Alias(a) && r.base.(base := base.base) == base
      ensures r.(base := base) == this
      ensures Valid() ==> r.Valid()
    {
      this.(base := base.(base := base.base.Alias(a)))
    }

    function IndexMissing(b: bool): (r: VamanaVectorFieldBuilder)
      ensures r.base.base == base.base.IndexMissing(b) && r.base.(base := base.base) == base
      ensures r.(base := base) == this
      ensures Valid() ==> r.Valid()
    {
      this.(base := base.(base := base.base.IndexMissing(b)))
    }

    function Build(): (r: VectorField)
      ensures r.Vamana? && r.base == base
      ensures r.vamana == VamanaVectorOptions(compression, constructionWindowSize, graphMaxDegree, searchWindowSize,
                                              epsilon, trainingThreshold, reduce)
      ensures Valid() ==> r.Valid()
    {
      VectorField.Vamana(base, VamanaVectorOptions(compression, constructionWindowSize, graphMaxDegree,
                                                   searchWindowSize, epsilon, trainingThreshold, reduce))
    }
  }

  /** `VectorField::vamana`: the element type is narrowed to those VAMANA accepts. */
  function NewVamanaVectorField(t: VamanaVectorType, dim: u32, metric: DistanceMetric): (r: Result<VamanaVectorFieldBuilder, Panic>)
    ensures r.Failure? <==> dim == 0
    ensures r.Failure? ==> r.error == Panic(VECTOR_DIM_PANIC)
    ensures r.Success? ==>
      && r.value.Valid()
      && r.value.base == NewSchemaVectorField(VectorAlgorithm.Vamana, VamanaToVectorType(t), dim, metric)
      && r.value == VamanaVectorFieldBuilder(r.value.base, None, None, None, None, None, None, None)
  {
    if dim == 0 then Failure(Panic(VECTOR_DIM_PANIC))
    else Success(VamanaVectorFieldBuilder(NewSchemaVectorField(VectorAlgorithm.Vamana, VamanaToVectorType(t), dim, metric),
                                          None, None, None, None, None, None, None))
  }

  /** Setting a training threshold before the compression loses it; setting it after keeps it. */
  lemma TrainingThresholdNeedsCompressionFirst(b: VamanaVectorFieldBuilder, c: CompressionType, t: u32)
    requires b.compression.None? && b.trainingThreshold.None? && t <= MAX_TRAINING_THRESHOLD
    ensures b.TrainingThreshold(t).Compression(c).Build().vamana.trainingThreshold.None?
    ensures b.Compression(c).TrainingThreshold(t).Build().vamana.trainingThreshold == Some(t)
  {
  }

  /** Without a compression, neither clamped option is ever written. */
  lemma UncompressedOmitsClampedOptions(b: VamanaVectorFieldBuilder, t: u32, n: u32)
    requires b.compression.None? && b.trainingThreshold.None? && b.reduce.None?
    ensures b.TrainingThreshold(t).Reduce(n) == b
    ensures var v := b.TrainingThreshold(t).Reduce(n).Build();
      v.vamana.trainingThreshold.None? && v.vamana.reduce.None?
  {
  }

  // ---------------------------------------------------------------- examples from the crate's tests

  lemma FlatWithBlockSizeExample()
    ensures NewFlatVectorField(VectorType.Float32, 2, L2).Success?
    ensures VectorFieldArgs(NewFlatVectorField(VectorType.Float32, 2, L2).value.BlockSize(1000).Build())
         == ["VECTOR", "FLAT", "8", "TYPE", "FLOAT32", "DIM", "2", "DISTANCE_METRIC", "L2", "BLOCK_SIZE", "1000"]
  {
    FlatExampleBuild();
    FlatExampleParts();
    JoinFlatParts("VECTOR", "FLAT", "8", "TYPE", "FLOAT32", "DIM", "2", "DISTANCE_METRIC", "L2", "BLOCK_SIZE", "1000");
  }

  lemma FlatExampleBuild()
    ensures NewFlatVectorField(VectorType.Float32, 2, L2).Success?
    ensures NewFlatVectorField(VectorType.Float32, 2, L2).value.BlockSize(1000).Build()
         == VectorField.Flat(NewSchemaVectorField(VectorAlgorithm.Flat, VectorType.Float32, 2, L2), FlatVectorOptions(Some(1000)))
  {
  }

  lemma FlatExampleParts()
    ensures var v := VectorField.Flat(NewSchemaVectorField(VectorAlgorithm.Flat, VectorType.Float32, 2, L2), FlatVectorOptions(Some(1000)));
      && SchemaVectorArgs(v.base) == ["VECTOR", "FLAT"]
      && AttributeArgs(v.base) == ["TYPE", "FLOAT32", "DIM", "2", "DISTANCE_METRIC", "L2"]
      && VectorOptionsArgs(v) == ["BLOCK_SIZE", "1000"]
      && NatToString(VectorCount(v)) == "8"
      && IndexMissingArgs(v.base.base.indexMissing) == []
  {
    var b := NewSchemaVectorField(VectorAlgorithm.Flat, VectorType.Float32, 2, L2);
    assert U32Token(2) == "2";
    assert U32Token(1000) == "1000";
    assert FlatOptionsArgs(FlatVectorOptions(Some(1000))) == ["BLOCK_SIZE", "1000"];
    assert NatToString(8) == "8";
  }

  lemma JoinFlatParts<T>(a: T, b: T, c: T, d: T, e: T, f: T, g: T, h: T, i: T, j: T, k: T)
    ensures [a, b] + [c] + [d, e, f, g, h, i] + [j, k] + [] == [a, b, c, d, e, f, g, h, i, j, k]
  {
  }

  lemma HnswExampleOptions()
    ensures HnswOptionsArgs(HnswVectorOptions(Some(40), Some(250), Some(20), None))
         == ["M", "40", "EF_CONSTRUCTION", "250", "EF_RUNTIME", "20"]
  {
    assert U32Token(40) == "40" && U32Token(250) == "250" && U32Token(20) == "20";
  }

  /**
   * The HNSW field of the crate's test, part by part: it writes `VECTOR HNSW`, the count 12,
   * the three shared pairs and then `M 40 EF_CONSTRUCTION 250 EF_RUNTIME 20`.
   */
  lemma HnswExample()
    ensures NewHnswVectorField(VectorType.Float32, 2, L2).Success?
    ensures var v := NewHnswVectorField(VectorType.Float32, 2, L2).value.M(40).EfConstruction(250).EfRuntime(20).Build();
      && SchemaVectorArgs(v.base) == ["VECTOR", "HNSW"]
      && VectorCount(v) == 12 && NatToString(VectorCount(v)) == "12"
      && AttributeArgs(v.base) == ["TYPE", "FLOAT32", "DIM", "2", "DISTANCE_METRIC", "L2"]
      && VectorOptionsArgs(v) == ["M", "40", "EF_CONSTRUCTION", "250", "EF_RUNTIME", "20"]
      && !v.base.base.indexMissing
  {
    HnswExampleBuild();
    HnswExampleParts();
  }

  lemma HnswExampleBuild()
    ensures NewHnswVectorField(VectorType.Float32, 2, L2).Success?
    ensures NewHnswVectorField(VectorType.Float32, 2, L2).value.M(40).EfConstruction(250).EfRuntime(20).Build()
         == VectorField.Hnsw(NewSchemaVectorField(VectorAlgorithm.Hnsw, VectorType.Float32, 2, L2),
                             HnswVectorOptions(Some(40), Some(250), Some(20), None))
  {
  }

  lemma HnswExampleParts()
    ensures var v := VectorField.Hnsw(NewSchemaVectorField(VectorAlgorithm.Hnsw, VectorType.Float32, 2, L2),
                                      HnswVectorOptions(Some(40), Some(250), Some(20), None));
      && SchemaVectorArgs(v.base) == ["VECTOR", "HNSW"]
      && VectorCount(v) == 12 && NatToString(VectorCount(v)) == "12"
      && AttributeArgs(v.base) == ["TYPE", "FLOAT32", "DIM", "2", "DISTANCE_METRIC", "L2"]
      && VectorOptionsArgs(v) == ["M", "40", "EF_CONSTRUCTION", "250", "EF_RUNTIME", "20"]
      && !v.base.base.indexMissing
  {
    HnswExampleAttributes();
    HnswExampleCount();
  }

  lemma HnswExampleAttributes()
    ensures var b := NewSchemaVectorField(VectorAlgorithm.Hnsw, VectorType.Float32, 2, L2);
      && SchemaVectorArgs(b) == ["VECTOR", "HNSW"]
      && AttributeArgs(b) == ["TYPE", "FLOAT32", "DIM", "2", "DISTANCE_METRIC", "L2"]
      && !b.base.indexMissing
  {
    assert U32Token(2) == "2";
  }

  lemma HnswExampleCount()
    ensures var v := VectorField.Hnsw(NewSchemaVectorField(VectorAlgorithm.Hnsw, VectorType.Float32, 2, L2),
                                      HnswVectorOptions(Some(40), Some(250), Some(20), None));
      && VectorCount(v) == 12 && NatToString(VectorCount(v)) == "12"
      && VectorOptionsArgs(v) == ["M", "40", "EF_CONSTRUCTION", "250", "EF_RUNTIME", "20"]
  {
    HnswExampleOptions();
    assert NatToString(12) == "12";
  }

  /** The alias comes first; INDEXMISSING comes last, after every attribute. */
  lemma AliasAndIndexMissingExample()
    ensures NewFlatVectorField(VectorType.Float32, 2, L2).Success?
    ensures VectorFieldArgs(NewFlatVectorField(VectorType.Float32, 2, L2).value.Alias("custom_alias").IndexMissing(true).Build())
         == ["AS", "custom_alias", "VECTOR", "FLAT", "6", "TYPE", "FLOAT32", "DIM", "2", "DISTANCE_METRIC", "L2", "INDEXMISSING"]
  {
    var base := SchemaVectorField(BaseSchemaField(FieldType.Vector, Some("custom_alias"), true), VectorAlgorithm.Flat, VectorType.Float32, 2, L2);
    assert NewFlatVectorField(VectorType.Float32, 2, L2).value.Alias("custom_alias").IndexMissing(true).Build()
        == VectorField.Flat(base, FlatVectorOptions(None));
    AliasExampleParts(base);
    JoinAliasParts("AS", "custom_alias", "VECTOR", "FLAT", "6", "TYPE", "FLOAT32", "DIM", "2", "DISTANCE_METRIC", "L2", "INDEXMISSING");
  }

  lemma AliasExampleParts(base: SchemaVectorField)
    requires base == SchemaVectorField(BaseSchemaField(FieldType.Vector, Some("custom_alias"), true), VectorAlgorithm.Flat, VectorType.Float32, 2, L2)
    ensures var v := VectorField.Flat(base, FlatVectorOptions(None));
      && SchemaVectorArgs(base) == ["AS", "custom_alias", "VECTOR", "FLAT"]
      && AttributeArgs(base) == ["TYPE", "FLOAT32", "DIM", "2", "DISTANCE_METRIC", "L2"]
      && VectorOptionsArgs(v) == []
      && NatToString(VectorCount(v)) == "6"
      && IndexMissingArgs(base.base.indexMissing) == ["INDEXMISSING"]
  {
    assert U32Token(2) == "2";
    assert FlatOptionsArgs(FlatVectorOptions(None)) == [];
    assert NatToString(6) == "6";
  }

  lemma JoinAliasParts<T>(a: T, b: T, c: T, d: T, e: T, f: T, g: T, h: T, i: T, j: T, k: T, l: T)
    ensures [a, b, c, d] + [e] + [f, g, h, i, j, k] + [] + [l] == [a, b, c, d, e, f, g, h, i, j, k, l]
  {
  }

  /** REDUCE is ignored under LVQ8, and clamped to DIM - 1 and to 1 under LeanVec4x8. */
  lemma VamanaReduceExample(b: VamanaVectorFieldBuilder)
    requires NewVamanaVectorField(VamanaVectorType.Float32, 1024, Cosine) == Success(b)
    ensures b.Compression(LVQ8).Reduce(512).reduce.None?
    ensures b.Compression(LVQ8).Reduce(512).Compression(LeanVec4x8).Reduce(512).reduce == Some(512)
    ensures b.Compression(LeanVec4x8).Reduce(1024).reduce == Some(1023)
    ensures b.Compression(LeanVec4x8).Reduce(0).reduce == Some(1)
    ensures b.Compression(LeanVec4x8).TrainingThreshold(100 * 1024 + 1).trainingThreshold == Some(102400)
    ensures b.TrainingThreshold(2048).Build().vamana == VamanaVectorOptions(None, None, None, None, None, None, None)
  {
  }
}
