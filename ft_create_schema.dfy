// The FT.CREATE schema: a field definition is one of the field kinds (or a bare type
// keyword), and a schema is the list of (field name, definition) pairs, written name
// first, in insertion order, duplicates included.
module FtCreateSchema {
  import opened Wrappers
  import opened RedisArgs
  import opened ArgLayout
  import opened FtCreateTypes
  import opened FtCreateFields
  import opened FtCreateVectors

  // ---------------------------------------------------------------- field definitions

  datatype FieldDefinition =
    | Text(text: SchemaTextField)
    | Numeric(numeric: SchemaNumericField)
    | Geo(geo: SchemaGeoField)
    | Tag(tag: SchemaTagField)
    | Vector(vector: VectorField)
    | GeoShape(geoShape: SchemaGeoShapeField)
    | JustType(fieldType: FieldType)
  {
    /** What the field constructors and setters build: every kind carries its own type. */
    predicate Valid()
    {
      match this
      case Text(f) => f.Valid()
      case Numeric(f) => f.Valid()
      case Geo(f) => f.Valid()
      case Tag(f) => f.Valid()
      case Vector(v) => v.Valid()
      case GeoShape(f) => f.Valid()
      case JustType(_) => true
    }
  }

  /** The tokens `FieldDefinition::write_redis_args` writes: those of the field it wraps. */
  function FieldArgs(d: FieldDefinition): seq<string>
  {
    match d
    case Text(f) => TextFieldArgs(f)
    case Numeric(f) => PlainFieldArgs(f.common)
    case Geo(f) => PlainFieldArgs(f.common)
    case Tag(f) => TagFieldArgs(f)
    case Vector(v) => VectorFieldArgs(v)
    case GeoShape(f) => GeoShapeFieldArgs(f)
    case JustType(t) => [FieldTypeToken(t)]
  }

  method WriteField(d: FieldDefinition, out: ArgWriter)
    modifies out
    ensures out.args == old(out.args) + FieldArgs(d)
  {
    match d
    case Text(f) =>
      assert FieldArgs(d) == TextFieldArgs(f);
      WriteTextField(f, out);
    case Numeric(f) =>
      assert FieldArgs(d) == PlainFieldArgs(f.common);
      WritePlainField(f.common, out);
    case Geo(f) =>
      assert FieldArgs(d) == PlainFieldArgs(f.common);
      WritePlainField(f.common, out);
    case Tag(f) =>
      assert FieldArgs(d) == TagFieldArgs(f);
      WriteTagField(f, out);
    case Vector(v) =>
      assert FieldArgs(d) == VectorFieldArgs(v);
      WriteVectorField(v, out);
    case GeoShape(f) =>
      assert FieldArgs(d) == GeoShapeFieldArgs(f);
      WriteGeoShapeField(f, out);
    case JustType(t) => out.WriteArg(FieldTypeToken(t));
  }

  /**
   * A bare TEXT, TAG, NUMERIC or GEO keyword is what the default builder of that kind
   * writes, so the tokens cannot tell the two apart; this picks the builder reading.
   */
  function Normalize(d: FieldDefinition): (r: FieldDefinition)
    ensures !d.JustType? ==> r == d
    ensures r.JustType? <==> d.JustType? && !d.fieldType.IsSortable()
    ensures d.Valid() ==> r.Valid()
  {
    if !d.JustType? then d
    else
      match d.fieldType
      case Text => FieldDefinition.Text(NewTextField())
      case Tag => FieldDefinition.Tag(NewTagField())
      case Numeric => FieldDefinition.Numeric(NewNumericField())
      case Geo => FieldDefinition.Geo(NewGeoField())
      case _ => d
  }

  /** Reads the tokens of exactly one field definition; the type keyword says which kind. */
  function ParseField(ts: seq<string>): Option<FieldDefinition>
  {
    var k := if |ts| > 0 && ts[0] == "AS" then 2 else 0;
    if |ts| <= k then None
    else
      var t :- ParseFieldType(ts[k]);
      FieldParser(t)(ts)
  }

  /** The reader of each field type (a bare VECTOR or GEOSHAPE keyword is read as itself). */
  function FieldParser(t: FieldType): seq<string> -> Option<FieldDefinition>
  {
    match t
    case Text => ParseTextDefinition
    case Tag => ParseTagDefinition
    case Numeric => ParseNumericDefinition
    case Geo => ParseGeoDefinition
    case Vector => ParseVectorDefinition
    case GeoShape => ParseGeoShapeDefinition
  }

  function ParseTextDefinition(ts: seq<string>): Option<FieldDefinition>
  {
    var f :- ParseTextField(ts);
    Some(FieldDefinition.Text(f))
  }

  function ParseTagDefinition(ts: seq<string>): Option<FieldDefinition>
  {
    var f :- ParseTagField(ts);
    Some(FieldDefinition.Tag(f))
  }

  function ParseNumericDefinition(ts: seq<string>): Option<FieldDefinition>
  {
    var c :- ParsePlainField(FieldType.Numeric, ts);
    Some(FieldDefinition.Numeric(SchemaNumericField(c)))
  }

  function ParseGeoDefinition(ts: seq<string>): Option<FieldDefinition>
  {
    var c :- ParsePlainField(FieldType.Geo, ts);
    Some(FieldDefinition.Geo(SchemaGeoField(c)))
  }

  function ParseVectorDefinition(ts: seq<string>): Option<FieldDefinition>
  {
    if ts == ["VECTOR"] then Some(JustType(FieldType.Vector))
    else
      var v :- ParseVectorField(ts);
      Some(FieldDefinition.Vector(v))
  }

  function ParseGeoShapeDefinition(ts: seq<string>): Option<FieldDefinition>
  {
    if ts == ["GEOSHAPE"] then Some(JustType(FieldType.GeoShape))
    else
      var f :- ParseGeoShapeField(ts);
      Some(FieldDefinition.GeoShape(f))
  }

  /** The default TEXT, TAG, NUMERIC and GEO builders write nothing but their type keyword. */
  lemma DefaultFieldsWriteType()
    ensures TextFieldArgs(NewTextField()) == ["TEXT"]
    ensures TagFieldArgs(NewTagField()) == ["TAG"]
    ensures PlainFieldArgs(NewNumericField().common) == ["NUMERIC"]
    ensures PlainFieldArgs(NewGeoField().common) == ["GEO"]
  {
    EmitNothing(TextLayout, TextClauses(NewTextField()));
    EmitNothing(TagLayout, TagClauses(NewTagField()));
    EmitNothing(CommonLayout, CommonClauses(NewTextField().common));
    EmitNothing(CommonLayout, CommonClauses(NewTagField().common));
    EmitNothing(CommonLayout, CommonClauses(NewNumericField().common));
    EmitNothing(CommonLayout, CommonClauses(NewGeoField().common));
  }

  /** Normalising never changes what a definition writes. */
  lemma NormalizeKeepsTokens(d: FieldDefinition)
    ensures FieldArgs(Normalize(d)) == FieldArgs(d)
    ensures d.Valid() ==> Normalize(d).Valid()
  {
    if d.JustType? {
      DefaultFieldsWriteType();
      match d.fieldType
      case Text =>
      case Tag =>
      case Numeric =>
      case Geo =>
      case Vector =>
      case GeoShape =>
    }
  }

  /** A bare type keyword reads back as the default builder of its kind, or as itself. */
  lemma JustTypeRoundTrip(t: FieldType)
    ensures ParseField([FieldTypeToken(t)]) == Some(Normalize(JustType(t)))
  {
    DefaultFieldsWriteType();
    match t
    case Text => TextFieldRoundTrip(NewTextField());
    case Tag => TagFieldRoundTrip(NewTagField());
    case Numeric => PlainFieldRoundTrip(NewNumericField().common);
    case Geo => PlainFieldRoundTrip(NewGeoField().common);
    case Vector =>
    case GeoShape =>
  }

  /** In tokens that start with a field's base, the type keyword sits after any alias. */
  lemma TypeKeywordOfBase(b: BaseSchemaField, rest: seq<string>)
    ensures var ts := BaseArgs(b) + rest;
      var k := if |ts| > 0 && ts[0] == "AS" then 2 else 0;
      |ts| > k && ts[k] == FieldTypeToken(b.fieldType)
  {
    BaseArgsShape(b);
    FieldTypeTokenIsNotBaseKeyword(b.fieldType);
  }

  lemma TextRoundTrip(f: SchemaTextField)
    requires f.Valid()
    ensures ParseField(TextFieldArgs(f)) == Some(FieldDefinition.Text(f))
    ensures ParseField(FieldArgs(FieldDefinition.Text(f))) == Some(Normalize(FieldDefinition.Text(f)))
  {
    TypeKeywordOfBase(f.common.base, TextOwnArgs(f) + CommonArgs(f.common));
    ConcatAssoc(BaseArgs(f.common.base), TextOwnArgs(f), CommonArgs(f.common));
    TextFieldRoundTrip(f);
  }

  lemma TagRoundTrip(f: SchemaTagField)
    requires f.Valid()
    ensures ParseField(TagFieldArgs(f)) == Some(FieldDefinition.Tag(f))
    ensures ParseField(FieldArgs(FieldDefinition.Tag(f))) == Some(Normalize(FieldDefinition.Tag(f)))
  {
    TypeKeywordOfBase(f.common.base, TagOwnArgs(f) + CommonArgs(f.common));
    ConcatAssoc(BaseArgs(f.common.base), TagOwnArgs(f), CommonArgs(f.common));
    TagFieldRoundTrip(f);
  }

  lemma NumericRoundTrip(f: SchemaNumericField)
    requires f.Valid()
    ensures ParseField(PlainFieldArgs(f.common)) == Some(FieldDefinition.Numeric(f))
    ensures ParseField(FieldArgs(FieldDefinition.Numeric(f))) == Some(Normalize(FieldDefinition.Numeric(f)))
  {
    TypeKeywordOfBase(f.common.base, CommonArgs(f.common));
    PlainFieldRoundTrip(f.common);
  }

  lemma GeoRoundTrip(f: SchemaGeoField)
    requires f.Valid()
    ensures ParseField(PlainFieldArgs(f.common)) == Some(FieldDefinition.Geo(f))
    ensures ParseField(FieldArgs(FieldDefinition.Geo(f))) == Some(Normalize(FieldDefinition.Geo(f)))
  {
    TypeKeywordOfBase(f.common.base, CommonArgs(f.common));
    PlainFieldRoundTrip(f.common);
  }

  lemma VectorRoundTrip(v: VectorField)
    requires v.Valid()
    ensures ParseField(VectorFieldArgs(v)) == Some(FieldDefinition.Vector(v))
    ensures ParseField(FieldArgs(FieldDefinition.Vector(v))) == Some(Normalize(FieldDefinition.Vector(v)))
  {
    var ts := VectorFieldArgs(v);
    AlgorithmFollowsType(v);
    FieldTypeRoundTrip(FieldType.Vector);
    VectorFieldRoundTrip(v);
    VectorDefinitionRead(ts, v);
    ParseFieldDispatch(ts, FieldType.Vector);
  }

  /** Tokens whose type keyword reads as `t` are read by the reader of `t`. */
  lemma ParseFieldDispatch(ts: seq<string>, t: FieldType)
    requires var k := if |ts| > 0 && ts[0] == "AS" then 2 else 0;
      |ts| > k && ParseFieldType(ts[k]) == Some(t)
    ensures ParseField(ts) == FieldParser(t)(ts)
  {
  }

  /** More than a bare VECTOR keyword is read as the vector field it holds. */
  lemma VectorDefinitionRead(ts: seq<string>, v: VectorField)
    requires |ts| >= 2 && ParseVectorField(ts) == Some(v)
    ensures ParseVectorDefinition(ts) == Some(FieldDefinition.Vector(v))
  {
  }

  lemma GeoShapeRoundTrip(f: SchemaGeoShapeField)
    requires f.Valid()
    ensures ParseField(GeoShapeFieldArgs(f)) == Some(FieldDefinition.GeoShape(f))
    ensures ParseField(FieldArgs(FieldDefinition.GeoShape(f))) == Some(Normalize(FieldDefinition.GeoShape(f)))
  {
    var ts := GeoShapeFieldArgs(f);
    GeoShapeCoordFollowsType(f);
    FieldTypeRoundTrip(FieldType.GeoShape);
    GeoShapeFieldRoundTrip(f);
    GeoShapeDefinitionRead(ts, f);
    ParseFieldDispatch(ts, FieldType.GeoShape);
  }

  /** More than a bare GEOSHAPE keyword is read as the GEOSHAPE field it holds. */
  lemma GeoShapeDefinitionRead(ts: seq<string>, f: SchemaGeoShapeField)
    requires |ts| >= 2 && ParseGeoShapeField(ts) == Some(f)
    ensures ParseGeoShapeDefinition(ts) == Some(FieldDefinition.GeoShape(f))
  {
  }

  /** Every field definition is read back from its tokens, up to the bare-keyword reading. */
  lemma FieldRoundTrip(d: FieldDefinition)
    requires d.Valid()
    ensures ParseField(FieldArgs(d)) == Some(Normalize(d))
  {
    match d
    case Text(f) => TextRoundTrip(f);
    case Tag(f) => TagRoundTrip(f);
    case Numeric(f) => NumericRoundTrip(f);
    case Geo(f) => GeoRoundTrip(f);
    case Vector(v) => VectorRoundTrip(v);
    case GeoShape(f) => GeoShapeRoundTrip(f);
    case JustType(t) => assert FieldArgs(d) == [FieldTypeToken(t)]; JustTypeRoundTrip(t);
  }

  // ---------------------------------------------------------------- the schema

  /** One schema entry: the document attribute name and how to index it. */
  type SchemaEntry = (string, FieldDefinition)

  /** The tokens `RediSearchSchema::write_redis_args` writes: each name, then its field. */
  function SchemaArgs(entries: seq<SchemaEntry>): seq<string>
    decreases |entries|
  {
    if entries == [] then []
    else
      var last := entries[|entries| - 1];
      SchemaArgs(entries[..|entries| - 1]) + [last.0] + FieldArgs(last.1)
  }

  /** `RediSearchSchema::write_redis_args` over the schema's entries. */
  method WriteSchema(entries: seq<SchemaEntry>, out: ArgWriter)
    modifies out
    ensures out.args == old(out.args) + SchemaArgs(entries)
  {
    for i := 0 to |entries|
      invariant out.args == old(out.args) + SchemaArgs(entries[..i])
    {
      var (key, field) := entries[i];
      out.WriteArg(key);
      WriteField(field, out);
      assert entries[..i + 1][..i] == entries[..i];
      ConcatAssoc(old(out.args), SchemaArgs(entries[..i]) + [key], FieldArgs(field));
      ConcatAssoc(old(out.args), SchemaArgs(entries[..i]), [key]);
    }
    assert entries[..|entries|] == entries;
  }

  /** The tokens of two schemas written one after the other are those of the joined schema. */
  lemma {:induction false} SchemaArgsAppend(a: seq<SchemaEntry>, b: seq<SchemaEntry>)
    ensures SchemaArgs(a + b) == SchemaArgs(a) + SchemaArgs(b)
    decreases |b|
  {
    if b == [] {
      assert a + b == a;
    } else {
      var init := b[..|b| - 1];
      var last := b[|b| - 1];
      assert (a + b)[..|a + b| - 1] == a + init;
      assert (a + b)[|a + b| - 1] == last;
      SchemaArgsAppend(a, init);
      ConcatAssoc(SchemaArgs(a), SchemaArgs(init), [last.0]);
      ConcatAssoc(SchemaArgs(a), SchemaArgs(init) + [last.0], FieldArgs(last.1));
    }
  }

  /**
   * Entry `i` is written in place: after the tokens of the entries before it come its name
   * and its field, then the tokens of the entries after it. Nothing is merged or dropped,
   * so an entry whose name repeats an earlier one is written again.
   */
  lemma SchemaEntryAt(entries: seq<SchemaEntry>, i: nat)
    requires i < |entries|
    ensures SchemaArgs(entries) == SchemaArgs(entries[..i]) + [entries[i].0] + FieldArgs(entries[i].1) + SchemaArgs(entries[i + 1..])
  {
    var before := entries[..i] + [entries[i]];
    SplitAt(entries, i);
    assert entries[i] == (entries[i].0, entries[i].1);
    InsertAppendsTokens(entries[..i], entries[i].0, entries[i].1);
    SchemaArgsAppend(before, entries[i + 1..]);
  }

  lemma SplitAt<T>(s: seq<T>, i: nat)
    requires i < |s|
    ensures s == (s[..i] + [s[i]]) + s[i + 1..]
  {
  }

  /** `RediSearchSchema`: the field list that `insert` pushes onto in place. */
  class RediSearchSchema {
    var entries: seq<SchemaEntry>

    /** `RediSearchSchema::new`. */
    constructor ()
      ensures entries == []
    {
      entries := [];
    }

    /** `insert`: appends the pair, keeping any earlier entry with the same name. */
    method Insert(key: string, value: FieldDefinition)
      modifies this
      ensures entries == old(entries) + [(key, value)]
    {
      entries := entries + [(key, value)];
    }

    function IsEmpty(): (r: bool)
      reads this
      ensures r <==> |entries| == 0
    {
      entries == []
    }
  }

  /** `insert` appends exactly the name and field tokens to what the schema writes. */
  lemma InsertAppendsTokens(entries: seq<SchemaEntry>, key: string, value: FieldDefinition)
    ensures SchemaArgs(entries + [(key, value)]) == SchemaArgs(entries) + [key] + FieldArgs(value)
  {
    SchemaArgsAppend(entries, [(key, value)]);
    assert [(key, value)][..0] == [];
  }

  /** The dual-index example: one attribute indexed as TEXT and as TAG under two aliases. */
  lemma DualIndexExample()
    ensures SchemaArgs([("sku", FieldDefinition.Text(NewTextField().Alias("sku_text"))),
                        ("sku", FieldDefinition.Tag(NewTagField().Alias("sku_tag").WithSortable(Sortable.Yes)))])
         == ["sku", "AS", "sku_text", "TEXT", "sku", "AS", "sku_tag", "TAG", "SORTABLE"]
  {
    var text := NewTextField().Alias("sku_text");
    var tag := NewTagField().Alias("sku_tag").WithSortable(Sortable.Yes);
    var first := ("sku", FieldDefinition.Text(text));
    var second := ("sku", FieldDefinition.Tag(tag));
    EmitNothing(TextLayout, TextClauses(text));
    EmitNothing(CommonLayout, CommonClauses(text.common));
    EmitNothing(TagLayout, TagClauses(tag));
    assert FieldArgs(first.1) == ["AS", "sku_text", "TEXT"];
    assert FieldArgs(second.1) == ["AS", "sku_tag", "TAG", "SORTABLE"];
    InsertAppendsTokens([], "sku", first.1);
    assert [] + [first] == [first];
    InsertAppendsTokens([first], "sku", second.1);
    assert [first] + [second] == [first, second];
    TwoEntriesJoin("sku", "AS", "sku_text", "TEXT", "sku", "AS", "sku_tag", "TAG", "SORTABLE");
  }

  lemma TwoEntriesJoin<T>(a: T, b: T, c: T, d: T, e: T, f: T, g: T, h: T, i: T)
    ensures ([] + [a] + [b, c, d]) + [e] + [f, g, h, i] == [a, b, c, d, e, f, g, h, i]
  {
  }
}
