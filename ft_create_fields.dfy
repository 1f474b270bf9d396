// The schema field kinds of FT.CREATE other than vectors: the field type keyword, the
// clauses every field shares (alias, INDEXMISSING, SORTABLE [UNF], NOINDEX) and the
// TEXT, TAG, NUMERIC, GEO and GEOSHAPE builders with their serialisers. Each field writes
// `[AS alias] TYPE [INDEXMISSING] <own clauses> [SORTABLE [UNF]] [NOINDEX]`, except GEOSHAPE,
// whose coordinate system follows the type keyword directly.
module FtCreateFields {
  import opened Wrappers
  import opened RedisArgs
  import opened ArgLayout
  import opened FtCreateTypes

  // ---------------------------------------------------------------- field type

  datatype FieldType = Text | Tag | Numeric | Geo | Vector | GeoShape
  {
    /** `is_sortable`: the kinds that accept SORTABLE; VECTOR and GEOSHAPE are the two that do not. */
    predicate IsSortable(): (r: bool)
      ensures r <==> !(Vector? || GeoShape?)
    {
      Text? || Tag? || Numeric? || Geo?
    }
  }

  function FieldTypeToken(t: FieldType): string
  {
    match t
    case Text => "TEXT"
    case Tag => "TAG"
    case Numeric => "NUMERIC"
    case Geo => "GEO"
    case Vector => "VECTOR"
    case GeoShape => "GEOSHAPE"
  }

  function ParseFieldType(s: string): Option<FieldType>
  {
    if s == "TEXT" then Some(FieldType.Text)
    else if s == "TAG" then Some(FieldType.Tag)
    else if s == "NUMERIC" then Some(FieldType.Numeric)
    else if s == "GEO" then Some(FieldType.Geo)
    else if s == "VECTOR" then Some(FieldType.Vector)
    else if s == "GEOSHAPE" then Some(FieldType.GeoShape)
    else None
  }

  lemma FieldTypeRoundTrip(t: FieldType)
    ensures ParseFieldType(FieldTypeToken(t)) == Some(t)
  {
  }

  /** No field type keyword is `AS` or `INDEXMISSING`, the keywords around it. */
  lemma FieldTypeTokenIsNotBaseKeyword(t: FieldType)
    ensures FieldTypeToken(t) != "AS" && FieldTypeToken(t) != "INDEXMISSING"
  {
  }

  datatype Sortable = Yes | Unf

  datatype Phonetic = DmEn | DmFr | DmPt | DmEs

  function PhoneticToken(p: Phonetic): string
  {
    match p
    case DmEn => "dm:en"
    case DmFr => "dm:fr"
    case DmPt => "dm:pt"
    case DmEs => "dm:es"
  }

  function ParsePhonetic(s: string): Option<Phonetic>
  {
    if s == "dm:en" then Some(DmEn)
    else if s == "dm:fr" then Some(DmFr)
    else if s == "dm:pt" then Some(DmPt)
    else if s == "dm:es" then Some(DmEs)
    else None
  }

  lemma PhoneticRoundTrip(p: Phonetic)
    ensures ParsePhonetic(PhoneticToken(p)) == Some(p)
  {
  }

  // ---------------------------------------------------------------- base and common clauses

  datatype BaseSchemaField = BaseSchemaField(fieldType: FieldType, alias: Option<string>, indexMissing: bool)
  {
    function Alias(a: string): (r: BaseSchemaField)
      ensures r.alias == Some(a) && r.fieldType == fieldType && r.indexMissing == indexMissing
    {
      this.(alias := Some(a))
    }

    function IndexMissing(b: bool): (r: BaseSchemaField)
      ensures r.indexMissing == b && r.fieldType == fieldType && r.alias == alias
    {
      this.(indexMissing := b)
    }
  }

  /** `BaseSchemaField::new`: the type, no alias, INDEXMISSING off. */
  function NewBaseSchemaField(t: FieldType): (r: BaseSchemaField)
    ensures r.fieldType == t && r.alias.None? && !r.indexMissing
  {
    BaseSchemaField(t, None, false)
  }

  /** `[AS alias] TYPE [INDEXMISSING]`. */
  function BaseLayout(t: FieldType): seq<Slot>
  {
    [Slot("AS", Fixed(1)), Slot(FieldTypeToken(t), Fixed(0)), Slot("INDEXMISSING", Fixed(0))]
  }

  function BaseClauses(b: BaseSchemaField): seq<Clause>
  {
    [ValueClause(b.alias, Verbatim), Present([]), FlagClause(b.indexMissing)]
  }

  /** The tokens `BaseSchemaField::write_redis_args` writes. */
  function BaseArgs(b: BaseSchemaField): seq<string>
  {
    OptionPair("AS", b.alias, Verbatim) + ([FieldTypeToken(b.fieldType)] + FlagArg("INDEXMISSING", b.indexMissing))
  }

  lemma BaseArgsAsLayout(b: BaseSchemaField)
    ensures BaseArgs(b) == Emit(BaseLayout(b.fieldType), BaseClauses(b))
  {
    Emit3(Slot("AS", Fixed(1)), Slot(FieldTypeToken(b.fieldType), Fixed(0)), Slot("INDEXMISSING", Fixed(0)),
      ValueClause(b.alias, Verbatim), Present([]), FlagClause(b.indexMissing));
    OptionPairIsClause("AS", b.alias, Verbatim);
    FlagArgIsClause("INDEXMISSING", b.indexMissing);
  }

  method WriteBase(b: BaseSchemaField, out: ArgWriter)
    modifies out
    ensures out.args == old(out.args) + BaseArgs(b)
  {
    WriteLayout(BaseLayout(b.fieldType), BaseClauses(b), out);
    BaseArgsAsLayout(b);
  }

  function DecodeBase(t: FieldType, cs: seq<Clause>): Option<BaseSchemaField>
    requires |cs| == 3
  {
    var alias :- DecodeValue(cs[0], ParseVerbatim);
    var indexMissing :- DecodeFlag(cs[2]);
    if cs[1] != Present([]) then None else Some(BaseSchemaField(t, alias, indexMissing))
  }

  lemma BaseLayoutWellFormed(b: BaseSchemaField)
    ensures DistinctKeywords(BaseLayout(b.fieldType)) && FitsAll(BaseLayout(b.fieldType), BaseClauses(b))
    ensures DecodeBase(b.fieldType, BaseClauses(b)) == Some(b)
  {
    FieldTypeTokenIsNotBaseKeyword(b.fieldType);
    DecodeValueClause(b.alias, Verbatim, ParseVerbatim);
  }

  /** The type keyword is the first token, or the third after `AS alias`. */
  lemma BaseArgsShape(b: BaseSchemaField)
    ensures match b.alias
      case None => BaseArgs(b) == [FieldTypeToken(b.fieldType)] + (if b.indexMissing then ["INDEXMISSING"] else [])
      case Some(a) => BaseArgs(b) == ["AS", a, FieldTypeToken(b.fieldType)] + (if b.indexMissing then ["INDEXMISSING"] else [])
  {
    if b.alias.Some? {
      assert ["AS", b.alias.value] + ([FieldTypeToken(b.fieldType)] + FlagArg("INDEXMISSING", b.indexMissing))
          == ["AS", b.alias.value, FieldTypeToken(b.fieldType)] + FlagArg("INDEXMISSING", b.indexMissing);
    }
  }

  datatype SchemaCommonField = SchemaCommonField(base: BaseSchemaField, sortable: Option<Sortable>, noIndex: bool)
  {
    /** `sortable`: only types that are sortable reach this; any other is `unreachable!`. */
    function WithSortable(s: Sortable): (r: SchemaCommonField)
      requires base.fieldType.IsSortable()
      ensures r.sortable == Some(s) && r.base == base && r.noIndex == noIndex
    {
      this.(sortable := Some(s))
    }

    function NoIndex(b: bool): (r: SchemaCommonField)
      ensures r.noIndex == b && r.base == base && r.sortable == sortable
    {
      this.(noIndex := b)
    }

    /** The alias and INDEXMISSING live in the base; the type there is kept. */
    function Alias(a: string): (r: SchemaCommonField)
      ensures r.base == base.Alias(a) && r.sortable == sortable && r.noIndex == noIndex
      ensures r.base.fieldType == base.fieldType
    {
      this.(base := base.Alias(a))
    }

    function IndexMissing(b: bool): (r: SchemaCommonField)
      ensures r.base == base.IndexMissing(b) && r.sortable == sortable && r.noIndex == noIndex
      ensures r.base.fieldType == base.fieldType
    {
      this.(base := base.IndexMissing(b))
    }
  }

  /** `SchemaCommonField::new`: a new base of that type, neither SORTABLE nor NOINDEX. */
  function NewSchemaCommonField(t: FieldType): (r: SchemaCommonField)
    ensures r.base == NewBaseSchemaField(t) && r.sortable.None? && !r.noIndex
  {
    SchemaCommonField(NewBaseSchemaField(t), None, false)
  }

  /** `[SORTABLE [UNF]] [NOINDEX]`. */
  const CommonLayout: seq<Slot> := [Slot("SORTABLE", Fixed(0)), Slot("UNF", Fixed(0)), Slot("NOINDEX", Fixed(0))]

  function CommonClauses(c: SchemaCommonField): seq<Clause>
  {
    [FlagClause(c.sortable.Some?), FlagClause(c.sortable == Some(Unf)), FlagClause(c.noIndex)]
  }

  /** The tokens `SchemaCommonField::write_redis_args` writes. */
  function CommonArgs(c: SchemaCommonField): seq<string>
  {
    FlagArg("SORTABLE", c.sortable.Some?) + (FlagArg("UNF", c.sortable == Some(Unf)) + FlagArg("NOINDEX", c.noIndex))
  }

  lemma CommonArgsAsLayout(c: SchemaCommonField)
    ensures CommonArgs(c) == Emit(CommonLayout, CommonClauses(c))
  {
    Emit3(Slot("SORTABLE", Fixed(0)), Slot("UNF", Fixed(0)), Slot("NOINDEX", Fixed(0)),
      FlagClause(c.sortable.Some?), FlagClause(c.sortable == Some(Unf)), FlagClause(c.noIndex));
    FlagArgIsClause("SORTABLE", c.sortable.Some?);
    FlagArgIsClause("UNF", c.sortable == Some(Unf));
    FlagArgIsClause("NOINDEX", c.noIndex);
  }

  method WriteCommon(c: SchemaCommonField, out: ArgWriter)
    modifies out
    ensures out.args == old(out.args) + CommonArgs(c)
  {
    WriteLayout(CommonLayout, CommonClauses(c), out);
    CommonArgsAsLayout(c);
  }

  /** Reads the shared clauses back; `UNF` without `SORTABLE` is not something a field writes. */
  function DecodeCommon(base: BaseSchemaField, cs: seq<Clause>): Option<SchemaCommonField>
    requires |cs| == 3
  {
    var sortable :- DecodeFlag(cs[0]);
    var unf :- DecodeFlag(cs[1]);
    var noIndex :- DecodeFlag(cs[2]);
    if unf && !sortable then None
    else Some(SchemaCommonField(base, if !sortable then None else if unf then Some(Unf) else Some(Yes), noIndex))
  }

  lemma CommonLayoutWellFormed(c: SchemaCommonField)
    ensures DistinctKeywords(CommonLayout) && FitsAll(CommonLayout, CommonClauses(c))
    ensures DecodeCommon(c.base, CommonClauses(c)) == Some(c)
  {
    match c.sortable
    case None =>
    case Some(s) =>
      match s
      case Yes =>
      case Unf =>
  }

  /** Clause `k` of a three-part clause list, read back from its part. */
  lemma PartsOf<T>(c1: seq<T>, c2: seq<T>, c3: seq<T>)
    ensures var cs := c1 + c2 + c3;
      && cs[..|c1|] == c1 && cs[|c1|..|c1| + |c2|] == c2 && cs[|c1| + |c2|..] == c3
  {
    var cs := c1 + c2 + c3;
    assert cs[..|c1|] == c1;
    assert cs[|c1|..|c1| + |c2|] == c2;
    assert cs[|c1| + |c2|..] == c3;
  }

  /** The base layout of `t` shares no keyword with a layout whose keywords are not type names. */
  predicate FreeOfBaseKeywords(l: seq<Slot>)
  {
    forall j :: 0 <= j < |l| ==> l[j].keyword != "AS" && l[j].keyword != "INDEXMISSING" && ParseFieldType(l[j].keyword).None?
  }

  lemma BaseDisjoint(t: FieldType, l: seq<Slot>)
    requires FreeOfBaseKeywords(l)
    ensures DisjointKeywords(BaseLayout(t), l)
  {
    forall i, j | 0 <= i < 3 && 0 <= j < |l| ensures BaseLayout(t)[i].keyword != l[j].keyword {
      if i == 1 {
        FieldTypeRoundTrip(t);
      }
    }
  }

  lemma CommonLayoutFree()
    ensures FreeOfBaseKeywords(CommonLayout)
  {
  }

  // ---------------------------------------------------------------- TEXT

  datatype SchemaTextField = SchemaTextField(
    common: SchemaCommonField,
    noStem: bool,
    weight: Option<FloatArg>,
    phonetic: Option<Phonetic>,
    withSuffixTrie: bool,
    indexEmpty: bool)
  {
    /** Built by `SchemaTextField::new` and kept by every setter: the type is TEXT. */
    predicate Valid() { common.base.fieldType == FieldType.Text }

    function NoStem(b: bool): (r: SchemaTextField)
      ensures r.noStem == b && r.(noStem := noStem) == this
      ensures Valid() ==> r.Valid()
    {
      this.(noStem := b)
    }

    function Weight(w: FloatArg): (r: SchemaTextField)
      ensures r.weight == Some(w) && r.(weight := weight) == this
      ensures Valid() ==> r.Valid()
    {
      this.(weight := Some(w))
    }

    function WithPhonetic(p: Phonetic): (r: SchemaTextField)
      ensures r.phonetic == Some(p) && r.(phonetic := phonetic) == this
      ensures Valid() ==> r.Valid()
    {
      this.(phonetic := Some(p))
    }

    function WithSuffixTrie(b: bool): (r: SchemaTextField)
      ensures r.withSuffixTrie == b && r.(withSuffixTrie := withSuffixTrie) == this
      ensures Valid() ==> r.Valid()
    {
      this.(withSuffixTrie := b)
    }

    function IndexEmpty(b: bool): (r: SchemaTextField)
      ensures r.indexEmpty == b && r.(indexEmpty := indexEmpty) == this
      ensures Valid() ==> r.Valid()
    {
      this.(indexEmpty := b)
    }

    function WithSortable(s: Sortable): (r: SchemaTextField)
      requires Valid()
      ensures r.Valid() && r.common == common.WithSortable(s) && r.(common := common) == this
    {
      this.(common := common.WithSortable(s))
    }

    function NoIndex(b: bool): (r: SchemaTextField)
      ensures r.common == common.NoIndex(b) && r.(common := common) == this
      ensures Valid() ==> r.Valid()
    {
      this.(common := common.NoIndex(b))
    }

    function Alias(a: string): (r: SchemaTextField)
      ensures r.common == common.Alias(a) && r.(common := common) == this
      ensures Valid() ==> r.Valid()
    {
      this.(common := common.Alias(a))
    }

    function IndexMissing(b: bool): (r: SchemaTextField)
      ensures r.common == common.IndexMissing(b) && r.(common := common) == this
      ensures Valid() ==> r.Valid()
    {
      this.(common := common.IndexMissing(b))
    }
  }

  function NewTextField(): (f: SchemaTextField)
    ensures f.Valid()
  {
    SchemaTextField(NewSchemaCommonField(FieldType.Text), false, None, None, false, false)
  }

  const TextLayout: seq<Slot> := [
    Slot("NOSTEM", Fixed(0)), Slot("WEIGHT", Fixed(1)), Slot("PHONETIC", Fixed(1)),
    Slot("WITHSUFFIXTRIE", Fixed(0)), Slot("INDEXEMPTY", Fixed(0))]

  function TextClauses(f: SchemaTextField): seq<Clause>
  {
    [FlagClause(f.noStem), ValueClause(f.weight, Verbatim), ValueClause(f.phonetic, PhoneticToken),
     FlagClause(f.withSuffixTrie), FlagClause(f.indexEmpty)]
  }

  /** The TEXT clauses between the base and the shared ones. */
  function TextOwnArgs(f: SchemaTextField): seq<string>
  {
    FlagArg("NOSTEM", f.noStem) + (OptionPair("WEIGHT", f.weight, Verbatim) + (OptionPair("PHONETIC", f.phonetic, PhoneticToken)
      + (FlagArg("WITHSUFFIXTRIE", f.withSuffixTrie) + FlagArg("INDEXEMPTY", f.indexEmpty))))
  }

  lemma TextOwnArgsAsLayout(f: SchemaTextField)
    ensures TextOwnArgs(f) == Emit(TextLayout, TextClauses(f))
  {
    Emit5(Slot("NOSTEM", Fixed(0)), Slot("WEIGHT", Fixed(1)), Slot("PHONETIC", Fixed(1)),
      Slot("WITHSUFFIXTRIE", Fixed(0)), Slot("INDEXEMPTY", Fixed(0)),
      FlagClause(f.noStem), ValueClause(f.weight, Verbatim), ValueClause(f.phonetic, PhoneticToken),
      FlagClause(f.withSuffixTrie), FlagClause(f.indexEmpty));
    FlagArgIsClause("NOSTEM", f.noStem);
    OptionPairIsClause("WEIGHT", f.weight, Verbatim);
    OptionPairIsClause("PHONETIC", f.phonetic, PhoneticToken);
    FlagArgIsClause("WITHSUFFIXTRIE", f.withSuffixTrie);
    FlagArgIsClause("INDEXEMPTY", f.indexEmpty);
  }

  /** The tokens `SchemaTextField::write_redis_args` writes. */
  function TextFieldArgs(f: SchemaTextField): seq<string>
  {
    BaseArgs(f.common.base) + TextOwnArgs(f) + CommonArgs(f.common)
  }

  method WriteTextField(f: SchemaTextField, out: ArgWriter)
    modifies out
    ensures out.args == old(out.args) + TextFieldArgs(f)
  {
    WriteBase(f.common.base, out);
    WriteLayout(TextLayout, TextClauses(f), out);
    TextOwnArgsAsLayout(f);
    WriteCommon(f.common, out);
    ConcatAssoc(old(out.args), BaseArgs(f.common.base) + TextOwnArgs(f), CommonArgs(f.common));
    ConcatAssoc(old(out.args), BaseArgs(f.common.base), TextOwnArgs(f));
  }

  function DecodeTextField(cs: seq<Clause>): Option<SchemaTextField>
    requires |cs| == 11
  {
    var base :- DecodeBase(FieldType.Text, cs[..3]);
    var noStem :- DecodeFlag(cs[3]);
    var weight :- DecodeValue(cs[4], ParseVerbatim);
    var phonetic :- DecodeValue(cs[5], ParsePhonetic);
    var withSuffixTrie :- DecodeFlag(cs[6]);
    var indexEmpty :- DecodeFlag(cs[7]);
    var common :- DecodeCommon(base, cs[8..]);
    Some(SchemaTextField(common, noStem, weight, phonetic, withSuffixTrie, indexEmpty))
  }

  /** Reads the tokens of exactly one TEXT field. */
  function ParseTextField(ts: seq<string>): Option<SchemaTextField>
  {
    match Parse(BaseLayout(FieldType.Text) + TextLayout + CommonLayout, ts)
    case Some((cs, rest)) => if |cs| == 11 && rest == [] then DecodeTextField(cs) else None
    case None => None
  }

  lemma TextLayoutDistinct()
    ensures DistinctKeywords(TextLayout)
  {
  }

  lemma TextLayoutFree()
    ensures FreeOfBaseKeywords(TextLayout)
  {
  }

  lemma TextCommonDisjoint()
    ensures DisjointKeywords(TextLayout, CommonLayout)
  {
  }

  lemma TextClausesFit(f: SchemaTextField)
    ensures FitsAll(TextLayout, TextClauses(f))
  {
  }

  lemma DecodeTextClauses(f: SchemaTextField)
    ensures var cs := TextClauses(f);
      && DecodeFlag(cs[0]) == Some(f.noStem)
      && DecodeValue(cs[1], ParseVerbatim) == Some(f.weight)
      && DecodeValue(cs[2], ParsePhonetic) == Some(f.phonetic)
      && DecodeFlag(cs[3]) == Some(f.withSuffixTrie)
      && DecodeFlag(cs[4]) == Some(f.indexEmpty)
  {
    DecodeValueClause(f.weight, Verbatim, ParseVerbatim);
    if f.phonetic.Some? {
      PhoneticRoundTrip(f.phonetic.value);
    }
    DecodeValueClause(f.phonetic, PhoneticToken, ParsePhonetic);
  }

  /** The tokens of a TEXT field parse back to its clauses, with nothing left over. */
  lemma TextFieldClausesParsed(f: SchemaTextField)
    ensures Parse(BaseLayout(f.common.base.fieldType) + TextLayout + CommonLayout, TextFieldArgs(f))
         == Some((BaseClauses(f.common.base) + TextClauses(f) + CommonClauses(f.common), []))
  {
    var b := f.common.base;
    BaseLayoutWellFormed(b);
    TextLayoutDistinct();
    TextLayoutFree();
    TextCommonDisjoint();
    TextClausesFit(f);
    CommonLayoutWellFormed(f.common);
    CommonLayoutFree();
    BaseDisjoint(b.fieldType, TextLayout);
    BaseDisjoint(b.fieldType, CommonLayout);
    BaseArgsAsLayout(b);
    TextOwnArgsAsLayout(f);
    CommonArgsAsLayout(f.common);
    ParseEmit3(BaseLayout(b.fieldType), BaseClauses(b), TextLayout, TextClauses(f), CommonLayout, CommonClauses(f.common));
  }

  /** A TEXT field is recovered from the tokens it writes: nothing is lost or reordered. */
  lemma TextFieldRoundTrip(f: SchemaTextField)
    requires f.Valid()
    ensures ParseTextField(TextFieldArgs(f)) == Some(f)
  {
    var b := f.common.base;
    TextFieldClausesParsed(f);
    BaseLayoutWellFormed(b);
    CommonLayoutWellFormed(f.common);
    PartsOf(BaseClauses(b), TextClauses(f), CommonClauses(f.common));
    DecodeTextClauses(f);
  }

  // ---------------------------------------------------------------- TAG

  datatype SchemaTagField = SchemaTagField(
    common: SchemaCommonField,
    separator: Option<char>,
    caseSensitive: bool,
    withSuffixTrie: bool,
    indexEmpty: bool)
  {
    predicate Valid() { common.base.fieldType == FieldType.Tag }

    function Separator(c: char): (r: SchemaTagField)
      ensures r.separator == Some(c) && r.(separator := separator) == this
      ensures Valid() ==> r.Valid()
    {
      this.(separator := Some(c))
    }

    function CaseSensitive(b: bool): (r: SchemaTagField)
      ensures r.caseSensitive == b && r.(caseSensitive := caseSensitive) == this
      ensures Valid() ==> r.Valid()
    {
      this.(caseSensitive := b)
    }

    function WithSuffixTrie(b: bool): (r: SchemaTagField)
      ensures r.withSuffixTrie == b && r.(withSuffixTrie := withSuffixTrie) == this
      ensures Valid() ==> r.Valid()
    {
      this.(withSuffixTrie := b)
    }

    function IndexEmpty(b: bool): (r: SchemaTagField)
      ensures r.indexEmpty == b && r.(indexEmpty := indexEmpty) == this
      ensures Valid() ==> r.Valid()
    {
      this.(indexEmpty := b)
    }

    function WithSortable(s: Sortable): (r: SchemaTagField)
      requires Valid()
      ensures r.Valid() && r.common == common.WithSortable(s) && r.(common := common) == this
    {
      this.(common := common.WithSortable(s))
    }

    function NoIndex(b: bool): (r: SchemaTagField)
      ensures r.common == common.NoIndex(b) && r.(common := common) == this
      ensures Valid() ==> r.Valid()
    {
      this.(common := common.NoIndex(b))
    }

    function Alias(a: string): (r: SchemaTagField)
      ensures r.common == common.Alias(a) && r.(common := common) == this
      ensures Valid() ==> r.Valid()
    {
      this.(common := common.Alias(a))
    }

    function IndexMissing(b: bool): (r: SchemaTagField)
      ensures r.common == common.IndexMissing(b) && r.(common := common) == this
      ensures Valid() ==> r.Valid()
    {
      this.(common := common.IndexMissing(b))
    }
  }

  function NewTagField(): (f: SchemaTagField)
    ensures f.Valid()
  {
    SchemaTagField(NewSchemaCommonField(FieldType.Tag), None, false, false, false)
  }

  /** The separator character, written as a one-character string. */
  function SeparatorToken(c: char): string { [c] }

  function ParseSeparator(s: string): Option<char>
  {
    if |s| == 1 then Some(s[0]) else None
  }

  const TagLayout: seq<Slot> := [
    Slot("SEPARATOR", Fixed(1)), Slot("CASESENSITIVE", Fixed(0)),
    Slot("WITHSUFFIXTRIE", Fixed(0)), Slot("INDEXEMPTY", Fixed(0))]

  function TagClauses(f: SchemaTagField): seq<Clause>
  {
    [ValueClause(f.separator, SeparatorToken), FlagClause(f.caseSensitive),
     FlagClause(f.withSuffixTrie), FlagClause(f.indexEmpty)]
  }

  /** The TAG clauses between the base and the shared ones. */
  function TagOwnArgs(f: SchemaTagField): seq<string>
  {
    OptionPair("SEPARATOR", f.separator, SeparatorToken) + (FlagArg("CASESENSITIVE", f.caseSensitive)
      + (FlagArg("WITHSUFFIXTRIE", f.withSuffixTrie) + FlagArg("INDEXEMPTY", f.indexEmpty)))
  }

  lemma TagOwnArgsAsLayout(f: SchemaTagField)
    ensures TagOwnArgs(f) == Emit(TagLayout, TagClauses(f))
  {
    Emit4(Slot("SEPARATOR", Fixed(1)), Slot("CASESENSITIVE", Fixed(0)),
      Slot("WITHSUFFIXTRIE", Fixed(0)), Slot("INDEXEMPTY", Fixed(0)),
      ValueClause(f.separator, SeparatorToken), FlagClause(f.caseSensitive),
      FlagClause(f.withSuffixTrie), FlagClause(f.indexEmpty));
    OptionPairIsClause("SEPARATOR", f.separator, SeparatorToken);
    FlagArgIsClause("CASESENSITIVE", f.caseSensitive);
    FlagArgIsClause("WITHSUFFIXTRIE", f.withSuffixTrie);
    FlagArgIsClause("INDEXEMPTY", f.indexEmpty);
  }

  /** The tokens `SchemaTagField::write_redis_args` writes. */
  function TagFieldArgs(f: SchemaTagField): seq<string>
  {
    BaseArgs(f.common.base) + TagOwnArgs(f) + CommonArgs(f.common)
  }

  method WriteTagField(f: SchemaTagField, out: ArgWriter)
    modifies out
    ensures out.args == old(out.args) + TagFieldArgs(f)
  {
    WriteBase(f.common.base, out);
    WriteLayout(TagLayout, TagClauses(f), out);
    TagOwnArgsAsLayout(f);
    WriteCommon(f.common, out);
    ConcatAssoc(old(out.args), BaseArgs(f.common.base) + TagOwnArgs(f), CommonArgs(f.common));
    ConcatAssoc(old(out.args), BaseArgs(f.common.base), TagOwnArgs(f));
  }

  function DecodeTagField(cs: seq<Clause>): Option<SchemaTagField>
    requires |cs| == 10
  {
    var base :- DecodeBase(FieldType.Tag, cs[..3]);
    var separator :- DecodeValue(cs[3], ParseSeparator);
    var caseSensitive :- DecodeFlag(cs[4]);
    var withSuffixTrie :- DecodeFlag(cs[5]);
    var indexEmpty :- DecodeFlag(cs[6]);
    var common :- DecodeCommon(base, cs[7..]);
    Some(SchemaTagField(common, separator, caseSensitive, withSuffixTrie, indexEmpty))
  }

  function ParseTagField(ts: seq<string>): Option<SchemaTagField>
  {
    match Parse(BaseLayout(FieldType.Tag) + TagLayout + CommonLayout, ts)
    case Some((cs, rest)) => if |cs| == 10 && rest == [] then DecodeTagField(cs) else None
    case None => None
  }

  lemma TagLayoutDistinct()
    ensures DistinctKeywords(TagLayout)
  {
  }

  lemma TagLayoutFree()
    ensures FreeOfBaseKeywords(TagLayout)
  {
  }

  lemma TagCommonDisjoint()
    ensures DisjointKeywords(TagLayout, CommonLayout)
  {
  }

  lemma TagClausesFit(f: SchemaTagField)
    ensures FitsAll(TagLayout, TagClauses(f))
  {
  }

  /** The tokens of a TAG field parse back to its clauses, with nothing left over. */
  lemma TagFieldClausesParsed(f: SchemaTagField)
    ensures Parse(BaseLayout(f.common.base.fieldType) + TagLayout + CommonLayout, TagFieldArgs(f))
         == Some((BaseClauses(f.common.base) + TagClauses(f) + CommonClauses(f.common), []))
  {
    var b := f.common.base;
    BaseLayoutWellFormed(b);
    TagLayoutDistinct();
    TagLayoutFree();
    TagCommonDisjoint();
    TagClausesFit(f);
    CommonLayoutWellFormed(f.common);
    CommonLayoutFree();
    BaseDisjoint(b.fieldType, TagLayout);
    BaseDisjoint(b.fieldType, CommonLayout);
    BaseArgsAsLayout(b);
    TagOwnArgsAsLayout(f);
    CommonArgsAsLayout(f.common);
    ParseEmit3(BaseLayout(b.fieldType), BaseClauses(b), TagLayout, TagClauses(f), CommonLayout, CommonClauses(f.common));
  }

  lemma TagFieldRoundTrip(f: SchemaTagField)
    requires f.Valid()
    ensures ParseTagField(TagFieldArgs(f)) == Some(f)
  {
    var b := f.common.base;
    TagFieldClausesParsed(f);
    BaseLayoutWellFormed(b);
    CommonLayoutWellFormed(f.common);
    PartsOf(BaseClauses(b), TagClauses(f), CommonClauses(f.common));
    DecodeValueClause(f.separator, SeparatorToken, ParseSeparator);
  }

  // ---------------------------------------------------------------- NUMERIC and GEO

  datatype SchemaNumericField = SchemaNumericField(common: SchemaCommonField)
  {
    predicate Valid() { common.base.fieldType == FieldType.Numeric }

    function WithSortable(s: Sortable): (r: SchemaNumericField)
      requires Valid()
      ensures r.Valid() && r.common == common.WithSortable(s) && r.(common := common) == this
    {
      this.(common := common.WithSortable(s))
    }

    function NoIndex(b: bool): (r: SchemaNumericField)
      ensures r.common == common.NoIndex(b) && r.(common := common) == this
      ensures Valid() ==> r.Valid()
    {
      this.(common := common.NoIndex(b))
    }

    function Alias(a: string): (r: SchemaNumericField)
      ensures r.common == common.Alias(a) && r.(common := common) == this
      ensures Valid() ==> r.Valid()
    {
      this.(common := common.Alias(a))
    }

    function IndexMissing(b: bool): (r: SchemaNumericField)
      ensures r.common == common.IndexMissing(b) && r.(common := common) == this
      ensures Valid() ==> r.Valid()
    {
      this.(common := common.IndexMissing(b))
    }
  }

  function NewNumericField(): (f: SchemaNumericField)
    ensures f.Valid()
  {
    SchemaNumericField(NewSchemaCommonField(FieldType.Numeric))
  }

  datatype SchemaGeoField = SchemaGeoField(common: SchemaCommonField)
  {
    predicate Valid() { common.base.fieldType == FieldType.Geo }

    function WithSortable(s: Sortable): (r: SchemaGeoField)
      requires Valid()
      ensures r.Valid() && r.common == common.WithSortable(s) && r.(common := common) == this
    {
      this.(common := common.WithSortable(s))
    }

    function NoIndex(b: bool): (r: SchemaGeoField)
      ensures r.common == common.NoIndex(b) && r.(common := common) == this
      ensures Valid() ==> r.Valid()
    {
      this.(common := common.NoIndex(b))
    }

    function Alias(a: string): (r: SchemaGeoField)
      ensures r.common == common.Alias(a) && r.(common := common) == this
      ensures Valid() ==> r.Valid()
    {
      this.(common := common.Alias(a))
    }

    function IndexMissing(b: bool): (r: SchemaGeoField)
      ensures r.common == common.IndexMissing(b) && r.(common := common) == this
      ensures Valid() ==> r.Valid()
    {
      this.(common := common.IndexMissing(b))
    }
  }

  function NewGeoField(): (f: SchemaGeoField)
    ensures f.Valid()
  {
    SchemaGeoField(NewSchemaCommonField(FieldType.Geo))
  }

  /** NUMERIC and GEO write only the base and the shared clauses. */
  function PlainFieldArgs(c: SchemaCommonField): seq<string>
  {
    BaseArgs(c.base) + CommonArgs(c)
  }

  method WritePlainField(c: SchemaCommonField, out: ArgWriter)
    modifies out
    ensures out.args == old(out.args) + PlainFieldArgs(c)
  {
    WriteBase(c.base, out);
    WriteCommon(c, out);
    ConcatAssoc(old(out.args), BaseArgs(c.base), CommonArgs(c));
  }

  function ParsePlainField(t: FieldType, ts: seq<string>): Option<SchemaCommonField>
  {
    match Parse(BaseLayout(t) + CommonLayout, ts)
    case Some((cs, rest)) =>
      if |cs| == 6 && rest == [] then
        var base :- DecodeBase(t, cs[..3]);
        DecodeCommon(base, cs[3..])
      else None
    case None => None
  }

  /** NUMERIC and GEO fields are recovered from their tokens (given the type keyword they carry). */
  lemma PlainFieldRoundTrip(c: SchemaCommonField)
    ensures ParsePlainField(c.base.fieldType, PlainFieldArgs(c)) == Some(c)
  {
    var b := c.base;
    BaseLayoutWellFormed(b);
    CommonLayoutWellFormed(c);
    CommonLayoutFree();
    BaseDisjoint(b.fieldType, CommonLayout);
    BaseArgsAsLayout(b);
    CommonArgsAsLayout(c);
    ParseEmit2(BaseLayout(b.fieldType), BaseClauses(b), CommonLayout, CommonClauses(c));
    var cs := BaseClauses(b) + CommonClauses(c);
    assert cs[..3] == BaseClauses(b) && cs[3..] == CommonClauses(c);
  }

  // ---------------------------------------------------------------- GEOSHAPE

  datatype CoordSystem = Spherical | Flat

  function CoordSystemToken(c: CoordSystem): string
  {
    match c
    case Spherical => "SPHERICAL"
    case Flat => "FLAT"
  }

  function ParseCoordSystem(s: string): Option<CoordSystem>
  {
    if s == "SPHERICAL" then Some(Spherical) else if s == "FLAT" then Some(CoordSystem.Flat) else None
  }

  datatype SchemaGeoShapeField = SchemaGeoShapeField(common: SchemaCommonField, coordSystem: CoordSystem)
  {
    /** GEOSHAPE has no `sortable` setter, so its shared clauses never carry SORTABLE. */
    predicate Valid() { common.base.fieldType == FieldType.GeoShape && common.sortable.None? }

    function WithCoordSystem(c: CoordSystem): (r: SchemaGeoShapeField)
      ensures r.coordSystem == c && r.(coordSystem := coordSystem) == this
      ensures Valid() ==> r.Valid()
    {
      this.(coordSystem := c)
    }

    function Alias(a: string): (r: SchemaGeoShapeField)
      ensures r.common == common.Alias(a) && r.(common := common) == this
      ensures Valid() ==> r.Valid()
    {
      this.(common := common.Alias(a))
    }

    function IndexMissing(b: bool): (r: SchemaGeoShapeField)
      ensures r.common == common.IndexMissing(b) && r.(common := common) == this
      ensures Valid() ==> r.Valid()
    {
      this.(common := common.IndexMissing(b))
    }

    function NoIndex(b: bool): (r: SchemaGeoShapeField)
      ensures r.common == common.NoIndex(b) && r.(common := common) == this
      ensures Valid() ==> r.Valid()
    {
      this.(common := common.NoIndex(b))
    }
  }

  /** `SchemaGeoShapeField::new`: the coordinate system defaults to SPHERICAL. */
  function NewGeoShapeField(): (f: SchemaGeoShapeField)
    ensures f.Valid() && f.coordSystem == Spherical
  {
    SchemaGeoShapeField(NewSchemaCommonField(FieldType.GeoShape), Spherical)
  }

  /** `[AS alias] GEOSHAPE coord [INDEXMISSING]`: the coordinate system rides on the type keyword. */
  function GeoShapeHeadLayout(t: FieldType): seq<Slot>
  {
    [Slot("AS", Fixed(1)), Slot(FieldTypeToken(t), Fixed(1)), Slot("INDEXMISSING", Fixed(0))]
  }

  function GeoShapeHeadClauses(f: SchemaGeoShapeField): seq<Clause>
  {
    [ValueClause(f.common.base.alias, Verbatim), Present([CoordSystemToken(f.coordSystem)]),
     FlagClause(f.common.base.indexMissing)]
  }

  function GeoShapeHeadArgs(f: SchemaGeoShapeField): seq<string>
  {
    OptionPair("AS", f.common.base.alias, Verbatim)
      + ([FieldTypeToken(f.common.base.fieldType), CoordSystemToken(f.coordSystem)] + FlagArg("INDEXMISSING", f.common.base.indexMissing))
  }

  lemma GeoShapeHeadAsLayout(f: SchemaGeoShapeField)
    ensures GeoShapeHeadArgs(f) == Emit(GeoShapeHeadLayout(f.common.base.fieldType), GeoShapeHeadClauses(f))
  {
    var b := f.common.base;
    Emit3(Slot("AS", Fixed(1)), Slot(FieldTypeToken(b.fieldType), Fixed(1)), Slot("INDEXMISSING", Fixed(0)),
      ValueClause(b.alias, Verbatim), Present([CoordSystemToken(f.coordSystem)]), FlagClause(b.indexMissing));
    OptionPairIsClause("AS", b.alias, Verbatim);
    FlagArgIsClause("INDEXMISSING", b.indexMissing);
  }

  /** The tokens `SchemaGeoShapeField::write_redis_args` writes. */
  function GeoShapeFieldArgs(f: SchemaGeoShapeField): seq<string>
  {
    GeoShapeHeadArgs(f) + CommonArgs(f.common)
  }

  method WriteGeoShapeField(f: SchemaGeoShapeField, out: ArgWriter)
    modifies out
    ensures out.args == old(out.args) + GeoShapeFieldArgs(f)
  {
    WriteLayout(GeoShapeHeadLayout(f.common.base.fieldType), GeoShapeHeadClauses(f), out);
    GeoShapeHeadAsLayout(f);
    WriteCommon(f.common, out);
    ConcatAssoc(old(out.args), GeoShapeHeadArgs(f), CommonArgs(f.common));
  }

  function ParseGeoShapeField(ts: seq<string>): Option<SchemaGeoShapeField>
  {
    match Parse(GeoShapeHeadLayout(FieldType.GeoShape) + CommonLayout, ts)
    case Some((cs, rest)) =>
      if |cs| == 6 && rest == [] && cs[1].Present? && |cs[1].values| == 1 then
        var alias :- DecodeValue(cs[0], ParseVerbatim);
        var coord :- ParseCoordSystem(cs[1].values[0]);
        var indexMissing :- DecodeFlag(cs[2]);
        var common :- DecodeCommon(BaseSchemaField(FieldType.GeoShape, alias, indexMissing), cs[3..]);
        Some(SchemaGeoShapeField(common, coord))
      else None
    case None => None
  }

  /** GEOSHAPE is followed directly by its coordinate system, as the first two tokens after any alias. */
  lemma GeoShapeCoordFollowsType(f: SchemaGeoShapeField)
    requires f.Valid()
    ensures var ts := GeoShapeFieldArgs(f);
      var k := if f.common.base.alias.Some? then 2 else 0;
      |ts| >= k + 2 && ts[k] == "GEOSHAPE" && ts[k + 1] == CoordSystemToken(f.coordSystem)
  {
  }

  /** The tokens of a GEOSHAPE field parse back to its clauses, with nothing left over. */
  lemma GeoShapeClausesParsed(f: SchemaGeoShapeField)
    ensures Parse(GeoShapeHeadLayout(f.common.base.fieldType) + CommonLayout, GeoShapeFieldArgs(f))
         == Some((GeoShapeHeadClauses(f) + CommonClauses(f.common), []))
  {
    var t := f.common.base.fieldType;
    var head := GeoShapeHeadClauses(f);
    FieldTypeTokenIsNotBaseKeyword(t);
    assert DistinctKeywords(GeoShapeHeadLayout(t)) && FitsAll(GeoShapeHeadLayout(t), head);
    CommonLayoutWellFormed(f.common);
    CommonLayoutFree();
    assert DisjointKeywords(GeoShapeHeadLayout(t), CommonLayout) by {
      FieldTypeRoundTrip(t);
    }
    GeoShapeHeadAsLayout(f);
    CommonArgsAsLayout(f.common);
    ParseEmit2(GeoShapeHeadLayout(t), head, CommonLayout, CommonClauses(f.common));
  }

  lemma GeoShapeFieldRoundTrip(f: SchemaGeoShapeField)
    requires f.Valid()
    ensures ParseGeoShapeField(GeoShapeFieldArgs(f)) == Some(f)
  {
    var head := GeoShapeHeadClauses(f);
    GeoShapeClausesParsed(f);
    CommonLayoutWellFormed(f.common);
    var cs := head + CommonClauses(f.common);
    assert cs[..3] == head && cs[3..] == CommonClauses(f.common);
    DecodeValueClause(f.common.base.alias, Verbatim, ParseVerbatim);
    match f.coordSystem
    case Spherical =>
    case Flat =>
  }
}
