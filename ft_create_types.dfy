// The FT.CREATE argument builders of the query-engine `create` types: index options, the
// schema field kinds with their builders, and the schema itself. Each `write_redis_args`
// is a writer method over an `ArgWriter`, proved to append exactly the tokens of a
// specification function; each specification function is a keyword layout (ArgLayout)
// filled with the value's clauses, and a decoder proves the tokens determine the value.
module FtCreateTypes {
  import opened Wrappers
  import opened RedisArgs
  import opened ArgLayout

  type u32 = x: nat | x < 0x1_0000_0000
  type u64 = x: nat | x < 0x1_0000_0000_0000_0000

  /** An `f64` argument, held as the text the crate writes for it. */
  type FloatArg = string

  /** A Rust `assert!` that fails: the builder panics with this message instead of returning. */
  datatype Panic = Panic(message: string)

  // ---------------------------------------------------------------- clause helpers

  function ValueClause<T>(v: Option<T>, token: T -> string): Clause
  {
    match v
    case None => Absent
    case Some(x) => Present([token(x)])
  }

  /** `KEY value` when the option is set and nothing otherwise: a one-value clause, written out. */
  function OptionPair<T>(keyword: string, v: Option<T>, token: T -> string): seq<string>
  {
    if v.Some? then [keyword, token(v.value)] else []
  }

  lemma OptionPairIsClause<T>(keyword: string, v: Option<T>, token: T -> string)
    ensures EmitClause(Slot(keyword, Fixed(1)), ValueClause(v, token)) == OptionPair(keyword, v, token)
  {
  }

  function FlagClause(b: bool): Clause
  {
    if b then Present([]) else Absent
  }

  /** The keyword alone when the flag is set: a flag clause, written out. */
  function FlagArg(keyword: string, b: bool): seq<string>
  {
    if b then [keyword] else []
  }

  lemma FlagArgIsClause(keyword: string, b: bool)
    ensures EmitClause(Slot(keyword, Fixed(0)), FlagClause(b)) == FlagArg(keyword, b)
  {
  }

  /** A counted list, written only when it is non-empty. */
  function ItemsClause(xs: seq<string>): Clause
  {
    if |xs| == 0 then Absent else Present(xs)
  }

  function Verbatim(s: string): string { s }

  function ParseVerbatim(s: string): Option<string> { Some(s) }

  /** Reads an optional single-valued clause back, rejecting a value `parse` does not know. */
  function DecodeValue<T>(c: Clause, parse: string -> Option<T>): Option<Option<T>>
  {
    match c
    case Absent => Some(None)
    case Present(vs) =>
      if |vs| != 1 then None
      else
        match parse(vs[0])
        case None => None
        case Some(x) => Some(Some(x))
  }

  function DecodeFlag(c: Clause): Option<bool>
  {
    match c
    case Absent => Some(false)
    case Present(vs) => if |vs| == 0 then Some(true) else None
  }

  function DecodeItems(c: Clause): seq<string>
  {
    match c
    case Absent => []
    case Present(vs) => vs
  }

  lemma DecodeValueClause<T>(v: Option<T>, token: T -> string, parse: string -> Option<T>)
    requires v.Some? ==> parse(token(v.value)) == Some(v.value)
    ensures DecodeValue(ValueClause(v, token), parse) == Some(v)
  {
  }

  function ParseU32(s: string): Option<u32>
  {
    match ParseDecimal(s)
    case None => None
    case Some(n) => if n < 0x1_0000_0000 then Some(n as u32) else None
  }

  function ParseU64(s: string): Option<u64>
  {
    match ParseDecimal(s)
    case None => None
    case Some(n) => if n < 0x1_0000_0000_0000_0000 then Some(n as u64) else None
  }

  function U32Token(n: u32): string { NatToString(n) }

  function U64Token(n: u64): string { NatToString(n) }

  lemma U32RoundTrip(n: u32)
    ensures ParseU32(U32Token(n)) == Some(n)
  {
    DecimalRoundTrip(n);
  }

  lemma U64RoundTrip(n: u64)
    ensures ParseU64(U64Token(n)) == Some(n)
  {
    DecimalRoundTrip(n);
  }

  // ---------------------------------------------------------------- enumerations

  datatype IndexDataType = Hash | Json

  function IndexDataTypeToken(t: IndexDataType): string
  {
    match t
    case Hash => "HASH"
    case Json => "JSON"
  }

  function ParseIndexDataType(s: string): Option<IndexDataType>
  {
    if s == "HASH" then Some(Hash) else if s == "JSON" then Some(Json) else None
  }

  datatype SearchLanguage =
    | Arabic | Basque | Catalan | Danish | Dutch | English | Finnish | French | German | Greek
    | Hungarian | Indonesian | Irish | Italian | Lithuanian | Nepali | Norwegian | Portuguese
    | Romanian | Russian | Spanish | Swedish | Tamil | Turkish | Chinese

  /** The language's name in upper case, as its `Display` writes it. */
  function LanguageToken(l: SearchLanguage): string
  {
    match l
    case Arabic => "ARABIC"
    case Basque => "BASQUE"
    case Catalan => "CATALAN"
    case Danish => "DANISH"
    case Dutch => "DUTCH"
    case English => "ENGLISH"
    case Finnish => "FINNISH"
    case French => "FRENCH"
    case German => "GERMAN"
    case Greek => "GREEK"
    case Hungarian => "HUNGARIAN"
    case Indonesian => "INDONESIAN"
    case Irish => "IRISH"
    case Italian => "ITALIAN"
    case Lithuanian => "LITHUANIAN"
    case Nepali => "NEPALI"
    case Norwegian => "NORWEGIAN"
    case Portuguese => "PORTUGUESE"
    case Romanian => "ROMANIAN"
    case Russian => "RUSSIAN"
    case Spanish => "SPANISH"
    case Swedish => "SWEDISH"
    case Tamil => "TAMIL"
    case Turkish => "TURKISH"
    case Chinese => "CHINESE"
  }

  /** Reads a language name back; the first letter narrows the candidates. */
  function ParseLanguage(s: string): Option<SearchLanguage>
  {
    if |s| == 0 then None
    else
      match s[0]
      case 'A' => if s == "ARABIC" then Some(Arabic) else None
      case 'B' => if s == "BASQUE" then Some(Basque) else None
      case 'C' => if s == "CATALAN" then Some(Catalan) else if s == "CHINESE" then Some(Chinese) else None
      case 'D' => if s == "DANISH" then Some(Danish) else if s == "DUTCH" then Some(Dutch) else None
      case 'E' => if s == "ENGLISH" then Some(English) else None
      case 'F' => if s == "FINNISH" then Some(Finnish) else if s == "FRENCH" then Some(French) else None
      case 'G' => if s == "GERMAN" then Some(German) else if s == "GREEK" then Some(Greek) else None
      case 'H' => if s == "HUNGARIAN" then Some(Hungarian) else None
      case 'I' => if s == "INDONESIAN" then Some(Indonesian) else if s == "IRISH" then Some(Irish) else if s == "ITALIAN" then Some(Italian) else None
      case 'L' => if s == "LITHUANIAN" then Some(Lithuanian) else None
      case 'N' => if s == "NEPALI" then Some(Nepali) else if s == "NORWEGIAN" then Some(Norwegian) else None
      case 'P' => if s == "PORTUGUESE" then Some(Portuguese) else None
      case 'R' => if s == "ROMANIAN" then Some(Romanian) else if s == "RUSSIAN" then Some(Russian) else None
      case 'S' => if s == "SPANISH" then Some(Spanish) else if s == "SWEDISH" then Some(Swedish) else None
      case 'T' => if s == "TAMIL" then Some(Tamil) else if s == "TURKISH" then Some(Turkish) else None
      case _ => None
  }

  /** Distinct languages are written differently, so each language reads back as itself. */
  lemma LanguageRoundTrip(l: SearchLanguage)
    ensures ParseLanguage(LanguageToken(l)) == Some(l)
  {
    match l
    case Arabic =>
    case Basque =>
    case Catalan =>
    case Danish =>
    case Dutch =>
    case English =>
    case Finnish =>
    case French =>
    case German =>
    case Greek =>
    case Hungarian =>
    case Indonesian =>
    case Irish =>
    case Italian =>
    case Lithuanian =>
    case Nepali =>
    case Norwegian =>
    case Portuguese =>
    case Romanian =>
    case Russian =>
    case Spanish =>
    case Swedish =>
    case Tamil =>
    case Turkish =>
    case Chinese =>
  }

  // ---------------------------------------------------------------- index options

  datatype CreateOptions = CreateOptions(
    on: Option<IndexDataType>,
    prefixes: seq<string>,
    filter: Option<string>,
    language: Option<SearchLanguage>,
    languageField: Option<string>,
    score: Option<FloatArg>,
    scoreField: Option<string>,
    maxTextFields: bool,
    noOffsets: bool,
    temporary: Option<u64>,
    noHighlight: bool,
    noFields: bool,
    noFreqs: bool,
    stopwords: seq<string>,
    skipInitialScan: bool)
  {
    // The builder methods: each sets its own field and leaves the others as they were;
    // `Prefix` and `Stopword` append to their lists.
    function On(t: IndexDataType): (r: CreateOptions)
      ensures r.on == Some(t) && r.(on := on) == this
    {
      this.(on := Some(t))
    }

    function Prefix(p: string): (r: CreateOptions)
      ensures r.prefixes == prefixes + [p] && r.(prefixes := prefixes) == this
    {
      this.(prefixes := prefixes + [p])
    }

    function Filter(f: string): (r: CreateOptions)
      ensures r.filter == Some(f) && r.(filter := filter) == this
    {
      this.(filter := Some(f))
    }

    function Language(l: SearchLanguage): (r: CreateOptions)
      ensures r.language == Some(l) && r.(language := language) == this
    {
      this.(language := Some(l))
    }

    function LanguageField(f: string): (r: CreateOptions)
      ensures r.languageField == Some(f) && r.(languageField := languageField) == this
    {
      this.(languageField := Some(f))
    }

    function Score(s: FloatArg): (r: CreateOptions)
      ensures r.score == Some(s) && r.(score := score) == this
    {
      this.(score := Some(s))
    }

    function ScoreField(f: string): (r: CreateOptions)
      ensures r.scoreField == Some(f) && r.(scoreField := scoreField) == this
    {
      this.(scoreField := Some(f))
    }

    function MaxTextFields(): (r: CreateOptions)
      ensures r.maxTextFields == true && r.(maxTextFields := maxTextFields) == this
    {
      this.(maxTextFields := true)
    }

    function NoOffsets(): (r: CreateOptions)
      ensures r.noOffsets == true && r.(noOffsets := noOffsets) == this
    {
      this.(noOffsets := true)
    }

    function Temporary(secs: u64): (r: CreateOptions)
      ensures r.temporary == Some(secs) && r.(temporary := temporary) == this
    {
      this.(temporary := Some(secs))
    }

    function NoHighlight(): (r: CreateOptions)
      ensures r.noHighlight == true && r.(noHighlight := noHighlight) == this
    {
      this.(noHighlight := true)
    }

    function NoFields(): (r: CreateOptions)
      ensures r.noFields == true && r.(noFields := noFields) == this
    {
      this.(noFields := true)
    }

    function NoFreqs(): (r: CreateOptions)
      ensures r.noFreqs == true && r.(noFreqs := noFreqs) == this
    {
      this.(noFreqs := true)
    }

    function Stopword(w: string): (r: CreateOptions)
      ensures r.stopwords == stopwords + [w] && r.(stopwords := stopwords) == this
    {
      this.(stopwords := stopwords + [w])
    }

    function SkipInitialScan(): (r: CreateOptions)
      ensures r.skipInitialScan == true && r.(skipInitialScan := skipInitialScan) == this
    {
      this.(skipInitialScan := true)
    }
  }

  /** `CreateOptions::new()` / `default()`: nothing set. */
  function NewCreateOptions(): (r: CreateOptions)
    ensures r.on.None? && r.prefixes == [] && r.filter.None? && r.language.None? && r.languageField.None?
    ensures r.score.None? && r.scoreField.None? && r.temporary.None? && r.stopwords == []
    ensures !r.maxTextFields && !r.noOffsets && !r.noHighlight && !r.noFields && !r.noFreqs && !r.skipInitialScan
  {
    CreateOptions(None, [], None, None, None, None, None, false, false, None, false, false, false, [], false)
  }

  /** The filter expression is written between single quotes. */
  function QuoteFilter(f: string): string { "'" + f + "'" }

  function UnquoteFilter(s: string): Option<string>
  {
    if |s| >= 2 && s[0] == '\'' && s[|s| - 1] == '\'' then Some(s[1..|s| - 1]) else None
  }

  /** The option keywords in the order the options are written. */
  const OptionsLayout: seq<Slot> := [
    Slot("ON", Fixed(1)), Slot("PREFIX", Counted), Slot("FILTER", Fixed(1)),
    Slot("LANGUAGE", Fixed(1)), Slot("LANGUAGE_FIELD", Fixed(1)), Slot("SCORE", Fixed(1)),
    Slot("SCORE_FIELD", Fixed(1)), Slot("MAXTEXTFIELDS", Fixed(0)), Slot("NOOFFSETS", Fixed(0)),
    Slot("TEMPORARY", Fixed(1)), Slot("NOHL", Fixed(0)), Slot("NOFIELDS", Fixed(0)),
    Slot("NOFREQS", Fixed(0)), Slot("STOPWORDS", Counted), Slot("SKIPINITIALSCAN", Fixed(0))]

  function OptionsClauses(o: CreateOptions): seq<Clause>
  {
    [ValueClause(o.on, IndexDataTypeToken), ItemsClause(o.prefixes),
     ValueClause(o.filter, QuoteFilter), ValueClause(o.language, LanguageToken),
     ValueClause(o.languageField, Verbatim), ValueClause(o.score, Verbatim),
     ValueClause(o.scoreField, Verbatim), FlagClause(o.maxTextFields), FlagClause(o.noOffsets),
     ValueClause(o.temporary, U64Token), FlagClause(o.noHighlight), FlagClause(o.noFields),
     FlagClause(o.noFreqs), ItemsClause(o.stopwords), FlagClause(o.skipInitialScan)]
  }

  /** The tokens `CreateOptions::write_redis_args` writes. */
  function CreateOptionsArgs(o: CreateOptions): seq<string>
  {
    Emit(OptionsLayout, OptionsClauses(o))
  }

  /** `CreateOptions::write_redis_args`. */
  method WriteCreateOptions(o: CreateOptions, out: ArgWriter)
    modifies out
    ensures out.args == old(out.args) + CreateOptionsArgs(o)
  {
    WriteLayout(OptionsLayout, OptionsClauses(o), out);
  }

  function DecodeCreateOptions(cs: seq<Clause>): Option<CreateOptions>
    requires |cs| == 15
  {
    var on :- DecodeValue(cs[0], ParseIndexDataType);
    var filter :- DecodeValue(cs[2], UnquoteFilter);
    var language :- DecodeValue(cs[3], ParseLanguage);
    var languageField :- DecodeValue(cs[4], ParseVerbatim);
    var score :- DecodeValue(cs[5], ParseVerbatim);
    var scoreField :- DecodeValue(cs[6], ParseVerbatim);
    var maxTextFields :- DecodeFlag(cs[7]);
    var noOffsets :- DecodeFlag(cs[8]);
    var temporary :- DecodeValue(cs[9], ParseU64);
    var noHighlight :- DecodeFlag(cs[10]);
    var noFields :- DecodeFlag(cs[11]);
    var noFreqs :- DecodeFlag(cs[12]);
    var skipInitialScan :- DecodeFlag(cs[14]);
    Some(CreateOptions(on, DecodeItems(cs[1]), filter, language, languageField, score, scoreField,
      maxTextFields, noOffsets, temporary, noHighlight, noFields, noFreqs, DecodeItems(cs[13]),
      skipInitialScan))
  }

  /** Reads index options off the front of an argument list; returns them and what follows. */
  function ParseCreateOptions(ts: seq<string>): Option<(CreateOptions, seq<string>)>
  {
    match Parse(OptionsLayout, ts)
    case None => None
    case Some((cs, rest)) =>
      if |cs| != 15 then None
      else
        match DecodeCreateOptions(cs)
        case None => None
        case Some(o) => Some((o, rest))
  }

  /** The option keywords on their own (each check below is kept small for the solver). */
  const OptionsKeywords: seq<string> := [
    "ON", "PREFIX", "FILTER", "LANGUAGE", "LANGUAGE_FIELD", "SCORE", "SCORE_FIELD",
    "MAXTEXTFIELDS", "NOOFFSETS", "TEMPORARY", "NOHL", "NOFIELDS", "NOFREQS", "STOPWORDS",
    "SKIPINITIALSCAN"]

  lemma OptionsKeywordsListed()
    ensures KeywordsAre(OptionsLayout, OptionsKeywords)
  {
  }

  lemma OptionsKeywordsUnrepeated()
    ensures DistinctStrings(OptionsKeywords)
  {
  }

  lemma OptionsKeywordsDistinct()
    ensures DistinctKeywords(OptionsLayout)
  {
    OptionsKeywordsListed();
    OptionsKeywordsUnrepeated();
    DistinctViaKeywords(OptionsLayout, OptionsKeywords);
  }

  // The clauses are checked a few at a time: each group fits its slots and decodes back.

  lemma OptionsGroup1(o: CreateOptions)
    ensures var L, cs := OptionsLayout, OptionsClauses(o);
      && Fits(L[0], cs[0]) && Fits(L[1], cs[1])
      && DecodeValue(cs[0], ParseIndexDataType) == Some(o.on)
      && DecodeItems(cs[1]) == o.prefixes
  {
    DecodeValueClause(o.on, IndexDataTypeToken, ParseIndexDataType);
  }

  lemma FilterRoundTrip(f: string)
    ensures UnquoteFilter(QuoteFilter(f)) == Some(f)
  {
    var s := QuoteFilter(f);
    assert s[1..|s| - 1] == f;
  }

  lemma OptionsFilterGroup(o: CreateOptions)
    ensures var L, cs := OptionsLayout, OptionsClauses(o);
      && Fits(L[2], cs[2]) && DecodeValue(cs[2], UnquoteFilter) == Some(o.filter)
  {
    if o.filter.Some? {
      FilterRoundTrip(o.filter.value);
    }
    DecodeValueClause(o.filter, QuoteFilter, UnquoteFilter);
  }

  lemma OptionsLanguageGroup(o: CreateOptions)
    ensures var L, cs := OptionsLayout, OptionsClauses(o);
      && Fits(L[3], cs[3]) && DecodeValue(cs[3], ParseLanguage) == Some(o.language)
  {
    if o.language.Some? {
      LanguageRoundTrip(o.language.value);
    }
    DecodeValueClause(o.language, LanguageToken, ParseLanguage);
  }

  lemma OptionsGroup2(o: CreateOptions)
    ensures var L, cs := OptionsLayout, OptionsClauses(o);
      && Fits(L[4], cs[4]) && Fits(L[5], cs[5]) && Fits(L[6], cs[6]) && Fits(L[7], cs[7])
      && DecodeValue(cs[4], ParseVerbatim) == Some(o.languageField)
      && DecodeValue(cs[5], ParseVerbatim) == Some(o.score)
      && DecodeValue(cs[6], ParseVerbatim) == Some(o.scoreField)
      && DecodeFlag(cs[7]) == Some(o.maxTextFields)
  {
    DecodeValueClause(o.languageField, Verbatim, ParseVerbatim);
    DecodeValueClause(o.score, Verbatim, ParseVerbatim);
    DecodeValueClause(o.scoreField, Verbatim, ParseVerbatim);
  }

  lemma OptionsGroup3(o: CreateOptions)
    ensures var L, cs := OptionsLayout, OptionsClauses(o);
      && Fits(L[8], cs[8]) && Fits(L[9], cs[9]) && Fits(L[10], cs[10]) && Fits(L[11], cs[11])
      && DecodeFlag(cs[8]) == Some(o.noOffsets)
      && DecodeValue(cs[9], ParseU64) == Some(o.temporary)
      && DecodeFlag(cs[10]) == Some(o.noHighlight)
      && DecodeFlag(cs[11]) == Some(o.noFields)
  {
    if o.temporary.Some? {
      U64RoundTrip(o.temporary.value);
    }
    DecodeValueClause(o.temporary, U64Token, ParseU64);
  }

  lemma OptionsGroup4(o: CreateOptions)
    ensures var L, cs := OptionsLayout, OptionsClauses(o);
      && Fits(L[12], cs[12]) && Fits(L[13], cs[13]) && Fits(L[14], cs[14])
      && DecodeFlag(cs[12]) == Some(o.noFreqs)
      && DecodeItems(cs[13]) == o.stopwords
      && DecodeFlag(cs[14]) == Some(o.skipInitialScan)
  {
  }

  lemma OptionsClausesFit(o: CreateOptions)
    ensures FitsAll(OptionsLayout, OptionsClauses(o))
  {
    OptionsGroup1(o);
    OptionsFilterGroup(o);
    OptionsLanguageGroup(o);
    OptionsGroup2(o);
    OptionsGroup3(o);
    OptionsGroup4(o);
  }

  lemma OptionsClausesDecode(o: CreateOptions)
    ensures DecodeCreateOptions(OptionsClauses(o)) == Some(o)
  {
    OptionsGroup1(o);
    OptionsFilterGroup(o);
    OptionsLanguageGroup(o);
    OptionsGroup2(o);
    OptionsGroup3(o);
    OptionsGroup4(o);
  }

  /**
   * The option tokens are unambiguous: reading them back gives the options that were
   * written, and leaves the following arguments (such as `SCHEMA`) in place.
   */
  lemma CreateOptionsRoundTrip(o: CreateOptions, rest: seq<string>)
    requires NotLedByKeyword(rest, OptionsLayout)
    ensures ParseCreateOptions(CreateOptionsArgs(o) + rest) == Some((o, rest))
  {
    OptionsKeywordsDistinct();
    OptionsClausesFit(o);
    OptionsClausesDecode(o);
    ParseEmit(OptionsLayout, OptionsClauses(o), rest);
  }

  /** Options with nothing set write no tokens at all. */
  lemma DefaultOptionsWriteNothing()
    ensures CreateOptionsArgs(NewCreateOptions()) == []
  {
    EmitNothing(OptionsLayout, OptionsClauses(NewCreateOptions()));
  }
}
