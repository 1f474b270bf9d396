// The FT.CREATE command builder: an index name, its options and its schema, turned into
// `FT.CREATE <index> <options> SCHEMA <schema>` once the two assertions on the name and
// the schema hold.
module FtCreateCmd {
  import opened Wrappers
  import opened RedisArgs
  import opened ArgLayout
  import opened FtCreateTypes
  import opened FtCreateFields
  import opened FtCreateSchema

  const EMPTY_INDEX_PANIC: string := "FT.CREATE command requires a non-empty index name"
  const EMPTY_SCHEMA_PANIC: string := "FT.CREATE command requires at least one field in the schema"

  /** The builder holds the schema by value: `schema` moves the caller's entries in. */
  datatype FtCreateCommand = FtCreateCommand(index: string, options: CreateOptions, schema: seq<SchemaEntry>)
  {
    /** `options`: replaces the options and nothing else. */
    function Options(o: CreateOptions): (r: FtCreateCommand)
      ensures r.index == index && r.schema == schema && r.options == o
    {
      this.(options := o)
    }

    /** `schema`: replaces the schema and nothing else. */
    function Schema(s: seq<SchemaEntry>): (r: FtCreateCommand)
      ensures r.index == index && r.options == options && r.schema == s
    {
      this.(schema := s)
    }
  }

  /** `FtCreateCommand::new`: default options, empty schema. */
  function NewFtCreateCommand(index: string): (c: FtCreateCommand)
    ensures c.index == index && CreateOptionsArgs(c.options) == [] && c.schema == []
  {
    DefaultOptionsWriteNothing();
    FtCreateCommand(index, NewCreateOptions(), [])
  }

  /** The arguments of a command that passes both assertions. */
  function CommandTokens(c: FtCreateCommand): seq<string>
  {
    ["FT.CREATE", c.index] + CreateOptionsArgs(c.options) + ["SCHEMA"] + SchemaArgs(c.schema)
  }

  /** The arguments `into_cmd` produces, or the assertion it fails (the name is checked first). */
  function CommandArgs(c: FtCreateCommand): Result<seq<string>, Panic>
  {
    if c.index == [] then Failure(Panic(EMPTY_INDEX_PANIC))
    else if c.schema == [] then Failure(Panic(EMPTY_SCHEMA_PANIC))
    else Success(CommandTokens(c))
  }

  /** `into_cmd`: the two assertions, then the arguments added one part at a time. */
  method IntoCmd(c: FtCreateCommand) returns (r: Result<seq<string>, Panic>)
    ensures r == CommandArgs(c)
  {
    if c.index == [] {
      return Failure(Panic(EMPTY_INDEX_PANIC));
    }
    if c.schema == [] {
      return Failure(Panic(EMPTY_SCHEMA_PANIC));
    }
    var cmd := new ArgWriter();
    WriteCommand(c, cmd);
    r := Success(cmd.args);
  }

  /** The `cmd.arg` calls of `into_cmd`, on a command that starts out empty. */
  method WriteCommand(c: FtCreateCommand, cmd: ArgWriter)
    requires cmd.args == []
    modifies cmd
    ensures cmd.args == CommandTokens(c)
  {
    cmd.WriteArg("FT.CREATE");
    cmd.WriteArg(c.index);
    assert cmd.args == ["FT.CREATE", c.index];
    WriteCreateOptions(c.options, cmd);
    cmd.WriteArg("SCHEMA");
    WriteSchema(c.schema, cmd);
  }

  /** `into_cmd` fails exactly when the name or the schema is empty, the name taking precedence. */
  lemma IntoCmdPanics(c: FtCreateCommand)
    ensures CommandArgs(c).Failure? <==> c.index == [] || c.schema == []
    ensures c.index == [] ==> CommandArgs(c) == Failure(Panic(EMPTY_INDEX_PANIC))
    ensures c.index != [] && c.schema == [] ==> CommandArgs(c) == Failure(Panic(EMPTY_SCHEMA_PANIC))
  {
  }

  /** Where the parts of `head + middle + keyword + tail` sit. */
  lemma PartsAt<T>(head: seq<T>, middle: seq<T>, keyword: seq<T>, tail: seq<T>)
    requires |head| == 2 && |keyword| == 1
    ensures var ts := head + middle + keyword + tail;
      && |ts| == 3 + |middle| + |tail|
      && ts[..2] == head
      && ts[2 + |middle|] == keyword[0]
      && ts[3 + |middle|..] == tail
      && ts[2..] == middle + (keyword + tail)
  {
    var ts := head + middle + keyword + tail;
    assert ts[..2] == head;
    assert ts[3 + |middle|..] == tail;
    assert ts[2..] == middle + (keyword + tail);
  }

  /** No option keyword is SCHEMA: the only six-letter ones are PREFIX and FILTER. */
  lemma SchemaIsNotOptionKeyword()
    ensures !IsKeywordOf("SCHEMA", OptionsLayout)
  {
    forall i | 0 <= i < |OptionsLayout|
      ensures OptionsLayout[i].keyword != "SCHEMA"
    {
      var k := OptionsLayout[i].keyword;
      assert |k| != 6 || k[0] != 'S';
    }
  }

  /**
   * On success the command is its name, the index, the options, SCHEMA and the schema, and
   * the options are recovered from what follows the index: SCHEMA is not an option keyword.
   */
  lemma CommandLayout(c: FtCreateCommand)
    requires c.index != [] && c.schema != []
    ensures var ts := CommandArgs(c).value;
      var n := |CreateOptionsArgs(c.options)|;
      && |ts| == 3 + n + |SchemaArgs(c.schema)|
      && ts[..2] == ["FT.CREATE", c.index]
      && ts[2 + n] == "SCHEMA"
      && ts[3 + n..] == SchemaArgs(c.schema)
      && ParseCreateOptions(ts[2..]) == Some((c.options, ["SCHEMA"] + SchemaArgs(c.schema)))
  {
    PartsAt(["FT.CREATE", c.index], CreateOptionsArgs(c.options), ["SCHEMA"], SchemaArgs(c.schema));
    SchemaIsNotOptionKeyword();
    CreateOptionsRoundTrip(c.options, ["SCHEMA"] + SchemaArgs(c.schema));
  }

  /** With only a schema set, SCHEMA follows the index name directly. */
  lemma OnlySchemaSet(index: string, s: seq<SchemaEntry>)
    requires index != [] && s != []
    ensures CommandArgs(NewFtCreateCommand(index).Schema(s)) == Success(["FT.CREATE", index, "SCHEMA"] + SchemaArgs(s))
  {
    var c := NewFtCreateCommand(index).Schema(s);
    EmptyMiddle(["FT.CREATE", index], CreateOptionsArgs(c.options), ["SCHEMA"], SchemaArgs(s));
  }

  lemma EmptyMiddle<T>(head: seq<T>, middle: seq<T>, keyword: seq<T>, tail: seq<T>)
    requires middle == [] && |head| == 2 && |keyword| == 1
    ensures head + middle + keyword + tail == [head[0], head[1], keyword[0]] + tail
  {
    assert head + middle + keyword == [head[0], head[1], keyword[0]];
  }

  /** Of two calls to the same setter the last one wins, and the two setters commute. */
  lemma LastSetterWins(c: FtCreateCommand, o1: CreateOptions, o2: CreateOptions, s1: seq<SchemaEntry>, s2: seq<SchemaEntry>)
    ensures c.Options(o1).Options(o2) == c.Options(o2)
    ensures c.Schema(s1).Schema(s2) == c.Schema(s2)
    ensures c.Options(o1).Schema(s1) == c.Schema(s1).Options(o1)
  {
  }

  /** The single TEXT field example: `FT.CREATE index SCHEMA title TEXT`. */
  lemma TextFieldExample()
    ensures CommandArgs(NewFtCreateCommand("index").Schema([("title", FieldDefinition.Text(NewTextField()))]))
         == Success(["FT.CREATE", "index", "SCHEMA", "title", "TEXT"])
  {
    var schema := [("title", FieldDefinition.Text(NewTextField()))];
    OnlySchemaSet("index", schema);
    TitleTextSchema();
    ThreeThenTwo("FT.CREATE", "index", "SCHEMA", "title", "TEXT");
  }

  lemma ThreeThenTwo<T>(a: T, b: T, c: T, d: T, e: T)
    ensures [a, b, c] + [d, e] == [a, b, c, d, e]
  {
  }

  lemma TitleTextSchema()
    ensures SchemaArgs([("title", FieldDefinition.Text(NewTextField()))]) == ["title", "TEXT"]
  {
    DefaultFieldsWriteType();
    InsertAppendsTokens([], "title", FieldDefinition.Text(NewTextField()));
  }
}
