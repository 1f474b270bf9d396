# redis-rs: FT.CREATE builder and credential management, in Dafny

This project models two parts of the `redis` Rust crate and proves properties of the model.

**The FT.CREATE command builder** (`redis/src/commands/query_engine/create/`).
`FtCreateCommand` takes an index name, a `CreateOptions` value and a `RediSearchSchema`. It
becomes `FT.CREATE <index> <options> SCHEMA <field>...` once its two assertions hold: the
name is not empty and the schema is not empty. Each option struct and each field type has
its own `write_redis_args`. The model writes these with an `ArgWriter` object whose argument
list only ever grows. Each writer is specified by a function that gives the tokens it
appends.

Most of these serialisations are "keyword, then some values" clauses in a fixed order.
`ArgLayout` describes such a format once, as a list of slots, and proves a general round
trip: parsing what was emitted gives back the clauses and leaves the rest of the tokens
untouched. Each option set and field type is then proved to read back as itself. This
covers the counted `PREFIX n ...` and `STOPWORDS n ...` lists and the quoted filter. It also
covers the attribute count of a vector field, which counts the tokens between it and an
optional `INDEXMISSING`.

The vector builders' panics on a zero dimension, and the command's two assertions, are
`Result` failures that carry the crate's messages. The clamping in the SVS-VAMANA builder's
`training_threshold` and `reduce` is modelled exactly, with its dependence on the compression
type.

**Credential management** (`redis/src/auth.rs`, `redis/src/auth_management.rs` and the
sequential parts of `redis/src/entra_id.rs`). The model covers:
- credentials with an optional expiry;
- the refresh decision (`should_refresh_credentials_based_on_config`);
- jitter and exponential backoff;
- the retry loop of `refresh_credentials`;
- the two caching `TokenManager`s;
- the start/stop/drop life cycle of `AsyncTokenRefreshService`;
- the Entra ID provider: scope validation, its constructors' order of checks, error
  mapping, and the state that one round of its background loop and `subscribe` change.

Time is integer nanoseconds. `f64` values are `real`. The helper module
`token_manager_common` appears twice in the source with the same code: it is modelled once
(`TokenManagerCommon`) and used by both managers.

Modules (one file each): `Wrappers` and `Errors` (wrappers.dfy), `RedisArgs`, `ArgLayout`,
`FtCreateTypes`, `FtCreateFields`, `FtCreateVectors`, `FtCreateSchema`, `FtCreateCmd`,
`AuthTypes`, `TokenManagerCommon`, `Auth`, `AuthManagement`, `EntraId`.

Paths below are relative to the crate's repository root. `types.rs`, `command.rs` and
`tests.rs` live in `redis/src/commands/query_engine/create/`.

## Model

| member | source | states |
|---|---|---|
| RedisArgs.ArgWriter.WriteArg | redis/src/commands/query_engine/create/command.rs:66-71 | one `arg` call appends exactly that token and nothing else |
| RedisArgs.NatToStringIsCanonical | redis/src/commands/query_engine/create/types.rs:1261-1272 | a count is written as a canonical decimal (no leading zero) whose digits denote the count |
| RedisArgs.DecimalRoundTrip | redis/src/commands/query_engine/create/types.rs:1249-1298 | a written count reads back as the same number |
| RedisArgs.CanonicalDecimalRoundTrip | redis/src/commands/query_engine/create/types.rs:1249-1298 | each canonical decimal is the rendering of its value, so the rendering is a bijection |
| ArgLayout.ParseEmit | redis/src/commands/query_engine/create/types.rs:221-301 | tokens written as keyword clauses in layout order read back as the same clauses, and the tokens after them are left alone, when the keywords are distinct and the rest does not start with one |
| ArgLayout.EmitNothing | redis/src/commands/query_engine/create/types.rs:221-301 | when no option is set, nothing is written |
| ArgLayout.EmitLeadsWithKeyword | redis/src/commands/query_engine/create/types.rs:221-301 | a non-empty clause output starts with one of the layout's keywords |
| ArgLayout.EmitAppend | redis/src/commands/query_engine/create/types.rs:593-620 | writing two layouts one after the other gives the two outputs concatenated |
| ArgLayout.WriteLayout | redis/src/commands/query_engine/create/types.rs:221-301 | the writer's `if let` chain appends exactly the layout's emitted tokens |
| ArgLayout.CountPairs | redis/src/commands/query_engine/create/types.rs:1037-1043 | for key/value options, `num_of_args` adds two per option set, which is the number of tokens written |
| ArgLayout.ParseEmit3 | redis/src/commands/query_engine/create/types.rs:593-620 | a base, own and common part written in sequence parse back as their three clause lists |
| FtCreateTypes.U32RoundTrip | redis/src/commands/query_engine/create/types.rs:1026-1035 | a `u32` argument reads back as itself |
| FtCreateTypes.U64RoundTrip | redis/src/commands/query_engine/create/types.rs:183-189 | the TEMPORARY seconds read back as themselves |
| FtCreateTypes.LanguageRoundTrip | redis/src/commands/query_engine/create/types.rs:56-89 | each of the languages is written under its own upper-case name and reads back as itself |
| FtCreateTypes.FilterRoundTrip | redis/src/commands/query_engine/create/types.rs:244-247 | the filter is written between single quotes, and unquoting gives it back |
| FtCreateTypes.OptionsKeywordsDistinct | redis/src/commands/query_engine/create/types.rs:221-301 | the fifteen option keywords are pairwise distinct |
| FtCreateTypes.WriteCreateOptions | redis/src/commands/query_engine/create/types.rs:221-301 | `CreateOptions::write_redis_args` appends ON, PREFIX n ..., FILTER, LANGUAGE, LANGUAGE_FIELD, SCORE, SCORE_FIELD, MAXTEXTFIELDS, NOOFFSETS, TEMPORARY, NOHL, NOFIELDS, NOFREQS, STOPWORDS n ..., SKIPINITIALSCAN, each only when set |
| FtCreateTypes.CreateOptionsRoundTrip | redis/src/commands/query_engine/create/types.rs:95-301 | the written options read back as exactly the options set, and any following tokens that do not start with an option keyword are left untouched |
| FtCreateTypes.DefaultOptionsWriteNothing | redis/src/commands/query_engine/create/types.rs:113-118 | `CreateOptions::new()` writes no tokens |
| FtCreateTypes.NewCreateOptions | redis/src/commands/query_engine/create/types.rs:115-117 | `CreateOptions::new()` sets no option: no ON, PREFIX, FILTER, LANGUAGE, SCORE or TEMPORARY, empty prefix and stop-word lists, every flag off |
| FtCreateTypes.CreateOptions.On | redis/src/commands/query_engine/create/types.rs:120-123 | sets the index data type (ON) and leaves every other option as it was |
| FtCreateTypes.CreateOptions.Prefix | redis/src/commands/query_engine/create/types.rs:127-130 | appends the prefix to the prefix list (PREFIX) and leaves every other option as it was |
| FtCreateTypes.CreateOptions.Filter | redis/src/commands/query_engine/create/types.rs:134-137 | sets the filter expression (FILTER) and leaves every other option as it was |
| FtCreateTypes.CreateOptions.Language | redis/src/commands/query_engine/create/types.rs:141-144 | sets the default language (LANGUAGE) and leaves every other option as it was |
| FtCreateTypes.CreateOptions.LanguageField | redis/src/commands/query_engine/create/types.rs:147-150 | sets the language attribute (LANGUAGE_FIELD) and leaves every other option as it was |
| FtCreateTypes.CreateOptions.Score | redis/src/commands/query_engine/create/types.rs:154-157 | sets the default score (SCORE) and leaves every other option as it was |
| FtCreateTypes.CreateOptions.ScoreField | redis/src/commands/query_engine/create/types.rs:161-164 | sets the score attribute (SCORE_FIELD) and leaves every other option as it was |
| FtCreateTypes.CreateOptions.MaxTextFields | redis/src/commands/query_engine/create/types.rs:169-172 | turns the flag on (MAXTEXTFIELDS) and leaves every other option as it was |
| FtCreateTypes.CreateOptions.NoOffsets | redis/src/commands/query_engine/create/types.rs:176-179 | turns the flag on (NOOFFSETS) and leaves every other option as it was |
| FtCreateTypes.CreateOptions.Temporary | redis/src/commands/query_engine/create/types.rs:183-186 | sets the expiry in seconds (TEMPORARY) and leaves every other option as it was |
| FtCreateTypes.CreateOptions.NoHighlight | redis/src/commands/query_engine/create/types.rs:191-194 | turns the flag on (NOHL) and leaves every other option as it was |
| FtCreateTypes.CreateOptions.NoFields | redis/src/commands/query_engine/create/types.rs:197-200 | turns the flag on (NOFIELDS) and leaves every other option as it was |
| FtCreateTypes.CreateOptions.NoFreqs | redis/src/commands/query_engine/create/types.rs:203-206 | turns the flag on (NOFREQS) and leaves every other option as it was |
| FtCreateTypes.CreateOptions.Stopword | redis/src/commands/query_engine/create/types.rs:209-212 | appends the word to the stop-word list (STOPWORDS) and leaves every other option as it was |
| FtCreateTypes.CreateOptions.SkipInitialScan | redis/src/commands/query_engine/create/types.rs:215-218 | turns the flag on (SKIPINITIALSCAN) and leaves every other option as it was |
| FtCreateFields.FieldTypeRoundTrip | redis/src/commands/query_engine/create/types.rs:307-336 | each field type keyword reads back as its type |
| FtCreateFields.FieldType.IsSortable | redis/src/commands/query_engine/create/types.rs:340-345 | every field type accepts SORTABLE except VECTOR and GEOSHAPE |
| FtCreateFields.FieldTypeTokenIsNotBaseKeyword | redis/src/commands/query_engine/create/types.rs:432-448 | no type keyword is AS or INDEXMISSING |
| FtCreateFields.PhoneticRoundTrip | redis/src/commands/query_engine/create/types.rs:379-402 | each phonetic matcher's token reads back as itself |
| FtCreateFields.NewBaseSchemaField | redis/src/commands/query_engine/create/types.rs:413-419 | a new base has the given type, no alias and INDEXMISSING off |
| FtCreateFields.BaseSchemaField.Alias | redis/src/commands/query_engine/create/types.rs:421-424 | sets the alias and keeps the type and INDEXMISSING |
| FtCreateFields.BaseSchemaField.IndexMissing | redis/src/commands/query_engine/create/types.rs:426-429 | sets INDEXMISSING and keeps the type and the alias |
| FtCreateFields.WriteBase | redis/src/commands/query_engine/create/types.rs:432-448 | the base part is `[AS alias] TYPE [INDEXMISSING]` |
| FtCreateFields.BaseArgsShape | redis/src/commands/query_engine/create/types.rs:432-448 | the alias, when set, comes first, behind AS and ahead of the type keyword |
| FtCreateFields.NewSchemaCommonField | redis/src/commands/query_engine/create/types.rs:459-465 | a new common part has a new base of the given type, neither SORTABLE nor NOINDEX |
| FtCreateFields.SchemaCommonField.WithSortable | redis/src/commands/query_engine/create/types.rs:467-474 | for a sortable type, sets SORTABLE (or SORTABLE UNF) and keeps the base and NOINDEX |
| FtCreateFields.SchemaCommonField.NoIndex | redis/src/commands/query_engine/create/types.rs:476-479 | sets NOINDEX and keeps the base and SORTABLE |
| FtCreateFields.SchemaCommonField.Alias | redis/src/commands/query_engine/create/types.rs:481-484 | sets the base's alias, keeping the type, SORTABLE and NOINDEX |
| FtCreateFields.SchemaCommonField.IndexMissing | redis/src/commands/query_engine/create/types.rs:486-489 | sets the base's INDEXMISSING, keeping the type, SORTABLE and NOINDEX |
| FtCreateFields.WriteCommon | redis/src/commands/query_engine/create/types.rs:492-505 | the common part is `[SORTABLE [UNF]] [NOINDEX]` |
| FtCreateFields.CommonLayoutWellFormed | redis/src/commands/query_engine/create/types.rs:492-505 | the common part's keywords are distinct and it reads back as the same sortable and no-index settings |
| FtCreateFields.SchemaTextField.WithSortable | redis/src/commands/query_engine/create/types.rs:569-573 | `sortable` on a TEXT field is the common part's `sortable` and keeps it a TEXT field |
| FtCreateFields.SchemaTextField.NoStem | redis/src/commands/query_engine/create/types.rs:535-538 | sets NOSTEM, changes nothing else and keeps the field well formed |
| FtCreateFields.SchemaTextField.Weight | redis/src/commands/query_engine/create/types.rs:542-545 | sets the WEIGHT, changes nothing else and keeps the field well formed |
| FtCreateFields.SchemaTextField.WithPhonetic | redis/src/commands/query_engine/create/types.rs:549-552 | sets the PHONETIC matcher, changes nothing else and keeps the field well formed |
| FtCreateFields.SchemaTextField.WithSuffixTrie | redis/src/commands/query_engine/create/types.rs:556-559 | sets WITHSUFFIXTRIE, changes nothing else and keeps the field well formed |
| FtCreateFields.SchemaTextField.IndexEmpty | redis/src/commands/query_engine/create/types.rs:563-566 | sets INDEXEMPTY, changes nothing else and keeps the field well formed |
| FtCreateFields.SchemaTextField.NoIndex | redis/src/commands/query_engine/create/types.rs:575-578 | is the common part's `no_index`, changes nothing else and keeps the field well formed |
| FtCreateFields.SchemaTextField.Alias | redis/src/commands/query_engine/create/types.rs:581-584 | is the common part's `alias`, changes nothing else and keeps the field well formed |
| FtCreateFields.SchemaTextField.IndexMissing | redis/src/commands/query_engine/create/types.rs:587-590 | is the common part's `index_missing`, changes nothing else and keeps the field well formed |
| FtCreateFields.NewTextField | redis/src/commands/query_engine/create/types.rs:522-533 | a new TEXT field is a well-formed TEXT field |
| FtCreateFields.WriteTextField | redis/src/commands/query_engine/create/types.rs:593-620 | a TEXT field writes its base part, then NOSTEM, WEIGHT, PHONETIC, WITHSUFFIXTRIE and INDEXEMPTY when set, then its common part |
| FtCreateFields.TextFieldRoundTrip | redis/src/commands/query_engine/create/types.rs:511-626 | every TEXT field's tokens read back as that field |
| FtCreateFields.NewTagField | redis/src/commands/query_engine/create/types.rs:642-653 | a new TAG field is a well-formed TAG field |
| FtCreateFields.SchemaTagField.Separator | redis/src/commands/query_engine/create/types.rs:655-658 | sets the SEPARATOR, changes nothing else and keeps the field well formed |
| FtCreateFields.SchemaTagField.CaseSensitive | redis/src/commands/query_engine/create/types.rs:661-664 | sets CASESENSITIVE, changes nothing else and keeps the field well formed |
| FtCreateFields.SchemaTagField.WithSuffixTrie | redis/src/commands/query_engine/create/types.rs:668-671 | sets WITHSUFFIXTRIE, changes nothing else and keeps the field well formed |
| FtCreateFields.SchemaTagField.IndexEmpty | redis/src/commands/query_engine/create/types.rs:674-677 | sets INDEXEMPTY, changes nothing else and keeps the field well formed |
| FtCreateFields.SchemaTagField.WithSortable | redis/src/commands/query_engine/create/types.rs:680-683 | `sortable` on a TAG field is the common part's `sortable` and keeps it a TAG field |
| FtCreateFields.SchemaTagField.NoIndex | redis/src/commands/query_engine/create/types.rs:686-689 | is the common part's `no_index`, changes nothing else and keeps the field well formed |
| FtCreateFields.SchemaTagField.Alias | redis/src/commands/query_engine/create/types.rs:692-695 | is the common part's `alias`, changes nothing else and keeps the field well formed |
| FtCreateFields.SchemaTagField.IndexMissing | redis/src/commands/query_engine/create/types.rs:698-701 | is the common part's `index_missing`, changes nothing else and keeps the field well formed |
| FtCreateFields.WriteTagField | redis/src/commands/query_engine/create/types.rs:704-727 | a TAG field writes its base part, then SEPARATOR c, CASESENSITIVE, WITHSUFFIXTRIE and INDEXEMPTY when set, then its common part |
| FtCreateFields.TagFieldRoundTrip | redis/src/commands/query_engine/create/types.rs:632-733 | every TAG field's tokens read back as that field |
| FtCreateFields.NewNumericField | redis/src/commands/query_engine/create/types.rs:745-750 | a new NUMERIC field is a well-formed NUMERIC field |
| FtCreateFields.SchemaNumericField.WithSortable | redis/src/commands/query_engine/create/types.rs:752-755 | `sortable` on a NUMERIC field is the common part's `sortable` and keeps it a NUMERIC field |
| FtCreateFields.SchemaNumericField.NoIndex | redis/src/commands/query_engine/create/types.rs:758-761 | is the common part's `no_index`, changes nothing else and keeps the field well formed |
| FtCreateFields.SchemaNumericField.Alias | redis/src/commands/query_engine/create/types.rs:764-767 | is the common part's `alias`, changes nothing else and keeps the field well formed |
| FtCreateFields.SchemaNumericField.IndexMissing | redis/src/commands/query_engine/create/types.rs:770-773 | is the common part's `index_missing`, changes nothing else and keeps the field well formed |
| FtCreateFields.NewGeoField | redis/src/commands/query_engine/create/types.rs:802-807 | a new GEO field is a well-formed GEO field |
| FtCreateFields.SchemaGeoField.WithSortable | redis/src/commands/query_engine/create/types.rs:809-812 | `sortable` on a GEO field is the common part's `sortable` and keeps it a GEO field |
| FtCreateFields.SchemaGeoField.NoIndex | redis/src/commands/query_engine/create/types.rs:815-818 | is the common part's `no_index`, changes nothing else and keeps the field well formed |
| FtCreateFields.SchemaGeoField.Alias | redis/src/commands/query_engine/create/types.rs:821-824 | is the common part's `alias`, changes nothing else and keeps the field well formed |
| FtCreateFields.SchemaGeoField.IndexMissing | redis/src/commands/query_engine/create/types.rs:827-830 | is the common part's `index_missing`, changes nothing else and keeps the field well formed |
| FtCreateFields.WritePlainField | redis/src/commands/query_engine/create/types.rs:776-784 | NUMERIC and GEO fields write their base part and then their common part |
| FtCreateFields.PlainFieldRoundTrip | redis/src/commands/query_engine/create/types.rs:739-847 | the tokens of a NUMERIC or GEO field read back as that field |
| FtCreateFields.NewGeoShapeField | redis/src/commands/query_engine/create/types.rs:1661-1668 | a new GEOSHAPE field uses the SPHERICAL coordinate system |
| FtCreateFields.SchemaGeoShapeField.WithCoordSystem | redis/src/commands/query_engine/create/types.rs:1670-1673 | sets the coordinate system, changes nothing else and keeps the field well formed |
| FtCreateFields.SchemaGeoShapeField.Alias | redis/src/commands/query_engine/create/types.rs:1676-1679 | is the common part's `alias`, changes nothing else and keeps the field well formed |
| FtCreateFields.SchemaGeoShapeField.IndexMissing | redis/src/commands/query_engine/create/types.rs:1682-1685 | is the common part's `index_missing`, changes nothing else and keeps the field well formed |
| FtCreateFields.SchemaGeoShapeField.NoIndex | redis/src/commands/query_engine/create/types.rs:1690-1693 | is the common part's `no_index`, changes nothing else and keeps the field well formed (still without SORTABLE) |
| FtCreateFields.WriteGeoShapeField | redis/src/commands/query_engine/create/types.rs:1696-1717 | a GEOSHAPE field writes `[AS alias] GEOSHAPE coord [INDEXMISSING]` and then its common part |
| FtCreateFields.GeoShapeCoordFollowsType | redis/src/commands/query_engine/create/types.rs:1696-1717 | the coordinate system token comes directly after GEOSHAPE |
| FtCreateFields.GeoShapeFieldRoundTrip | redis/src/commands/query_engine/create/types.rs:1654-1723 | every GEOSHAPE field's tokens read back as that field |
| FtCreateVectors.AlgorithmRoundTrip | redis/src/commands/query_engine/create/types.rs:851-868 | FLAT, HNSW and SVS-VAMANA read back as their algorithms |
| FtCreateVectors.VectorTypeRoundTrip | redis/src/commands/query_engine/create/types.rs:874-897 | each vector element type reads back as itself |
| FtCreateVectors.VamanaToVectorType | redis/src/commands/query_engine/create/types.rs:903-915 | the VAMANA element types map to the FLOAT16 and FLOAT32 vector types |
| FtCreateVectors.MetricRoundTrip | redis/src/commands/query_engine/create/types.rs:920-940 | each distance metric reads back as itself |
| FtCreateVectors.CompressionRoundTrip | redis/src/commands/query_engine/create/types.rs:950-973 | each compression type reads back as itself |
| FtCreateVectors.SchemaVectorNumOfArgs | redis/src/commands/query_engine/create/types.rs:1012-1016 | the shared vector attributes count as six tokens, which is what they write |
| FtCreateVectors.FlatNumOfArgs | redis/src/commands/query_engine/create/types.rs:1037-1043 | the FLAT count is the number of tokens the FLAT options write |
| FtCreateVectors.HnswNumOfArgs | redis/src/commands/query_engine/create/types.rs:1079-1094 | the HNSW count is the number of tokens the HNSW options write |
| FtCreateVectors.VamanaNumOfArgs | redis/src/commands/query_engine/create/types.rs:1145-1169 | the VAMANA count is the number of tokens the VAMANA options write |
| FtCreateVectors.VectorOptionsNumOfArgs | redis/src/commands/query_engine/create/types.rs:1249-1298 | the algorithm-specific count is the number of option tokens written |
| FtCreateVectors.WriteVectorOptions | redis/src/commands/query_engine/create/types.rs:1026-1143 | each algorithm's options are written in source order, each only when set |
| FtCreateVectors.WriteVectorField | redis/src/commands/query_engine/create/types.rs:1249-1298 | a vector field writes `[AS alias] VECTOR algorithm count TYPE t DIM d DISTANCE_METRIC m options [INDEXMISSING]` |
| FtCreateVectors.VectorCountCoversAttributes | redis/src/commands/query_engine/create/types.rs:1249-1298 | the count is the number of tokens after it, leaving out a trailing INDEXMISSING, which ends the field when it is set |
| FtCreateVectors.AlgorithmFollowsType | redis/src/commands/query_engine/create/types.rs:1249-1298 | the algorithm name follows VECTOR (and the alias, when there is one) |
| FtCreateVectors.VectorField.Alias | redis/src/commands/query_engine/create/types.rs:1227-1234 | sets the alias in the base of whichever variant, keeping the variant, its options and its well-formedness |
| FtCreateVectors.VectorField.IndexMissing | redis/src/commands/query_engine/create/types.rs:1237-1246 | sets INDEXMISSING in the base of whichever variant, keeping the variant, its options and its well-formedness |
| FtCreateVectors.NewSchemaVectorField | redis/src/commands/query_engine/create/types.rs:1313-1319 | the shared attributes: a new VECTOR base with the given algorithm, element type, dimension and metric |
| FtCreateVectors.VectorFieldRoundTrip | redis/src/commands/query_engine/create/types.rs:1211-1298 | every well-formed vector field's tokens read back as that field |
| FtCreateVectors.NewFlatVectorField | redis/src/commands/query_engine/create/types.rs:1302-1322 | `VectorField::flat` panics exactly when the dimension is 0; otherwise it builds a FLAT builder over the given type, dimension and metric |
| FtCreateVectors.FlatVectorFieldBuilder.BlockSize | redis/src/commands/query_engine/create/types.rs:1395-1398 | sets BLOCK_SIZE, changes nothing else and keeps the builder well formed |
| FtCreateVectors.FlatVectorFieldBuilder.Alias | redis/src/commands/query_engine/create/types.rs:1401-1404 | sets the base's alias, changes nothing else and keeps the builder well formed |
| FtCreateVectors.FlatVectorFieldBuilder.IndexMissing | redis/src/commands/query_engine/create/types.rs:1407-1410 | sets the base's INDEXMISSING, changes nothing else and keeps the builder well formed |
| FtCreateVectors.FlatVectorFieldBuilder.Build | redis/src/commands/query_engine/create/types.rs:1413-1420 | `build` gives a FLAT field with the builder's base and block size |
| FtCreateVectors.NewHnswVectorField | redis/src/commands/query_engine/create/types.rs:1325-1348 | `VectorField::hnsw` panics exactly when the dimension is 0; otherwise it builds an HNSW builder |
| FtCreateVectors.HnswVectorFieldBuilder.M | redis/src/commands/query_engine/create/types.rs:1439-1442 | sets M, changes nothing else and keeps the builder well formed |
| FtCreateVectors.HnswVectorFieldBuilder.EfConstruction | redis/src/commands/query_engine/create/types.rs:1447-1450 | sets EF_CONSTRUCTION, changes nothing else and keeps the builder well formed |
| FtCreateVectors.HnswVectorFieldBuilder.EfRuntime | redis/src/commands/query_engine/create/types.rs:1454-1457 | sets EF_RUNTIME, changes nothing else and keeps the builder well formed |
| FtCreateVectors.HnswVectorFieldBuilder.Epsilon | redis/src/commands/query_engine/create/types.rs:1463-1466 | sets EPSILON, changes nothing else and keeps the builder well formed |
| FtCreateVectors.HnswVectorFieldBuilder.Alias | redis/src/commands/query_engine/create/types.rs:1469-1472 | sets the base's alias, changes nothing else and keeps the builder well formed |
| FtCreateVectors.HnswVectorFieldBuilder.IndexMissing | redis/src/commands/query_engine/create/types.rs:1475-1478 | sets the base's INDEXMISSING, changes nothing else and keeps the builder well formed |
| FtCreateVectors.HnswVectorFieldBuilder.Build | redis/src/commands/query_engine/create/types.rs:1481-1491 | `build` gives an HNSW field with M, EF_CONSTRUCTION, EF_RUNTIME and EPSILON as set |
| FtCreateVectors.NewVamanaVectorField | redis/src/commands/query_engine/create/types.rs:1351-1377 | `VectorField::vamana` panics exactly when the dimension is 0; otherwise it builds a VAMANA builder over the converted type |
| FtCreateVectors.VamanaVectorFieldBuilder.Compression | redis/src/commands/query_engine/create/types.rs:1520-1523 | sets COMPRESSION, changes nothing else and keeps the builder well formed |
| FtCreateVectors.VamanaVectorFieldBuilder.ConstructionWindowSize | redis/src/commands/query_engine/create/types.rs:1528-1531 | sets CONSTRUCTION_WINDOW_SIZE, changes nothing else and keeps the builder well formed |
| FtCreateVectors.VamanaVectorFieldBuilder.GraphMaxDegree | redis/src/commands/query_engine/create/types.rs:1536-1539 | sets GRAPH_MAX_DEGREE, changes nothing else and keeps the builder well formed |
| FtCreateVectors.VamanaVectorFieldBuilder.SearchWindowSize | redis/src/commands/query_engine/create/types.rs:1544-1547 | sets SEARCH_WINDOW_SIZE, changes nothing else and keeps the builder well formed |
| FtCreateVectors.VamanaVectorFieldBuilder.Epsilon | redis/src/commands/query_engine/create/types.rs:1551-1554 | sets EPSILON, changes nothing else and keeps the builder well formed |
| FtCreateVectors.VamanaVectorFieldBuilder.Alias | redis/src/commands/query_engine/create/types.rs:1600-1603 | sets the base's alias, changes nothing else and keeps the builder well formed |
| FtCreateVectors.VamanaVectorFieldBuilder.IndexMissing | redis/src/commands/query_engine/create/types.rs:1606-1609 | sets the base's INDEXMISSING, changes nothing else and keeps the builder well formed |
| FtCreateVectors.MaxReduce | redis/src/commands/query_engine/create/types.rs:1579-1597 | REDUCE may be at most the dimension minus one, and never below 1 |
| FtCreateVectors.VamanaVectorFieldBuilder.TrainingThreshold | redis/src/commands/query_engine/create/types.rs:1560-1574 | the threshold is ignored without a compression; with one the builder stores `min(t, MAX_TRAINING_THRESHOLD)` (a 0 is kept) and changes nothing else |
| FtCreateVectors.VamanaVectorFieldBuilder.Reduce | redis/src/commands/query_engine/create/types.rs:1579-1597 | REDUCE is kept only for the LeanVec compressions, clamped to 1..dim-1; otherwise the builder is unchanged |
| FtCreateVectors.VamanaVectorFieldBuilder.Build | redis/src/commands/query_engine/create/types.rs:1612-1625 | `build` gives a VAMANA field carrying the builder's options |
| FtCreateVectors.TrainingThresholdNeedsCompressionFirst | redis/src/commands/query_engine/create/types.rs:1560-1574 | a threshold set before the compression is lost; one set after it is kept |
| FtCreateVectors.UncompressedOmitsClampedOptions | redis/src/commands/query_engine/create/types.rs:1560-1597 | without a compression, TRAINING_THRESHOLD and REDUCE never reach the built field |
| FtCreateVectors.FlatWithBlockSizeExample | redis/src/commands/query_engine/create/tests.rs:856-868 | `FLAT 8 TYPE FLOAT32 DIM 2 DISTANCE_METRIC L2 BLOCK_SIZE 1000` |
| FtCreateVectors.HnswExample | redis/src/commands/query_engine/create/tests.rs:870-884 | `HNSW 12 ... M 40 EF_CONSTRUCTION 250 EF_RUNTIME 20` |
| FtCreateVectors.AliasAndIndexMissingExample | redis/src/commands/query_engine/create/tests.rs:828-854 | `AS custom_alias VECTOR FLAT 6 ... L2 INDEXMISSING`; INDEXMISSING is not counted |
| FtCreateVectors.VamanaReduceExample | redis/src/commands/query_engine/create/tests.rs:886-958 | REDUCE is dropped under LVQ8 and kept under LeanVec4x8; the clamping bounds hold |
| FtCreateSchema.WriteField | redis/src/commands/query_engine/create/types.rs:1745-1760 | a field definition writes the tokens of the field it wraps |
| FtCreateSchema.NormalizeKeepsTokens | redis/src/commands/query_engine/create/types.rs:1798-1802 | a bare `FieldType` writes the same tokens as the default builder of that type |
| FtCreateSchema.Normalize | redis/src/commands/query_engine/create/types.rs:1798-1802 | only a bare TEXT, TAG, NUMERIC or GEO type is replaced (by a builder); everything else, a bare VECTOR or GEOSHAPE included, is kept, and well-formedness is kept |
| FtCreateSchema.JustTypeRoundTrip | redis/src/commands/query_engine/create/types.rs:1798-1802 | a bare type keyword reads back as the default field of that type |
| FtCreateSchema.DefaultFieldsWriteType | redis/src/commands/query_engine/create/types.rs:1762-1802 | default TEXT, TAG, NUMERIC and GEO fields write only their type keyword |
| FtCreateSchema.FieldRoundTrip | redis/src/commands/query_engine/create/types.rs:1728-1802 | every well-formed field definition reads back as itself, with a bare type read as its default builder |
| FtCreateSchema.WriteSchema | redis/src/commands/query_engine/create/types.rs:1827-1837 | the schema writes each entry's name and then its field, in insertion order |
| FtCreateSchema.SchemaArgsAppend | redis/src/commands/query_engine/create/types.rs:1827-1837 | the schema's tokens are the concatenation of its entries' tokens |
| FtCreateSchema.SchemaEntryAt | redis/src/commands/query_engine/create/types.rs:1827-1837 | entry `i` sits, as name then field tokens, between the tokens of the entries before and after it |
| FtCreateSchema.RediSearchSchema.constructor | redis/src/commands/query_engine/create/types.rs:1812-1814 | a new schema is empty |
| FtCreateSchema.RediSearchSchema.Insert | redis/src/commands/query_engine/create/types.rs:1817-1819 | `insert` appends the entry and keeps duplicates of a name |
| FtCreateSchema.RediSearchSchema.IsEmpty | redis/src/commands/query_engine/create/types.rs:1822-1824 | true exactly when no entry was inserted |
| FtCreateSchema.InsertAppendsTokens | redis/src/commands/query_engine/create/types.rs:1817-1837 | an insertion appends the key and the field's tokens to the schema's tokens |
| FtCreateSchema.DualIndexExample | redis/src/commands/query_engine/create/tests.rs:1063-1089 | `sku AS sku_text TEXT sku AS sku_tag TAG SORTABLE` |
| FtCreateCmd.FtCreateCommand.Options | redis/src/commands/query_engine/create/command.rs:45-48 | `options` replaces the options and nothing else |
| FtCreateCmd.FtCreateCommand.Schema | redis/src/commands/query_engine/create/command.rs:51-54 | `schema` replaces the schema and nothing else |
| FtCreateCmd.NewFtCreateCommand | redis/src/commands/query_engine/create/command.rs:36-42 | a new command has the given name, options that write nothing, and an empty schema |
| FtCreateCmd.IntoCmd | redis/src/commands/query_engine/create/command.rs:57-74 | `into_cmd` checks the name first and then the schema, and otherwise produces the command's arguments |
| FtCreateCmd.WriteCommand | redis/src/commands/query_engine/create/command.rs:66-71 | the `arg` calls append FT.CREATE, the name, the options, SCHEMA and the schema |
| FtCreateCmd.IntoCmdPanics | redis/src/commands/query_engine/create/command.rs:58-65 | `into_cmd` fails exactly when the name or the schema is empty, with the name's message taking precedence |
| FtCreateCmd.SchemaIsNotOptionKeyword | redis/src/commands/query_engine/create/command.rs:66-71 | SCHEMA is not an option keyword, so the option block is delimited |
| FtCreateCmd.CommandLayout | redis/src/commands/query_engine/create/command.rs:57-74 | the arguments are FT.CREATE and the name, then the options, which read back as exactly the options set and stop at SCHEMA, then the schema's tokens |
| FtCreateCmd.OnlySchemaSet | redis/src/commands/query_engine/create/command.rs:36-74 | with default options, SCHEMA follows the index name directly |
| FtCreateCmd.LastSetterWins | redis/src/commands/query_engine/create/command.rs:45-54 | a second call to the same setter overrides the first, and the two setters commute |
| FtCreateCmd.TextFieldExample | redis/src/commands/query_engine/create/tests.rs:295-301 | `FT.CREATE index SCHEMA title TEXT` |
| AuthTypes.NewCredentials | redis/src/auth.rs:18-24 | credentials without expiry are received now and never expire |
| AuthTypes.CredentialsWithExpiration | redis/src/auth.rs:27-33 | credentials carry the given expiry and are received now |
| AuthTypes.AuthCredentials.IsExpired | redis/src/auth.rs:36-42 | only credentials with an expiry can be expired, and they are from that instant on |
| AuthTypes.AuthCredentials.EligibleForRefresh | redis/src/auth.rs:48-57 | never without an expiry; otherwise from `receivedAt + threshold` on, and always when the clock reads before `receivedAt` |
| AuthTypes.ExpiredIsEligible | redis/src/auth.rs:36-57 | expired credentials whose threshold lies within their lifetime are eligible for a refresh |
| AuthTypes.ExpiryIsPermanent | redis/src/auth.rs:36-42 | expired credentials stay expired as time passes |
| AuthTypes.EligibilityIsPermanent | redis/src/auth.rs:48-57 | credentials that are eligible for refresh stay eligible as time passes |
| AuthTypes.LowerThresholdEligibleSooner | redis/src/auth.rs:48-57 | eligibility under a threshold implies eligibility under any lower threshold |
| AuthTypes.DefaultRetryConfig | redis/src/auth.rs:165-175 | the defaults are 3 attempts, 100 ms initial delay, 30 s maximum, multiplier 2.0 and jitter 0.1 |
| AuthTypes.DefaultTokenRefreshConfig | redis/src/auth.rs:141-148 | the default refresh ratio is 0.8, with the default retry configuration |
| AuthTypes.TokenRefreshConfig.SetExpirationRefreshRatio | redis/src/auth_management.rs:18-22 | the setter replaces the ratio and keeps the retry configuration |
| AuthTypes.TokenRefreshConfig.SetRetryConfig | redis/src/auth_management.rs:24-27 | the setter replaces the retry configuration and keeps the ratio |
| AuthTypes.TokenRefreshServiceConfig.SetRefreshInterval | redis/src/auth_management.rs:85-89 | the setter replaces the interval and keeps the refresh configuration |
| AuthTypes.TokenRefreshServiceConfig.SetTokenRefreshConfig | redis/src/auth_management.rs:91-94 | the setter replaces the refresh configuration and keeps the interval |
| AuthTypes.DefaultTokenRefreshServiceConfig | redis/src/auth_management.rs:97-104 | the default refresh interval is 60 s, with the default refresh configuration |
| AuthTypes.SettersLastWins | redis/src/auth_management.rs:16-94 | a second call to the same setter overrides the first, and setters of different fields commute |
| TokenManagerCommon.FromSecsF64 | redis/src/auth.rs:190-199 | converting seconds to a `Duration` lands within half a nanosecond of the exact value |
| TokenManagerCommon.SaturatingU64 | redis/src/auth.rs:226-233 | the `as u64` cast truncates toward zero, sends negative values to 0 and saturates at `u64::MAX` |
| TokenManagerCommon.RefreshThreshold | redis/src/auth.rs:190-199 | the threshold is the lifetime times the ratio, rounded to a nanosecond, and never exceeds the lifetime when the ratio is at most 1 |
| TokenManagerCommon.ShouldRefresh | redis/src/auth.rs:182-203 | expired credentials and credentials whose expiry precedes their receipt must be refreshed; credentials without expiry never are; otherwise refresh once `now` reaches the threshold |
| TokenManagerCommon.RefreshWindow | redis/src/auth.rs:182-203 | with a ratio in [0, 1], refresh is due exactly from receipt plus the threshold on |
| TokenManagerCommon.ShouldRefreshIsPermanent | redis/src/auth.rs:182-203 | once a refresh is due it stays due as time passes |
| TokenManagerCommon.RandomFactor | redis/src/auth.rs:206-223 | the random factor taken from the clock's hash lies in [0, 1) |
| TokenManagerCommon.ApplyJitter | redis/src/auth.rs:206-223 | with no jitter percentage the delay is unchanged |
| TokenManagerCommon.Jitter | redis/src/auth.rs:206-223 | the jitter lies in [-range, range] |
| TokenManagerCommon.JitterBounds | redis/src/auth.rs:206-223 | a jittered delay lies within delay * (1 - p) and delay * (1 + p), up to half a nanosecond of rounding |
| TokenManagerCommon.CalculateNextDelay | redis/src/auth.rs:226-233 | the next delay never exceeds the maximum and, below it, is a whole number of milliseconds |
| TokenManagerCommon.ScaleMillis | redis/src/auth.rs:226-233 | scaling milliseconds by a multiplier of at least 1 never shrinks them and saturates at `u64::MAX` |
| TokenManagerCommon.NextDelayNotSmaller | redis/src/auth.rs:226-233 | with a multiplier of at least 1 the backoff never shortens a delay |
| TokenManagerCommon.DelaysCapped | redis/src/auth.rs:281-314 | every delay after the first is capped by the maximum |
| TokenManagerCommon.DelaysNonDecreasing | redis/src/auth.rs:281-314 | the sequence of delays never decreases |
| TokenManagerCommon.DefaultDelays | redis/src/auth.rs:165-175 | the default configuration backs off 100 ms, 200 ms, 400 ms |
| TokenManagerCommon.ScriptedProvider.GetCredentials | redis/src/auth.rs:71 | each call to the provider returns its next outcome |
| TokenManagerCommon.AttemptBound | redis/src/auth.rs:293-297 | the loop makes at least one call, even when `max_attempts` is 0 |
| TokenManagerCommon.RetryOutcomeUnique | redis/src/auth.rs:281-314 | the number of calls and the result are determined by the provider's outcomes |
| TokenManagerCommon.RetryCalls | redis/src/auth.rs:281-314 | a provider that always fails is called `max(max_attempts, 1)` times and its error is returned; one that succeeds at once is called once |
| TokenManagerCommon.Sleeps | redis/src/auth.rs:299-310 | there is one sleep per failed attempt that is retried |
| TokenManagerCommon.SleepAt | redis/src/auth.rs:299-310 | the k-th sleep is the k-th backoff delay, jittered |
| TokenManagerCommon.FetchWithRetry | redis/src/auth.rs:281-314 | the loop stops at the first success or after the last attempt, returns that call's outcome, and sleeps the jittered delays in between |
| Auth.NonNegativeRatioDefined | redis/src/auth.rs:190-199 | with a non-negative ratio the refresh decision never panics |
| Auth.TokenManager.WithConfig | redis/src/auth.rs:253-259 | a manager over the given provider and configuration, with nothing cached |
| Auth.TokenManager.constructor | redis/src/auth.rs:248-250 | a manager with the default configuration and nothing cached |
| Auth.TokenManager.RefreshCredentials | redis/src/auth.rs:281-314 | the retry loop's outcome; a success replaces the cache, a failure leaves it alone |
| Auth.TokenManager.GetCredentials | redis/src/auth.rs:265-278 | cached credentials that need no refresh are returned without calling the provider; otherwise this is a refresh |
| Auth.TicksBeforeShutdown | redis/src/auth.rs:460-480 | counts the ticks before the first shutdown signal |
| Auth.RefreshLoop | redis/src/auth.rs:460-480 | the loop handles every tick before the shutdown signal, failures included, and then stops; cached credentials stay cached; the cache holds its old value or a success the provider returned during the loop; the recorded sleeps only grow; a loop started with nothing cached that sees a tick calls the provider |
| Auth.AsyncTokenRefreshService.constructor | redis/src/auth.rs:416-423 | the service holds a fresh manager with the given configuration and no task |
| Auth.AsyncTokenRefreshService.Start | redis/src/auth.rs:426-441 | `start` does nothing when running; otherwise it spawns one task and holds its handle and shutdown sender |
| Auth.AsyncTokenRefreshService.Stop | redis/src/auth.rs:444-452 | `stop` signals the task, awaits it, and leaves no task |
| Auth.AsyncTokenRefreshService.Drop | redis/src/auth.rs:484-490 | dropping the service signals the task without awaiting it |
| Auth.RestartSpawnsNewTask | redis/src/auth.rs:426-452 | start, stop, start: the first task is signalled and awaited, and the second is a new one |
| AuthManagement.TokenManager.WithConfig | redis/src/auth_management.rs:182-188 | a manager over the given provider and configuration, with nothing cached |
| AuthManagement.TokenManager.constructor | redis/src/auth_management.rs:177-179 | a manager with the default configuration and nothing cached |
| AuthManagement.TokenManager.RefreshCredentials | redis/src/auth_management.rs:206-239 | the same retry loop; a success replaces the cache |
| AuthManagement.TokenManager.GetCredentials | redis/src/auth_management.rs:194-203 | anything cached is returned without calling the provider; otherwise this is a refresh |
| AuthManagement.SecondCallIsCached | redis/src/auth_management.rs:194-203 | after one success the second call returns the same credentials, the cache holds them, and the provider's call count does not move |
| EntraId.TrimStart | redis/src/entra_id.rs:270-308 | strips exactly the leading white space |
| EntraId.TrimEnd | redis/src/entra_id.rs:270-308 | strips exactly the trailing white space |
| EntraId.Trim | redis/src/entra_id.rs:279 | `str::trim`: a contiguous part of the scope that neither starts nor ends with white space, with only white space before and after it |
| EntraId.BlankIffAllWhitespace | redis/src/entra_id.rs:270-308 | a scope is blank exactly when it is nothing but white space |
| EntraId.CheckEachScope | redis/src/entra_id.rs:283-300 | the per-scope check fails only with the blank-scope error |
| EntraId.CheckEachScopeIff | redis/src/entra_id.rs:283-300 | the per-scope check passes exactly when no scope is blank |
| EntraId.ValidateScopes | redis/src/entra_id.rs:270-308 | scopes are valid exactly when there is at least one and none is blank; the empty error comes first |
| EntraId.NoUrlCheck | redis/src/entra_id.rs:270-308 | any scope that does not start with white space is accepted, and no URL form is checked |
| EntraId.ScopeExamples | redis/src/entra_id.rs:512-554 | an empty list, an empty scope and a white-space scope are rejected with their messages |
| EntraId.ValidScopeExample | redis/src/entra_id.rs:549-553 | the URL scope of the unit tests is accepted |
| EntraId.DefaultScopeValid | redis/src/entra_id.rs:48 | the default Redis scope is valid |
| EntraId.ConvertError | redis/src/entra_id.rs:311-317 | an Azure error becomes an authentication failure that carries its text |
| EntraId.TokenToCredential | redis/src/entra_id.rs:333-341 | a token becomes bearer credentials with the token as the password |
| EntraId.MapTokenResponse | redis/src/entra_id.rs:333-341 | a token maps to credentials and an Azure error maps to the converted error |
| EntraId.SyncCredentials | redis/src/entra_id.rs:414-447 | the blocking `get_credentials` fails with an I/O error when no runtime can be made, and otherwise maps the token response |
| EntraId.ConstructionError | redis/src/entra_id.rs:85-267 | a constructor checks the scopes first, then the backend's own error, then the unwrap; a custom credential needs no build |
| EntraId.DefaultScopeConstruction | redis/src/entra_id.rs:85-105 | with the default scope, construction succeeds exactly when the backend is built or given |
| EntraId.DeliverOne | redis/src/entra_id.rs:356-362 | an open subscriber receives the item and a closed one does not |
| EntraId.Deliver | redis/src/entra_id.rs:356-362 | every subscriber, in order, is offered the item |
| EntraId.KeepOpen | redis/src/entra_id.rs:362-365 | only open subscribers are kept |
| EntraId.KeepOpenMembers | redis/src/entra_id.rs:362-365 | a subscriber is kept exactly when it was there and is open |
| EntraId.KeepOpenAppend | redis/src/entra_id.rs:362-365 | pruning distributes over concatenation, so subscribers keep their order |
| EntraId.DeliverThenPrune | redis/src/entra_id.rs:356-365 | pruning after delivery keeps the same subscribers as delivering to the open ones |
| EntraId.DeliverAppend | redis/src/entra_id.rs:356-362 | delivery distributes over concatenation |
| EntraId.NewSubscriber | redis/src/entra_id.rs:380-407 | a new subscriber is open and receives the current credentials first, if there are any |
| EntraId.SendToAll | redis/src/entra_id.rs:356-362 | the send loop delivers the item to every subscriber |
| EntraId.RetainOpen | redis/src/entra_id.rs:362-365 | `retain` keeps exactly the open subscribers, in order |
| EntraId.EntraIdCredentialsProvider.constructor | redis/src/entra_id.rs:255-267 | no background task, no subscribers, no credentials |
| EntraId.EntraIdCredentialsProvider.Start | redis/src/entra_id.rs:320-370 | `start` does nothing when a task runs; otherwise it spawns one |
| EntraId.EntraIdCredentialsProvider.Stop | redis/src/entra_id.rs:372-376 | `stop` aborts the task, if any, and leaves none |
| EntraId.EntraIdCredentialsProvider.BroadcastRound | redis/src/entra_id.rs:333-365 | one round keeps credentials on success, sends the outcome to all subscribers and drops the closed ones |
| EntraId.EntraIdCredentialsProvider.Subscribe | redis/src/entra_id.rs:380-407 | `subscribe` adds one open subscriber at the end, seeded with the current credentials |
| EntraId.EntraIdCredentialsProvider.CloseSubscriber | redis/src/entra_id.rs:380-407 | dropping a stream closes that subscriber only |
| EntraId.NewWithScopes | redis/src/entra_id.rs:90-267 | scopes are validated before anything is built, and a successful provider keeps them as given |
| EntraId.New | redis/src/entra_id.rs:85-253 | the default-scope constructors succeed exactly when the credential is built |
| EntraId.SubscriberSeesReplayThenRound | redis/src/entra_id.rs:345-407 | a subscriber that joins while credentials are current sees them and then the next round's outcome, after the open subscribers from before |

## Left out

- Threads, `tokio`, channels and mutexes: the background loops are modelled one round or one tick at a time. The sleeps are recorded in `slept` rather than taken. A poisoned mutex, where the source skips the cache update, is not modelled.
- The clock: each call takes one `now` instant, where the source reads the clock separately in `is_expired` and in `eligible_for_refresh`. The jitter's hash of the clock is a parameter `hashes`, a finite list that reads 0 past its end.
- `AsyncTokenManager` (`redis/src/auth.rs:319-400`) duplicates `TokenManager` with `.await`. It is not modelled separately.
- `StaticCredentialsProvider` (`redis/src/auth.rs:94-122`): a `ScriptedProvider` whose script is constant behaves the same. The `CredentialsProvider` traits and `clone_box` are left out.
- The generic credentials type of `auth_management.rs` is fixed to `BasicAuth`. That file's commented-out code is not modelled.
- TokenManagerCommon.ShouldRefresh: requires that the threshold computation is defined. `Duration::from_secs_f64` panics on a negative product (a negative ratio), and that panic is not modelled.
- TokenManagerCommon.RefreshThreshold: `Duration::from_secs_f64` also panics when the product is more than `u64::MAX` seconds. The model returns the rounded product as an unbounded duration instead; that overflow panic is not modelled.
- TokenManagerCommon.ApplyJitter: the jittered delay goes through `Duration::from_secs_f64` too. A result of more than `u64::MAX` seconds, where the source panics, is returned as an unbounded duration instead.
- Auth.TokenManager.GetCredentials: inherits the requirement of `ShouldRefresh` for the cached credentials. With a negative ratio and credentials that have an expiry, the source panics, and that call is excluded rather than modelled as a panic.
- Auth.RefreshLoop: requires a non-negative refresh ratio, which covers every tick. With a negative ratio the source's loop panics at the first tick that inspects credentials with an expiry; that case is excluded rather than modelled.
- TokenManagerCommon.FromSecsF64: only bounds the rounding to within half a nanosecond. The exact `f64` rounding, ties, NaN, infinities and the panic on more than `u64::MAX` seconds are not modelled.
- `f64` arithmetic is exact `real` arithmetic. Float arguments of FT.CREATE (SCORE, WEIGHT, EPSILON) are kept as the text the crate writes for them.
- TokenManagerCommon.CalculateNextDelay: the delay is truncated to whole milliseconds and saturated to `u64` as the source does. The conversion of the milliseconds to `f64` is taken as exact.
- `warn!` and other logging are left out.
- The Azure SDK: constructing a credential and requesting a token are parameters (`BuildOutcome`, the token response). The blocking runtime of the synchronous `get_credentials` is a parameter `runtimeError`.
- The Entra ID background loop (`redis/src/entra_id.rs:320-370`): one round is `BroadcastRound`. The refresh interval, the expiry-driven scheduling and the channel capacity are left out.
- `SchemaCommonField::sortable` calls `unreachable!` for field types that cannot be sorted. Only crate code calls it, always with a sortable type, so the model requires `IsSortable` instead.
- A `FieldDefinition` made from a bare `FieldType` writes the same tokens as the default builder of that type. The field round trip therefore reads it back as that builder (`Normalize`).
- The schema's token stream does not parse back uniquely, because a field name may equal a keyword. Its partner is the append law `SchemaArgsAppend`, not a parser.
- `into_args` (`command.rs:78-89`) is a test-only helper that joins the arguments with spaces. The example lemmas state the argument lists directly. The `schema!` macro is left out.
- Strings are sequences of characters. The byte encoding of arguments is left out.
