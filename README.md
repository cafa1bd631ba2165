# brichka core in Dafny

brichka is a command-line companion for Databricks: it selects a cluster and
an execution context, runs a piece of source text on the cluster, and prints
a one-line JSON rendering of the result. It also serves completions of
Unity Catalog names (`catalog.schema.table`) to an editor. This project
models the core of both in Dafny and proves properties of that model.

- **`brichka run`** (`src/commands/run.rs`):
  - the preprocessor that drops `// brichka: exclude` … `// brichka: include` regions;
  - the cluster-state gate;
  - the resolution of the execution context (reuse, temporary context, or `init`);
  - the submission and the status poll;
  - the decoding of results into `text`, `error` or `table` outcomes, and the
    one-line rendering;
  - the file a table result is spilled to.
- **The commands `run` builds on:**
  - `await_context` (`src/commands/mod.rs`);
  - `cluster start` (`src/commands/cluster.rs`);
  - `init` (`src/commands/init.rs`).
- **The completion server** (`src/commands/lsp.rs`):
  - the text before the cursor;
  - the dotted identifier chain;
  - the open-document table;
  - the lazily filled catalog cache;
  - completion by the number of parts of the chain.

Modules follow the program:

| module | file | models |
|---|---|---|
| `Wrappers` | `wrappers.dfy` | `Option` and `Result` |
| `Text` | `text.dfy` | the Rust `str` operations the core relies on: `trim`, `trim_end`, `lines`, `split`, `join`, `replace`, `starts_with` |
| `Json` | `json.dfy` | `serde_json::Value` with integer numbers: compact serialization with keys in code-point order, and a parser |
| `JsonRoundTrip` | `json_roundtrip.dfy` | parsing a serialized value gives the value back |
| `Preprocessor` | `preprocessor.dfy` | `filter_excluded_sections` |
| `Api` | `api.dfy` | the workspace endpoints and the selection files |
| `Commands` | `commands.dfy` | `await_context` |
| `ClusterCommand` | `cluster_command.dfy` | `cluster::start` |
| `InitCommand` | `init_command.dfy` | `init::init` |
| `Decoder` | `decoder.dfy` | `is_complex_type` through `format_command_result`, and the printed JSON line |
| `RunCommand` | `run_command.dfy` | the context resolver, the command poll, the gate and `run` |
| `Lsp` | `lsp.dfy` | the completion server |

Remote effects are threaded through a world value:

- `Api.Service` holds one scripted queue of replies per workspace endpoint and
  a log of the requests made. Each method consumes one reply and logs one call.
  Past the end of a queue the reply is an error.
- `Api.Store` holds the selection files.
- Every routine is a method on these objects. Its `ensures` says its result
  and the new state equal a specification function applied to the old
  state (`AwaitContextSpec`, `StartSpec`, `InitSpec`, `RunSpec`, …).
- Properties are lemmas about these functions: which requests are made, in
  which order, with which arguments, and when a poll stops and with what
  outcome.

The catalog service of the completion server is likewise a parameter: a
`Lsp.Directory` giving the listing of the catalogs, the schemas of a catalog
and the tables of a schema.

## Model

| member | source | states |
|---|---|---|
| Text.Lines | src/commands/run.rs:50 | no line contains a line feed; only the empty text has no lines |
| Text.JoinLines | src/commands/run.rs:50 | text without carriage returns or a final line feed is its lines joined with line feeds |
| Text.TrimStartDrops | src/commands/run.rs:51 | `trim_start` keeps a suffix, drops only whitespace, and leaves no leading whitespace |
| Text.TrimEndDrops | src/commands/lsp.rs:90 | `trim_end` keeps a prefix, drops only whitespace, and leaves no trailing whitespace |
| Text.Split | src/commands/lsp.rs:99-102 | a split always has at least one piece and no piece contains the separator |
| Text.JoinSplit | src/commands/lsp.rs:99-102 | joining the pieces with the separator gives back the split text |
| Text.SplitKeepsCharacters | src/commands/lsp.rs:99-102 | every character of a piece occurs in the split text |
| Json.SortedKeys | src/commands/run.rs:156 | an object's keys are written each exactly once, in increasing code-point order |
| Json.NatText | src/commands/run.rs:226-230 | a count is written as decimal digits without a leading zero |
| Json.Serialize | src/commands/run.rs:128 | no contract of its own (`serde_json::to_string`); its properties are `SortedKeys`, `NatText`, `SerializeRoundTrip` and `ParseSerialize` |
| Json.Parse | src/commands/run.rs:167 | no contract of its own (`serde_json::from_str`); its property is `ParseSerialize` |
| JsonRoundTrip.SerializeRoundTrip | src/commands/run.rs:118-119 | a serialized value followed by anything that cannot continue a number parses back to the value, leaving the rest |
| JsonRoundTrip.ParseSerialize | src/commands/run.rs:141-144 | `from_str(to_string(v))` gives back `v` for every value of the model (unbounded integers, any nesting depth; see "Left out") |
| Preprocessor.FilterExcludedSections | src/commands/run.rs:47-71 | the one-flag scan returns the kept lines joined with line feeds |
| Preprocessor.Kept | src/commands/run.rs:47-71 | no contract of its own; its properties are `KeptSelection`, `KeptHasNoMarker`, `KeptWithoutMarkers` and `UnterminatedExclude` |
| Preprocessor.KeptSelection | src/commands/run.rs:50-67 | a line is kept exactly when it is no marker and the flag is clear before it; kept lines are verbatim and in their original order |
| Preprocessor.ExcludingMeansOpenExclude | src/commands/run.rs:53-61 | the flag is set exactly when some exclude marker has no marker after it |
| Preprocessor.KeptHasNoMarker | src/commands/run.rs:53-61 | no marker line reaches the output |
| Preprocessor.KeptWithoutMarkers | src/commands/run.rs:62-66 | without markers every line is kept |
| Preprocessor.UnterminatedExclude | src/commands/run.rs:54-57 | after an exclude marker that no include marker follows, nothing more is kept |
| Preprocessor.FilterIdentity | src/commands/run.rs:47-71 | marker-free text without carriage returns or a final line feed passes through unchanged |
| Api.FirstWhere | src/commands/run.rs:76-84 | the position of the first reply that ends a poll: none before it ends it, the one at it does |
| Api.SelectedCluster | src/commands/run.rs:294 | the directory's cluster wins over the global one; an error exactly when neither is set |
| Api.Service.GetClusterInfo | src/commands/run.rs:278 | consumes one cluster state and logs `GetClusterInfo(cluster)` |
| Api.Service.StartCluster | src/commands/cluster.rs:17 | consumes one start reply and logs `StartCluster(cluster)` |
| Api.Service.CreateContext | src/commands/run.rs:11 | consumes one created id and logs `CreateContext(cluster, language)` |
| Api.Service.GetContextStatus | src/commands/mod.rs:13 | consumes one context status and logs the query |
| Api.Service.ExecuteCommand | src/commands/run.rs:300 | consumes one command id and logs the submission with its text and language |
| Api.Service.GetCommandInfo | src/commands/run.rs:77 | consumes one command status and logs the query |
| Api.Store.WriteLocalContext | src/commands/init.rs:12 | the directory's context becomes the given id; the cluster selection is unchanged |
| Commands.AwaitContextSpec | src/commands/mod.rs:11-22 | the wait changes only the context-status queue and the log, and logs only status queries of that context |
| Commands.AwaitContext | src/commands/mod.rs:11-22 | the polling loop has the effect and outcome of `AwaitContextSpec` |
| Commands.AwaitContextFirstDecisive | src/commands/mod.rs:13-18 | the wait queries up to the first `Running` or `Error` status and no further; it succeeds at `Running`, fails with "Failed creating an execution context" at `Error`, and passes a failed query on |
| Commands.AwaitContextSkipsPending | src/commands/mod.rs:12-20 | any number of pending statuses only add status queries; the outcome is that of the status after them |
| ClusterCommand.AwaitRunningSpec | src/commands/cluster.rs:20-28 | the wait changes only the cluster-state queue and the log, and logs only state queries of that cluster |
| ClusterCommand.StartSpec | src/commands/cluster.rs:14-31 | `start` makes only cluster-stage requests; with no cluster selected it fails and makes none |
| ClusterCommand.Start | src/commands/cluster.rs:14-31 | the method has the effect and outcome of `StartSpec` |
| ClusterCommand.AwaitRunningFirstDecisive | src/commands/cluster.rs:21-26 | the wait stops at the first `RUNNING` or `ERROR` state: success, or "Failed to start the cluster" |
| ClusterCommand.StartRequestsOnceThenPolls | src/commands/cluster.rs:15-28 | exactly one start request comes first; if it fails nothing follows, otherwise state queries up to the first decisive state, whose reply is the outcome (`NoReply` when the script ends first) |
| InitCommand.InitSpec | src/commands/init.rs:7-17 | `init` makes only context-stage requests and changes only the directory's context; with no cluster selected nothing changes |
| InitCommand.Init | src/commands/init.rs:7-17 | the method has the effect and outcome of `InitSpec` |
| InitCommand.InitCreatesRecordsThenWaits | src/commands/init.rs:10-16 | a `sql` context is created first; on failure nothing is recorded, otherwise its id is recorded before the status queries, all of that context, and `init` succeeds exactly when the first status that ends the wait is `Running` (an `Error` status or a failed query is its failure) |
| Decoder.ParseOfComplexType | src/commands/run.rs:104-107 | a complex type text that parses is the empty object or an array |
| Decoder.ComplexDescriptor | src/commands/run.rs:104-107 | a descriptor whose text is complex is the empty object or an array, and has no `type` name |
| Decoder.ComplexTypeOfDescriptor | src/commands/run.rs:104-107 | the text of the empty object or of an array is complex |
| Decoder.FormatComplexValueOfSerialized | src/commands/run.rs:141-143 | formatting by the serialized text of a descriptor is formatting by the descriptor |
| Decoder.FormatBySchemaOfComplex | src/commands/run.rs:166-182 | a descriptor with complex text leaves the value's serialization unchanged |
| Decoder.FormatComplexValueOfComplexType | src/commands/run.rs:166-182 | for a complex type text, `format_complex_value` is the plain serialization |
| Decoder.FormatComplexValueShape | src/commands/run.rs:166-182 | `format_complex_value` never fails, and only a `struct` descriptor can change the serialization |
| Decoder.ArrayValueIdentity | src/commands/run.rs:109-129 | `format_array_value` always yields the value's serialization |
| Decoder.FormatElementsIdentity | src/commands/run.rs:114-123 | re-formatting the elements by a complex element type gives the elements back |
| Decoder.FormatField | src/commands/run.rs:136-151 | one field's entry: named fields with a value get a formatted value, others none |
| Decoder.FieldEntryIsPositional | src/commands/run.rs:136-151 | the entry of field `i` is its name and the `i`-th value, when both exist |
| Decoder.FormatStructValue | src/commands/run.rs:131-164 | the loop over the fields computes `StructValue` |
| Decoder.StructObjectFailed | src/commands/run.rs:141-144 | once a field fails, the outcome stays that failure |
| Decoder.AssocKeys | src/commands/run.rs:148-150 | the object's keys are exactly the names of the fields that have a value |
| Decoder.AssocLastWins | src/commands/run.rs:148-150 | a key takes the value of the last field of that name |
| Decoder.StructObjectIsPositional | src/commands/run.rs:134-154 | the struct object pairs the field names with the positional values |
| Decoder.StructValueShape | src/commands/run.rs:131-164 | without fields or without an array value the plain serialization; otherwise the positional object, with the line-158 replacement applied |
| Decoder.ConvertFieldValueIdentity | src/commands/run.rs:184-198 | `convert_field_value` returns the value unchanged, whatever its type text |
| Decoder.BuildRowObject | src/commands/run.rs:200-215 | the loop computes `RowFields` of the whole row |
| Decoder.RowFieldsFailed | src/commands/run.rs:210 | once a cell fails, the outcome stays that failure |
| Decoder.RowFieldsArePositional | src/commands/run.rs:206-212 | a row object pairs the column names with the positional cells |
| Decoder.FormatTableResult | src/commands/run.rs:217-238 | the loop computes `TableResult` |
| Decoder.TableRowsFailed | src/commands/run.rs:222-235 | once a row fails, the outcome stays that failure |
| Decoder.RowObjects | src/commands/run.rs:233-234 | one row object per row, in order |
| Decoder.TableRowsAllGood | src/commands/run.rs:222-237 | when every row is an array of the schema's length, the result is their row objects in order |
| Decoder.TableRowsFirstBad | src/commands/run.rs:218-233 | otherwise the error is that of the first misfit row |
| Decoder.FormatCommandResult | src/commands/run.rs:254-274 | the dispatch on the result type computes `CommandOutcome` |
| Decoder.CommandOutcomeFails | src/commands/run.rs:256-273 | formatting fails exactly for an unknown type, an error without summary, a text without data, or a table without data or schema, or with a misfit row; the error is the matching message, `data` is checked before `schema`, and an unknown type is named in its message |
| Decoder.TableSpill | src/commands/run.rs:240-270 | a table outcome names `<tmp>/brichka/results/<id>.jsonl`, and the spilled text parses back to the row objects |
| Decoder.RenderRoundTrip | src/commands/run.rs:89-102 | the printed line parses back to the tagged object, whose `type` names the variant |
| Decoder.IsComplexType | src/commands/run.rs:104-107 | no contract of its own; its properties are `ParseOfComplexType`, `ComplexDescriptor` and `ComplexTypeOfDescriptor` |
| Decoder.ArrayValue | src/commands/run.rs:109-129 | no contract of its own; its property is `ArrayValueIdentity` |
| Decoder.StructValue | src/commands/run.rs:131-164 | no contract of its own; its properties are `StructValueShape`, `StructObjectIsPositional` and `FormatStructValue` |
| Decoder.FormatComplexValue | src/commands/run.rs:166-182 | no contract of its own; its properties are `FormatComplexValueShape`, `FormatComplexValueOfComplexType` and `FormatComplexValueOfSerialized` |
| Decoder.ConvertFieldValue | src/commands/run.rs:184-198 | no contract of its own; its property is `ConvertFieldValueIdentity` |
| Decoder.RowFields | src/commands/run.rs:200-215 | no contract of its own; its properties are `RowFieldsArePositional`, `RowFieldsFailed` and `BuildRowObject` |
| Decoder.TableResult | src/commands/run.rs:217-238 | no contract of its own; its properties are `RowObjects`, `TableRowsAllGood`, `TableRowsFirstBad` and `FormatTableResult` |
| Decoder.CommandOutcome | src/commands/run.rs:254-274 | no contract of its own; its properties are `CommandOutcomeFails`, `TableSpill` and `FormatCommandResult` |
| Decoder.RenderText | src/commands/run.rs:89-102 | no contract of its own; its property is `RenderRoundTrip` |
| RunCommand.CheckClusterStateSpec | src/commands/run.rs:277-291 | the gate makes only cluster-stage requests and changes nothing else |
| RunCommand.CheckClusterState | src/commands/run.rs:277-291 | the method has the effect and outcome of `CheckClusterStateSpec` |
| RunCommand.GateDecision | src/commands/run.rs:278-290 | `RUNNING`/`RESIZING` pass; `TERMINATED` starts the cluster only with `--start` and otherwise fails with the hint; any other state fails; a start request is made only for a terminated cluster with `--start` |
| RunCommand.CreateTemporaryContextSpec | src/commands/run.rs:10-14 | a temporary context makes only context-stage requests |
| RunCommand.TemporaryContextCreatesThenWaits | src/commands/run.rs:10-14 | a `sql` context is created on the cluster first; a failed create sends nothing more; otherwise the created id is returned exactly when the wait succeeds, and the wait queries only that context |
| RunCommand.CreateTemporaryContext | src/commands/run.rs:10-14 | the method has the effect and outcome of `CreateTemporaryContextSpec` |
| RunCommand.ViaInit | src/commands/run.rs:21-23 | `init` then re-reading the selection makes only context-stage requests |
| RunCommand.GetOrCreateContextSpec | src/commands/run.rs:16-45 | resolving the context makes only context-stage requests and changes no cluster selection |
| RunCommand.GetOrCreateContext | src/commands/run.rs:16-45 | the method has the effect and outcome of `GetOrCreateContextSpec` |
| RunCommand.ContextReuse | src/commands/run.rs:28-34 | a recorded context reported `Running` is reused after exactly one status query; otherwise a success has created a context |
| RunCommand.ContextWithoutInit | src/commands/run.rs:19-41 | without `--init`, a recorded but dead context is an error and the selection is unchanged; with none recorded a temporary context is used |
| RunCommand.ContextWithInit | src/commands/run.rs:20-38 | with `--init`, a context that is not reused is the one recorded by `init` |
| RunCommand.AwaitCommandSpec | src/commands/run.rs:75-86 | the poll logs only status queries of that command, and a success is a terminal reply from the script |
| RunCommand.AwaitCommandResult | src/commands/run.rs:75-86 | the polling loop has the effect and outcome of `AwaitCommandSpec` |
| RunCommand.AwaitCommandFirstTerminal | src/commands/run.rs:77-82 | the poll stops at the first `Finished`, `Error` or `Cancelled` status, or at the first failed query, and returns that reply |
| RunCommand.SubmitSpec | src/commands/run.rs:298-302 | exactly one submission of the filtered text to the given cluster and context, then only status queries of the submitted command in that cluster and context; a failed submission sends nothing more |
| RunCommand.SubmitOutcome | src/commands/run.rs:300-305 | a failed submission is that failure; otherwise the outcome is decided by the first terminal status or failed query: `NoReply` when the script ends first, a failed query's error, or `FormatOutput` of the terminal reply, which carries results |
| RunCommand.FormatOutput | src/commands/run.rs:303-305 | no contract of its own; its property is `SubmitOutcome`, with `CommandOutcomeFails` and `RenderRoundTrip` for the formatting |
| RunCommand.RunSpec | src/commands/run.rs:293-309 | no contract of its own; its properties are `RunStageOrder`, `ReadyStageOrder` and `Run` |
| RunCommand.Run | src/commands/run.rs:293-309 | the method has the effect and outcome of `RunSpec` |
| RunCommand.RunStageOrder | src/commands/run.rs:294-302 | requests come in stage order: gate, then context, then at most one submission to the selected cluster and to the context the resolver returned, followed by status queries in that context; a successful run has submitted |
| RunCommand.ReadyStageOrder | src/commands/run.rs:296-302 | after the gate: context requests, then at most one submission, to the resolved context |
| Lsp.TextBeforeCursor | src/commands/lsp.rs:71-87 | empty when the line does not exist; otherwise the prefix of the line of length min(character, line length) |
| Lsp.ChainStart | src/commands/lsp.rs:92-95 | one past the last character that is not alphanumeric, `_` or `.`, and 0 when there is none |
| Lsp.ParseIdentifierChain | src/commands/lsp.rs:89-103 | there is always at least one part |
| Lsp.ChainIsTrailingRun | src/commands/lsp.rs:89-103 | the parts joined with `.` are the longest run of chain characters ending the right-trimmed text |
| Lsp.ChainPartsAreNames | src/commands/lsp.rs:92-101 | no part holds a `.` or any character other than letters, digits and `_` |
| Lsp.Inserted | src/commands/lsp.rs:19-21 | inserting the listed names adds exactly those keys, each with its fresh entry, and keeps the other entries |
| Lsp.InitCacheSpec | src/commands/lsp.rs:17-23 | a failed catalog listing changes nothing; filling keeps names and keys in agreement |
| Lsp.InitCatalogSpec | src/commands/lsp.rs:32-38 | listing schemas changes only that catalog, drops no schema and keeps the cache consistent |
| Lsp.InitSchemaSpec | src/commands/lsp.rs:48-55 | listing tables touches no other catalog and no catalog's set of schemas, drops no table and keeps the cache consistent |
| Lsp.CatalogCompletionsExact | src/commands/lsp.rs:106-114 | `complete_catalogs` offers exactly the cached catalog names that start with the prefix |
| Lsp.SchemaCompletionsExact | src/commands/lsp.rs:124-128 | for a catalog filed by name, the schema items are exactly its cached schema names that start with the prefix |
| Lsp.TableCompletionsExact | src/commands/lsp.rs:152-156 | the table items are exactly the cached table names that start with the prefix |
| Lsp.EnsureSchemas | src/commands/lsp.rs:120-122 | the lazy schema fill only grows the cache and keeps it consistent |
| Lsp.EnsureTables | src/commands/lsp.rs:148-150 | the lazy table fill only grows the cache and keeps it consistent |
| Lsp.SchemasSpec | src/commands/lsp.rs:116-133 | an unknown catalog gives nothing and changes nothing; the result fails exactly when the schema listing fails; on success, on a consistent cache, an item is offered exactly when it is a cached schema of that catalog starting with the prefix |
| Lsp.TablesSpec | src/commands/lsp.rs:136-164 | an unknown catalog gives nothing; a failed schema listing fails; a schema unknown after the listing gives nothing; on success an item is offered exactly when it is a cached table of the named schema starting with the prefix |
| Lsp.Dispatch | src/commands/lsp.rs:246-268 | every arity keeps the cache consistent and only grows it |
| Lsp.CompletionSpec | src/commands/lsp.rs:221-275 | an unknown document gives `None`; an empty list is never returned as `Some` |
| Lsp.CompletionOfCatalog | src/commands/lsp.rs:250-253 | one part: exactly the catalogs starting with it, `None` when there are none, nothing listed |
| Lsp.CompletionOfSchema | src/commands/lsp.rs:254-258 | two parts: an unknown catalog gives `None`; otherwise `Some` exactly when the listing succeeds and a cached schema of that catalog starts with the second part, and then exactly those schemas are offered |
| Lsp.CompletionOfTable | src/commands/lsp.rs:259-266 | three parts: an unknown catalog or schema gives `None`; otherwise `Some` exactly when the listings succeed and a cached table of the named schema starts with the third part, and then exactly those tables are offered |
| Lsp.CompletionOfLongChain | src/commands/lsp.rs:267-274 | four or more parts: `None`, and the cache is unchanged |
| Lsp.CompletionKeepsCache | src/commands/lsp.rs:116-164 | completion keeps the cache consistent, forgets no catalog and no cached schema |
| Lsp.SchemasFromCache | src/commands/lsp.rs:119-130 | a catalog with cached schemas is answered from the cache whatever the directory says |
| Lsp.SchemaListingFails | src/commands/lsp.rs:119-122 | a failed schema listing offers nothing and leaves the cache unchanged |
| Lsp.Backend.constructor | src/commands/lsp.rs:66-68 | a new server has no documents and an empty cache, which is `Valid` (every entry filed under its own name); every method of `Backend` keeps `Valid` |
| Lsp.Backend.DidOpen | src/commands/lsp.rs:202-206 | the uri now maps to the opened text; other documents are unchanged |
| Lsp.Backend.DidChange | src/commands/lsp.rs:208-213 | only the first change's text is stored; no change leaves the table unchanged |
| Lsp.Backend.DidClose | src/commands/lsp.rs:215-218 | the uri is removed and every other document stays |
| Lsp.Backend.InitCache | src/commands/lsp.rs:17-23 | the loop inserting the listed catalogs computes `InitCacheSpec` |
| Lsp.Backend.InitCatalog | src/commands/lsp.rs:32-38 | the loop inserting the listed schemas computes `InitCatalogSpec` |
| Lsp.Backend.InitSchema | src/commands/lsp.rs:48-55 | the loop inserting the listed tables computes `InitSchemaSpec` |
| Lsp.Backend.CompleteSchemas | src/commands/lsp.rs:116-133 | the method has the effect and outcome of `SchemasSpec` |
| Lsp.Backend.CompleteTables | src/commands/lsp.rs:136-164 | the method has the effect and outcome of `TablesSpec` |
| Lsp.Backend.CompleteParts | src/commands/lsp.rs:246-268 | the arity dispatch computes `Dispatch` |
| Lsp.Backend.Completion | src/commands/lsp.rs:221-275 | the handler computes `CompletionSpec` on the open documents |

## Left out

- Floating-point numbers: `Json` numbers are integers. Text with a fraction or
  an exponent does not parse in the model.
- `JsonRoundTrip.ParseSerialize`, `JsonRoundTrip.SerializeRoundTrip`: these
  round trips hold for the model's values, which are wider than serde_json's:
  - `Json.Num` is an unbounded integer. `serde_json::Value` keeps integers
    as i64/u64, and it reads a longer literal, or `-0`, as an f64. The model
    reads every integer literal as an exact integer, and `-0` as `0`;
  - serde_json's `from_str` refuses text nested more than 128 levels deep,
    but the model's `Parse` has no depth limit.
- serde_json's key order: `serde_json::Map` is taken to be the default
  `BTreeMap`, which writes keys in code-point order. With `preserve_order` the
  order would be insertion order.
- serde error texts: every parse failure is the single error "invalid JSON text".
- What the line-158 replacement (`"\":"` by `"\": "`) does to string values
  that contain `":` is not characterised. The replacement is modelled literally.
- HTTP, authentication and the REST payloads of `src/client`: each endpoint is
  a scripted queue of replies. A call past the end of a queue fails with
  `NoReply`, so every poll in the model ends.
- The 2-second sleeps, the tokio runtime, and DashMap concurrency: polling is
  sequential, and the completion server handles one request at a time.
- The filesystem:
  - the selection files are a `Config` value, and a missing or unreadable file is `None`;
  - `Api.SelectedCluster`: when neither selection file gives a cluster, it fails with the fixed `NoCluster` message, whereas `read_local().or(read_global())?` fails with the global file's own read error;
  - a failure of `ContextConfig::write_local` is not modelled;
  - the table spill is returned as a `Spill` value (path and content) rather
    than written, so `create_dir_all` and `fs::write` failures are not modelled;
  - `env::temp_dir()` becomes a `tempDir` parameter.
- Printing: `run` returns the line it would print. The completion server's
  `log_message` calls are dropped.
- `RunCommand.Run`, `RunCommand.SubmitSpec`, `Decoder.CommandOutcome`: the
  `results.unwrap()` of `format_command_result` panics when a terminal status
  has no results. It is a precondition: every terminal reply in the script
  carries results.
- Byte offsets: Rust slices `line[..char_offset]` and `trimmed[start_pos..]`
  by bytes and panics off a character boundary. The model counts characters.
- `Lsp.IsAlphanumeric`: covers ASCII letters and digits only, not every
  Unicode alphanumeric.
- `Text.IsWhitespace` follows the Unicode White_Space list; for `lines`, only
  `\r\n` and `\n` end a line.
- The completion server's order of items: DashMap and DashSet iterate in no
  fixed order, so the items are a set.
- `CompletionItemKind` is reduced to `Module` and `Class`, and no other item
  fields are modelled.
- `initialize`, `shutdown`, the server capabilities and the stdio wiring of
  the completion server are not modelled.
- The `.await` on `ClusterConfig::read_local` in `src/commands/init.rs:8` comes
  from a different revision of the selection-file API. It is read as the
  plain read, as in `src/commands/run.rs:294`.
- `cluster list`, `config`, `status`, the command-line parser, the entry point
  and the context selection picker are outside the modelled core.
