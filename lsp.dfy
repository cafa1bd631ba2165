/** The completion server of `brichka lsp`: the open documents, the cached
    Unity Catalog tree (catalogs, their schemas, their tables), and the
    completion of a dotted `catalog.schema.table` name at the cursor.

    The catalog service is a `Directory`: the listing it returns for the
    catalogs, for the schemas of a catalog and for the tables of a schema.
    The cache asks it lazily: the schemas of a catalog are listed the first
    time that catalog has none cached, and likewise the tables of a schema. */
module Lsp {
  import opened Wrappers
  import opened Text

  // ---------------------------------------------------------------------------
  // The text before the cursor and the identifier chain

  function Min(a: nat, b: nat): nat {
    if a <= b then a else b
  }

  /** `get_text_before_cursor`: on the cursor's line, the text left of the
      cursor; nothing when the line does not exist. */
  function TextBeforeCursor(text: string, line: nat, character: nat): (r: string)
    ensures line >= |Lines(text)| ==> r == []
    ensures line < |Lines(text)| ==>
              StartsWith(Lines(text)[line], r) && |r| == Min(character, |Lines(text)[line]|)
  {
    var lines := Lines(text);
    if line >= |lines| then []
    else if character > |lines[line]| then lines[line]
    else lines[line][..character]
  }

  /** `char::is_alphanumeric`, for ASCII letters and digits. */
  predicate IsAlphanumeric(c: char) {
    ('a' <= c <= 'z') || ('A' <= c <= 'Z') || ('0' <= c <= '9')
  }

  /** A character of one name of the chain. */
  predicate IsNameChar(c: char) {
    IsAlphanumeric(c) || c == '_'
  }

  /** A character of the dotted chain. */
  predicate IsChainChar(c: char) {
    IsNameChar(c) || c == '.'
  }

  /** One past the last character that cannot belong to a chain, 0 if there is none. */
  function ChainStart(t: string): (k: nat)
    ensures k <= |t|
    ensures forall i :: k <= i < |t| ==> IsChainChar(t[i])
    ensures k > 0 ==> !IsChainChar(t[k - 1])
    decreases |t|
  {
    if t == [] then 0
    else if !IsChainChar(t[|t| - 1]) then |t|
    else ChainStart(t[..|t| - 1])
  }

  /** `parse_identifier_chain`: the trailing dotted name of the text, split at
      its dots. */
  function ParseIdentifierChain(text: string): (parts: seq<string>)
    ensures |parts| >= 1
  {
    var trimmed := TrimEnd(text);
    Split(trimmed[ChainStart(trimmed)..], '.')
  }

  /** The parts, joined with dots, are the longest run of chain characters at
      the end of the right-trimmed text. */
  lemma ChainIsTrailingRun(text: string)
    ensures var t := TrimEnd(text);
            var chain := Join(ParseIdentifierChain(text), ".");
            |chain| <= |t| && t[|t| - |chain|..] == chain
            && (forall i :: 0 <= i < |chain| ==> IsChainChar(chain[i]))
            && (|chain| == |t| || !IsChainChar(t[|t| - |chain| - 1]))
  {
    var t := TrimEnd(text);
    var k := ChainStart(t);
    var chain := t[k..];
    assert ParseIdentifierChain(text) == Split(chain, '.');
    JoinSplit(chain, '.');
    assert |chain| == |t| - k;
    assert forall i :: 0 <= i < |chain| ==> chain[i] == t[k + i];
  }

  /** Every part is a (possibly empty) name: letters, digits and underscores only. */
  lemma ChainPartsAreNames(text: string)
    ensures forall part, c :: part in ParseIdentifierChain(text) && c in part ==> IsNameChar(c)
  {
    var t := TrimEnd(text);
    var chain := t[ChainStart(t)..];
    SplitKeepsCharacters(chain, '.');
    forall part, c | part in ParseIdentifierChain(text) && c in part ensures IsNameChar(c) {
      assert c in chain && c != '.';
      var i :| 0 <= i < |chain| && chain[i] == c;
      assert IsChainChar(t[ChainStart(t) + i]);
    }
  }

  // ---------------------------------------------------------------------------
  // The catalog cache

  datatype Kind = Module | Class

  /** A `CompletionItem`: its label (`name`) and its kind. */
  datatype Item = Item(name: string, kind: Kind)

  datatype Schema = Schema(name: string, catalogName: string, tables: set<string>)
  datatype Catalog = Catalog(name: string, schemas: map<string, Schema>)
  type Catalogs = map<string, Catalog>

  /** The catalog service (`client::uc`): the catalog listing, the schema
      listing of a catalog, the table listing of a catalog's schema. */
  datatype Directory = Directory(
    catalogs: Result<seq<string>>,
    schemas: string -> Result<seq<string>>,
    tables: (string, string) -> Result<seq<string>>)

  /** Every cached entry is filed under its own name, and every schema under
      the catalog it names. */
  predicate Consistent(catalogs: Catalogs) {
    forall c :: c in catalogs ==>
      catalogs[c].name == c &&
      forall s :: s in catalogs[c].schemas ==>
        catalogs[c].schemas[s].name == s && catalogs[c].schemas[s].catalogName == c
  }

  /** The cache only grows: the same catalogs, and no cached schema is dropped. */
  predicate Grows(before: Catalogs, after: Catalogs) {
    after.Keys == before.Keys
    && forall c :: c in before ==> before[c].schemas.Keys <= after[c].schemas.Keys
  }

  /** `m` after inserting `entry(k)` under each `k` of `keys` in turn. */
  function Inserted<V>(m: map<string, V>, keys: seq<string>, entry: string -> V): (r: map<string, V>)
    ensures r.Keys == m.Keys + (set k | k in keys)
    ensures forall k :: k in keys ==> r[k] == entry(k)
    ensures forall k :: k in m && k !in keys ==> r[k] == m[k]
    decreases |keys|
  {
    if keys == [] then m
    else
      var n := |keys| - 1;
      assert forall k :: k in keys <==> k in keys[..n] || k == keys[n];
      Inserted(m, keys[..n], entry)[keys[n] := entry(keys[n])]
  }

  /** One more insertion extends `Inserted` by one update. */
  lemma InsertedStep<V>(m: map<string, V>, keys: seq<string>, i: nat, entry: string -> V)
    requires i < |keys|
    ensures Inserted(m, keys[..i + 1], entry) == Inserted(m, keys[..i], entry)[keys[i] := entry(keys[i])]
  {
    assert keys[..i + 1][..i] == keys[..i];
  }

  function NewCatalog(name: string): Catalog {
    Catalog(name, map[])
  }

  function NewSchema(catalogName: string): string -> Schema {
    name => Schema(name, catalogName, {})
  }

  function SetSchemas(catalogs: Catalogs, c: string, schemas: map<string, Schema>): Catalogs
    requires c in catalogs
  {
    catalogs[c := catalogs[c].(schemas := schemas)]
  }

  function SetTables(catalogs: Catalogs, c: string, s: string, tables: set<string>): Catalogs
    requires c in catalogs && s in catalogs[c].schemas
  {
    SetSchemas(catalogs, c, catalogs[c].schemas[s := catalogs[c].schemas[s].(tables := tables)])
  }

  /** `Cache::init`. */
  function InitCacheSpec(catalogs: Catalogs, dir: Directory): (r: (Result<()>, Catalogs))
    ensures dir.catalogs.Err? ==> r == (Err(dir.catalogs.error), catalogs)
    ensures Consistent(catalogs) ==> Consistent(r.1)
  {
    match dir.catalogs
    case Err(e) => (Err(e), catalogs)
    case Ok(names) => (Ok(()), Inserted(catalogs, names, NewCatalog))
  }

  /** `Catalog::init` on the cached catalog `c`. */
  function InitCatalogSpec(catalogs: Catalogs, dir: Directory, c: string): (r: (Result<()>, Catalogs))
    requires c in catalogs
    ensures r.1.Keys == catalogs.Keys
    ensures forall k :: k in catalogs && k != c ==> r.1[k] == catalogs[k]
    ensures catalogs[c].schemas.Keys <= r.1[c].schemas.Keys
    ensures Consistent(catalogs) ==> Consistent(r.1)
  {
    var catalog := catalogs[c];
    match dir.schemas(catalog.name)
    case Err(e) => (Err(e), catalogs)
    case Ok(names) => (Ok(()), SetSchemas(catalogs, c, Inserted(catalog.schemas, names, NewSchema(catalog.name))))
  }

  /** `Schema::init` on the cached schema `s` of catalog `c`. */
  function InitSchemaSpec(catalogs: Catalogs, dir: Directory, c: string, s: string): (r: (Result<()>, Catalogs))
    requires c in catalogs && s in catalogs[c].schemas
    ensures r.1.Keys == catalogs.Keys
    ensures forall k :: k in catalogs && k != c ==> r.1[k] == catalogs[k]
    ensures r.1[c].schemas.Keys == catalogs[c].schemas.Keys
    ensures catalogs[c].schemas[s].tables <= r.1[c].schemas[s].tables
    ensures Consistent(catalogs) ==> Consistent(r.1)
  {
    var schema := catalogs[c].schemas[s];
    match dir.tables(schema.catalogName, schema.name)
    case Err(e) => (Err(e), catalogs)
    case Ok(names) => (Ok(()), SetTables(catalogs, c, s, schema.tables + (set t | t in names)))
  }

  /** The cached catalogs whose name starts with `prefix`. */
  function CatalogCompletions(catalogs: Catalogs, prefix: string): set<Item> {
    set c | c in catalogs && StartsWith(catalogs[c].name, prefix) :: Item(catalogs[c].name, Module)
  }

  function SchemaCompletions(catalog: Catalog, prefix: string): set<Item> {
    set s | s in catalog.schemas && StartsWith(catalog.schemas[s].name, prefix) :: Item(catalog.schemas[s].name, Module)
  }

  function TableCompletions(schema: Schema, prefix: string): set<Item> {
    set t | t in schema.tables && StartsWith(t, prefix) :: Item(t, Class)
  }

  /** `complete_catalogs` offers exactly the cached catalog names that start
      with the prefix. */
  lemma CatalogCompletionsExact(catalogs: Catalogs, prefix: string)
    requires Consistent(catalogs)
    ensures forall item: Item :: item in CatalogCompletions(catalogs, prefix) <==>
              (item.kind == Module && item.name in catalogs && StartsWith(item.name, prefix))
  {
    forall item: Item | item.kind == Module && item.name in catalogs && StartsWith(item.name, prefix)
      ensures item in CatalogCompletions(catalogs, prefix)
    {
      assert item == Item(catalogs[item.name].name, Module);
    }
  }

  /** `complete_schemas` filters a catalog filed by name: it offers exactly
      the cached schema names that start with the prefix. */
  lemma SchemaCompletionsExact(catalog: Catalog, prefix: string)
    requires forall s :: s in catalog.schemas ==> catalog.schemas[s].name == s
    ensures forall item: Item :: item in SchemaCompletions(catalog, prefix) <==>
              (item.kind == Module && item.name in catalog.schemas && StartsWith(item.name, prefix))
  {
    forall item: Item | item.kind == Module && item.name in catalog.schemas && StartsWith(item.name, prefix)
      ensures item in SchemaCompletions(catalog, prefix)
    {
      assert item == Item(catalog.schemas[item.name].name, Module);
    }
  }

  /** `complete_tables` offers exactly the cached table names that start with the prefix. */
  lemma TableCompletionsExact(schema: Schema, prefix: string)
    ensures forall item: Item :: item in TableCompletions(schema, prefix) <==>
              (item.kind == Class && item.name in schema.tables && StartsWith(item.name, prefix))
  {
    forall item: Item | item.kind == Class && item.name in schema.tables && StartsWith(item.name, prefix)
      ensures item in TableCompletions(schema, prefix)
    {
      assert item == Item(item.name, Class);
    }
  }

  /** The schemas of catalog `c`, listed first when none is cached. */
  function EnsureSchemas(catalogs: Catalogs, dir: Directory, c: string): (r: (Result<()>, Catalogs))
    requires c in catalogs
    ensures Grows(catalogs, r.1)
    ensures Consistent(catalogs) ==> Consistent(r.1)
  {
    if |catalogs[c].schemas| == 0 then InitCatalogSpec(catalogs, dir, c) else (Ok(()), catalogs)
  }

  /** The tables of schema `s` of catalog `c`, listed first when none is cached. */
  function EnsureTables(catalogs: Catalogs, dir: Directory, c: string, s: string): (r: (Result<()>, Catalogs))
    requires c in catalogs && s in catalogs[c].schemas
    ensures Grows(catalogs, r.1) && s in r.1[c].schemas
    ensures Consistent(catalogs) ==> Consistent(r.1)
  {
    if |catalogs[c].schemas[s].tables| == 0 then InitSchemaSpec(catalogs, dir, c, s) else (Ok(()), catalogs)
  }

  /** `complete_schemas`: the result and the cache after it. */
  function SchemasSpec(catalogs: Catalogs, dir: Directory, c: string, prefix: string): (r: (Result<set<Item>>, Catalogs))
    ensures c !in catalogs ==> r == (Ok({}), catalogs)
    ensures Grows(catalogs, r.1)
    ensures Consistent(catalogs) ==> Consistent(r.1)
    ensures c in catalogs ==> (r.0.Err? <==> EnsureSchemas(catalogs, dir, c).0.Err?)
    ensures c in catalogs ==> r.1 == EnsureSchemas(catalogs, dir, c).1
    ensures r.0.Ok? && c in catalogs && Consistent(catalogs) ==> forall item: Item :: item in r.0.value <==>
              (item.kind == Module && item.name in r.1[c].schemas && StartsWith(item.name, prefix))
  {
    if c !in catalogs then (Ok({}), catalogs)
    else
      var (init, after) := EnsureSchemas(catalogs, dir, c);
      if init.Err? then (Err(init.error), after)
      else
        var items := SchemaCompletions(after[c], prefix);
        if Consistent(catalogs) then
          SchemaCompletionsExact(after[c], prefix);
          (Ok(items), after)
        else (Ok(items), after)
  }

  /** `complete_tables`: the result and the cache after it. */
  function TablesSpec(catalogs: Catalogs, dir: Directory, c: string, s: string, prefix: string)
    : (r: (Result<set<Item>>, Catalogs))
    ensures c !in catalogs ==> r == (Ok({}), catalogs)
    ensures Grows(catalogs, r.1)
    ensures Consistent(catalogs) ==> Consistent(r.1)
    ensures r.0.Ok? ==> forall item :: item in r.0.value ==>
              (item.kind == Class && c in r.1 && s in r.1[c].schemas
               && item.name in r.1[c].schemas[s].tables && StartsWith(item.name, prefix))
    ensures r.0.Ok? && c in catalogs && s in r.1[c].schemas ==> forall item: Item :: item in r.0.value <==>
              (item.kind == Class && item.name in r.1[c].schemas[s].tables && StartsWith(item.name, prefix))
    ensures c in catalogs && EnsureSchemas(catalogs, dir, c).0.Err? ==> r.0.Err?
    ensures c in catalogs && EnsureSchemas(catalogs, dir, c).0.Ok? && s !in EnsureSchemas(catalogs, dir, c).1[c].schemas ==>
              r == (Ok({}), EnsureSchemas(catalogs, dir, c).1)
  {
    if c !in catalogs then (Ok({}), catalogs)
    else
      var (init, after) := EnsureSchemas(catalogs, dir, c);
      if init.Err? then (Err(init.error), after)
      else if s !in after[c].schemas then (Ok({}), after)
      else
        var (tablesInit, filled) := EnsureTables(after, dir, c, s);
        if tablesInit.Err? then (Err(tablesInit.error), filled)
        else
          TableCompletionsExact(filled[c].schemas[s], prefix);
          (Ok(TableCompletions(filled[c].schemas[s], prefix)), filled)
  }

  /** `unwrap_or_default`. */
  function OrNone(r: Result<set<Item>>): set<Item> {
    if r.Ok? then r.value else {}
  }

  /** The `match parts.len()` of `completion`. */
  function Dispatch(catalogs: Catalogs, dir: Directory, parts: seq<string>): (r: (set<Item>, Catalogs))
    ensures Grows(catalogs, r.1)
    ensures Consistent(catalogs) ==> Consistent(r.1)
  {
    if |parts| == 0 then (CatalogCompletions(catalogs, ""), catalogs)
    else if |parts| == 1 then (CatalogCompletions(catalogs, parts[0]), catalogs)
    else if |parts| == 2 then
      var (found, after) := SchemasSpec(catalogs, dir, parts[0], parts[1]);
      (OrNone(found), after)
    else if |parts| == 3 then
      var (found, after) := TablesSpec(catalogs, dir, parts[0], parts[1], parts[2]);
      (OrNone(found), after)
    else ({}, catalogs)
  }

  /** `completion`: the offered items, `None` when there are none, and the cache after it. */
  function CompletionSpec(documents: map<string, string>, catalogs: Catalogs, dir: Directory,
                          uri: string, line: nat, character: nat): (r: (Option<set<Item>>, Catalogs))
    ensures uri !in documents ==> r == (None, catalogs)
    ensures r.0 != Some({})
    ensures r.1.Keys == catalogs.Keys
  {
    if uri !in documents then (None, catalogs)
    else
      var parts := ParseIdentifierChain(TextBeforeCursor(documents[uri], line, character));
      var (found, after) := Dispatch(catalogs, dir, parts);
      (if found == {} then None else Some(found), after)
  }

  // ---------------------------------------------------------------------------
  // Properties of completion

  /** The chain at the cursor of document `uri`. */
  function ChainAt(documents: map<string, string>, uri: string, line: nat, character: nat): seq<string>
    requires uri in documents
  {
    ParseIdentifierChain(TextBeforeCursor(documents[uri], line, character))
  }

  /** One part: exactly the cached catalogs starting with it, and nothing is listed. */
  lemma CompletionOfCatalog(documents: map<string, string>, catalogs: Catalogs, dir: Directory,
                            uri: string, line: nat, character: nat)
    requires uri in documents && Consistent(catalogs)
    requires |ChainAt(documents, uri, line, character)| == 1
    ensures var prefix := ChainAt(documents, uri, line, character)[0];
            var r := CompletionSpec(documents, catalogs, dir, uri, line, character);
            r.1 == catalogs
            && (r.0.Some? <==> exists c :: c in catalogs && StartsWith(c, prefix))
            && (r.0.Some? ==> forall item: Item :: item in r.0.value <==>
                  (item.kind == Module && item.name in catalogs && StartsWith(item.name, prefix)))
  {
    var prefix := ChainAt(documents, uri, line, character)[0];
    CatalogCompletionsExact(catalogs, prefix);
    if exists c :: c in catalogs && StartsWith(c, prefix) {
      var c :| c in catalogs && StartsWith(c, prefix);
      assert Item(c, Module) in CatalogCompletions(catalogs, prefix);
    }
  }

  /** Two parts: exactly the schemas of the catalog named by the first part
      that start with the second, and `None` when the catalog is unknown, its
      listing fails or no schema matches. */
  lemma CompletionOfSchema(documents: map<string, string>, catalogs: Catalogs, dir: Directory,
                           uri: string, line: nat, character: nat)
    requires uri in documents && Consistent(catalogs)
    requires |ChainAt(documents, uri, line, character)| == 2
    ensures var parts := ChainAt(documents, uri, line, character);
            var r := CompletionSpec(documents, catalogs, dir, uri, line, character);
            (parts[0] !in catalogs ==> r == (None, catalogs))
            && (parts[0] in catalogs ==> r.1 == EnsureSchemas(catalogs, dir, parts[0]).1)
            && (parts[0] in catalogs ==>
                  (r.0.Some? <==> EnsureSchemas(catalogs, dir, parts[0]).0.Ok?
                                  && exists s :: s in r.1[parts[0]].schemas && StartsWith(s, parts[1])))
            && (r.0.Some? ==> forall item: Item :: item in r.0.value <==>
                  (item.kind == Module && parts[0] in r.1 && item.name in r.1[parts[0]].schemas
                   && StartsWith(item.name, parts[1])))
  {
    var parts := ChainAt(documents, uri, line, character);
    if parts[0] in catalogs {
      var (found, after) := SchemasSpec(catalogs, dir, parts[0], parts[1]);
      if found.Ok? && exists s :: s in after[parts[0]].schemas && StartsWith(s, parts[1]) {
        var s :| s in after[parts[0]].schemas && StartsWith(s, parts[1]);
        assert Item(s, Module) in found.value;
      }
    }
  }

  /** Three parts: exactly the tables of the named schema of the named catalog
      that start with the third, and `None` when the catalog or the schema is
      unknown, a listing fails or no table matches. */
  lemma CompletionOfTable(documents: map<string, string>, catalogs: Catalogs, dir: Directory,
                          uri: string, line: nat, character: nat)
    requires uri in documents
    requires |ChainAt(documents, uri, line, character)| == 3
    ensures var parts := ChainAt(documents, uri, line, character);
            var r := CompletionSpec(documents, catalogs, dir, uri, line, character);
            (parts[0] !in catalogs ==> r == (None, catalogs))
            && (parts[0] in catalogs && EnsureSchemas(catalogs, dir, parts[0]).0.Ok?
                && parts[1] !in EnsureSchemas(catalogs, dir, parts[0]).1[parts[0]].schemas ==>
                  r == (None, EnsureSchemas(catalogs, dir, parts[0]).1))
            && (parts[0] in catalogs ==>
                  (r.0.Some? <==> TablesSpec(catalogs, dir, parts[0], parts[1], parts[2]).0.Ok?
                                  && parts[1] in r.1[parts[0]].schemas
                                  && exists t :: t in r.1[parts[0]].schemas[parts[1]].tables && StartsWith(t, parts[2])))
            && (r.0.Some? ==> forall item: Item :: item in r.0.value <==>
                  (item.kind == Class && parts[0] in r.1 && parts[1] in r.1[parts[0]].schemas
                   && item.name in r.1[parts[0]].schemas[parts[1]].tables && StartsWith(item.name, parts[2])))
  {
    var parts := ChainAt(documents, uri, line, character);
    if parts[0] in catalogs {
      var (found, after) := TablesSpec(catalogs, dir, parts[0], parts[1], parts[2]);
      if found.Ok? && parts[1] in after[parts[0]].schemas
         && exists t :: t in after[parts[0]].schemas[parts[1]].tables && StartsWith(t, parts[2]) {
        var t :| t in after[parts[0]].schemas[parts[1]].tables && StartsWith(t, parts[2]);
        assert Item(t, Class) in found.value;
      }
    }
  }

  /** Four parts or more: nothing is offered and nothing is listed. */
  lemma CompletionOfLongChain(documents: map<string, string>, catalogs: Catalogs, dir: Directory,
                              uri: string, line: nat, character: nat)
    requires uri in documents
    requires |ChainAt(documents, uri, line, character)| >= 4
    ensures CompletionSpec(documents, catalogs, dir, uri, line, character) == (None, catalogs)
  {
  }

  /** Completion keeps the cache consistent, never forgets a catalog, and
      never forgets a cached schema. */
  lemma CompletionKeepsCache(documents: map<string, string>, catalogs: Catalogs, dir: Directory,
                             uri: string, line: nat, character: nat)
    requires Consistent(catalogs)
    ensures var after := CompletionSpec(documents, catalogs, dir, uri, line, character).1;
            Consistent(after) && Grows(catalogs, after)
  {
  }

  /** Once a catalog has schemas cached, `complete_schemas` answers from the
      cache: neither the directory nor the cache changes its answer. */
  lemma SchemasFromCache(catalogs: Catalogs, dir1: Directory, dir2: Directory, c: string, prefix: string)
    requires c in catalogs && |catalogs[c].schemas| > 0
    ensures SchemasSpec(catalogs, dir1, c, prefix) == SchemasSpec(catalogs, dir2, c, prefix)
    ensures SchemasSpec(catalogs, dir1, c, prefix) == (Ok(SchemaCompletions(catalogs[c], prefix)), catalogs)
  {
  }

  /** A failed schema listing leaves the cache as it was and offers nothing. */
  lemma SchemaListingFails(documents: map<string, string>, catalogs: Catalogs, dir: Directory,
                           uri: string, line: nat, character: nat)
    requires uri in documents
    requires var parts := ParseIdentifierChain(TextBeforeCursor(documents[uri], line, character));
             |parts| == 2 && parts[0] in catalogs && |catalogs[parts[0]].schemas| == 0
             && dir.schemas(catalogs[parts[0]].name).Err?
    ensures CompletionSpec(documents, catalogs, dir, uri, line, character) == (None, catalogs)
  {
  }

  // ---------------------------------------------------------------------------
  // The server state

  /** `Backend`: the open documents by uri, and the catalog cache. */
  class Backend {
    var documents: map<string, string>
    var catalogs: Catalogs

    /** The cache invariant every method keeps. */
    predicate Valid()
      reads this`catalogs
    {
      Consistent(catalogs)
    }

    /** `Backend::new`. */
    constructor ()
      ensures documents == map[] && catalogs == map[]
      ensures Valid()
    {
      documents := map[];
      catalogs := map[];
    }

    /** `did_open`: the document is stored under its uri. */
    method DidOpen(uri: string, text: string)
      requires Valid()
      modifies this`documents
      ensures Valid()
      ensures documents == old(documents)[uri := text]
    {
      documents := documents[uri := text];
    }

    /** `did_change`: only the first change's text is stored; no change stores nothing. */
    method DidChange(uri: string, changes: seq<string>)
      requires Valid()
      modifies this`documents
      ensures Valid()
      ensures changes == [] ==> documents == old(documents)
      ensures changes != [] ==> documents == old(documents)[uri := changes[0]]
    {
      if changes != [] {
        documents := documents[uri := changes[0]];
      }
    }

    /** `did_close`: the document is dropped, every other one stays. */
    method DidClose(uri: string)
      requires Valid()
      modifies this`documents
      ensures Valid()
      ensures documents == old(documents) - {uri}
      ensures uri !in documents
      ensures forall u :: u in old(documents) && u != uri ==> u in documents && documents[u] == old(documents)[u]
    {
      documents := documents - {uri};
    }

    /** `Cache::init`: every listed catalog is cached, with no schemas yet. */
    method InitCache(dir: Directory) returns (r: Result<()>)
      requires Valid()
      modifies this`catalogs
      ensures Valid()
      ensures (r, catalogs) == InitCacheSpec(old(catalogs), dir)
    {
      if dir.catalogs.Err? {
        return Err(dir.catalogs.error);
      }
      var names := dir.catalogs.value;
      for i := 0 to |names|
        invariant catalogs == Inserted(old(catalogs), names[..i], NewCatalog)
      {
        InsertedStep(old(catalogs), names, i, NewCatalog);
        catalogs := catalogs[names[i] := NewCatalog(names[i])];
      }
      assert names[..|names|] == names;
      r := Ok(());
    }

    /** `Catalog::init`: every listed schema is cached under catalog `c`, with no tables yet. */
    method InitCatalog(c: string, dir: Directory) returns (r: Result<()>)
      requires Valid()
      requires c in catalogs
      modifies this`catalogs
      ensures Valid()
      ensures (r, catalogs) == InitCatalogSpec(old(catalogs), dir, c)
    {
      var catalog := catalogs[c];
      var listing := dir.schemas(catalog.name);
      if listing.Err? {
        return Err(listing.error);
      }
      var names := listing.value;
      var schemas := catalog.schemas;
      for i := 0 to |names|
        invariant schemas == Inserted(catalog.schemas, names[..i], NewSchema(catalog.name))
        invariant catalogs == old(catalogs)
      {
        InsertedStep(catalog.schemas, names, i, NewSchema(catalog.name));
        schemas := schemas[names[i] := NewSchema(catalog.name)(names[i])];
      }
      assert names[..|names|] == names;
      catalogs := SetSchemas(catalogs, c, schemas);
      r := Ok(());
    }

    /** `Schema::init`: every listed table is added to schema `s` of catalog `c`. */
    method InitSchema(c: string, s: string, dir: Directory) returns (r: Result<()>)
      requires Valid()
      requires c in catalogs && s in catalogs[c].schemas
      modifies this`catalogs
      ensures Valid()
      ensures (r, catalogs) == InitSchemaSpec(old(catalogs), dir, c, s)
    {
      var schema := catalogs[c].schemas[s];
      var listing := dir.tables(schema.catalogName, schema.name);
      if listing.Err? {
        return Err(listing.error);
      }
      var names := listing.value;
      var tables := schema.tables;
      for i := 0 to |names|
        invariant tables == schema.tables + (set t | t in names[..i])
        invariant catalogs == old(catalogs)
      {
        assert forall t :: t in names[..i + 1] <==> t in names[..i] || t == names[i];
        tables := tables + {names[i]};
      }
      assert names[..|names|] == names;
      catalogs := SetTables(catalogs, c, s, tables);
      r := Ok(());
    }

    /** `complete_schemas`. */
    method CompleteSchemas(c: string, prefix: string, dir: Directory) returns (r: Result<set<Item>>)
      requires Valid()
      modifies this`catalogs
      ensures Valid()
      ensures (r, catalogs) == SchemasSpec(old(catalogs), dir, c, prefix)
    {
      if c !in catalogs {
        return Ok({});
      }
      if |catalogs[c].schemas| == 0 {
        var init := InitCatalog(c, dir);
        if init.Err? {
          return Err(init.error);
        }
      }
      r := Ok(SchemaCompletions(catalogs[c], prefix));
    }

    /** `complete_tables`. */
    method CompleteTables(c: string, s: string, prefix: string, dir: Directory) returns (r: Result<set<Item>>)
      requires Valid()
      modifies this`catalogs
      ensures Valid()
      ensures (r, catalogs) == TablesSpec(old(catalogs), dir, c, s, prefix)
    {
      if c !in catalogs {
        return Ok({});
      }
      if |catalogs[c].schemas| == 0 {
        var init := InitCatalog(c, dir);
        if init.Err? {
          return Err(init.error);
        }
      }
      if s !in catalogs[c].schemas {
        return Ok({});
      }
      if |catalogs[c].schemas[s].tables| == 0 {
        var init := InitSchema(c, s, dir);
        if init.Err? {
          return Err(init.error);
        }
      }
      r := Ok(TableCompletions(catalogs[c].schemas[s], prefix));
    }

    /** The `match parts.len()` of `completion`. */
    method CompleteParts(parts: seq<string>, dir: Directory) returns (found: set<Item>)
      requires Valid()
      modifies this`catalogs
      ensures Valid()
      ensures (found, catalogs) == Dispatch(old(catalogs), dir, parts)
    {
      if |parts| == 0 {
        found := CatalogCompletions(catalogs, "");
      } else if |parts| == 1 {
        found := CatalogCompletions(catalogs, parts[0]);
      } else if |parts| == 2 {
        var r := CompleteSchemas(parts[0], parts[1], dir);
        found := OrNone(r);
      } else if |parts| == 3 {
        var r := CompleteTables(parts[0], parts[1], parts[2], dir);
        found := OrNone(r);
      } else {
        found := {};
      }
    }

    /** `completion` at `line`/`character` of the document `uri`. */
    method Completion(uri: string, line: nat, character: nat, dir: Directory) returns (r: Option<set<Item>>)
      requires Valid()
      modifies this`catalogs
      ensures Valid()
      ensures (r, catalogs) == CompletionSpec(documents, old(catalogs), dir, uri, line, character)
    {
      if uri !in documents {
        return None;
      }
      var before := TextBeforeCursor(documents[uri], line, character);
      var parts := ParseIdentifierChain(before);
      var found := CompleteParts(parts, dir);
      r := if found == {} then None else Some(found);
    }
  }
}
