/**
 * The term importer (Importers/TermImporter.php): one spreadsheet row becomes one term.
 * A row naming no term is skipped; otherwise the SEO columns and the "m:" metadata
 * columns are routed into the term's metadata and taken out of the row, the row's values
 * PHP takes as true are set on the term, the term is saved, and a fixed-shape result
 * record (id, path, parent, status) is returned.
 */
module TermImporting {
  import opened Wrappers
  import opened Php
  import opened OrderedMap
  import opened Caching
  import opened Paths
  import opened WordPress
  import opened Engine
  import opened Terms

  /** The SEO columns, removed from every processed row. */
  const SeoFields: set<string> := {"seo_title", "seo_description", "seo_keyword"}

  /** The prefix of a metadata column. */
  const MetaPrefix: string := "m:"

  /** The columns of the result record, in order. */
  const EntryKeys: seq<string> := ["id", "path", "parent", "status"]

  /** $data->get($k): null for a missing column. */
  function Cell(row: map<string, Value>, k: string): (v: Value)
    ensures k !in row ==> v == Null
    ensures k in row ==> v == row[k]
  {
    if k in row then row[k] else Null
  }

  /** The columns that name a term. */
  const Identifying: set<string> := {"name", "path", "taxonomy"}

  /** A row is skipped when its name, path and taxonomy are all blank, a missing column
      counting as blank. */
  predicate Skips(row: map<string, Value>): (r: bool)
    ensures r <==> forall c :: c in Identifying ==> Blank(Cell(row, c))
    ensures (forall c :: c in Identifying ==> c !in row) ==> r
  {
    Blank(Cell(row, "name")) && Blank(Cell(row, "path")) && Blank(Cell(row, "taxonomy"))
  }

  /** A value passed where a declared string parameter is expected (strict types): only a
      string is accepted. */
  function StringArg(v: Value, parameter: string): (r: Result<string, Error>)
    ensures r.Ok? <==> v.Str?
    ensures r.Ok? ==> r.value == v.s
  {
    if v.Str? then Ok(v.s) else Err(TypeError("Argument $" + parameter + " must be of type string"))
  }

  /** `$v ?? ''`. */
  function OrEmpty(v: Value): Value {
    if v.Null? then Str("") else v
  }

  /** `$v ?? 'N/A'`. */
  function OrNotAvailable(v: Value): (r: Value)
    ensures !r.Null?
    ensures !v.Null? ==> r == v
  {
    if v.Null? then Str("N/A") else v
  }

  /** The metadata of a row: every "m:" column PHP takes as true, under its name without
      the prefix. */
  function MetaFields(row: map<string, Value>): (r: map<string, Value>)
    ensures forall k :: k in r <==> MetaPrefix + k in row && Truthy(row[MetaPrefix + k])
    ensures forall k :: k in r ==> r[k] == row[MetaPrefix + k]
  {
    assert forall k :: StartsWith(k, MetaPrefix) ==> k == MetaPrefix + k[2..];
    assert forall k :: StartsWith(MetaPrefix + k, MetaPrefix) && (MetaPrefix + k)[2..] == k;
    map k | k in row && StartsWith(k, MetaPrefix) && Truthy(row[k]) :: k[2..] := row[k]
  }

  /** The SEO columns are not metadata columns. */
  lemma MetaFieldsIgnoreSeo(row: map<string, Value>)
    ensures MetaFields(row - SeoFields) == MetaFields(row)
  {
    forall k | MetaPrefix + k in row
      ensures MetaPrefix + k !in SeoFields
    {
      assert (MetaPrefix + k)[0] == 'm';
    }
    var a, b := MetaFields(row - SeoFields), MetaFields(row);
    assert a.Keys == b.Keys;
    assert forall k :: k in a ==> a[k] == b[k];
  }

  /** The row once processFields() has forgotten the SEO and the metadata columns. */
  function Cleaned(row: map<string, Value>): (r: map<string, Value>)
    ensures forall k :: k in r <==> k in row && k !in SeoFields && !StartsWith(k, MetaPrefix)
    ensures forall k :: k in r ==> r[k] == row[k]
  {
    map k | k in row && k !in SeoFields && !StartsWith(k, MetaPrefix) :: row[k]
  }

  /** The SEO step of processFields(): the plugin's SEO metadata when the SEO title is not
      blank, its arguments having to be strings (a missing description and keyword count
      as ''); nothing otherwise. */
  function WithSeo(plugin: SeoPlugin, row: map<string, Value>, data: FieldSet): (r: Result<FieldSet, Error>)
    ensures Blank(Cell(row, "seo_title")) ==> r == Ok(data)
    ensures r.Err? ==> r.error.TypeError? || r.error == RuntimeError(NoPluginMessage)
    ensures r.Ok? ==> r.value.Keys <= data.Keys + {"meta_input"}
    ensures r.Ok? ==> forall k :: k in data && k != "meta_input" ==> k in r.value && r.value[k] == data[k]
  {
    if Blank(Cell(row, "seo_title")) then Ok(data)
    else match StringArg(Cell(row, "seo_title"), "title")
      case Err(e) => Err(e)
      case Ok(title) => match StringArg(OrEmpty(Cell(row, "seo_description")), "description")
        case Err(e) => Err(e)
        case Ok(description) => match StringArg(OrEmpty(Cell(row, "seo_keyword")), "focusKeyword")
          case Err(e) => Err(e)
          case Ok(keyword) => match SeoMeta(plugin, title, description, Some(keyword))
            case Err(e) => Err(e)
            case Ok(m) => Ok(WithMetadata(data, m))
  }

  /** The term's pending fields after processFields(): the SEO step, then the row's
      metadata when there is any. */
  function Processed(plugin: SeoPlugin, row: map<string, Value>, data: FieldSet): (r: Result<FieldSet, Error>)
    ensures Blank(Cell(row, "seo_title")) ==> r.Ok?
    ensures r.Err? ==> r.error.TypeError? || r.error == RuntimeError(NoPluginMessage)
    ensures r.Ok? ==> r.value.Keys <= data.Keys + {"meta_input"}
    ensures r.Ok? ==> forall k :: k in data && k != "meta_input" ==> k in r.value && r.value[k] == data[k]
    ensures r.Ok? ==> forall k :: k in MetaFields(row) ==>
      k in PendingMeta(r.value) && PendingMeta(r.value)[k] == MetaFields(row)[k]
  {
    match WithSeo(plugin, row, data)
    case Err(e) => Err(e)
    case Ok(d) => Ok(if MetaFields(row) != map[] then WithMetadata(d, MetaFields(row)) else d)
  }

  /** Without an SEO title nothing but the row's metadata reaches the term, and nothing
      raises. */
  lemma NoSeoWithoutTitle(plugin: SeoPlugin, row: map<string, Value>, data: FieldSet)
    requires Blank(Cell(row, "seo_title"))
    ensures Processed(plugin, row, data) ==
      Ok(if MetaFields(row) != map[] then WithMetadata(data, MetaFields(row)) else data)
  {
  }

  /** With an SEO title the plugin's SEO metadata and the row's metadata are both pending. */
  lemma SeoWithTitle(plugin: SeoPlugin, row: map<string, Value>, data: FieldSet, title: string)
    requires Cell(row, "seo_title") == Str(title) && !Blank(Str(title))
    requires "seo_description" !in row && "seo_keyword" !in row
    requires plugin != NoSeoPlugin
    ensures var m := SeoMeta(plugin, title, "", Some("")).value;
      && Processed(plugin, row, data).Ok?
      && PendingMeta(Processed(plugin, row, data).value) == Merge(Merge(PendingMeta(data), m), MetaFields(row))
  {
    var m := SeoMeta(plugin, title, "", Some("")).value;
    SeoApplied(plugin, row, data, title);
    var d := WithMetadata(data, m);
    var mf := MetaFields(row);
    assert Processed(plugin, row, data) == Ok(if mf != map[] then WithMetadata(d, mf) else d);
    MetadataStep(d, mf);
  }

  /** Setting the row's metadata when there is any merges it into the pending metadata. */
  lemma MetadataStep(d: FieldSet, mf: map<string, Value>)
    ensures PendingMeta(if mf != map[] then WithMetadata(d, mf) else d) == Merge(PendingMeta(d), mf)
  {
    if mf == map[] {
      assert Merge(PendingMeta(d), mf) == PendingMeta(d);
    }
  }

  /** The SEO step with a title and neither description nor keyword merges in the
      plugin's metadata for the title alone. */
  lemma SeoApplied(plugin: SeoPlugin, row: map<string, Value>, data: FieldSet, title: string)
    requires Cell(row, "seo_title") == Str(title) && !Blank(Str(title))
    requires "seo_description" !in row && "seo_keyword" !in row
    requires plugin != NoSeoPlugin
    ensures WithSeo(plugin, row, data) == Ok(WithMetadata(data, SeoMeta(plugin, title, "", Some("")).value))
  {
    assert StringArg(OrEmpty(Cell(row, "seo_description")), "description") == Ok("");
    assert StringArg(OrEmpty(Cell(row, "seo_keyword")), "focusKeyword") == Ok("");
  }

  /** The fields set on the term: its pending fields, then every remaining column PHP
      takes as true, which wins. */
  function Pending(data: FieldSet, rest: map<string, Value>): (r: FieldSet)
    ensures forall k :: k in rest && Truthy(rest[k]) ==> k in r && r[k] == rest[k]
    ensures forall k :: k in r ==> k in data || (k in rest && Truthy(rest[k]))
  {
    Merge(data, KeepTruthy(rest))
  }

  /** The result record: id, path, parent and status, in this order. */
  function Entry(id: Value, path: Value, parent: Value, status: Status): (e: OMap<Value>)
    ensures Valid(e) && e.keys == EntryKeys
    ensures e.items["id"] == id && e.items["path"] == path && e.items["parent"] == parent
    ensures e.items["status"] == Int(Code(status))
    ensures !id.Null? && !path.Null? && !parent.Null? ==> forall k :: k in e.items ==> !e.items[k].Null?
  {
    var items := map["id" := id, "path" := path, "parent" := parent, "status" := Int(Code(status))];
    assert items.Keys == {"id", "path", "parent", "status"};
    OMap(EntryKeys, items)
  }

  /** What an import reads and never changes: the SEO plugin, the URL parser and WordPress's
      tables. */
  datatype Context = Context(plugin: SeoPlugin, url: UrlParser, tables: Tables)

  /** The result of an import together with the row and the term memo and metadata it
      leaves behind and the writes it issued. */
  datatype Imported = Imported(
    result: Result<OMap<Value>, Error>,
    row: map<string, Value>,
    cache: map<string, Option<Record>>,
    meta: MetaTable,
    writes: seq<Write>)

  /** import(). */
  function Import(c: Context, row: map<string, Value>, cache: map<string, Option<Record>>, meta: MetaTable, reply: Reply)
    : (r: Imported)
    ensures Skips(row) ==>
      r == Imported(Ok(Entry(Str("N/A"), OrNotAvailable(Cell(row, "path")), Str("N/A"), Skipped)), row, cache, meta, [])
    ensures !Skips(row) && r.result.Ok? ==>
      "status" in r.result.value.items && r.result.value.items["status"] != Int(Code(Skipped))
    ensures r.result.Ok? ==> Valid(r.result.value) && r.result.value.keys == EntryKeys
                             && forall k :: k in r.result.value.items ==> !r.result.value.items[k].Null?
    ensures r.row == row || r.row == Cleaned(row)
    ensures r.writes != [] ==> r.row == Cleaned(row)
  {
    if Skips(row) then
      Imported(Ok(Entry(Str("N/A"), OrNotAvailable(Cell(row, "path")), Str("N/A"), Skipped)), row, cache, meta, [])
    else match StringArg(Cell(row, "path"), "path")
      case Err(e) => Imported(Err(e), row, cache, meta, [])
      case Ok(path) => match StringArg(Cell(row, "taxonomy"), "taxonomy")
        case Err(e) => Imported(Err(e), row, cache, meta, [])
        case Ok(taxonomy) => match Normalize(path, c.url)
          case Err(e) => Imported(Err(e), row, cache, meta, [])
          case Ok(key) =>
            var env := Terms.Env(key, taxonomy, c.url, c.tables);
            match Processed(c.plugin, row, map[])
            case Err(e) => Imported(Err(e), row, cache, meta, [])
            case Ok(data) =>
              var rest := Cleaned(row);
              var s0 := Terms.State(None, None, Pending(data, rest), cache, meta);
              Reported(env, rest, Saved(env, s0, reply))
  }

  /** An import that reaches the save. */
  lemma ImportSaves(c: Context, row: map<string, Value>, cache: map<string, Option<Record>>, meta: MetaTable, reply: Reply,
                    env: Terms.Env, data: FieldSet)
    requires !Skips(row) && Cell(row, "path").Str? && Cell(row, "taxonomy").Str?
    requires Normalize(Cell(row, "path").s, c.url).Ok? && Processed(c.plugin, row, map[]) == Ok(data)
    requires env == Terms.Env(Normalize(Cell(row, "path").s, c.url).value, Cell(row, "taxonomy").s, c.url, c.tables)
    ensures Import(c, row, cache, meta, reply) ==
      Reported(env, Cleaned(row), Saved(env, Terms.State(None, None, Pending(data, Cleaned(row)), cache, meta), reply))
  {
  }

  /** The result record read from the saved term: find() and findParent() again, either of
      which may raise. */
  function Reported(env: Terms.Env, rest: map<string, Value>, o: Terms.Outcome): (r: Imported)
    ensures r.row == rest && r.writes == o.writes
    ensures r.result.Ok? ==>
      && o.status.Ok? && Valid(r.result.value) && r.result.value.keys == EntryKeys
      && r.result.value.items["status"] == Int(Code(o.status.value))
      && forall k :: k in r.result.value.items ==> !r.result.value.items[k].Null?
    ensures r.result.Ok? && o.status != Ok(Skipped) ==>
      "status" in r.result.value.items && r.result.value.items["status"] != Int(Code(Skipped))
  {
    match o.status
    case Err(e) => Imported(Err(e), rest, o.state.cache, o.state.meta, o.writes)
    case Ok(status) => Recorded(env, rest, o.state, o.writes, status)
  }

  /** The result record of a save that returned a status, from find() and findParent()
      on the state the save left. */
  function Recorded(env: Terms.Env, rest: map<string, Value>, s: Terms.State, writes: seq<Write>, status: Status)
    : (r: Imported)
    ensures r.row == rest && r.writes == writes
    ensures r.result.Ok? ==>
      && Valid(r.result.value) && r.result.value.keys == EntryKeys
      && r.result.value.items["status"] == Int(Code(status))
      && forall k :: k in r.result.value.items ==> !r.result.value.items[k].Null?
  {
    match Found(env, s)
    case Err(e) => Imported(Err(e), rest, s.cache, s.meta, writes)
    case Ok((t, s1)) => match ParentFound(env, s1)
      case Err(e) => Imported(Err(e), rest, s1.cache, s1.meta, writes)
      case Ok((p, s2)) =>
        var e := Entry(OrNotAvailable(Prop(t, "term_id")), OrNotAvailable(Cell(rest, "path")),
                       OrNotAvailable(Prop(p, "term_id")), status);
        Imported(Ok(e), rest, s2.cache, s2.meta, writes)
  }

  /** The row a spreadsheet gives, which processFields() changes in place. */
  class Row {
    var items: map<string, Value>

    constructor (items: map<string, Value>)
      ensures this.items == items
    {
      this.items := items;
    }

    /** forget($keys). */
    method Forget(keys: set<string>)
      modifies this
      ensures items == old(items) - keys
    {
      items := items - keys;
    }
  }

  /** The SEO step of processFields(); when setSeo() or an argument raises, the term has
      not changed. */
  method ApplySeo(row: Row, term: Term, plugin: SeoPlugin) returns (err: Option<Error>)
    modifies term
    ensures var p := WithSeo(plugin, row.items, old(term.data));
      && (p.Err? ==> err == Some(p.error) && term.data == old(term.data))
      && (p.Ok? ==> err == None && term.data == p.value)
    ensures term.term == old(term.term) && term.parent == old(term.parent)
  {
    var title := Cell(row.items, "seo_title");
    if Blank(title) {
      return None;
    }
    var t := StringArg(title, "title");
    if t.Err? {
      return Some(t.error);
    }
    var d := StringArg(OrEmpty(Cell(row.items, "seo_description")), "description");
    if d.Err? {
      return Some(d.error);
    }
    var k := StringArg(OrEmpty(Cell(row.items, "seo_keyword")), "focusKeyword");
    if k.Err? {
      return Some(k.error);
    }
    err := term.SetSeo(plugin, t.value, d.value, Some(k.value));
  }

  /** Forgetting the SEO columns and then the metadata columns leaves the cleaned row. */
  lemma CleanedInSteps(row: map<string, Value>)
    ensures var r := row - SeoFields; r - (set k | k in r && StartsWith(k, MetaPrefix)) == Cleaned(row)
  {
  }

  /** processFields(): routes the SEO and metadata columns into the term and forgets them.
      When setSeo() raises, neither the row nor the term has changed. */
  method ProcessFields(row: Row, term: Term, plugin: SeoPlugin) returns (err: Option<Error>)
    requires row as object != term as object
    modifies row, term
    ensures var p := Processed(plugin, old(row.items), old(term.data));
      && (p.Err? ==> err == Some(p.error) && row.items == old(row.items) && term.data == old(term.data))
      && (p.Ok? ==> err == None && row.items == Cleaned(old(row.items)) && term.data == p.value)
    ensures term.term == old(term.term) && term.parent == old(term.parent)
  {
    err := ApplySeo(row, term, plugin);
    if err.Some? {
      return;
    }
    ghost var original := row.items;
    row.Forget(SeoFields);
    var metadata := MetaFields(row.items);
    MetaFieldsIgnoreSeo(original);
    if metadata != map[] {
      term.SetMetadata(metadata);
    }
    CleanedInSteps(original);
    row.Forget(set k | k in row.items && StartsWith(k, MetaPrefix));
  }

  /** The rest of import() once the term's fields are set: save(), then find() and
      findParent() for the result record. */
  method SaveAndReport(term: Term, rest: map<string, Value>, reply: Reply) returns (r: Result<OMap<Value>, Error>)
    requires term.Valid()
    modifies term, term.cache, term.path, term.prefixes, term.store
    ensures term.Valid()
    ensures var o := Reported(term.Environment(), rest, Saved(term.Environment(), old(term.Snapshot()), reply));
      && r == o.result && term.cache.entries == o.cache && term.store.termMeta == o.meta
      && term.store.writes == old(term.store.writes) + o.writes
  {
    var status := term.Save(reply);
    if status.Err? {
      return Err(status.error);
    }
    var found := term.Find();
    if found.Err? {
      return Err(found.error);
    }
    var parent := term.FindParent();
    if parent.Err? {
      return Err(parent.error);
    }
    r := Ok(Entry(OrNotAvailable(Prop(found.value, "term_id")), OrNotAvailable(Cell(rest, "path")),
                  OrNotAvailable(Prop(parent.value, "term_id")), status.value));
  }

  /** import(): the term memo, the taxonomy prefix memo and the store are the static
      caches and WordPress; `reply` is the store's answer to the term's write. */
  method ImportRow(c: Context, row: Row, cache: Cache<Record>, prefixes: Cache<string>, store: Store, reply: Reply)
    returns (r: Result<OMap<Value>, Error>)
    requires store.tables == c.tables
    requires MemoOf(prefixes, store.tables.taxonomySlugs) && cache as object != prefixes as object
    modifies row, cache, prefixes, store
    ensures MemoOf(prefixes, store.tables.taxonomySlugs)
    ensures var o := Import(c, old(row.items), old(cache.entries), old(store.termMeta), reply);
      && r == o.result && row.items == o.row && cache.entries == o.cache
      && store.termMeta == o.meta && store.writes == old(store.writes) + o.writes
  {
    ghost var o0 := Import(c, row.items, cache.entries, store.termMeta, reply);
    if Skips(row.items) {
      return Ok(Entry(Str("N/A"), OrNotAvailable(Cell(row.items, "path")), Str("N/A"), Skipped));
    }
    var path := StringArg(Cell(row.items, "path"), "path");
    if path.Err? {
      return Err(path.error);
    }
    var taxonomy := StringArg(Cell(row.items, "taxonomy"), "taxonomy");
    if taxonomy.Err? {
      return Err(taxonomy.error);
    }
    var created := Term.Create(path.value, taxonomy.value, c.url, cache, prefixes, store);
    if created.Err? {
      return Err(created.error);
    }
    var term := created.value;
    ghost var original := row.items;
    var failed := ProcessFields(row, term, c.plugin);
    if failed.Some? {
      return Err(failed.value);
    }
    term.Set(KeepTruthy(row.items));
    ghost var env := Terms.Env(Normalize(path.value, c.url).value, taxonomy.value, c.url, c.tables);
    ghost var data := Processed(c.plugin, original, map[]).value;
    assert term.Environment() == env;
    assert term.Snapshot() == Terms.State(None, None, Pending(data, Cleaned(original)), old(cache.entries), old(store.termMeta));
    ImportSaves(c, original, old(cache.entries), old(store.termMeta), reply, env, data);
    r := SaveAndReport(term, row.items, reply);
    assert o0 == Reported(env, Cleaned(original), Saved(env, Terms.State(None, None, Pending(data, Cleaned(original)), old(cache.entries), old(store.termMeta)), reply));
  }
}
