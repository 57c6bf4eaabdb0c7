/**
 * The term engine (Helpers/Term.php): a term addressed by path within a taxonomy, found
 * through a memo keyed "taxonomy:path" shared by every Term, and saved by the same
 * validate / no-op / prepare / write / memoise state machine as a post, followed by the
 * write of each pending metadata entry. `Saved` is that state machine as a function; the
 * Term class is proved against it.
 */
module Terms {
  import opened Wrappers
  import opened Php
  import opened Caching
  import opened Paths
  import opened WordPress
  import opened Engine

  /** hasChangedData() compares only these fields. */
  const Compared: set<string> := {"name", "slug", "parent", "description"}

  /** What a term reads and never changes. */
  datatype Env = Env(key: string, taxonomy: string, url: UrlParser, tables: Tables)

  /** What a term's operations change: the held term and parent, the pending fields, the
      shared memo ("taxonomy:path" -> term or null) and the stored term metadata. */
  datatype State = State(
    term: Option<Record>,
    parent: Option<Record>,
    data: FieldSet,
    cache: map<string, Option<Record>>,
    meta: MetaTable)

  datatype Outcome = Outcome(status: Result<Status, Error>, state: State, writes: seq<Write>)

  /** The memo key of a path: "{taxonomy}:{path}". */
  function CacheKey(env: Env, k: string): string {
    env.taxonomy + ":" + k
  }

  /** getTermSlug(): the path with the taxonomy's rewrite prefix stripped is made a Path
      again (raising when nothing is left of it), and its last segment is the slug. */
  function TermSlug(env: Env): (r: Result<Option<string>, Error>)
    ensures r.Err? <==> Normalize(StripPrefix(env.key, Get(env.tables.taxonomySlugs, env.taxonomy)), env.url).Err?
    ensures r.Ok? && r.value.Some? ==> r.value.value == "/" || (TruthyString(r.value.value) && '/' !in r.value.value)
  {
    match Normalize(StripPrefix(env.key, Get(env.tables.taxonomySlugs, env.taxonomy)), env.url)
    case Err(e) => Err(e)
    case Ok(k) => Ok(Last(Segments(k)))
  }

  /** findByPath($path): null for the root; for any other path, the term with this term's
      own slug, whatever path is passed in. */
  function FindByPath(env: Env, k: string): Result<Option<Record>, Error> {
    if k == "/" then Ok(None)
    else match TermSlug(env)
      case Err(e) => Err(e)
      case Ok(slug) => Ok(if slug.Some? then Get(env.tables.terms, (env.taxonomy, slug.value)) else None)
  }

  /** find(): the held term; otherwise the memo's answer; otherwise a lookup, memoised (a
      miss too) and held. A memo hit does not set the held term; a lookup that raises
      changes nothing. */
  function Found(env: Env, s: State): (r: Result<(Option<Record>, State), Error>)
    ensures r.Ok? ==> r.value.1.data == s.data && r.value.1.parent == s.parent && r.value.1.meta == s.meta
  {
    if s.term.Some? then Ok((s.term, s))
    else if CacheKey(env, env.key) in s.cache then Ok((s.cache[CacheKey(env, env.key)], s))
    else match FindByPath(env, env.key)
      case Err(e) => Err(e)
      case Ok(found) => Ok((found, s.(term := found, cache := s.cache[CacheKey(env, env.key) := found])))
  }

  /** A second find() after a first that returned answers the same and changes nothing. */
  lemma FindStable(env: Env, s: State)
    requires Found(env, s).Ok?
    ensures Found(env, Found(env, s).value.1) == Found(env, s)
  {
  }

  /** find() memoises hit and miss under "taxonomy:path"; the held term is set only when
      the lookup actually runs, never from a memo hit. */
  lemma FindMemoises(env: Env, s: State)
    requires s.term.None? && Found(env, s).Ok?
    ensures var (r, t) := Found(env, s).value;
      && CacheKey(env, env.key) in t.cache && t.cache[CacheKey(env, env.key)] == r
      && (CacheKey(env, env.key) !in s.cache ==> FindByPath(env, env.key) == Ok(r) && t.term == r)
      && (CacheKey(env, env.key) in s.cache ==> t.term == None && t.cache == s.cache)
  {
  }

  /** A lookup that raises is not memoised and changes nothing: find() raises with it. */
  lemma FindRaises(env: Env, s: State)
    requires s.term.None? && CacheKey(env, env.key) !in s.cache && FindByPath(env, env.key).Err?
    ensures Found(env, s) == Err(FindByPath(env, env.key).error)
  {
  }

  /** findParent(): the held parent; none for a path of fewer than two segments; otherwise
      the segments but the last, as a Path, are looked up under "taxonomy:parentPath". */
  function ParentFound(env: Env, s: State): (r: Result<(Option<Record>, State), Error>)
    ensures r.Ok? ==> r.value.1.data == s.data && r.value.1.term == s.term && r.value.1.meta == s.meta
  {
    if s.parent.Some? then Ok((s.parent, s))
    else
      var segs := Segments(env.key);
      if segs == [] || |segs| < 2 then Ok((None, s))
      else match Normalize(ParentPath(segs), env.url)
        case Err(e) => Err(e)
        case Ok(pk) => ParentLookup(env, s, pk)
  }

  /** The memoised lookup of the parent path pk under "taxonomy:pk"; a fresh answer is
      memoised and held as the parent. */
  function ParentLookup(env: Env, s: State, pk: string): (r: Result<(Option<Record>, State), Error>)
    ensures r.Ok? ==> r.value.1.data == s.data && r.value.1.term == s.term && r.value.1.meta == s.meta
  {
    if CacheKey(env, pk) in s.cache then Ok((s.cache[CacheKey(env, pk)], s))
    else match FindByPath(env, pk)
      case Err(e) => Err(e)
      case Ok(found) => Ok((found, s.(parent := found, cache := s.cache[CacheKey(env, pk) := found])))
  }

  /** hasChangedData(): always when no term is held; otherwise a compared field differs,
      or the pending metadata differs from the stored metadata. */
  predicate Changed(data: FieldSet, held: Option<Record>, meta: MetaTable): (r: bool)
    ensures !r <==>
      && held.Some?
      && (forall k :: k in Compared && k in data ==> data[k] == Prop(held, k))
      && ("meta_input" in data ==> MetaStored(data, held, "term_id", meta))
  {
    held.None? || DiffersOn(data, held, Compared) || MetaChanged(data, held, "term_id", meta)
  }

  /** prepareData(): the held term's term_id when the term exists, the slug, and the
      parent's term_id when a parent is found; an exception stops it where it is raised. */
  function Prepared(env: Env, s: State): (Option<Error>, State) {
    match Found(env, s)
    case Err(e) => (Some(e), s)
    case Ok((found, s1)) =>
      var s2 := if found.Some? then s1.(data := s1.data["term_id" := Prop(s1.term, "term_id")]) else s1;
      match TermSlug(env)
      case Err(e) => (Some(e), s2)
      case Ok(slug) =>
        var s3 := s2.(data := s2.data["slug" := OptStr(slug)]);
        match ParentFound(env, s3)
        case Err(e) => (Some(e), s3)
        case Ok((p, s4)) => (None, if p.Some? then s4.(data := s4.data["parent" := Prop(p, "term_id")]) else s4)
  }

  /** The entries the metadata loop writes: those of an array; there are none otherwise. */
  function MetaEntries(v: Value): map<string, Value> {
    if v.Arr? then v.items else map[]
  }

  /** Stored metadata with each given entry written over it as its one value. */
  function Overlay(stored: StoredMeta, entries: map<string, Value>): (r: StoredMeta)
    ensures r.Keys == stored.Keys + entries.Keys
    ensures forall k :: k in entries ==> r[k] == [entries[k]]
    ensures forall k :: k in stored && k !in entries ==> r[k] == stored[k]
  {
    map k | k in stored.Keys + entries.Keys :: if k in entries then [entries[k]] else stored[k]
  }

  /** The metadata table once each entry is written under an id with update_term_meta;
      no entries write nothing. */
  function StoreMeta(t: MetaTable, id: Value, entries: map<string, Value>): MetaTable {
    if entries == map[] then t else t[id := Overlay(MetaAt(t, id), entries)]
  }

  /** Writing one more entry is overlaying it with the others. */
  lemma StoreMetaStep(t: MetaTable, id: Value, entries: map<string, Value>, k: string, v: Value)
    ensures var u := StoreMeta(t, id, entries);
      u[id := MetaAt(u, id)[k := [v]]] == StoreMeta(t, id, entries[k := v])
  {
    var u := StoreMeta(t, id, entries);
    OverlayStep(MetaAt(t, id), entries, k, v);
    assert k in entries[k := v];
    assert StoreMeta(t, id, entries[k := v]) == t[id := Overlay(MetaAt(t, id), entries[k := v])];
    assert MetaAt(u, id) == Overlay(MetaAt(t, id), entries);
    if entries != map[] {
      assert u[id := MetaAt(u, id)[k := [v]]] == t[id := MetaAt(u, id)[k := [v]]];
    }
  }

  /** Overlaying one more entry is writing it over the overlay. */
  lemma OverlayStep(stored: StoredMeta, entries: map<string, Value>, k: string, v: Value)
    ensures Overlay(stored, entries)[k := [v]] == Overlay(stored, entries[k := v])
  {
    var lhs := Overlay(stored, entries)[k := [v]];
    var rhs := Overlay(stored, entries[k := v]);
    assert lhs.Keys == rhs.Keys;
    assert forall j :: j in lhs ==> lhs[j] == rhs[j];
  }

  /** The insert or update call: an existing term is updated by id with every pending
      field; a new one is inserted by name with every field but the name. */
  function TermWrite(env: Env, update: bool, held: Option<Record>, name: Value, data: FieldSet): Write {
    if update then UpdateTerm(Prop(held, "term_id"), env.taxonomy, data)
    else InsertTerm(name, env.taxonomy, data - {"name"})
  }

  /** What follows the write: a refusal is FAILED; otherwise the term read back is held,
      the pending metadata entries are written under its id, it is memoised on create,
      and the status says which happened. */
  function Persisted(env: Env, s: State, reply: Reply): (Status, State) {
    if reply.Refused? then (Failed, s)
    else
      var id := Prop(reply.record, "term_id");
      var meta := if "meta_input" in s.data then StoreMeta(s.meta, id, MetaEntries(s.data["meta_input"])) else s.meta;
      var s1 := s.(term := reply.record, meta := meta);
      if "term_id" in s.data then (Updated, s1)
      else (Created, s1.(cache := s1.cache[CacheKey(env, env.key) := reply.record]))
  }

  /** The save once the data is prepared: the write chosen by a fresh exists(), then what
      follows it. */
  function Written(env: Env, s: State, reply: Reply): Outcome {
    var name := if "name" in s.data then s.data["name"] else Null;
    match Found(env, s)
    case Err(e) => Outcome(Err(e), s, [])
    case Ok((present, s1)) =>
      var w := TermWrite(env, present.Some?, s1.term, name, s1.data);
      var (status, s2) := Persisted(env, s1, reply);
      Outcome(Ok(status), s2, [w])
  }

  /** save(). */
  function Saved(env: Env, s0: State, reply: Reply): (o: Outcome)
    ensures o.status != Ok(Skipped)
  {
    match Found(env, s0)
    case Err(e) => Outcome(Err(e), s0, [])
    case Ok((found, s1)) =>
      if found.None? && "name" !in s1.data then Outcome(Ok(Failed), s1, [])
      else if found.Some? && (s1.data == map[] || !Changed(s1.data, s1.term, s1.meta)) then Outcome(Ok(Noop), s1, [])
      else
        var (err, s2) := Prepared(env, s1);
        if err.Some? then Outcome(Err(err.value), s2, [])
        else Written(env, s2, reply)
  }

  /** Prepared data carries the slug, and the held term is untouched. */
  lemma PreparedSlug(env: Env, s: State)
    requires Prepared(env, s).0.None?
    ensures TermSlug(env).Ok?
    ensures var s2 := Prepared(env, s).1;
      "slug" in s2.data && s2.data["slug"] == OptStr(TermSlug(env).value)
  {
  }

  /** A term that does not exist and has no name key (whatever its value) is not saved. */
  lemma SaveFailsWithoutName(env: Env, s0: State, reply: Reply)
    requires Found(env, s0).Ok? && Found(env, s0).value.0.None? && "name" !in s0.data
    ensures Saved(env, s0, reply) == Outcome(Ok(Failed), Found(env, s0).value.1, [])
  {
  }

  /** NOOP exactly when the term exists and nothing is pending or nothing changed; a no-op
      writes nothing. */
  lemma SaveNoopIff(env: Env, s0: State, reply: Reply)
    requires Found(env, s0).Ok?
    ensures var o := Saved(env, s0, reply); var (found, s1) := Found(env, s0).value;
      && (o.status == Ok(Noop) <==> found.Some? && (s1.data == map[] || !Changed(s1.data, s1.term, s1.meta)))
      && (o.status == Ok(Noop) ==> o.writes == [] && o.state == s1)
  {
  }

  /** Within one run a memo hit leaves the held term null, and a null term always counts
      as changed: a term with pending fields is never a no-op then. */
  lemma MemoHitIsNeverNoop(env: Env, s0: State, reply: Reply)
    requires s0.term.None? && CacheKey(env, env.key) in s0.cache
    requires s0.data != map[]
    ensures Saved(env, s0, reply).status != Ok(Noop)
  {
  }

  /** The lookup ignores the path it is given, apart from the root. */
  lemma FindByPathIgnoresPath(env: Env, k1: string, k2: string)
    requires k1 != "/" && k2 != "/"
    ensures FindByPath(env, k1) == FindByPath(env, k2)
  {
  }

  /** The slug is the last segment once a leading rewrite prefix is stripped. */
  lemma {:induction false} SlugAfterPrefix(env: Env, prefix: string)
    requires Get(env.tables.taxonomySlugs, env.taxonomy) == Some(prefix) && TruthyString(prefix)
    requires env.key != "/" && |Segments(env.key)| >= 2 && Segments(env.key)[0] == prefix
    requires !env.url.isUrl(Join(Segments(env.key)[1..], '/'))
    ensures TermSlug(env) == Ok(Last(Segments(env.key)))
  {
    var segs := Segments(env.key);
    assert StripPrefix(env.key, Some(prefix)) == Join(segs[1..], '/');
    TailIsKey(segs, env.url);
    assert Last(segs[1..]) == Last(segs);
  }

  /** The segments after the first of a path with two or more, joined, are a key whose
      segments they are. */
  lemma TailIsKey(segs: seq<string>, url: UrlParser)
    requires |segs| >= 2
    requires forall i :: 0 <= i < |segs| ==> TruthyString(segs[i]) && '/' !in segs[i]
    requires !url.isUrl(Join(segs[1..], '/'))
    ensures Normalize(Join(segs[1..], '/'), url) == Ok(Join(segs[1..], '/'))
    ensures Segments(Join(segs[1..], '/')) == segs[1..]
  {
    var rest := segs[1..];
    assert forall i :: 0 <= i < |rest| ==> rest[i] == segs[i + 1];
    SegmentsOfJoin(rest);
    NormalizeKeepsKeys(Join(rest, '/'));
  }

  /** A path that is only the rewrite prefix leaves nothing to take a slug from: reading
      the slug raises. */
  lemma SlugOfPrefixOnlyRaises(env: Env, prefix: string)
    requires Get(env.tables.taxonomySlugs, env.taxonomy) == Some(prefix) && TruthyString(prefix)
    requires env.key != "/" && Segments(env.key) == [prefix]
    requires !env.url.isUrl("")
    ensures TermSlug(env).Err? && TermSlug(env).error.InvalidArgument?
  {
    StripPrefixOfPrefixOnly(env.key, prefix);
  }

  /** A path of fewer than two segments has no parent. */
  lemma NoParentBelowTwoSegments(env: Env, s: State)
    requires s.parent.None? && |Segments(env.key)| < 2
    ensures ParentFound(env, s) == Ok((None, s))
  {
  }

  /** A parent is looked up under "taxonomy:" followed by the path of all segments but the
      last; since the lookup ignores that path, a fresh parent lookup finds the term itself. */
  lemma {:induction false} ParentIsOwnSlug(env: Env, s: State)
    requires s.parent.None? && env.key != "/" && |Segments(env.key)| >= 2
    requires !env.url.isUrl(ParentPath(Segments(env.key)))
    ensures var pk := ParentPath(Segments(env.key));
      && pk != "/"
      && var r := ParentFound(env, s);
      && (CacheKey(env, pk) in s.cache ==> r == Ok((s.cache[CacheKey(env, pk)], s)))
      && (CacheKey(env, pk) !in s.cache ==>
            && (r.Ok? <==> FindByPath(env, env.key).Ok?)
            && (r.Ok? ==> r.value.0 == FindByPath(env, env.key).value
                          && r.value.1.cache == s.cache[CacheKey(env, pk) := r.value.0]))
  {
    var pk := ParentPath(Segments(env.key));
    ParentKeyIsKey(Segments(env.key), env.url);
    ParentLookedUp(env, s, pk);
    LookupIsOwnSlug(env, s, pk);
  }

  /** Once the parent path normalises to pk, findParent() is the memoised lookup of pk. */
  lemma ParentLookedUp(env: Env, s: State, pk: string)
    requires s.parent.None? && |Segments(env.key)| >= 2
    requires Normalize(ParentPath(Segments(env.key)), env.url) == Ok(pk)
    ensures ParentFound(env, s) == ParentLookup(env, s, pk)
  {
  }

  /** A fresh lookup of any non-root parent key answers as the lookup of the term's own
      path, and memoises that answer. */
  lemma LookupIsOwnSlug(env: Env, s: State, pk: string)
    requires pk != "/" && env.key != "/"
    ensures var r := ParentLookup(env, s, pk);
      && (CacheKey(env, pk) in s.cache ==> r == Ok((s.cache[CacheKey(env, pk)], s)))
      && (CacheKey(env, pk) !in s.cache ==>
            && (r.Ok? <==> FindByPath(env, env.key).Ok?)
            && (r.Ok? ==> r.value.0 == FindByPath(env, env.key).value
                          && r.value.1.cache == s.cache[CacheKey(env, pk) := r.value.0]))
  {
    FindByPathIgnoresPath(env, pk, env.key);
  }

  /** The segments but the last of a path with two or more, joined, are already a key. */
  lemma ParentKeyIsKey(segs: seq<string>, url: UrlParser)
    requires |segs| >= 2
    requires forall i :: 0 <= i < |segs| ==> TruthyString(segs[i]) && '/' !in segs[i]
    requires !url.isUrl(ParentPath(segs))
    ensures ParentPath(segs) != "/" && Normalize(ParentPath(segs), url) == Ok(ParentPath(segs))
  {
    var init := segs[..|segs| - 1];
    forall i | 0 <= i < |init|
      ensures TruthyString(init[i]) && '/' !in init[i]
    {
      assert init[i] == segs[i];
    }
    SegmentsOfJoin(init);
    NormalizeKeepsKeys(Join(init, '/'));
  }

  /** A save that writes is Written applied to the prepared state. */
  lemma SavedWrites(env: Env, s0: State, reply: Reply)
    ensures var o := Saved(env, s0, reply);
      o.writes != [] ==>
        && Found(env, s0).Ok?
        && Prepared(env, Found(env, s0).value.1).0.None?
        && o == Written(env, Prepared(env, Found(env, s0).value.1).1, reply)
  {
  }

  /** The write of Written carries the pending fields, the name apart on insert. */
  lemma WrittenShape(env: Env, s: State, reply: Reply)
    ensures var o := Written(env, s, reply);
      o.writes != [] ==>
        && |o.writes| == 1 && (o.writes[0].UpdateTerm? || o.writes[0].InsertTerm?)
        && o.writes[0].taxonomy == env.taxonomy
        && (o.writes[0].UpdateTerm? ==> o.writes[0].args == s.data)
        && (o.writes[0].InsertTerm? ==> o.writes[0].args == s.data - {"name"})
  {
  }

  /** The one write of a save: an update by the held term's id with every pending field
      when the term exists, an insert by name with the other fields otherwise; the fields
      carry the slug. */
  lemma SaveWriteShape(env: Env, s0: State, reply: Reply)
    ensures var o := Saved(env, s0, reply);
      o.writes != [] ==>
        && |o.writes| == 1 && (o.writes[0].UpdateTerm? || o.writes[0].InsertTerm?)
        && o.writes[0].taxonomy == env.taxonomy
        && TermSlug(env).Ok?
        && "slug" in o.writes[0].args && o.writes[0].args["slug"] == OptStr(TermSlug(env).value)
        && (o.writes[0].InsertTerm? ==> "name" !in o.writes[0].args)
  {
    SavedWrites(env, s0, reply);
    if Saved(env, s0, reply).writes != [] {
      var s1 := Found(env, s0).value.1;
      PreparedSlug(env, s1);
      WrittenShape(env, Prepared(env, s1).1, reply);
    }
  }

  /** After a written save: a refusal is FAILED; otherwise every pending metadata entry is
      stored under the read-back term's id, the status is UPDATED exactly when a term_id
      was sent, and a created term is memoised under "taxonomy:path". */
  lemma SaveStatusAfterWrite(env: Env, s0: State, reply: Reply)
    ensures var o := Saved(env, s0, reply);
      o.writes != [] ==>
        && (reply.Refused? ==> o.status == Ok(Failed))
        && (reply.Stored? ==>
              var id := Prop(reply.record, "term_id");
              && o.state.term == reply.record
              && (o.status == Ok(Updated) || o.status == Ok(Created))
              && (o.status == Ok(Updated) <==> "term_id" in o.state.data)
              && (o.status == Ok(Created) ==> o.state.cache[CacheKey(env, env.key)] == reply.record)
              && (forall k :: "meta_input" in o.state.data && k in MetaEntries(o.state.data["meta_input"]) ==>
                    k in MetaAt(o.state.meta, id) && MetaAt(o.state.meta, id)[k] == [MetaEntries(o.state.data["meta_input"])[k]]))
  {
    if Found(env, s0).Ok? {
      var s1 := Found(env, s0).value.1;
      var s2 := Prepared(env, s1).1;
      SavedWrites(env, s0, reply);
      if Saved(env, s0, reply).writes != [] && reply.Stored? {
        PersistedAfterWrite(env, Found(env, s2).value.1, reply);
      }
    }
  }

  /** Persisted, for one state. */
  lemma PersistedAfterWrite(env: Env, s: State, reply: Reply)
    requires reply.Stored?
    ensures var (status, s1) := Persisted(env, s, reply); var id := Prop(reply.record, "term_id");
      && s1.term == reply.record && s1.data == s.data
      && (status == Updated <==> "term_id" in s.data)
      && (status == Created <==> "term_id" !in s.data)
      && (status == Created ==> s1.cache[CacheKey(env, env.key)] == reply.record)
      && (forall k :: "meta_input" in s.data && k in MetaEntries(s.data["meta_input"]) ==>
            k in MetaAt(s1.meta, id) && MetaAt(s1.meta, id)[k] == [MetaEntries(s.data["meta_input"])[k]])
  {
  }

  /** Helpers/Term.php's class. */
  class Term {
    const path: Path
    const taxonomy: string
    const url: UrlParser
    /** The class-wide memo, shared by every Term. */
    const cache: Cache<Record>
    /** The taxonomy prefix memo, shared by every Taxonomy. */
    const prefixes: Cache<string>
    const store: Store
    var term: Option<Record>
    var parent: Option<Record>
    var data: FieldSet

    ghost predicate Valid()
      reads path, prefixes
    {
      && path.Valid()
      && MemoOf(prefixes, store.tables.taxonomySlugs)
      && cache as object != prefixes as object
    }

    function Environment(): Env {
      Env(path.key, taxonomy, url, store.tables)
    }

    ghost function Snapshot(): State
      reads this, cache, store
    {
      State(term, parent, data, cache.entries, store.termMeta)
    }

    constructor (path: Path, taxonomy: string, url: UrlParser, cache: Cache<Record>, prefixes: Cache<string>, store: Store)
      requires path.Valid() && MemoOf(prefixes, store.tables.taxonomySlugs) && cache as object != prefixes as object
      ensures Valid() && this.path == path && this.taxonomy == taxonomy && this.url == url
      ensures this.cache == cache && this.prefixes == prefixes && this.store == store
      ensures term == None && parent == None && data == map[]
    {
      this.path := path;
      this.taxonomy := taxonomy;
      this.url := url;
      this.cache := cache;
      this.prefixes := prefixes;
      this.store := store;
      term := None;
      parent := None;
      data := map[];
    }

    /** new Term($path, $taxonomy): the path's InvalidArgumentException, or a term with no
        fields pending. */
    static method Create(raw: string, taxonomy: string, url: UrlParser, cache: Cache<Record>, prefixes: Cache<string>, store: Store)
      returns (r: Result<Term, Error>)
      requires MemoOf(prefixes, store.tables.taxonomySlugs) && cache as object != prefixes as object
      ensures Normalize(raw, url).Err? ==> r.Err? && r.error == Normalize(raw, url).error
      ensures Normalize(raw, url).Ok? ==>
        && r.Ok? && fresh(r.value) && fresh(r.value.path) && r.value.Valid()
        && r.value.Environment() == Env(Normalize(raw, url).value, taxonomy, url, store.tables)
        && r.value.cache == cache && r.value.prefixes == prefixes && r.value.store == store
        && r.value.term == None && r.value.parent == None && r.value.data == map[]
    {
      var p := Path.Create(raw, url);
      if p.Err? {
        return Err(p.error);
      }
      var created := new Term(p.value, taxonomy, url, cache, prefixes, store);
      r := Ok(created);
    }

    /** set(): merges fields in, the later value winning per key. */
    method Set(fields: FieldSet)
      modifies this
      ensures data == Merge(old(data), fields) && term == old(term) && parent == old(parent)
    {
      data := Merge(data, fields);
    }

    /** setMetadata(). */
    method SetMetadata(meta: map<string, Value>)
      modifies this
      ensures data == WithMetadata(old(data), meta) && term == old(term) && parent == old(parent)
    {
      data := WithMetadata(data, meta);
    }

    /** setSeo(): the plugin's SEO metadata is merged in, or the RuntimeException is raised
        and nothing changes. */
    method SetSeo(plugin: SeoPlugin, title: string, description: string, focusKeyword: Option<string>)
      returns (err: Option<Error>)
      modifies this
      ensures var m := SeoMeta(plugin, title, description, focusKeyword);
        && (m.Err? ==> err == Some(m.error) && data == old(data))
        && (m.Ok? ==> err == None && data == WithMetadata(old(data), m.value))
      ensures term == old(term) && parent == old(parent)
    {
      var m := SeoMeta(plugin, title, description, focusKeyword);
      if m.Err? {
        return Some(m.error);
      }
      data := WithMetadata(data, m.value);
      err := None;
    }

    /** getTermSlug(): strips the prefix through the shared taxonomy memo. */
    method GetTermSlug() returns (r: Result<Option<string>, Error>)
      requires Valid()
      modifies path, prefixes
      ensures Valid() && r == TermSlug(Environment())
      ensures prefixes.entries == old(prefixes.entries)[taxonomy := Get(store.tables.taxonomySlugs, taxonomy)]
    {
      var stripped := path.RemoveTaxonomyPrefix(taxonomy, prefixes, store.tables.taxonomySlugs);
      var p := Path.Create(stripped, url);
      if p.Err? {
        return Err(p.error);
      }
      var segs := p.value.Segment();
      r := Ok(Last(segs));
    }

    /** find(). */
    method Find() returns (r: Result<Option<Record>, Error>)
      requires Valid()
      modifies this, cache
      ensures Valid()
      ensures var o := Found(Environment(), old(Snapshot()));
        && (o.Err? ==> r.Err? && r.error == o.error && Snapshot() == old(Snapshot()))
        && (o.Ok? ==> r == Ok(o.value.0) && Snapshot() == o.value.1)
    {
      if term.Some? {
        return Ok(term);
      }
      var env := Environment();
      var res, ran := cache.Resolve(CacheKey(env, path.key), () => FindByPath(env, env.key));
      if ran && res.Ok? {
        term := res.value;
      }
      r := res;
    }

    /** exists(). */
    method Exists() returns (r: Result<bool, Error>)
      requires Valid()
      modifies this, cache
      ensures Valid()
      ensures var o := Found(Environment(), old(Snapshot()));
        && (o.Err? ==> r.Err? && r.error == o.error && Snapshot() == old(Snapshot()))
        && (o.Ok? ==> r == Ok(o.value.0.Some?) && Snapshot() == o.value.1)
    {
      var f := Find();
      if f.Err? {
        return Err(f.error);
      }
      r := Ok(f.value.Some?);
    }

    /** findParent(). */
    method FindParent() returns (r: Result<Option<Record>, Error>)
      requires Valid()
      modifies this, cache, path
      ensures Valid()
      ensures var o := ParentFound(Environment(), old(Snapshot()));
        && (o.Err? ==> r.Err? && r.error == o.error && Snapshot() == old(Snapshot()))
        && (o.Ok? ==> r == Ok(o.value.0) && Snapshot() == o.value.1)
    {
      if parent.Some? {
        return Ok(parent);
      }
      var segs := path.Segment();
      if segs == [] || |segs| < 2 {
        return Ok(None);
      }
      var parentPath := Path.Create(ParentPath(segs), url);
      if parentPath.Err? {
        return Err(parentPath.error);
      }
      var env := Environment();
      var pk := parentPath.value.key;
      ghost var s0 := Snapshot();
      assert ParentFound(env, s0) == ParentLookup(env, s0, pk);
      var res, ran := cache.Resolve(CacheKey(env, pk), () => FindByPath(env, pk));
      if ran && res.Ok? {
        parent := res.value;
      }
      r := res;
    }

    /** prepareData(). */
    method PrepareData() returns (err: Option<Error>)
      requires Valid()
      modifies this, cache, path, prefixes
      ensures Valid()
      ensures (err, Snapshot()) == Prepared(Environment(), old(Snapshot()))
    {
      var present := Exists();
      if present.Err? {
        return Some(present.error);
      }
      if present.value {
        data := data["term_id" := Prop(term, "term_id")];
      }
      var slug := GetTermSlug();
      if slug.Err? {
        return Some(slug.error);
      }
      data := data["slug" := OptStr(slug.value)];
      var p := FindParent();
      if p.Err? {
        return Some(p.error);
      }
      if p.value.Some? {
        data := data["parent" := Prop(p.value, "term_id")];
      }
      err := None;
    }

    /** The metadata loop: each entry is written with update_term_meta, in some order (the
        entries are distinct keys, so the order does not change the result). */
    method WriteMetadata(id: Value, entries: map<string, Value>)
      modifies store
      ensures store.termMeta == StoreMeta(old(store.termMeta), id, entries)
      ensures store.writes == old(store.writes)
    {
      var rest := entries.Keys;
      assert entries - rest == map[];
      while rest != {}
        invariant rest <= entries.Keys
        invariant store.writes == old(store.writes)
        invariant store.termMeta == StoreMeta(old(store.termMeta), id, entries - rest)
        decreases rest
      {
        var k :| k in rest;
        StoreMetaStep(old(store.termMeta), id, entries - rest, k, entries[k]);
        assert (entries - rest)[k := entries[k]] == entries - (rest - {k});
        store.UpdateTermMeta(id, k, entries[k]);
        rest := rest - {k};
      }
      assert entries - rest == entries;
    }

    /** The save past prepareData(): the insert or update, the read-back, the metadata
        loop and the memo. */
    method WriteData(reply: Reply) returns (r: Result<Status, Error>)
      requires Valid()
      modifies this, cache, store
      ensures Valid()
      ensures var o := Written(Environment(), old(Snapshot()), reply);
        r == o.status && Snapshot() == o.state && store.writes == old(store.writes) + o.writes
    {
      var name := if "name" in data then data["name"] else Null;
      var present := Exists();
      if present.Err? {
        return Err(present.error);
      }
      store.Issue(TermWrite(Environment(), present.value, term, name, data));
      if reply.Refused? {
        return Ok(Failed);
      }
      term := reply.record;
      if "meta_input" in data {
        WriteMetadata(Prop(term, "term_id"), MetaEntries(data["meta_input"]));
      }
      if "term_id" !in data {
        cache.Put(CacheKey(Environment(), path.key), term);
      }
      r := Ok(if "term_id" in data then Updated else Created);
    }

    /** save(): the store's answer to the write is `reply`. */
    method Save(reply: Reply) returns (r: Result<Status, Error>)
      requires Valid()
      modifies this, cache, path, prefixes, store
      ensures Valid()
      ensures var o := Saved(Environment(), old(Snapshot()), reply);
        r == o.status && Snapshot() == o.state && store.writes == old(store.writes) + o.writes
    {
      var found := Exists();
      if found.Err? {
        return Err(found.error);
      }
      FindStable(Environment(), old(Snapshot()));
      // validateSave()
      if !found.value && "name" !in data {
        return Ok(Failed);
      }
      var again := Exists();
      if again.value && (data == map[] || !Changed(data, term, store.termMeta)) {
        return Ok(Noop);
      }
      var err := PrepareData();
      if err.Some? {
        return Err(err.value);
      }
      r := WriteData(reply);
    }
  }
}
