/**
 * The post engine (Helpers/Post.php): a post addressed by path and type, found through a
 * path-keyed memo shared by every Post, and saved by the validate / no-op / prepare /
 * write / memoise state machine. `Saved` is the state machine as a function of the state
 * before the save and of the store's reply; the Post class is proved against it.
 */
module Posts {
  import opened Wrappers
  import opened Php
  import opened Caching
  import opened Paths
  import opened WordPress
  import opened Engine

  /** validateSave(): a new post needs one of these fields to hold a value PHP takes as true. */
  const Required: set<string> := {"post_title", "post_content", "post_author"}

  /** What a post reads and never changes: its normalised path, its type, the URL parser
      and the store's lookup tables. */
  datatype Env = Env(key: string, postType: string, url: UrlParser, tables: Tables)

  /** What a post's operations change: the held post and parent, the pending fields, and
      the shared memo (bare path -> post or null). */
  datatype State = State(post: Option<Record>, parent: Option<Record>, data: FieldSet, cache: map<string, Option<Record>>)

  /** The status (or exception) of a save, the state after it and the writes it issued. */
  datatype Outcome = Outcome(status: Result<Status, Error>, state: State, writes: seq<Write>)

  /** findByPath(): the configured front page for the root, otherwise the page of this type
      at the path with the type's rewrite prefix stripped. */
  function FindByPath(env: Env, k: string): Option<Record> {
    if k == "/" && env.tables.frontPage.Some? then env.tables.frontPage.value
    else Get(env.tables.pages, (StripPrefix(k, Get(env.tables.postTypeSlugs, env.postType)), env.postType))
  }

  /** find(): the held post; otherwise the memo's answer for the path; otherwise a lookup,
      which is memoised (a miss too) and held. A memo hit does not set the held post. */
  function Found(env: Env, s: State): (r: (Option<Record>, State))
    ensures r.1.data == s.data && r.1.parent == s.parent
  {
    if s.post.Some? then (s.post, s)
    else if env.key in s.cache then (s.cache[env.key], s)
    else
      var found := FindByPath(env, env.key);
      (found, s.(post := found, cache := s.cache[env.key := found]))
  }

  /** A second find() answers the same and changes nothing. */
  lemma FindStable(env: Env, s: State)
    ensures Found(env, Found(env, s).1) == Found(env, s)
  {
  }

  /** find() memoises hit and miss under the bare path; the held post is set only when the
      lookup actually runs, never from a memo hit. */
  lemma FindMemoises(env: Env, s: State)
    requires s.post.None?
    ensures var (r, t) := Found(env, s);
      && env.key in t.cache && t.cache[env.key] == r
      && (env.key !in s.cache ==> r == FindByPath(env, env.key) && t.post == r)
      && (env.key in s.cache ==> t.post == None && t.cache == s.cache)
  {
  }

  /** findParent(): the held parent; a path without segments has none; otherwise the
      segments but the last, joined, make a new Path (for a one-segment or root path that
      is "", which raises) whose key is looked up through the same memo. */
  function ParentFound(env: Env, s: State): (r: Result<(Option<Record>, State), Error>)
    ensures r.Ok? ==> r.value.1.data == s.data && r.value.1.post == s.post
  {
    if s.parent.Some? then Ok((s.parent, s))
    else
      var segs := Segments(env.key);
      if segs == [] then Ok((None, s))
      else match Normalize(ParentPath(segs), env.url)
        case Err(e) => Err(e)
        case Ok(pk) => Ok(ParentLookup(env, s, pk))
  }

  /** The memoised lookup of the parent key pk; a fresh answer is memoised and held as the
      parent. */
  function ParentLookup(env: Env, s: State, pk: string): (r: (Option<Record>, State))
    ensures r.1.data == s.data && r.1.post == s.post
  {
    if pk in s.cache then (s.cache[pk], s)
    else
      var found := FindByPath(env, pk);
      (found, s.(parent := found, cache := s.cache[pk := found]))
  }

  /** hasChangedData(): a field other than meta_input differs from the held post's, or the
      pending metadata differs from the stored metadata. */
  predicate Changed(env: Env, data: FieldSet, held: Option<Record>): (r: bool)
    ensures !r <==>
      && FieldsHeld(data, held, {"meta_input"})
      && ("meta_input" in data && held.Some? ==> MetaStored(data, held, "ID", env.tables.postMeta))
  {
    DiffersExcept(data, held, {"meta_input"}) || MetaChanged(data, held, "ID", env.tables.postMeta)
  }

  /** The first steps of preparePostData(): the held post's ID when the post exists, the
      last path segment as post_name, the type as post_type. */
  function Stamp(env: Env, data: FieldSet, found: Option<Record>, held: Option<Record>): FieldSet {
    var withId := if found.Some? then data["ID" := Prop(held, "ID")] else data;
    withId["post_name" := OptStr(Last(Segments(env.key)))]["post_type" := Str(env.postType)]
  }

  /** ($parent)?->ID ?? 0. */
  function ParentId(parent: Option<Record>): Value {
    if Prop(parent, "ID") == Null then Int(0) else Prop(parent, "ID")
  }

  /** preparePostData(): the stamped fields, then post_parent from the parent lookup; when
      that lookup raises, the stamped fields stay pending. */
  function Prepared(env: Env, s: State): (Option<Error>, State) {
    var (found, s1) := Found(env, s);
    var s2 := s1.(data := Stamp(env, s1.data, found, s1.post));
    match ParentFound(env, s2)
    case Err(e) => (Some(e), s2)
    case Ok((p, s3)) => (None, s3.(data := s3.data["post_parent" := ParentId(p)]))
  }

  /** What follows the write: a refusal is FAILED; otherwise the post read back is held,
      memoised under the path when no ID was sent, and the status says which happened. */
  function Persisted(env: Env, s: State, reply: Reply): (Status, State) {
    if reply.Refused? then (Failed, s)
    else if "ID" in s.data then (Updated, s.(post := reply.record))
    else (Created, s.(post := reply.record, cache := s.cache[env.key := reply.record]))
  }

  /** save(): the status or exception, the state after it and the at most one insert
      call it issues, which only a completed prepare reaches. */
  function Saved(env: Env, s0: State, reply: Reply): (o: Outcome)
    ensures o.status != Ok(Skipped)
    ensures |o.writes| <= 1 && (o.writes != [] ==> o.writes[0].InsertPost?)
    ensures o.writes != [] ==> o.status == Ok(Created) || o.status == Ok(Updated) || o.status == Ok(Failed)
    ensures o.status.Err? || o.status == Ok(Noop) ==> o.writes == []
  {
    var (found, s1) := Found(env, s0);
    if found.None? && !HasTruthyField(s1.data, Required) then Outcome(Ok(Failed), s1, [])
    else if found.Some? && (s1.data == map[] || !Changed(env, s1.data, s1.post)) then Outcome(Ok(Noop), s1, [])
    else
      var (err, s2) := Prepared(env, s1);
      if err.Some? then Outcome(Err(err.value), s2, [])
      else
        var (status, s3) := Persisted(env, s2, reply);
        Outcome(Ok(status), s3, [InsertPost(s2.data)])
  }

  /** A post that does not exist and has no required field is not saved. */
  lemma SaveFailsWithoutRequired(env: Env, s0: State, reply: Reply)
    requires Found(env, s0).0.None? && !HasTruthyField(s0.data, Required)
    ensures Saved(env, s0, reply) == Outcome(Ok(Failed), Found(env, s0).1, [])
  {
  }

  /** NOOP exactly when the post exists and nothing is pending or nothing changed; a no-op
      writes nothing and leaves the fields as they were. */
  lemma SaveNoopIff(env: Env, s0: State, reply: Reply)
    ensures var o := Saved(env, s0, reply); var (found, s1) := Found(env, s0);
      && (o.status == Ok(Noop) <==> found.Some? && (s1.data == map[] || !Changed(env, s1.data, s1.post)))
      && (o.status == Ok(Noop) ==> o.writes == [] && o.state == s1 && o.state.data == s0.data)
  {
  }

  /** The one write of a save carries the pending fields plus ID (only when the post
      exists, read from the held post), post_name, post_type and post_parent (the found
      parent's ID, or 0). */
  lemma {:induction false} SaveWriteFields(env: Env, s0: State, reply: Reply)
    ensures var o := Saved(env, s0, reply); var (found, s1) := Found(env, s0);
      o.writes != [] ==>
        && |o.writes| == 1 && o.writes[0].InsertPost?
        && var sent := o.writes[0].postarr;
        && sent.Keys == s0.data.Keys + {"post_name", "post_type", "post_parent"} + (if found.Some? then {"ID"} else {})
        && (forall k :: k in s0.data && k !in {"ID", "post_name", "post_type", "post_parent"} ==> sent[k] == s0.data[k])
        && (found.Some? ==> sent["ID"] == Prop(s1.post, "ID"))
        && sent["post_name"] == OptStr(Last(Segments(env.key)))
        && sent["post_type"] == Str(env.postType)
        && var parent := ParentFound(env, s1.(data := Stamp(env, s1.data, found, s1.post)));
        && parent.Ok? && sent["post_parent"] == ParentId(parent.value.0)
  {
    var (found, s1) := Found(env, s0);
    FindStable(env, s0);
    var o := Saved(env, s0, reply);
    if o.writes != [] {
      var s2 := s1.(data := Stamp(env, s1.data, found, s1.post));
      var parent := ParentFound(env, s2);
      assert parent.Ok?;
      assert o.writes == [InsertPost(s2.data["post_parent" := ParentId(parent.value.0)])];
      StampedFields(env, s0.data, found, s1.post, ParentId(parent.value.0));
    }
  }

  /** The stamped fields with post_parent set: the pending ones, post_name, post_type,
      post_parent, and ID when the post was found. */
  lemma StampedFields(env: Env, data: FieldSet, found: Option<Record>, held: Option<Record>, parentId: Value)
    ensures var sent := Stamp(env, data, found, held)["post_parent" := parentId];
      && sent.Keys == data.Keys + {"post_name", "post_type", "post_parent"} + (if found.Some? then {"ID"} else {})
      && (forall k :: k in data && k !in {"ID", "post_name", "post_type", "post_parent"} ==> sent[k] == data[k])
      && (found.Some? ==> sent["ID"] == Prop(held, "ID"))
      && sent["post_name"] == OptStr(Last(Segments(env.key)))
      && sent["post_type"] == Str(env.postType)
      && sent["post_parent"] == parentId
  {
  }

  /** After the write: a refusal is FAILED; otherwise the status is UPDATED exactly when
      the write carried an ID and CREATED otherwise, the post read back is held, and on
      create it is memoised under the path. */
  lemma SaveStatusAfterWrite(env: Env, s0: State, reply: Reply)
    ensures var o := Saved(env, s0, reply);
      o.writes != [] ==>
        && (reply.Refused? ==> o.status == Ok(Failed))
        && (reply.Stored? ==>
              && o.state.post == reply.record
              && (o.status == Ok(Updated) <==> "ID" in o.writes[0].postarr)
              && (o.status == Ok(Created) <==> "ID" !in o.writes[0].postarr)
              && (o.status == Ok(Created) ==> env.key in o.state.cache && o.state.cache[env.key] == reply.record))
  {
  }

  /** Replaying a row in a fresh run, against the post it created, is a no-op: when the
      lookup finds a post holding every pending field and the pending metadata as first
      stored values, nothing is written. */
  lemma {:induction false} ReplayIsNoop(env: Env, s0: State, reply: Reply, rec: Record)
    requires s0.post.None? && env.key !in s0.cache
    requires FindByPath(env, env.key) == Some(rec)
    requires forall k :: k in s0.data && k != "meta_input" ==> k in rec && rec[k] == s0.data[k]
    requires forall k :: k in PendingMeta(s0.data) ==>
      var stored := MetaAt(env.tables.postMeta, Prop(Some(rec), "ID"));
      k in stored && |stored[k]| > 0 && stored[k][0] == PendingMeta(s0.data)[k]
    ensures Saved(env, s0, reply).status == Ok(Noop) && Saved(env, s0, reply).writes == []
  {
    StoredMetaIsUnchanged(s0.data, Some(rec), "ID", env.tables.postMeta);
  }

  /** Within one run a memo hit leaves the held post null, so a pending non-null field
      always counts as changed and the write goes out with a null ID. */
  lemma {:induction false} MemoHitRewrites(env: Env, s0: State, reply: Reply, k: string)
    requires s0.post.None? && env.key in s0.cache && s0.cache[env.key].Some?
    requires k in s0.data && k != "meta_input" && s0.data[k] != Null
    ensures Saved(env, s0, reply).status != Ok(Noop)
    ensures var o := Saved(env, s0, reply); o.writes != [] ==> o.writes[0].postarr["ID"] == Null
  {
    assert Prop(None, k) != s0.data[k];
  }

  /** A post whose path has one segment (or is the root) cannot be saved once it must be
      written: the parent lookup builds an empty path and raises, and nothing is written. */
  lemma TopLevelSaveRaises(env: Env, s0: State, reply: Reply)
    requires |Segments(env.key)| == 1 && !env.url.isUrl("")
    requires s0.parent.None?
    requires var (found, s1) := Found(env, s0);
      (found.Some? || HasTruthyField(s1.data, Required)) && !(found.Some? && (s1.data == map[] || !Changed(env, s1.data, s1.post)))
    ensures Saved(env, s0, reply).status.Err? && Saved(env, s0, reply).status.error.InvalidArgument?
    ensures Saved(env, s0, reply).writes == []
  {
  }

  /** Helpers/Post.php's class. */
  class Post {
    const path: Path
    const postType: string
    const url: UrlParser
    /** The class-wide memo, shared by every Post. */
    const cache: Cache<Record>
    const store: Store
    var post: Option<Record>
    var parent: Option<Record>
    var data: FieldSet

    ghost predicate Valid()
      reads this, path
    {
      path.Valid()
    }

    function Environment(): Env {
      Env(path.key, postType, url, store.tables)
    }

    ghost function Snapshot(): State
      reads this, cache
    {
      State(post, parent, data, cache.entries)
    }

    constructor (path: Path, postType: string, url: UrlParser, cache: Cache<Record>, store: Store)
      requires path.Valid()
      ensures Valid() && this.path == path && this.postType == postType && this.url == url
      ensures this.cache == cache && this.store == store
      ensures post == None && parent == None && data == map[]
    {
      this.path := path;
      this.postType := postType;
      this.url := url;
      this.cache := cache;
      this.store := store;
      post := None;
      parent := None;
      data := map[];
    }

    /** new Post($path, $type): the path's InvalidArgumentException, or a post with no
        fields pending. */
    static method Create(raw: string, postType: string, url: UrlParser, cache: Cache<Record>, store: Store)
      returns (r: Result<Post, Error>)
      ensures Normalize(raw, url).Err? ==> r.Err? && r.error == Normalize(raw, url).error
      ensures Normalize(raw, url).Ok? ==>
        && r.Ok? && fresh(r.value) && fresh(r.value.path) && r.value.Valid()
        && r.value.Environment() == Env(Normalize(raw, url).value, postType, url, store.tables)
        && r.value.cache == cache && r.value.store == store
        && r.value.post == None && r.value.parent == None && r.value.data == map[]
    {
      var p := Path.Create(raw, url);
      if p.Err? {
        return Err(p.error);
      }
      var created := new Post(p.value, postType, url, cache, store);
      r := Ok(created);
    }

    /** set(): merges fields in, the later value winning per key. */
    method Set(fields: FieldSet)
      modifies this
      ensures data == Merge(old(data), fields) && post == old(post) && parent == old(parent)
    {
      data := Merge(data, fields);
    }

    /** setMetadata(). */
    method SetMetadata(meta: map<string, Value>)
      modifies this
      ensures data == WithMetadata(old(data), meta) && post == old(post) && parent == old(parent)
    {
      data := WithMetadata(data, meta);
    }

    /** setSeo(): the plugin's SEO metadata is merged in, or the RuntimeException is raised
        and nothing changes. */
    method SetSeo(plugin: SeoPlugin, title: string, description: string, focusKeyword: Option<string>)
      returns (err: Option<Error>)
      modifies this
      ensures var m := SeoMeta(plugin, title, description, focusKeyword);
        && (m.Err? ==> err == Some(m.error) && data == old(data))
        && (m.Ok? ==> err == None && data == WithMetadata(old(data), m.value))
      ensures post == old(post) && parent == old(parent)
    {
      var m := SeoMeta(plugin, title, description, focusKeyword);
      if m.Err? {
        return Some(m.error);
      }
      data := WithMetadata(data, m.value);
      err := None;
    }

    /** find(). */
    method Find() returns (r: Option<Record>)
      requires Valid()
      modifies this, cache
      ensures Valid()
      ensures (r, Snapshot()) == Found(Environment(), old(Snapshot()))
    {
      if post.Some? {
        return post;
      }
      var env := Environment();
      var k := path.key;
      var res, ran := cache.Resolve(k, () => Ok(FindByPath(env, k)));
      r := res.value;
      if ran {
        post := r;
      }
    }

    /** exists(). */
    method Exists() returns (b: bool)
      requires Valid()
      modifies this, cache
      ensures Valid()
      ensures b == Found(Environment(), old(Snapshot())).0.Some?
      ensures Snapshot() == Found(Environment(), old(Snapshot())).1
    {
      var r := Find();
      b := r.Some?;
    }

    /** findParent(). */
    method FindParent() returns (r: Result<Option<Record>, Error>)
      requires Valid()
      modifies this, cache, path
      ensures Valid()
      ensures var o := ParentFound(Environment(), old(Snapshot()));
        && (o.Err? ==> r.Err? && r.error == o.error && Snapshot() == old(Snapshot()))
        && (o.Ok? ==> r == Ok(o.value.0) && Snapshot() == o.value.1)
    {
      if parent.Some? {
        return Ok(parent);
      }
      var env := Environment();
      ghost var s0 := Snapshot();
      var segs := path.Segment();
      assert Snapshot() == s0;
      if segs == [] {
        return Ok(None);
      }
      var parentPath := Path.Create(ParentPath(segs), url);
      if parentPath.Err? {
        return Err(parentPath.error);
      }
      var pk := parentPath.value.key;
      assert ParentFound(env, s0) == Ok(ParentLookup(env, s0, pk));
      var res, ran := cache.Resolve(pk, () => Ok(FindByPath(env, pk)));
      if ran {
        parent := res.value;
      }
      r := Ok(res.value);
    }

    /** preparePostData(). */
    method PreparePostData() returns (err: Option<Error>)
      requires Valid()
      modifies this, cache, path
      ensures Valid()
      ensures (err, Snapshot()) == Prepared(Environment(), old(Snapshot()))
    {
      var present := Exists();
      if present {
        data := data["ID" := Prop(post, "ID")];
      }
      var segs := path.Segment();
      data := data["post_name" := OptStr(Last(segs))];
      data := data["post_type" := Str(postType)];
      var p := FindParent();
      if p.Err? {
        return Some(p.error);
      }
      data := data["post_parent" := ParentId(p.value)];
      err := None;
    }

    /** save(): the store's answer to the write is `reply`. */
    method Save(reply: Reply) returns (r: Result<Status, Error>)
      requires Valid()
      modifies this, cache, path, store
      ensures Valid()
      ensures var o := Saved(Environment(), old(Snapshot()), reply);
        && r == o.status && Snapshot() == o.state
        && store.writes == old(store.writes) + o.writes && store.termMeta == old(store.termMeta)
    {
      ghost var env, s0 := Environment(), Snapshot();
      FindStable(env, s0);
      // validateSave()
      var found := Exists();
      ghost var s1 := Snapshot();
      if !found && !HasTruthyField(data, Required) {
        return Ok(Failed);
      }
      var present := Exists();
      assert Snapshot() == s1;
      if present && (data == map[] || !Changed(Environment(), data, post)) {
        return Ok(Noop);
      }
      var err := PreparePostData();
      if err.Some? {
        return Err(err.value);
      }
      assert Prepared(env, s1) == (None, Snapshot());
      var status := Persist(reply);
      r := Ok(status);
    }

    /** The write and what follows it: wp_insert_post with the prepared fields, then the
        read-back post, memoised under the path on create. */
    method Persist(reply: Reply) returns (status: Status)
      requires Valid()
      modifies this, cache, store
      ensures Valid()
      ensures (status, Snapshot()) == Persisted(Environment(), old(Snapshot()), reply)
      ensures store.writes == old(store.writes) + [InsertPost(old(data))] && store.termMeta == old(store.termMeta)
    {
      store.Issue(InsertPost(data));
      if reply.Refused? {
        return Failed;
      }
      post := reply.record;
      if "ID" !in data {
        cache.Put(path.key, post);
      }
      status := if "ID" in data then Updated else Created;
    }
  }
}
