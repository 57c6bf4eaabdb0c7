/**
 * The user engine (Helpers/User.php): a user addressed by login, found through a memo
 * keyed by login shared by every User, changed-data detection that also compares the
 * role against the user's roles, the social profile metadata of the SEO plugins, and the
 * validate / no-op / prepare / write / memoise save.
 */
module Users {
  import opened Wrappers
  import opened Php
  import opened OrderedMap
  import opened Caching
  import opened Paths
  import opened WordPress
  import opened Engine

  /** validateSave(): one of these must hold a value PHP takes as true for a new user. */
  const Required: set<string> := {"user_login", "user_email", "role"}

  /** hasChangedData() compares every field but these ones property by property. */
  const NotCompared: set<string> := {"meta_input", "role"}

  /** The TypeError in_array() raises when the held user has no roles array. */
  const RolesNotArray: string := "in_array(): Argument #2 ($haystack) must be of type array"

  /** What a user reads and never changes: its trimmed login and WordPress's tables. */
  datatype Env = Env(login: string, tables: Tables)

  /** What a user's operations change: the held user, the pending fields and the shared
      memo (login -> user or null). */
  datatype State = State(user: Option<Record>, data: FieldSet, cache: map<string, Option<Record>>)

  datatype Outcome = Outcome(status: Result<Status, Error>, state: State, writes: seq<Write>)

  /** get_user_by('login', $login) ?: null. */
  function FindByLogin(env: Env): Option<Record> {
    Get(env.tables.users, env.login)
  }

  /** find(): the held user; otherwise the memo's answer; otherwise a lookup, memoised (a
      miss too) and held. A memo hit does not set the held user. */
  function Found(env: Env, s: State): (r: (Option<Record>, State))
    ensures r.1.data == s.data
    ensures r.1.user.Some? || env.login in r.1.cache
  {
    if s.user.Some? then (s.user, s)
    else if env.login in s.cache then (s.cache[env.login], s)
    else (FindByLogin(env), s.(user := FindByLogin(env), cache := s.cache[env.login := FindByLogin(env)]))
  }

  /** A second find() answers as the first and changes nothing further. */
  lemma FindStable(env: Env, s: State)
    ensures Found(env, Found(env, s).1) == Found(env, s)
  {
  }

  /** find() memoises hit and miss under the login; the held user is set only when the
      lookup actually runs, never from a memo hit. */
  lemma FindMemoises(env: Env, s: State)
    requires s.user.None?
    ensures var (r, t) := Found(env, s);
      && env.login in t.cache && t.cache[env.login] == r
      && (env.login !in s.cache ==> r == FindByLogin(env) && t.user == r)
      && (env.login in s.cache ==> t.user == None && t.cache == s.cache)
  {
  }

  /** hasChangedData(): a compared field differs from the held user's property; or, failing
      that, the pending role (null when none) is not among the held user's roles, which
      raises when there is no roles array to look in; or the metadata differs. */
  function Changed(data: FieldSet, held: Option<Record>, meta: MetaTable): (r: Result<bool, Error>)
    ensures r.Err? <==> FieldsHeld(data, held, NotCompared) && !Prop(held, "roles").Arr?
    ensures r.Err? ==> r.error == TypeError(RolesNotArray)
    ensures Prop(held, "roles").Arr? ==> r.Ok? && (r.value == false <==>
      && FieldsHeld(data, held, NotCompared)
      && PendingRole(data) in Prop(held, "roles").items.Values
      && ("meta_input" in data ==> MetaStored(data, held, "ID", meta)))
  {
    if DiffersExcept(data, held, NotCompared) then Ok(true)
    else
      var roles := Prop(held, "roles");
      if !roles.Arr? then Err(TypeError(RolesNotArray))
      else
        Ok(PendingRole(data) !in roles.items.Values || MetaChanged(data, held, "ID", meta))
  }

  /** $this->data->get('role'): null when no role is pending. */
  function PendingRole(data: FieldSet): Value {
    if "role" in data then data["role"] else Null
  }

  /** Whether save() stops with NOOP: only for a found user, always when nothing is
      pending, otherwise when nothing changed; the change check may raise. */
  function IsNoop(found: Option<Record>, s: State, meta: MetaTable): Result<bool, Error> {
    if found.None? then Ok(false)
    else if s.data == map[] then Ok(true)
    else match Changed(s.data, s.user, meta)
      case Err(e) => Err(e)
      case Ok(c) => Ok(!c)
  }

  /** prepareData(): the held user's ID when the user exists, a generated password
      otherwise, and the login always. */
  function Prepared(env: Env, s: State, password: string): State {
    var (found, s1) := Found(env, s);
    var d := if found.Some? then s1.data["ID" := Prop(s1.user, "ID")] else s1.data["user_pass" := Str(password)];
    s1.(data := d["user_login" := Str(env.login)])
  }

  /** What follows wp_insert_user: a refusal is FAILED; otherwise the user read back is
      held, memoised on create, and the status says which happened. */
  function Persisted(env: Env, s: State, reply: Reply): (Status, State) {
    if reply.Refused? then (Failed, s)
    else
      var s1 := s.(user := reply.record);
      if "ID" in s.data then (Updated, s1)
      else (Created, s1.(cache := s1.cache[env.login := reply.record]))
  }

  /** save(): `password` is what wp_generate_password() returns, `reply` the store's answer.
      At most one insert call is issued, and only once the checks have passed. */
  function Saved(env: Env, s0: State, password: string, reply: Reply): (o: Outcome)
    ensures o.status != Ok(Skipped)
    ensures |o.writes| <= 1 && (o.writes != [] ==> o.writes[0].InsertUser?)
    ensures o.writes != [] ==> o.status == Ok(Created) || o.status == Ok(Updated) || o.status == Ok(Failed)
    ensures o.status.Err? || o.status == Ok(Noop) ==> o.writes == []
  {
    var (found, s1) := Found(env, s0);
    if found.None? && !HasTruthyField(s1.data, Required) then Outcome(Ok(Failed), s1, [])
    else match IsNoop(found, s1, env.tables.userMeta)
      case Err(e) => Outcome(Err(e), s1, [])
      case Ok(true) => Outcome(Ok(Noop), s1, [])
      case Ok(false) =>
        var s2 := Prepared(env, s1, password);
        var (status, s3) := Persisted(env, s2, reply);
        Outcome(Ok(status), s3, [InsertUser(s2.data)])
  }

  /** A user that does not exist and has no required field PHP takes as true is not saved. */
  lemma SaveFailsWithoutRequired(env: Env, s0: State, password: string, reply: Reply)
    requires Found(env, s0).0.None? && !HasTruthyField(s0.data, Required)
    ensures Saved(env, s0, password, reply) == Outcome(Ok(Failed), Found(env, s0).1, [])
  {
  }

  /** NOOP exactly when the user exists and nothing is pending or nothing changed; a no-op
      writes nothing. */
  lemma SaveNoopIff(env: Env, s0: State, password: string, reply: Reply)
    ensures var o := Saved(env, s0, password, reply); var (found, s1) := Found(env, s0);
      && (o.status == Ok(Noop) <==>
            found.Some? && (s1.data == map[] || Changed(s1.data, s1.user, env.tables.userMeta) == Ok(false)))
      && (o.status == Ok(Noop) ==> o.writes == [] && o.state == s1)
  {
  }

  /** Pending fields the held user already has, a role among its roles and metadata that is
      already stored change nothing. */
  lemma {:induction false} ReplayIsUnchanged(data: FieldSet, held: Record, meta: MetaTable)
    requires forall k :: k in data && k !in NotCompared ==> k in held && held[k] == data[k]
    requires "roles" in held && held["roles"].Arr?
    requires "role" in data && data["role"] in held["roles"].items.Values
    requires forall k :: k in PendingMeta(data) ==>
      var stored := MetaAt(meta, Prop(Some(held), "ID"));
      k in stored && |stored[k]| > 0 && stored[k][0] == PendingMeta(data)[k]
    ensures Changed(data, Some(held), meta) == Ok(false)
  {
    StoredMetaIsUnchanged(data, Some(held), "ID", meta);
  }

  /** A memo hit leaves the held user null: a user with nothing pending but a role then
      raises the TypeError instead of saving. */
  lemma MemoHitRaises(env: Env, s0: State, password: string, reply: Reply)
    requires s0.user.None? && env.login in s0.cache && s0.cache[env.login].Some?
    requires s0.data != map[] && s0.data.Keys <= NotCompared
    ensures Saved(env, s0, password, reply).status == Err(TypeError(RolesNotArray))
  {
  }

  /** The one write of a save: every pending field, with the held user's ID when it
      exists, the generated password when it does not, and the trimmed login. */
  lemma SaveWrite(env: Env, s0: State, password: string, reply: Reply)
    ensures var o := Saved(env, s0, password, reply); var (found, s1) := Found(env, s0);
      o.writes != [] ==>
        && |o.writes| == 1 && o.writes[0].InsertUser?
        && var args := o.writes[0].userdata;
        && "user_login" in args && args["user_login"] == Str(env.login)
        && (found.Some? ==> "ID" in args && args["ID"] == Prop(s1.user, "ID"))
        && (found.None? ==> "user_pass" in args && args["user_pass"] == Str(password))
        && (forall k :: k in s1.data && k !in {"ID", "user_pass", "user_login"} ==> k in args && args[k] == s1.data[k])
  {
    FindStable(env, s0);
  }

  /** After a write: a refusal is FAILED; otherwise the read-back user is held, the status
      is UPDATED exactly when an ID was sent, and a created user is memoised by login. */
  lemma SaveStatusAfterWrite(env: Env, s0: State, password: string, reply: Reply)
    ensures var o := Saved(env, s0, password, reply);
      o.writes != [] ==>
        && (reply.Refused? ==> o.status == Ok(Failed))
        && (reply.Stored? ==>
              && o.state.user == reply.record
              && (o.status == Ok(Updated) <==> "ID" in o.writes[0].userdata)
              && (o.status == Ok(Created) <==> "ID" !in o.writes[0].userdata)
              && (o.status == Ok(Created) ==> o.state.cache[env.login] == reply.record))
  {
  }

  /** str_replace($c, '', $s): s with every c removed. */
  function Without(s: string, c: char): (r: string)
    ensures c !in r
    ensures |r| <= |s|
    ensures c !in s ==> r == s
  {
    if s == [] then []
    else (if s[0] == c then [] else [s[0]]) + Without(s[1..], c)
  }

  /** The networks Rank Math gathers into one space-separated list. */
  const Additional: set<string> := {"instagram", "linkedin", "youtube"}

  /** $profiles->only([...])->filter()->values(): the true-valued profiles of those
      networks, in profile order. */
  function AdditionalUrls(keys: seq<string>, items: map<string, string>): (r: seq<string>)
    ensures forall i :: 0 <= i < |r| ==> TruthyString(r[i])
    ensures forall k :: k in keys && k in Additional && k in items && TruthyString(items[k]) ==> items[k] in r
  {
    if keys == [] then []
    else
      var rest := AdditionalUrls(keys[1..], items);
      var k := keys[0];
      assert forall j :: j in keys[1..] ==> j in keys;
      if k in Additional && k in items && TruthyString(items[k]) then [items[k]] + rest else rest
  }

  /** Every gathered URL is the profile of one of those networks: the network is returned. */
  lemma {:induction false} AdditionalUrlSource(keys: seq<string>, items: map<string, string>, i: nat)
    returns (k: string)
    requires i < |AdditionalUrls(keys, items)|
    ensures k in keys && k in Additional && k in items && items[k] == AdditionalUrls(keys, items)[i]
    decreases |keys|
  {
    var head := keys[0];
    if head in Additional && head in items && TruthyString(items[head]) {
      if i == 0 {
        k := head;
      } else {
        k := AdditionalUrlSource(keys[1..], items, i - 1);
      }
    } else {
      k := AdditionalUrlSource(keys[1..], items, i);
    }
    assert k in keys[1..] ==> k in keys;
  }

  /** $profiles->get($k), null when missing. */
  function ProfileValue(profiles: OMap<string>, k: string): Value {
    if k in profiles.items then Str(profiles.items[k]) else Null
  }

  /** Rank Math: facebook, twitter and the joined additional profiles, the ones PHP takes
      as false left out. */
  function RankMathSocial(profiles: OMap<string>): (r: map<string, Value>)
    ensures r.Keys <= {"facebook", "twitter", "additional_profile_urls"}
    ensures forall k :: k in r ==> Truthy(r[k])
    ensures ("facebook" in r <==> Truthy(ProfileValue(profiles, "facebook")))
            && ("facebook" in r ==> r["facebook"] == ProfileValue(profiles, "facebook"))
    ensures ("twitter" in r <==> Truthy(ProfileValue(profiles, "twitter")))
            && ("twitter" in r ==> r["twitter"] == ProfileValue(profiles, "twitter"))
    ensures "additional_profile_urls" in r ==>
      r["additional_profile_urls"] == Str(Join(AdditionalUrls(profiles.keys, profiles.items), ' '))
  {
    KeepTruthy(map[
      "facebook" := ProfileValue(profiles, "facebook"),
      "twitter" := ProfileValue(profiles, "twitter"),
      "additional_profile_urls" := Str(Join(AdditionalUrls(profiles.keys, profiles.items), ' '))])
  }

  /** The networks Yoast stores. */
  const Networks: set<string> := {"facebook", "twitter", "instagram", "linkedin", "youtube"}

  /** The Yoast key of a known network: its mapped name behind the "wpseo_" prefix. */
  function YoastKey(network: string): string {
    if network == "facebook" then "wpseo_facebook"
    else if network == "twitter" then "wpseo_twitter"
    else if network == "instagram" then "wpseo_instagram_url"
    else if network == "linkedin" then "wpseo_linkedin"
    else "wpseo_youtube_url"
  }

  /** The TypeError str_replace() raises, under strict types, when parse_url() gives false. */
  const SubjectNotString: string := "str_replace(): Argument #3 ($subject) must be of type array|string, bool given"

  /** The Yoast value of a profile: the twitter handle is the URL's path without '@' (empty
      when parse_url finds no path; a URL it cannot parse gives false, which str_replace
      refuses), any other URL is kept as it is. */
  function YoastValue(url: UrlParser, network: string, profile: string): (r: Result<string, Error>)
    ensures r.Err? <==> network == "twitter" && url.pathOf(profile).Malformed?
    ensures r.Err? ==> r.error == TypeError(SubjectNotString)
    ensures network != "twitter" ==> r == Ok(profile)
    ensures r.Ok? && network == "twitter" ==> '@' !in r.value
  {
    if network != "twitter" then Ok(profile)
    else match url.pathOf(profile)
      case UrlPath(p) => Ok(Without(p, '@'))
      case NoPath => Ok("")
      case Malformed => Err(TypeError(SubjectNotString))
  }

  /** The keys Yoast's social metadata can have. */
  const YoastKeys: set<string> :=
    {"wpseo_facebook", "wpseo_twitter", "wpseo_instagram_url", "wpseo_linkedin", "wpseo_youtube_url"}

  /** The network a Yoast key is for. */
  function NetworkOf(key: string): (n: string)
    ensures key in YoastKeys ==> n in Networks && YoastKey(n) == key
  {
    if key == "wpseo_facebook" then "facebook"
    else if key == "wpseo_twitter" then "twitter"
    else if key == "wpseo_instagram_url" then "instagram"
    else if key == "wpseo_linkedin" then "linkedin"
    else "youtube"
  }

  /** Whether the Yoast mapping raises: only the twitter profile is parsed, so only a
      twitter URL parse_url cannot parse does. */
  predicate YoastRaises(url: UrlParser, profiles: OMap<string>) {
    "twitter" in profiles.items && url.pathOf(profiles.items["twitter"]).Malformed?
  }

  /** Yoast: each known network present in the profiles under its own key with its mapped
      value, empty values kept, other networks dropped; or the TypeError of the twitter
      mapping. */
  function YoastSocial(url: UrlParser, profiles: OMap<string>): (r: Result<map<string, Value>, Error>)
    ensures r.Err? <==> YoastRaises(url, profiles)
    ensures r.Err? ==> r.error == TypeError(SubjectNotString)
    ensures r.Ok? ==> r.value.Keys <= YoastKeys
    ensures r.Ok? ==> forall n :: n in Networks ==> (YoastKey(n) in r.value <==> n in profiles.items)
    ensures r.Ok? ==> forall n :: n in Networks && n in profiles.items ==>
      YoastValue(url, n, profiles.items[n]).Ok? && r.value[YoastKey(n)] == Str(YoastValue(url, n, profiles.items[n]).value)
  {
    if YoastRaises(url, profiles) then Err(TypeError(SubjectNotString))
    else
      var m := map k | k in YoastKeys && NetworkOf(k) in profiles.items ::
        Str(YoastValue(url, NetworkOf(k), profiles.items[NetworkOf(k)]).value);
      assert forall n :: n in Networks ==> YoastKey(n) in YoastKeys && NetworkOf(YoastKey(n)) == n;
      Ok(m)
  }

  /** The metadata setSocialProfiles() merges in for non-empty profiles: the installed
      plugin's mapping; with no plugin the RuntimeException, and with Yoast the TypeError of
      a twitter URL parse_url cannot parse. */
  function SocialMeta(plugin: SeoPlugin, url: UrlParser, profiles: OMap<string>): (r: Result<map<string, Value>, Error>)
    ensures r.Err? <==> plugin == NoSeoPlugin || (plugin == Yoast && YoastRaises(url, profiles))
    ensures plugin == NoSeoPlugin ==> r == Err(RuntimeError(NoPluginMessage))
    ensures plugin == Yoast && r.Err? ==> r.error == TypeError(SubjectNotString)
  {
    match plugin
    case RankMath => Ok(RankMathSocial(profiles))
    case Yoast => YoastSocial(url, profiles)
    case NoSeoPlugin => Err(RuntimeError(NoPluginMessage))
  }

  /** The twitter handle Yoast stores has no '@' in it. */
  lemma YoastTwitterHasNoAt(url: UrlParser, profiles: OMap<string>)
    requires "twitter" in profiles.items && YoastSocial(url, profiles).Ok?
    ensures "wpseo_twitter" in YoastSocial(url, profiles).value
    ensures YoastSocial(url, profiles).value["wpseo_twitter"].Str?
    ensures '@' !in YoastSocial(url, profiles).value["wpseo_twitter"].s
  {
    assert "twitter" in Networks && YoastKey("twitter") == "wpseo_twitter";
  }

  /** Helpers/User.php's class. */
  class User {
    /** The trimmed login. */
    const login: string
    /** The class-wide memo, shared by every User. */
    const cache: Cache<Record>
    const store: Store
    var user: Option<Record>
    var data: FieldSet

    function Environment(): Env {
      Env(login, store.tables)
    }

    ghost function Snapshot(): State
      reads this, cache
    {
      State(user, data, cache.entries)
    }

    /** new User($login): the login without surrounding whitespace, nothing pending. */
    constructor (raw: string, cache: Cache<Record>, store: Store)
      ensures login == Trim(raw, Whitespace) && this.cache == cache && this.store == store
      ensures user == None && data == map[]
    {
      login := Trim(raw, Whitespace);
      this.cache := cache;
      this.store := store;
      user := None;
      data := map[];
    }

    /** set(): merges fields in, the later value winning per key. */
    method Set(fields: FieldSet)
      modifies this
      ensures data == Merge(old(data), fields) && user == old(user)
    {
      data := Merge(data, fields);
    }

    /** setMetadata(). */
    method SetMetadata(meta: map<string, Value>)
      modifies this
      ensures data == WithMetadata(old(data), meta) && user == old(user)
    {
      data := WithMetadata(data, meta);
    }

    /** setSeo(): the plugin's SEO metadata is merged in, or the RuntimeException is raised
        and nothing changes. */
    method SetSeo(plugin: SeoPlugin, title: string, description: string, focusKeyword: Option<string>)
      returns (err: Option<Error>)
      modifies this
      ensures var m := SeoMeta(plugin, title, description, focusKeyword);
        && (m.Err? ==> err == Some(m.error) && data == old(data))
        && (m.Ok? ==> err == None && data == WithMetadata(old(data), m.value))
      ensures user == old(user)
    {
      var m := SeoMeta(plugin, title, description, focusKeyword);
      if m.Err? {
        return Some(m.error);
      }
      data := WithMetadata(data, m.value);
      err := None;
    }

    /** setSocialProfiles(): empty profiles change nothing and never raise; otherwise the
        plugin's social metadata is merged in, or the RuntimeException is raised. */
    method SetSocialProfiles(plugin: SeoPlugin, url: UrlParser, profiles: OMap<string>) returns (err: Option<Error>)
      modifies this
      ensures profiles.items == map[] ==> err == None && data == old(data)
      ensures profiles.items != map[] ==> var m := SocialMeta(plugin, url, profiles);
        && (m.Err? ==> err == Some(m.error) && data == old(data))
        && (m.Ok? ==> err == None && data == WithMetadata(old(data), m.value))
      ensures user == old(user)
    {
      if profiles.items == map[] {
        return None;
      }
      var m := SocialMeta(plugin, url, profiles);
      if m.Err? {
        return Some(m.error);
      }
      data := WithMetadata(data, m.value);
      err := None;
    }

    /** find(). */
    method Find() returns (r: Option<Record>)
      modifies this, cache
      ensures (r, Snapshot()) == Found(Environment(), old(Snapshot()))
    {
      if user.Some? {
        return user;
      }
      var env := Environment();
      var res, ran := cache.Resolve(login, () => Ok(FindByLogin(env)));
      r := res.value;
      if ran {
        user := r;
      }
    }

    /** exists(). */
    method Exists() returns (b: bool)
      modifies this, cache
      ensures b == Found(Environment(), old(Snapshot())).0.Some?
      ensures Snapshot() == Found(Environment(), old(Snapshot())).1
    {
      var r := Find();
      b := r.Some?;
    }

    /** hasChangedData(): raises exactly when no compared field differs and the held user
        has no roles array; with one, nothing changed exactly when every compared field,
        the pending role and the pending metadata are what the user already has. */
    method HasChangedData() returns (r: Result<bool, Error>)
      ensures r == Changed(data, user, store.tables.userMeta)
      ensures r.Err? <==> FieldsHeld(data, user, NotCompared) && !Prop(user, "roles").Arr?
      ensures r.Err? ==> r.error == TypeError(RolesNotArray)
      ensures Prop(user, "roles").Arr? ==> r.Ok? && (r.value == false <==>
        && FieldsHeld(data, user, NotCompared)
        && PendingRole(data) in Prop(user, "roles").items.Values
        && ("meta_input" in data ==> MetaStored(data, user, "ID", store.tables.userMeta)))
    {
      if DiffersExcept(data, user, NotCompared) {
        return Ok(true);
      }
      var roles := Prop(user, "roles");
      if !roles.Arr? {
        return Err(TypeError(RolesNotArray));
      }
      r := Ok(PendingRole(data) !in roles.items.Values || MetaChanged(data, user, "ID", store.tables.userMeta));
    }

    /** prepareData(): `password` is what wp_generate_password() returns. */
    method PrepareData(password: string)
      modifies this, cache
      ensures Snapshot() == Prepared(Environment(), old(Snapshot()), password)
    {
      var present := Exists();
      if present {
        data := data["ID" := Prop(user, "ID")];
      } else {
        data := data["user_pass" := Str(password)];
      }
      data := data["user_login" := Str(login)];
    }

    /** save(). */
    method Save(password: string, reply: Reply) returns (r: Result<Status, Error>)
      modifies this, cache, store
      ensures var o := Saved(Environment(), old(Snapshot()), password, reply);
        && r == o.status && Snapshot() == o.state
        && store.writes == old(store.writes) + o.writes && store.termMeta == old(store.termMeta)
    {
      FindStable(Environment(), Snapshot());
      // validateSave()
      var found := Exists();
      if !found && !HasTruthyField(data, Required) {
        return Ok(Failed);
      }
      var present := Exists();
      if present {
        if data == map[] {
          return Ok(Noop);
        }
        var changed := HasChangedData();
        if changed.Err? {
          return Err(changed.error);
        }
        if !changed.value {
          return Ok(Noop);
        }
      }
      PrepareData(password);
      store.Issue(InsertUser(data));
      if reply.Refused? {
        return Ok(Failed);
      }
      user := reply.record;
      if "ID" !in data {
        cache.Put(login, user);
      }
      r := Ok(if "ID" in data then Updated else Created);
    }
  }
}
