/**
 * What Post, Term and User share: the save status codes, the merge rules of set() and
 * setMetadata(), the SEO metadata mapping of setSeo(), and the building blocks of their
 * change detection.
 */
module Engine {
  import opened Wrappers
  import opened Php
  import opened WordPress

  /** The outcome of a save (the STATUS constant of each entity class). */
  datatype Status = Created | Updated | Skipped | Failed | Noop

  /** SAVE_CREATED = 0, SAVE_UPDATED = 1, SAVE_SKIPPED = 2, SAVE_FAILED = 3, SAVE_NOOP = 4. */
  function Code(s: Status): (c: int)
    ensures 0 <= c <= 4
  {
    match s
    case Created => 0
    case Updated => 1
    case Skipped => 2
    case Failed => 3
    case Noop => 4
  }

  /** The status a code stands for: exactly the codes 0 to 4 stand for one. */
  function StatusOfCode(c: int): (r: Option<Status>)
    ensures r.Some? <==> 0 <= c <= 4
    ensures r.Some? ==> Code(r.value) == c
  {
    if c == 0 then Some(Created)
    else if c == 1 then Some(Updated)
    else if c == 2 then Some(Skipped)
    else if c == 3 then Some(Failed)
    else if c == 4 then Some(Noop)
    else None
  }

  /** Every status has its own code. */
  lemma CodeRoundTrip(s: Status)
    ensures StatusOfCode(Code(s)) == Some(s)
  {
  }

  /** Collection::merge with string keys: every key of either side, the later value winning. */
  function Merge(a: FieldSet, b: FieldSet): (r: FieldSet)
    ensures r.Keys == a.Keys + b.Keys
    ensures forall k :: k in b ==> r[k] == b[k]
    ensures forall k :: k in a && k !in b ==> r[k] == a[k]
  {
    a + b
  }

  /** Merging in two steps is merging once with the two merged: the last write per key wins. */
  lemma MergeLastWriteWins(a: FieldSet, b: FieldSet, c: FieldSet)
    ensures Merge(Merge(a, b), c) == Merge(a, Merge(b, c))
  {
  }

  /** collect($v): null is empty, an array is itself, any other value is a one-item list. */
  function Collect(v: Value): map<string, Value> {
    match v
    case Null => map[]
    case Arr(items) => items
    case _ => map["0" := v]
  }

  /** The pending metadata, collect($data->get('meta_input', [])). */
  function PendingMeta(data: FieldSet): map<string, Value> {
    if "meta_input" in data then Collect(data["meta_input"]) else map[]
  }

  /** setMetadata(): the given entries are merged into the pending metadata, the later value
      winning per key; no other field changes. */
  function WithMetadata(data: FieldSet, meta: map<string, Value>): (r: FieldSet)
    ensures r.Keys == data.Keys + {"meta_input"}
    ensures forall k :: k in data && k != "meta_input" ==> r[k] == data[k]
    ensures PendingMeta(r) == Merge(PendingMeta(data), meta)
  {
    data["meta_input" := Arr(Merge(PendingMeta(data), meta))]
  }

  /** Two setMetadata calls are one call with their entries merged. */
  lemma MetadataLastWriteWins(data: FieldSet, m1: map<string, Value>, m2: map<string, Value>)
    ensures WithMetadata(WithMetadata(data, m1), m2) == WithMetadata(data, Merge(m1, m2))
  {
    MergeLastWriteWins(PendingMeta(data), m1, m2);
  }

  /** The SEO plugin found installed (Rank Math is looked for first). */
  datatype SeoPlugin = RankMath | Yoast | NoSeoPlugin

  const NoPluginMessage: string := "No supported SEO plugin found"

  /** Collection::filter(): the entries PHP takes as true. */
  function KeepTruthy(m: map<string, Value>): (r: map<string, Value>)
    ensures forall k :: k in r <==> k in m && Truthy(m[k])
    ensures forall k :: k in r ==> r[k] == m[k]
  {
    map k | k in m && Truthy(m[k]) :: m[k]
  }

  /** A nullable string as a value. */
  function OptStr(o: Option<string>): Value {
    if o.Some? then Str(o.value) else Null
  }

  /** The metadata keys of the title, the description and the focus keyword. */
  function SeoKeys(plugin: SeoPlugin): (string, string, string) {
    if plugin == RankMath then ("rank_math_title", "rank_math_description", "rank_math_focus_keyword")
    else ("_yoast_wpseo_title", "_yoast_wpseo_metadesc", "_yoast_wpseo_focuskw")
  }

  /** setSeo(): the title, description and focus keyword under the plugin's keys, the ones
      PHP takes as false left out; with no plugin, the RuntimeException. */
  function SeoMeta(plugin: SeoPlugin, title: string, description: string, focusKeyword: Option<string>)
    : (r: Result<map<string, Value>, Error>)
    ensures r.Err? <==> plugin == NoSeoPlugin
    ensures r.Err? ==> r.error == RuntimeError(NoPluginMessage)
    ensures r.Ok? ==> forall k :: k in r.value ==>
      Truthy(r.value[k]) && (k == SeoKeys(plugin).0 || k == SeoKeys(plugin).1 || k == SeoKeys(plugin).2)
    ensures r.Ok? ==> (SeoKeys(plugin).0 in r.value <==> TruthyString(title))
                      && (SeoKeys(plugin).1 in r.value <==> TruthyString(description))
                      && (SeoKeys(plugin).2 in r.value <==> focusKeyword.Some? && TruthyString(focusKeyword.value))
    ensures r.Ok? && SeoKeys(plugin).0 in r.value ==> r.value[SeoKeys(plugin).0] == Str(title)
    ensures r.Ok? && SeoKeys(plugin).1 in r.value ==> r.value[SeoKeys(plugin).1] == Str(description)
    ensures r.Ok? && SeoKeys(plugin).2 in r.value ==> r.value[SeoKeys(plugin).2] == OptStr(focusKeyword)
  {
    if plugin == NoSeoPlugin then Err(RuntimeError(NoPluginMessage))
    else
      var (t, d, f) := SeoKeys(plugin);
      Ok(KeepTruthy(map[t := Str(title), d := Str(description), f := OptStr(focusKeyword)]))
  }

  /** $data->only($compared)->contains(fn($v, $k) => $record?->$k !== $v): a compared field
      holds a value the record does not. */
  predicate DiffersOn(data: FieldSet, held: Option<Record>, compared: set<string>) {
    exists k :: k in compared && k in data && Prop(held, k) != data[k]
  }

  /** $data->except($excluded)->contains(...): a field other than the excluded ones holds a
      value the record does not. */
  predicate DiffersExcept(data: FieldSet, held: Option<Record>, excluded: set<string>) {
    exists k :: k in data && k !in excluded && Prop(held, k) != data[k]
  }

  /** $stored->map(fn($v) => $v[0] ?? null): the first stored value of each key. */
  function FirstValues(stored: StoredMeta): (r: map<string, Value>)
    ensures r.Keys == stored.Keys
    ensures forall k :: k in r ==> r[k] == (if |stored[k]| > 0 then stored[k][0] else Null)
  {
    map k | k in stored :: if |stored[k]| > 0 then stored[k][0] else Null
  }

  /** $pending->diffAssoc($current)->isNotEmpty(): some pending key is not stored, or is
      stored with a value whose string form differs. Stored keys not pending do not count. */
  predicate DiffAssoc(pending: map<string, Value>, current: map<string, Value>): (r: bool)
    ensures r ==> pending != map[]
    ensures (exists k :: k in pending && k !in current) ==> r
    ensures (forall k :: k in pending ==> k in current && pending[k] == current[k]) ==> !r
    ensures (forall k :: k in pending && k in current ==> ToStr(pending[k]) == ToStr(current[k])) ==>
              (r <==> !(pending.Keys <= current.Keys))
  {
    exists k :: k in pending && (k !in current || ToStr(pending[k]) != ToStr(current[k]))
  }

  /** Every field but the excluded ones holds the value the record has. */
  predicate FieldsHeld(data: FieldSet, held: Option<Record>, excluded: set<string>) {
    forall k :: k in data && k !in excluded ==> data[k] == Prop(held, k)
  }

  /** Every pending metadata value is, as a string, the record's first stored value of
      its key. */
  predicate MetaStored(data: FieldSet, held: Option<Record>, idKey: string, table: MetaTable) {
    forall k :: k in PendingMeta(data) ==>
      var current := FirstValues(MetaAt(table, Prop(held, idKey)));
      k in current && ToStr(PendingMeta(data)[k]) == ToStr(current[k])
  }

  /** hasChangedMetadata(): there is pending metadata, a record, and a pending key that
      differs from the record's first stored value (the record's id is its idKey property). */
  predicate MetaChanged(data: FieldSet, held: Option<Record>, idKey: string, table: MetaTable): (r: bool)
    ensures r ==> "meta_input" in data && held.Some? && PendingMeta(data) != map[]
    ensures "meta_input" in data && held.Some? ==> (r <==> !MetaStored(data, held, idKey, table))
  {
    && "meta_input" in data
    && held.Some?
    && DiffAssoc(PendingMeta(data), FirstValues(MetaAt(table, Prop(held, idKey))))
  }

  /** Metadata that is already stored, as first values, is not a change. */
  lemma {:induction false} StoredMetaIsUnchanged(data: FieldSet, held: Option<Record>, idKey: string, table: MetaTable)
    requires forall k :: k in PendingMeta(data) ==>
      var stored := MetaAt(table, Prop(held, idKey));
      k in stored && |stored[k]| > 0 && stored[k][0] == PendingMeta(data)[k]
    ensures !MetaChanged(data, held, idKey, table)
  {
    var current := FirstValues(MetaAt(table, Prop(held, idKey)));
    forall k | k in PendingMeta(data)
      ensures k in current && ToStr(PendingMeta(data)[k]) == ToStr(current[k])
    {
    }
  }

  /** $data->only($required)->filter()->isNotEmpty(): a required field holds a value PHP
      takes as true. */
  predicate HasTruthyField(data: FieldSet, required: set<string>) {
    exists k :: k in required && k in data && Truthy(data[k])
  }
}
