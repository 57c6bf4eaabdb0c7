/**
 * The WordPress side of the engine, reduced to what the core reads and writes: read-only
 * lookup tables, the term metadata the engine updates, and a log of every insert and update call.
 * Whether a write succeeds, and what is read back after it, is not decided here: each save
 * is handed the store's answer as a `Reply`.
 */
module WordPress {
  import opened Wrappers
  import opened Php

  /** A pending field map (the engine's $data collection, keyed by field name). */
  type FieldSet = map<string, Value>

  /** A stored object's properties (WP_Post, WP_Term, WP_User) as the engine reads them. */
  type Record = map<string, Value>

  /** $object->$key: a property the record lacks reads as null, and so does any property of
      null (the nullsafe and the warning-raising reads agree on that). */
  function Prop(held: Option<Record>, key: string): (v: Value)
    ensures held.None? ==> v == Null
    ensures held.Some? && key !in held.value ==> v == Null
    ensures held.Some? && key in held.value ==> v == held.value[key]
  {
    if held.Some? && key in held.value then held.value[key] else Null
  }

  /** get_*_meta($id) for one object: every key with its list of stored values. */
  type StoredMeta = map<string, seq<Value>>

  /** Stored metadata of every object, by object id. */
  type MetaTable = map<Value, StoredMeta>

  /** The stored metadata of one id; an unknown id has none. */
  function MetaAt(t: MetaTable, id: Value): StoredMeta {
    if id in t then t[id] else map[]
  }

  /** What the engine reads from WordPress and never changes. */
  datatype Tables = Tables(
    postTypeSlugs: map<string, string>,     // rewrite slug of each registered post type
    taxonomySlugs: map<string, string>,     // rewrite slug of each registered taxonomy
    frontPage: Option<Option<Record>>,      // Some(get_post(page_on_front)) when show_on_front is 'page'
    pages: map<(string, string), Record>,   // get_page_by_path(path, type), keyed by (path, type)
    terms: map<(string, string), Record>,   // get_term_by('slug', slug, taxonomy), keyed by (taxonomy, slug)
    users: map<string, Record>,             // get_user_by('login', login)
    postMeta: MetaTable,                    // get_post_meta(id)
    userMeta: MetaTable)                    // get_user_meta(id)

  /** One insert or update call the engine issues. */
  datatype Write =
    | InsertPost(postarr: FieldSet)                          // wp_insert_post($data, true)
    | InsertTerm(name: Value, taxonomy: string, args: FieldSet) // wp_insert_term($name, $taxonomy, $args)
    | UpdateTerm(termId: Value, taxonomy: string, args: FieldSet) // wp_update_term($id, $taxonomy, $args)
    | InsertUser(userdata: FieldSet)                         // wp_insert_user($data, true)

  /** The store's answer to an insert or update: a WP_Error, or the id it wrote under
      together with the object then read back for that id (get_post, get_term, get_user_by). */
  datatype Reply = Refused | Stored(id: Value, record: Option<Record>)

  class Store {
    const tables: Tables
    /** Term metadata, which saving a term writes. */
    var termMeta: MetaTable
    /** Every write call issued so far, oldest first. */
    var writes: seq<Write>

    constructor (tables: Tables, termMeta: MetaTable)
      ensures this.tables == tables && this.termMeta == termMeta && writes == []
    {
      this.tables := tables;
      this.termMeta := termMeta;
      writes := [];
    }

    /** Issues an insert or update call; its answer is the save's `Reply`. */
    method Issue(w: Write)
      modifies this
      ensures writes == old(writes) + [w] && termMeta == old(termMeta)
    {
      writes := writes + [w];
    }

    /** update_term_meta($id, $key, $value): the key now holds the one given value. Its
        effect is on termMeta alone; it is not entered in the write log. */
    method UpdateTermMeta(id: Value, key: string, value: Value)
      modifies this
      ensures termMeta == old(termMeta)[id := MetaAt(old(termMeta), id)[key := [value]]]
      ensures writes == old(writes)
    {
      termMeta := termMeta[id := MetaAt(termMeta, id)[key := [value]]];
    }
  }
}
