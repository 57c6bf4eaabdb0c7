/**
 * Post type rewrite prefixes (Helpers/PostType.php): the rewrite slug a registered post
 * type declares, memoised in one memo shared by every instance.
 */
module PostTypes {
  import opened Wrappers
  import opened Caching

  class PostType {
    const name: string
    /** The class-wide memo, one object shared by every instance. */
    const cache: Cache<string>

    constructor (name: string, cache: Cache<string>)
      ensures this.name == name && this.cache == cache
    {
      this.name := name;
      this.cache := cache;
    }

    /** getPrefix(): the memoised answer for this name if there is one, otherwise the
        registry's rewrite slug (null for an unregistered type or one without a slug), which
        is then memoised. `registry` maps each registered post type to its rewrite slug. */
    method GetPrefix(registry: map<string, string>) returns (prefix: Option<string>)
      modifies cache
      ensures prefix == (if name in old(cache.entries) then old(cache.entries)[name] else Get(registry, name))
      ensures cache.entries == old(cache.entries)[name := prefix]
      ensures cache.calls == old(cache.calls) + (if name in old(cache.entries) then 0 else 1)
      ensures old(MemoOf(cache, registry)) ==> MemoOf(cache, registry) && prefix == Get(registry, name)
    {
      var n := name;
      var r, ran := cache.Resolve(n, () => Ok(Get(registry, n)));
      prefix := r.value;
    }
  }
}
