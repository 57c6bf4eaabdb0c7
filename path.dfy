/**
 * Path normalisation (Helpers/Path.php): every import row names its target by a path or
 * URL; the normalised path is the lookup key for posts and terms, its segments give slugs
 * and parents, and a type's or taxonomy's rewrite prefix can be stripped from its front.
 */
module Paths {
  import opened Wrappers
  import opened Php
  import opened Caching
  import PostTypes
  import Taxonomies

  /** What parse_url($url, PHP_URL_PATH) gives: the path component, null when the URL has
      none, or false when the URL is too malformed to parse. */
  datatype UrlPath = UrlPath(path: string) | NoPath | Malformed

  /** Str::isUrl and parse_url($url, PHP_URL_PATH), which this model leaves abstract. */
  datatype UrlParser = UrlParser(isUrl: string -> bool, pathOf: string -> UrlPath)

  const Slash: set<char> := {'/'}

  /** The shape every normalised path has: the root "/", or a string PHP takes as truthy
      that neither starts nor ends with a slash. */
  predicate IsKey(k: string) {
    k == "/" || (TruthyString(k) && k[0] != '/' && k[|k| - 1] != '/')
  }

  /** The constructor's treatment of a literal path: "/" stays the root, anything else loses
      its leading and trailing slashes, and what PHP's empty() rejects ("" and "0") raises. */
  function NormalizePath(p: string): (r: Result<string, Error>)
    ensures r.Ok? ==> IsKey(r.value)
    ensures r.Err? ==> r.error.InvalidArgument?
    ensures p == "/" ==> r == Ok("/")
    ensures p != "/" ==> (r.Ok? <==> TruthyString(Trim(p, Slash))) && (r.Ok? ==> r.value == Trim(p, Slash))
    ensures p != "/" && r.Ok? ==>
      exists i, j ::
        && 0 <= i <= j <= |p| && r.value == p[i..j]
        && (forall k :: 0 <= k < i ==> p[k] == '/') && (forall k :: j <= k < |p| ==> p[k] == '/')
  {
    var k := if p == "/" then "/" else Trim(p, Slash);
    if TruthyString(k) then Ok(k) else Err(InvalidArgument("The provided path is empty or invalid."))
  }

  /** The constructor: a URL is replaced by its path component first (a URL without one
      raises), then the path is normalised. */
  function Normalize(raw: string, url: UrlParser): (r: Result<string, Error>)
    ensures r.Ok? ==> IsKey(r.value)
    ensures !url.isUrl(raw) ==> r == NormalizePath(raw)
    ensures url.isUrl(raw) && url.pathOf(raw).UrlPath? ==> r == NormalizePath(url.pathOf(raw).path)
    ensures url.isUrl(raw) && !url.pathOf(raw).UrlPath? ==> r.Err? && r.error.InvalidArgument?
  {
    if !url.isUrl(raw) then NormalizePath(raw)
    else match url.pathOf(raw)
      case UrlPath(p) => NormalizePath(p)
      case _ => Err(InvalidArgument("The provided URL is invalid or has no path."))
  }

  /** A normalised path normalises to itself. */
  lemma NormalizeKeepsKeys(k: string)
    requires IsKey(k)
    ensures NormalizePath(k) == Ok(k)
  {
    if k != "/" {
      assert TrimLeft(k, Slash) == k;
      assert TrimRight(k, Slash) == k;
    }
  }

  /** Slashes only, other than the bare root, are an empty path and raise. */
  lemma NormalizeRejectsSlashes(p: string)
    requires p != "/"
    requires forall i :: 0 <= i < |p| ==> p[i] == '/'
    ensures NormalizePath(p).Err?
  {
  }

  /** segment(): the root is the one segment "/"; any other path splits on '/' and drops
      the pieces PHP takes as false ("" and "0"). */
  function Segments(k: string): (r: seq<string>)
    ensures k == "/" ==> r == ["/"]
    ensures k != "/" ==> forall i :: 0 <= i < |r| ==> TruthyString(r[i]) && '/' !in r[i]
  {
    if k == "/" then ["/"]
    else
      var parts := Explode(k, '/');
      var r := FilterTruthy(parts);
      assert forall i :: 0 <= i < |r| ==> exists j :: 0 <= j < |parts| && r[i] == parts[j];
      r
  }

  /** The non-empty, slash-free pieces a join is made of are exactly the segments of the
      joined path. */
  lemma {:induction false} SegmentsOfJoin(segs: seq<string>)
    requires |segs| >= 1
    requires forall i :: 0 <= i < |segs| ==> TruthyString(segs[i]) && '/' !in segs[i]
    ensures IsKey(Join(segs, '/')) && Join(segs, '/') != "/"
    ensures Segments(Join(segs, '/')) == segs
  {
    JoinEnds(segs);
    ExplodeJoin(segs, '/');
  }

  /** The join of segments starts with the first segment's first character and ends with
      the last segment's last character. */
  lemma {:induction false} JoinEnds(segs: seq<string>)
    requires |segs| >= 1
    requires forall i :: 0 <= i < |segs| ==> TruthyString(segs[i]) && '/' !in segs[i]
    ensures var j := Join(segs, '/'); var z := segs[|segs| - 1];
      && |segs[0]| > 0 && |z| > 0 && |j| >= |segs[0]| && j[0] == segs[0][0] && j[|j| - 1] == z[|z| - 1]
      && (|segs| >= 2 ==> |j| >= 3)
    ensures IsKey(Join(segs, '/')) && Join(segs, '/') != "/"
    decreases |segs|
  {
    var j := Join(segs, '/');
    if |segs| >= 2 {
      JoinEnds(segs[1..]);
      assert j == segs[0] + ['/'] + Join(segs[1..], '/');
      assert segs[|segs| - 1] == segs[1..][|segs[1..]| - 1];
    }
    assert segs[0][0] in segs[0];
    assert segs[|segs| - 1][|segs[|segs| - 1]| - 1] in segs[|segs| - 1];
  }

  /** A path none of whose pieces PHP takes as false is the join of its segments. */
  lemma {:induction false} JoinOfSegments(k: string)
    requires k != "/"
    requires forall i :: 0 <= i < |Explode(k, '/')| ==> TruthyString(Explode(k, '/')[i])
    ensures Join(Segments(k), '/') == k
  {
    JoinExplode(k, '/');
  }

  /** The path findParent() builds from the segments: all but the last, joined by '/'. */
  function ParentPath(segs: seq<string>): string
    requires |segs| >= 1
  {
    Join(segs[..|segs| - 1], '/')
  }

  /** The last segment ($segments->last()), null when there are none. */
  function Last(segs: seq<string>): (r: Option<string>)
    ensures r.Some? <==> segs != []
    ensures r.Some? ==> r.value == segs[|segs| - 1]
  {
    if segs == [] then None else Some(segs[|segs| - 1])
  }

  /** removePrefix(): a truthy prefix is stripped when it is the first segment of a path
      other than the root, the remaining segments being joined back with '/'; a missing or
      false prefix ("" or "0"), the root and any other path come back unchanged. */
  function StripPrefix(k: string, prefix: Option<string>): (r: string)
    ensures r != k ==> k != "/" && prefix.Some? && TruthyString(prefix.value)
                       && Segments(k) != [] && Segments(k)[0] == prefix.value
  {
    if k == "/" || prefix.None? || !TruthyString(prefix.value) then k
    else
      var segs := Segments(k);
      if |segs| > 0 && segs[0] == prefix.value then Join(segs[1..], '/') else k
  }

  /** Stripping removes exactly the leading segment when more than one segment is left. */
  lemma {:induction false} StripPrefixDropsFirstSegment(k: string, prefix: string)
    requires k != "/" && TruthyString(prefix)
    requires |Segments(k)| >= 2 && Segments(k)[0] == prefix
    ensures Segments(StripPrefix(k, Some(prefix))) == Segments(k)[1..]
  {
    var rest := Segments(k)[1..];
    assert forall i :: 0 <= i < |rest| ==> rest[i] == Segments(k)[i + 1];
    SegmentsOfJoin(rest);
  }

  /** A path that is nothing but the prefix strips to the empty string, which is not a path. */
  lemma StripPrefixOfPrefixOnly(k: string, prefix: string)
    requires k != "/" && TruthyString(prefix)
    requires Segments(k) == [prefix]
    ensures StripPrefix(k, Some(prefix)) == ""
    ensures NormalizePath(StripPrefix(k, Some(prefix))).Err?
  {
  }

  /** The prefix getPrefix answers given a memo and the registry it memoises. */
  function MemoisedPrefix(memo: map<string, Option<string>>, registry: map<string, string>, name: string): Option<string> {
    if name in memo then memo[name] else Get(registry, name)
  }

  class Path {
    /** The normalised path ($this->path). */
    const key: string
    /** The lazily computed segments ($this->segments, null until first asked for). */
    var segments: Option<seq<string>>

    ghost predicate Valid()
      reads this
    {
      IsKey(key) && (segments.Some? ==> segments.value == Segments(key))
    }

    constructor FromKey(key: string)
      requires IsKey(key)
      ensures Valid() && this.key == key && segments == None
    {
      this.key := key;
      segments := None;
    }

    /** new Path($raw): the normalised path with no segments computed yet, or the
        constructor's InvalidArgumentException. */
    static method Create(raw: string, url: UrlParser) returns (r: Result<Path, Error>)
      ensures Normalize(raw, url).Err? ==> r.Err? && r.error == Normalize(raw, url).error
      ensures Normalize(raw, url).Ok? ==> r.Ok? && fresh(r.value) && r.value.Valid()
                                          && r.value.key == Normalize(raw, url).value && r.value.segments == None
    {
      var k := Normalize(raw, url);
      if k.Err? {
        return Err(k.error);
      }
      var p := new Path.FromKey(k.value);
      r := Ok(p);
    }

    /** get(): the normalised path. */
    function Get(): (s: string)
      reads this
      requires Valid()
      ensures IsKey(s)
    {
      key
    }

    /** segment(): computes the segments once and answers from the memo afterwards. */
    method Segment() returns (s: seq<string>)
      requires Valid()
      modifies this
      ensures Valid() && s == Segments(key) && segments == Some(s)
    {
      if segments.None? {
        segments := Some(Segments(key));
      }
      s := segments.value;
    }

    /** removePrefix($prefix); the segments are only computed when the prefix is looked for. */
    method RemovePrefix(prefix: Option<string>) returns (r: string)
      requires Valid()
      modifies this
      ensures Valid() && r == StripPrefix(key, prefix)
      ensures old(segments).Some? ==> segments == old(segments)
    {
      if key == "/" || prefix.None? || !TruthyString(prefix.value) {
        return key;
      }
      var segs := Segment();
      if |segs| > 0 && segs[0] == prefix.value {
        r := Join(segs[1..], '/');
      } else {
        r := key;
      }
    }

    /** removePostTypePrefix($type): strips the post type's rewrite prefix, read through
        the shared post type memo. */
    method RemovePostTypePrefix(postType: string, memo: Cache<string>, registry: map<string, string>) returns (r: string)
      requires Valid()
      modifies this, memo
      ensures Valid()
      ensures r == StripPrefix(key, MemoisedPrefix(old(memo.entries), registry, postType))
      ensures memo.entries == old(memo.entries)[postType := MemoisedPrefix(old(memo.entries), registry, postType)]
      ensures old(MemoOf(memo, registry)) ==> MemoOf(memo, registry) && r == StripPrefix(key, Wrappers.Get(registry, postType))
    {
      var t := new PostTypes.PostType(postType, memo);
      var prefix := t.GetPrefix(registry);
      r := RemovePrefix(prefix);
    }

    /** removeTaxonomyPrefix($taxonomy): strips the taxonomy's rewrite prefix, read through
        the shared taxonomy memo. */
    method RemoveTaxonomyPrefix(taxonomy: string, memo: Cache<string>, registry: map<string, string>) returns (r: string)
      requires Valid()
      modifies this, memo
      ensures Valid()
      ensures r == StripPrefix(key, MemoisedPrefix(old(memo.entries), registry, taxonomy))
      ensures memo.entries == old(memo.entries)[taxonomy := MemoisedPrefix(old(memo.entries), registry, taxonomy)]
      ensures old(MemoOf(memo, registry)) ==> MemoOf(memo, registry) && r == StripPrefix(key, Wrappers.Get(registry, taxonomy))
    {
      var t := new Taxonomies.Taxonomy(taxonomy, memo);
      var prefix := t.GetPrefix(registry);
      r := RemovePrefix(prefix);
    }
  }
}
