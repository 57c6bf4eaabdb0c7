# Pilcrow import engine, modelled in Dafny

Pilcrow imports spreadsheet rows into WordPress. The part modelled here has two layers:

- A path-keyed, memo-backed create-or-update engine. It has three engines: posts (Helpers/Post.php), terms (Helpers/Term.php) and users (Helpers/User.php). They share a string-keyed memo (Helpers/Cache.php), path normalisation (Helpers/Path.php) and rewrite-prefix lookups (Helpers/PostType.php, Helpers/Taxonomy.php).
- The per-row term importer (Importers/TermImporter.php) and the import log that tallies and renders its results (Logging/ImportLog.php).

Each engine's `save()` runs the same state machine:

1. validate;
2. no-op short-circuit;
3. prepare the fields to send;
4. write;
5. memoise on create;
6. return a status: CREATED 0, UPDATED 1, SKIPPED 2, FAILED 3 or NOOP 4.

How the model is built:

- Every engine is first written as pure functions over two datatypes:
  - an `Env` of what the engine only reads (its key, its type or taxonomy, the URL parser, the WordPress tables);
  - a `State` of what it changes (the held record, the pending field map, the shared memo, term metadata).
- `Found`, `ParentFound`, `Prepared`, `Persisted` and `Saved` are these functions. The lemmas state each engine's promises about them.
- Each PHP class is then a Dafny class with the same fields and methods. Every method is proved to move its state exactly as the spec function says.
- WordPress itself is a `Store`: read-only lookup tables, the term metadata it holds, and a log of every insert or update call issued.
- The answer of a write is a `Reply` the caller supplies. It is either `Refused` (a WP_Error) or `Stored(id, record)` carrying the record read back.
- Memo callbacks are closures. `Cache.Resolve` says whether the callback ran, and the caller makes the field assignment the PHP callback makes only in that case. This keeps the source's quirk that `find()` sets the held record only on a memo miss.

PHP semantics are kept where the code depends on them:

- truthiness, as in `filter()` without a callback, where `"0"` is false;
- Laravel's `blank()`;
- `trim()`;
- `explode()`/`implode()`;
- the string cast;
- the integer-only `isset` key coercion;
- the TypeErrors that `declare(strict_types=1)` raises, which appear as `Err(TypeError(..))` results.

`set()` in the importer receives the row's truthy values (`$data->filter()`). So a `"0"` cell is dropped as well as blank ones. The model follows the code here.

## Model

| member | source | states |
|---|---|---|
| Caching.Cache.constructor | src/Helpers/Cache.php:19-22 | a new memo holds no entry and no callback has run |
| Caching.Cache.Resolve | src/Helpers/Cache.php:31-41 | a present key, even one holding null, returns its stored value without running the callback and changes nothing; an absent key runs the callback exactly once, then stores and returns its result under that key alone; a callback that throws stores nothing |
| Caching.Cache.Has | src/Helpers/Cache.php:49-52 | true exactly when the key is present |
| Caching.Cache.Get | src/Helpers/Cache.php:60-63 | the stored value, or null for an absent key |
| Caching.Cache.Put | src/Helpers/Cache.php:72-75 | the key now holds the value; every other key is unchanged and no callback runs |
| Caching.Cache.Clear | src/Helpers/Cache.php:82-85 | no key is present afterwards |
| Caching.ResolveTwiceComputesOnce | src/Helpers/Cache.php:31-41 | two resolves of one key run the callback at most once, and the second answer equals the first |
| PostTypes.PostType.constructor | src/Helpers/PostType.php:32-36 | keeps the type name and the memo shared by all post types |
| PostTypes.PostType.GetPrefix | src/Helpers/PostType.php:43-49 | the type's rewrite slug, or null when it has none; the answer (null too) is memoised under the type name and a repeat call runs no lookup; a memo that agrees with the registry stays so and answers as the registry does |
| Taxonomies.Taxonomy.constructor | src/Helpers/Taxonomy.php:32-36 | keeps the taxonomy name and its own shared memo |
| Taxonomies.Taxonomy.GetPrefix | src/Helpers/Taxonomy.php:43-49 | as for post types: the taxonomy's rewrite slug or null, memoised under the taxonomy name, with no repeated lookup |
| Paths.NormalizePath | src/Helpers/Path.php:37-47 | "/" stays "/"; any other accepted path is the input with a leading and a trailing run of slashes removed (an infix p[i..j] with only slashes outside it); any other path is accepted exactly when its trim() is non-empty and not "0", and then the result is that trim(); a result PHP's empty() rejects raises InvalidArgument; every result is a key (root, or non-empty with no slash at either end) |
| Paths.Normalize | src/Helpers/Path.php:56-65 | a URL is reduced to its path component before normalising, and a URL for which parse_url gives null or false raises InvalidArgument; any other input is normalised as it is |
| Paths.NormalizeKeepsKeys | src/Helpers/Path.php:40 | normalising a key gives the same key back |
| Paths.NormalizeRejectsSlashes | src/Helpers/Path.php:40-44 | a non-root input made only of slashes, such as "" or "//", raises |
| Paths.Segments | src/Helpers/Path.php:82-89 | the root's segments are ["/"]; otherwise every segment is a non-empty, slash-free string PHP takes as true |
| Paths.SegmentsOfJoin | src/Helpers/Path.php:82-89 | joining clean segments with "/" gives a non-root key whose segments are those segments |
| Paths.JoinOfSegments | src/Helpers/Path.php:82-89 | a non-root key with no empty or "0" component is the join of its segments |
| Paths.StripPrefix | src/Helpers/Path.php:119-132 | the path changes only when it is not root, the prefix is present and non-empty, and the first segment equals it |
| Paths.StripPrefixDropsFirstSegment | src/Helpers/Path.php:125-131 | when the first of two or more segments is the prefix, the result's segments are the remaining ones |
| Paths.StripPrefixOfPrefixOnly | src/Helpers/Path.php:125-131 | a path that is just the prefix strips to "", which cannot be normalised again |
| Paths.Path.FromKey | src/Helpers/Path.php:37-47 | a key is stored as it is, with its segments not yet computed |
| Paths.Path.Create | src/Helpers/Path.php:37-47 | construction holds the normalised input, or raises the normalisation's error |
| Paths.Path.Get | src/Helpers/Path.php:72-75 | the stored path is always a key |
| Paths.Path.Segment | src/Helpers/Path.php:82-89 | returns the key's segments and memoises them on the instance |
| Paths.Path.RemovePrefix | src/Helpers/Path.php:119-132 | returns the stripped path; already memoised segments stay unchanged |
| Paths.Path.RemovePostTypePrefix | src/Helpers/Path.php:97-100 | strips the post type's (memoised) rewrite prefix, filling the memo on a miss |
| Paths.Path.RemoveTaxonomyPrefix | src/Helpers/Path.php:108-111 | strips the taxonomy's (memoised) rewrite prefix, filling the memo on a miss |
| OrderedMap.Put | src/Logging/ImportLog.php:27-30 | Collection::put: the key maps to the new value, every other key keeps its value, keys already there keep their order, and a new key goes last |
| Php.Trim | src/Helpers/User.php:36 | trim(): the result is the input with a leading and a trailing run of trimmed characters removed (an infix s[i..j] with only trimmed characters outside it), neither starts nor ends with a trimmed character, and is empty exactly when every character is trimmed |
| Php.ExplodeJoin | src/Helpers/Path.php:85 | explode() undoes implode() of separator-free parts |
| Php.JoinExplode | src/Helpers/Path.php:85 | implode() of explode()'s parts gives the string back |
| Php.FilterTruthy | src/Helpers/Path.php:85 | filter() on segments: a string is in the result exactly when it is a truthy part of the input, and every part is kept when all are truthy |
| Php.FilterTruthyAppend | src/Helpers/Path.php:85 | filter() keeps the order of the parts: filtering a + b is filtering a followed by filtering b |
| Php.NatToStringRoundTrip | src/Logging/ImportLog.php:114 | the decimal string cast of a natural number reads back as that number |
| WordPress.Store.Issue | src/Helpers/Post.php:160 | a WordPress write call is appended to the write log and term metadata is untouched |
| WordPress.Store.UpdateTermMeta | src/Helpers/Term.php:184 | update_term_meta: the key of that term now holds exactly the one value, everything else in term metadata is kept, and no write call is logged |
| Logging.Basename | src/Logging/ImportLog.php:45 | basename(): the label never contains a '/' |
| Engine.Code | src/Helpers/Post.php:21-27 | every status code lies in 0..4 |
| Engine.StatusOfCode | src/Helpers/Post.php:21-27 | exactly the integers 0..4 name a status, and that status's code is the integer |
| Engine.CodeRoundTrip | src/Helpers/Post.php:21-27 | decoding a status's code gives the status back |
| Engine.Merge | src/Helpers/Post.php:80-84 | Collection::merge: the keys of both maps, the later value winning on a shared key |
| Engine.MergeLastWriteWins | src/Helpers/Post.php:80-84 | two successive set() calls equal one set() of their merge |
| Engine.WithMetadata | src/Helpers/Post.php:103-111 | setMetadata() adds meta_input, leaves every other field alone, and the pending metadata becomes the merge of the old and the new |
| Engine.MetadataLastWriteWins | src/Helpers/Post.php:103-111 | two successive setMetadata() calls equal one call with their merge |
| Engine.KeepTruthy | src/Importers/TermImporter.php:42 | filter() without a callback keeps exactly the entries PHP takes as true |
| Engine.SeoMeta | src/Helpers/Post.php:121-142 | with no SEO plugin a RuntimeException; otherwise only the plugin's title, description and focus-keyword keys, each present exactly when its value is truthy and then holding that value |
| Engine.FirstValues | src/Helpers/Post.php:216-229 | each stored meta key maps to its first stored value, or null when none is stored |
| Engine.StoredMetaIsUnchanged | src/Helpers/Post.php:216-229 | pending metadata whose every value equals the stored first value is not a change |
| Engine.DiffAssoc | src/Helpers/Post.php:226-228 | diffAssoc is not empty: never for no pending metadata, always when a pending key is not stored, never when every pending value is stored as it is; when every shared key agrees as a string it is exactly "a pending key is not stored" |
| Engine.MetaChanged | src/Helpers/Post.php:216-229 | a change needs pending meta_input and a record; given both, a change exactly when some pending value is not the stored first value as a string |
| Posts.Found | src/Helpers/Post.php:246-252 | finding the post changes neither the pending fields nor the held parent |
| Posts.FindStable | src/Helpers/Post.php:246-252 | a second find gives the same answer and changes nothing further |
| Posts.FindMemoises | src/Helpers/Post.php:246-252 | hit and miss are memoised under the bare path; the held post is set only when the lookup ran, and a memo hit leaves it null |
| Posts.ParentFound | src/Helpers/Post.php:259-275 | finding the parent changes neither the pending fields nor the held post |
| Posts.Changed | src/Helpers/Post.php:205-209 | no change exactly when every field but meta_input equals the held post's property and, when there is meta_input and a post, every pending meta value is stored |
| Posts.Saved | src/Helpers/Post.php:149-173 | a post save never reports SKIPPED, issues at most one insert call, only with CREATED, UPDATED or FAILED, and none on an exception or NOOP |
| Posts.SaveFailsWithoutRequired | src/Helpers/Post.php:180-185 | a post that does not exist and has none of post_title, post_content, post_author truthy gives FAILED with no write |
| Posts.SaveNoopIff | src/Helpers/Post.php:155-157 | NOOP exactly when the post exists and the field map is empty or unchanged; a NOOP writes nothing and keeps the fields |
| Posts.SaveWriteFields | src/Helpers/Post.php:190-198 | the one insert sends the pending fields plus post_name (last segment), post_type, post_parent (the parent's ID or 0), and ID only when the post exists |
| Posts.StampedFields | src/Helpers/Post.php:190-198 | the stamped map holds the pending fields, post_name, post_type and post_parent, plus ID exactly when the post was found, each with its value |
| Posts.SaveStatusAfterWrite | src/Helpers/Post.php:162-172 | a refused write gives FAILED; otherwise the record read back is held, UPDATED exactly when ID was sent, else CREATED with the post memoised under its path |
| Posts.ReplayIsNoop | src/Helpers/Post.php:205-229 | saving fields (and metadata) the stored post already holds is NOOP with no write |
| Posts.MemoHitRewrites | src/Helpers/Post.php:246-252 | a memo hit leaves the held post null, so any non-null field counts as a change and the update is sent with a null ID |
| Posts.TopLevelSaveRaises | src/Helpers/Post.php:259-275 | for a one-segment path the parent lookup builds an empty Path, so a save that gets past validation raises InvalidArgument before writing |
| Posts.Post.constructor | src/Helpers/Post.php:66-72 | a post with its path, type and memo, no held record and no pending fields |
| Posts.Post.Create | src/Helpers/Post.php:66-72 | construction from a raw path: normalisation error or a fresh post over the normalised key |
| Posts.Post.Set | src/Helpers/Post.php:80-84 | the pending fields become the merge of the old and the given |
| Posts.Post.SetMetadata | src/Helpers/Post.php:103-111 | the pending fields gain the merged metadata |
| Posts.Post.SetSeo | src/Helpers/Post.php:121-142 | the plugin's SEO metadata is merged in, or the RuntimeException is raised with nothing changed |
| Posts.Post.Find | src/Helpers/Post.php:246-252 | answer and new state are those of `Found` |
| Posts.Post.Exists | src/Helpers/Post.php:236-239 | true exactly when `Found` finds a post; the state moves as `Found` says |
| Posts.Post.FindParent | src/Helpers/Post.php:259-275 | answer, error and new state are those of `ParentFound` |
| Posts.Post.PreparePostData | src/Helpers/Post.php:190-198 | the error and new state are those of `Prepared` |
| Posts.Post.Save | src/Helpers/Post.php:149-173 | status, new state and issued writes are those of `Saved` |
| Posts.Post.Persist | src/Helpers/Post.php:160-172 | issues the one insert call with the pending fields; status and new state are those of `Persisted`: FAILED on a refusal, otherwise the read-back post held and memoised on create |
| Terms.Found | src/Helpers/Term.php:282-288 | finding the term changes neither the pending fields, the held parent nor term metadata |
| Terms.FindMemoises | src/Helpers/Term.php:284-287 | a successful find() memoises its answer under "taxonomy:path"; on a miss that answer is the lookup's and the term is held, on a memo hit the held term stays null and the memo is unchanged |
| Terms.FindRaises | src/Helpers/Term.php:284-287 | a lookup that raises is neither memoised nor held: find() raises the same error |
| Terms.TermSlug | src/Helpers/Term.php:200-203 | raises exactly when the prefix-stripped path cannot be made a Path; a slug is "/" or one truthy slash-free segment |
| Terms.FindStable | src/Helpers/Term.php:282-288 | a second find gives the same answer and changes nothing further |
| Terms.FindByPathIgnoresPath | src/Helpers/Term.php:296-303 | for any two non-root paths the lookup answers the same: it always looks up the term's own slug |
| Terms.ParentFound | src/Helpers/Term.php:310-326 | finding the parent changes neither the pending fields, the held term nor term metadata |
| Terms.NoParentBelowTwoSegments | src/Helpers/Term.php:316-319 | with fewer than two segments there is no parent and nothing changes |
| Terms.ParentIsOwnSlug | src/Helpers/Term.php:310-326 | the parent is memoised under "taxonomy:parentPath"; a memo hit answers from the memo, and on a miss the answer is the lookup of the term's own slug |
| Terms.LookupIsOwnSlug | src/Helpers/Term.php:320-325 | a parent key already memoised answers from the memo; a fresh one answers as the lookup of the term's own path and memoises that answer |
| Terms.PreparedSlug | src/Helpers/Term.php:218-229 | after a successful prepare the slug field is the term slug |
| Terms.SlugAfterPrefix | src/Helpers/Term.php:200-203 | when the taxonomy prefix is the first of two or more segments, the slug is the last segment |
| Terms.SlugOfPrefixOnlyRaises | src/Helpers/Term.php:200-203 | a path that is only the taxonomy prefix makes the slug lookup raise InvalidArgument |
| Terms.SaveFailsWithoutName | src/Helpers/Term.php:210-213 | a term that does not exist and has no name key gives FAILED with no write |
| Terms.SaveNoopIff | src/Helpers/Term.php:155-157 | NOOP exactly when the term exists and the map is empty or unchanged; a NOOP writes nothing |
| Terms.MemoHitIsNeverNoop | src/Helpers/Term.php:236-247 | with a null held term a change is always reported, so a memo hit with pending fields never gives NOOP |
| Terms.Changed | src/Helpers/Term.php:236-265 | no change exactly when a term is held, every compared field equals its property and every pending meta value is stored |
| Terms.Saved | src/Helpers/Term.php:149-193 | a term save never reports SKIPPED |
| Terms.SavedWrites | src/Helpers/Term.php:159-175 | a write is issued only after the find and the prepare succeed, and is the one their state calls for |
| Terms.WrittenShape | src/Helpers/Term.php:162-174 | an existing term is updated with the whole map; a new one is inserted with the name and every other field |
| Terms.SaveWriteShape | src/Helpers/Term.php:162-174 | the one write goes to the term's taxonomy, carries the computed slug, and an insert holds no name field |
| Terms.SaveStatusAfterWrite | src/Helpers/Term.php:176-192 | a refused write gives FAILED; otherwise the record read back is held, each meta_input entry is stored under its id, UPDATED exactly when term_id was sent, else CREATED and memoised under "taxonomy:path" |
| Terms.PersistedAfterWrite | src/Helpers/Term.php:180-192 | after a stored write: term held, fields unchanged, status by term_id, memoised on create, metadata entries stored |
| Terms.Overlay | src/Helpers/Term.php:182-186 | each written meta key now holds exactly its one value; other stored keys are kept |
| Terms.StoreMetaStep | src/Helpers/Term.php:182-186 | one update_term_meta call extends the metadata written so far by that entry |
| Terms.Term.constructor | src/Helpers/Term.php:67-73 | a term with its path, taxonomy and memos, no held record and no pending fields |
| Terms.Term.Create | src/Helpers/Term.php:67-73 | construction from a raw path: normalisation error or a fresh term over the normalised key |
| Terms.Term.Set | src/Helpers/Term.php:81-85 | the pending fields become the merge of the old and the given |
| Terms.Term.SetMetadata | src/Helpers/Term.php:104-112 | the pending fields gain the merged metadata |
| Terms.Term.SetSeo | src/Helpers/Term.php:123-142 | the plugin's SEO metadata is merged in, or the RuntimeException is raised with nothing changed |
| Terms.Term.GetTermSlug | src/Helpers/Term.php:200-203 | returns the term slug (or its error), memoising the taxonomy's prefix |
| Terms.Term.Find | src/Helpers/Term.php:282-288 | answer, error and new state are those of `Found` |
| Terms.Term.Exists | src/Helpers/Term.php:272-275 | true exactly when `Found` finds a term; error and state as `Found` says |
| Terms.Term.FindParent | src/Helpers/Term.php:310-326 | answer, error and new state are those of `ParentFound` |
| Terms.Term.PrepareData | src/Helpers/Term.php:218-229 | the error and new state are those of `Prepared` |
| Terms.Term.WriteMetadata | src/Helpers/Term.php:182-186 | the loop stores every entry under the id and issues no write call |
| Terms.Term.WriteData | src/Helpers/Term.php:159-192 | status, new state and issued write are those of `Written` |
| Terms.Term.Save | src/Helpers/Term.php:149-193 | status, new state and issued writes are those of `Saved` |
| Users.Found | src/Helpers/User.php:259-265 | finding the user keeps the pending fields, and afterwards the user is held or the login is memoised |
| Users.FindMemoises | src/Helpers/User.php:261-264 | with no user held, find() memoises its answer under the login; on a miss that answer is the lookup by login and the user is held, on a memo hit the held user stays null and the memo is unchanged |
| Users.FindStable | src/Helpers/User.php:259-265 | a second find gives the same answer and changes nothing further |
| Users.Changed | src/Helpers/User.php:217-242 | raises the in_array TypeError exactly when no compared field differs and there is no roles array; with one, no change exactly when the compared fields, the role and the pending metadata are what the user has |
| Users.Saved | src/Helpers/User.php:160-184 | a user save never reports SKIPPED, issues at most one insert call, only with CREATED, UPDATED or FAILED, and none on an exception or NOOP |
| Users.SaveFailsWithoutRequired | src/Helpers/User.php:191-196 | a user who does not exist and has none of user_login, user_email, role truthy gives FAILED with no write |
| Users.SaveNoopIff | src/Helpers/User.php:166-168 | NOOP exactly when the user exists and the map is empty or the change check says unchanged; a NOOP writes nothing |
| Users.ReplayIsUnchanged | src/Helpers/User.php:217-224 | fields the user already holds, a role among the user's roles and stored metadata are no change |
| Users.MemoHitRaises | src/Helpers/User.php:217-224 | on a memo hit the held user is null, so with no field outside meta_input and role the role check raises TypeError |
| Users.SaveWrite | src/Helpers/User.php:201-210 | the one insert carries user_login = the login, ID when the user exists, else the generated password, and every other pending field |
| Users.SaveStatusAfterWrite | src/Helpers/User.php:171-183 | a refused write gives FAILED; otherwise the user read back is held, UPDATED exactly when ID was sent, else CREATED and memoised under the login |
| Users.Without | src/Helpers/User.php:139 | str_replace('@', '', s): no '@' remains, and a string without one is unchanged |
| Users.AdditionalUrls | src/Helpers/User.php:126-130 | every instagram, linkedin or youtube profile with a truthy URL is listed, and only truthy URLs are |
| Users.AdditionalUrlSource | src/Helpers/User.php:126-130 | every listed URL comes from one of those three networks |
| Users.RankMathSocial | src/Helpers/User.php:123-131 | RankMath keeps facebook and twitter exactly when truthy and joins the additional URLs with spaces |
| Users.YoastValue | src/Helpers/User.php:136-143 | a non-twitter URL is kept as it is; the twitter value is the URL's path without '@', "" when parse_url finds no path, and the str_replace TypeError when parse_url gives false |
| Users.YoastSocial | src/Helpers/User.php:133-147 | Yoast raises the TypeError exactly when the twitter URL cannot be parsed; otherwise each known network is mapped to its own wpseo_ key with its mapped value, unknown networks are dropped and no other key appears |
| Users.YoastTwitterHasNoAt | src/Helpers/User.php:139 | when the Yoast mapping succeeds, its twitter value holds no '@' |
| Users.SocialMeta | src/Helpers/User.php:123-150 | raises exactly when there is no SEO plugin (the RuntimeException) or Yoast meets a twitter URL parse_url cannot parse (the TypeError) |
| Users.User.constructor | src/Helpers/User.php:34-39 | the login is the argument with surrounding whitespace trimmed; no user held, no fields |
| Users.User.Set | src/Helpers/User.php:47-51 | the pending fields become the merge of the old and the given |
| Users.User.SetMetadata | src/Helpers/User.php:70-78 | the pending fields gain the merged metadata |
| Users.User.SetSeo | src/Helpers/User.php:89-108 | the plugin's SEO metadata is merged in, or the RuntimeException is raised with nothing changed |
| Users.User.SetSocialProfiles | src/Helpers/User.php:117-153 | an empty profile map changes nothing; otherwise the plugin's social metadata is merged in, or its exception is raised and nothing changes |
| Users.User.Find | src/Helpers/User.php:259-265 | answer and new state are those of `Found` |
| Users.User.Exists | src/Helpers/User.php:249-252 | true exactly when `Found` finds a user |
| Users.User.HasChangedData | src/Helpers/User.php:217-224 | raises the in_array TypeError exactly when no compared field differs and the held user has no roles array; with one, answers "unchanged" exactly when every compared field equals the user's property, the pending role is among its roles and every pending meta value is stored |
| Users.User.PrepareData | src/Helpers/User.php:201-210 | the new state is that of `Prepared` |
| Users.User.Save | src/Helpers/User.php:160-184 | status, new state and issued writes are those of `Saved` |
| TermImporting.StringArg | src/Importers/TermImporter.php:34-37 | a path or taxonomy that is not a string raises TypeError at the Term constructor |
| TermImporting.Skips | src/Importers/TermImporter.php:34 | a row is skipped exactly when name, path and taxonomy are all blank, a missing column counting as blank |
| TermImporting.MetaFields | src/Importers/TermImporter.php:72-75 | exactly the "m:" keys with truthy values, the first two characters stripped |
| TermImporting.MetaFieldsIgnoreSeo | src/Importers/TermImporter.php:68-75 | removing seo_title, seo_description and seo_keyword first does not change the metadata |
| TermImporting.Cleaned | src/Importers/TermImporter.php:68-81 | the row that remains: exactly the keys other than seo_title, seo_description, seo_keyword and the "m:" prefixed ones, with their values (any other seo_ column stays) |
| TermImporting.CleanedInSteps | src/Importers/TermImporter.php:68-81 | the two forget() calls leave exactly that row |
| TermImporting.WithSeo | src/Importers/TermImporter.php:62-66 | SEO metadata is applied only when seo_title is not blank, and only meta_input changes; its errors are the TypeError or the no-plugin exception |
| TermImporting.Processed | src/Importers/TermImporter.php:60-82 | never raises without an SEO title; raises only the TypeError or the no-plugin exception; changes only meta_input, in which every "m:" column's value wins |
| TermImporting.NoSeoWithoutTitle | src/Importers/TermImporter.php:62-66 | with a blank seo_title only the metadata step acts |
| TermImporting.SeoWithTitle | src/Importers/TermImporter.php:62-66 | with a title, the SEO metadata and then the "m:" metadata are merged in |
| TermImporting.Pending | src/Importers/TermImporter.php:42 | set() adds every truthy remaining value and nothing else |
| TermImporting.Entry | src/Importers/TermImporter.php:46-51 | the result has exactly the keys id, path, parent, status in that order, the status as its code |
| TermImporting.Import | src/Importers/TermImporter.php:32-52 | a row whose name, path and taxonomy are all blank is SKIPPED with nothing changed; any other row never reports SKIPPED; a result has the four keys and no null; the row is left unchanged or cleaned, and cleaned whenever a write was issued |
| TermImporting.ImportSaves | src/Importers/TermImporter.php:33-43 | a row that is not skipped builds the term, processes the fields, sets the truthy rest and reports that term's save |
| TermImporting.Reported | src/Importers/TermImporter.php:46-51 | the reported status is the save's status code, with 'N/A' for every missing value |
| TermImporting.Recorded | src/Importers/TermImporter.php:46-51 | after a save that returned a status, the record holds the four keys, no null, and that status's code |
| TermImporting.Row.Forget | src/Importers/TermImporter.php:68 | forget() removes exactly the given keys |
| TermImporting.ApplySeo | src/Importers/TermImporter.php:62-66 | the term's fields move as `WithSeo` says |
| TermImporting.ProcessFields | src/Importers/TermImporter.php:60-82 | on success the row is cleaned and the term's fields are processed; an exception leaves both unchanged |
| TermImporting.SaveAndReport | src/Importers/TermImporter.php:42-51 | saves the term and reports it as `Reported` says |
| TermImporting.ImportRow | src/Importers/TermImporter.php:32-52 | result, row, memo, metadata and writes are those of `Import` |
| Logging.SlotOf | src/Logging/ImportLog.php:136-139 | the stats key a status hits: an integer 0..4 or its canonical decimal string hits that code, and a string hits a code only as its canonical decimal; false hits 0 and true hits 1; exactly the string "total" hits 'total'; null and a missing status hit nothing |
| Logging.StatsCountEntries | src/Logging/ImportLog.php:124-143 | each code column counts exactly the entries with that code; 'total' is the entry count plus the entries whose status is "total" |
| Logging.TotalIsEntryCount | src/Logging/ImportLog.php:127 | 'total' is the number of entries when no status is the string "total" |
| Logging.CountsSumToTotal | src/Logging/ImportLog.php:127-140 | when every status is one of the five codes, the five counts sum to 'total', which is the number of entries |
| Logging.BasenameOfChild | src/Logging/ImportLog.php:45 | the label of "dir/name" (with or without a trailing slash) is "name" |
| Logging.Summary | src/Logging/ImportLog.php:41-53 | the fixed header line and one row per file, in the order the files were added |
| Logging.SummaryAfterAdd | src/Logging/ImportLog.php:41-53 | re-adding a file replaces its row in place, a new file appends one, and every other row stays |
| Logging.FormatStatus | src/Logging/ImportLog.php:106-116 | a code 0..4 gets a label, which never starts like a number; any other integer gets its decimal string |
| Logging.FormatStatusOfCode | src/Logging/ImportLog.php:108-113 | each status's code renders as its fixed label |
| Logging.FormatStatusInjective | src/Logging/ImportLog.php:106-116 | different integers render differently, so the status cell identifies the status |
| Logging.Cell | src/Logging/ImportLog.php:84-92 | a detail cell; when the closure's string return type is enforced, every cell returned is a string |
| Logging.Unique | src/Logging/ImportLog.php:76 | unique(): no repetitions, and the same elements as the input |
| Logging.UniqueExtends | src/Logging/ImportLog.php:74-79 | later keys never reorder the headers already seen: a key's column is fixed where it first occurs |
| Logging.Headers | src/Logging/ImportLog.php:74-79 | one header per distinct key, title-cased |
| Logging.DetailsWith | src/Logging/ImportLog.php:66-101 | an empty log renders empty headers and rows; otherwise one row per entry of every file, each with one cell per header |
| Logging.Details | src/Logging/ImportLog.php:66-101 | an empty log renders empty headers and rows |
| Logging.DetailsCells | src/Logging/ImportLog.php:74-95 | with integer statuses, the status column holds the formatted status, every other cell is the entry's value, and a missing key gives '' |
| Logging.DetailsAsWritten | src/Logging/ImportLog.php:84-92 | the code as written can only return string cells |
| Logging.AsWrittenAgrees | src/Logging/ImportLog.php:84-92 | wherever the code as written succeeds, it agrees with the corrected rendering |
| Logging.DetailsAsWrittenRejectsTermIds | src/Logging/ImportLog.php:84-92 | a log holding a found term's integer id makes the code as written raise TypeError, while the corrected rendering shows the id |
| Logging.ImportLog.constructor | src/Logging/ImportLog.php:19-22 | a new log holds no file |
| Logging.ImportLog.Add | src/Logging/ImportLog.php:27-30 | the file's entries are put in the log as `OrderedMap.Put` says |
| Logging.ImportLog.CalculateStats | src/Logging/ImportLog.php:124-143 | the counting loop returns `StatsOf` of the entries |
| Logging.ImportLog.GetSummary | src/Logging/ImportLog.php:37-59 | returns `Summary` of the log |

## Left out

- WordPress is not modelled. This covers wp_insert_post, wp_insert_term, wp_update_term, wp_insert_user, get_post, get_term, get_term_by, get_page_by_path, get_user_by, get_option, the get_*_meta calls and update_term_meta. They are replaced by read-only tables, term metadata in the store, a log of write calls, and a caller-supplied `Reply`.
- wp_generate_password is the caller's `password` argument.
- Str::isUrl and parse_url are an abstract `UrlParser`; parse_url's three outcomes (a path, null, false) are kept. Str::title and Str::lower are an abstract `CaseMap`.
- The `defined()` probe for the SEO plugins is a `SeoPlugin` value (RankMath, Yoast or none).
- The static `??=` memo initialisation is left out: the memos are passed in, and one memo object stands for one class's static memo.
- The magic `__set` of Post, Term and User is not modelled. It is a single put on the field map, and nothing in the core calls it.
- The field maps are unordered maps. The key order PHP's `toArray()` passes to WordPress, and the order of the `foreach` over meta_input entries, are not modelled; neither changes the resulting state.
- Posts.Post.Find, Posts.Post.FindParent, Terms.Term.Find and Terms.Term.FindParent do not replay memo side effects. The lookup inside the memo callback is computed from the tables. The taxonomy- or post-type-prefix memo entry that the PHP callback fills is not updated, and neither is the fresh Path's segment memo. Neither changes an answer.
- Users.Changed models `in_array`'s loose comparison of the role as strict membership. Loose string/number equality is not modelled.
- Engine.DiffersExcept, Engine.DiffersOn: `!==` is modelled as datatype inequality. This is exact for the value kinds modelled, and there are no floats.
- A PHP array key that is a canonical integer string is not turned into an integer, so `str_starts_with` on such a key (a TypeError under strict types) is not modelled.
- Engine.Merge: Collection::merge is array_merge, which renumbers integer keys. So a metadata column such as "m:2024" (the PHP key 2024) becomes key 0 after Terms.Term.SetMetadata, Posts.Post.SetMetadata or Users.User.SetMetadata, and term meta "0" is written. The model keeps every key as its string and merges by key, so it writes "2024".
- Logging.SlotOf: an array- or float-valued status raises a TypeError or is truncated in `isset`. The model has no floats and counts an array nowhere.
- Users.User.SetSocialProfiles: profile values are strings, so the TypeError the closures raise for a non-string value is not modelled.
- Terms.Persisted: when get_term returns no term after a write, `$this->term->term_id` is null and the model still stores the meta_input entries under a null term id. WordPress's update_term_meta refuses a null id and writes nothing; that refusal is not modelled.
- TermImporting.Import, Posts.MemoHitRewrites, Users.MemoHitRaises, Terms.Persisted: PHP warnings are not modelled. The model follows PHP's default handling: the warning is reported and the read yields null. This covers two cases.
  - A skipped row reads the undefined `$term` in `$term?->find()` and `$term?->findParent()`, which `??` does not silence through a nullsafe call.
  - A memo hit leaves the held record null, and the engines then read a property on null: the post's ID and fields, the user's fields and roles, and the term's term_id after a null get_term.
  - Under an error handler that turns warnings into exceptions, as Laravel's console kernel installs, these paths raise an ErrorException instead. A skipped row then never reports SKIPPED, and a memo-hit post save raises before its write.
- Logging.Unique: Collection::unique() is array_unique with loose comparison, so header keys such as "1" and "01" would merge into one column. The model compares strictly; the importers' fixed header keys are distinct under both comparisons.
- TypeError messages are shortened to the argument or return type they name.
- Posts.Post.constructor: the PHP default `$type = 'post'` has no counterpart; the caller always passes the type.
- Importers other than terms, the console command, file discovery and the source adapters are outside this model.

## Findings

| source | as written | input that shows it | evidently intended | confidence | as-written member | corrected member |
|---|---|---|---|---|---|---|
| src/Logging/ImportLog.php:84-92 | the cell closure is declared `: string` in a strict-types file, so any non-string cell raises TypeError | a term import whose term was found: its entry's `id` is the integer term_id (src/Importers/TermImporter.php:47) | cells of any type, as the method's documented `array<array<mixed>>` rows say | not executed | Logging.DetailsAsWrittenRejectsTermIds | Logging.DetailsCells |
