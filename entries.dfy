/**
 * A feed entry as the BTC Map elements endpoint returns it, after JSON decoding:
 * a dictionary of top-level string fields and, optionally, the nested `tags` dictionary.
 * The entry's `tags` key is held only in `tags`: `fields` stands for the other
 * keys and never holds the key `"tags"`.
 */
module Entries {
  import opened Wrappers

  datatype Entry = Entry(fields: map<string, string>, tags: Option<map<string, string>>)

  /** Python's `d.get(key, default)` on a dictionary of strings. */
  function Get(m: map<string, string>, key: string, default: string): (r: string)
    ensures key in m ==> r == m[key]
    ensures key !in m ==> r == default
  {
    if key in m then m[key] else default
  }

  /** `entry.get('tags', {})`: the nested tag dictionary, or an empty one when the entry has none. */
  function TagsOf(e: Entry): (t: map<string, string>)
    ensures e.tags.Some? ==> t == e.tags.value
    ensures e.tags.None? ==> t == map[]
  {
    match e.tags
    case Some(t) => t
    case None => map[]
  }
}
