/**
 * The parsed query of a URL, as Go's net/url package keeps it in a
 * `url.Values`: each key maps to the list of its values, in order.
 * Parsing and percent-encoding of the raw query string are not modelled.
 */
module UrlValues {

  type Query = map<string, seq<string>>

  /** Values.Get: the first value of the key, or "" when the key is absent or has none. */
  function Get(q: Query, key: string): string {
    if key in q && |q[key]| > 0 then q[key][0] else ""
  }

  /** Values.Del: the key and all its values are removed. */
  function Del(q: Query, key: string): Query {
    q - {key}
  }

  /** Values.Set: the key's values are replaced by the single given value. */
  function Set(q: Query, key: string, value: string): Query {
    q[key := [value]]
  }
}
