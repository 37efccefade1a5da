/** The part of Go's `net/url` the audio client uses: form values. */
module Url {

  /** `url.Values`: each key maps to a list of values. */
  type Values = map<string, seq<string>>

  /** `Values.Set`: makes `value` the only value of `key`, replacing any earlier ones. */
  function Set(v: Values, key: string, value: string): (r: Values)
    ensures r.Keys == v.Keys + {key} && r[key] == [value]
    ensures forall k | k in v && k != key :: r[k] == v[k]
  {
    v[key := [value]]
  }
}
