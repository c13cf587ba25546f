/**
 * The parts of the web framework's request and response objects that the
 * OAuth route guard reads or writes.
 */
module Http {
  import opened Common

  /**
   * An incoming request: its scheme, host, path and client address, its
   * cookies, and its query arguments (each key with its first value).
   */
  datatype Request = Request(
    scheme: string,
    host: string,
    path: string,
    ip: string,
    cookies: map<string, string>,
    args: map<string, string>)

  /** A response produced by a wrapped handler; only its cookies are touched. */
  datatype Response = Response(status: nat, body: string, cookies: map<string, string>)

  /** `mapping.get(key)`: the value under `key`, or `None`. */
  function Get(m: map<string, string>, key: string): (r: Option<string>)
    ensures r.Some? <==> key in m
    ensures r.Some? ==> r.value == m[key]
  {
    if key in m then Some(m[key]) else None
  }

  /** `mapping.get(key, default)`. */
  function GetOr(m: map<string, string>, key: string, default: string): (r: string)
    ensures key in m ==> r == m[key]
    ensures key !in m ==> r == default
  {
    if key in m then m[key] else default
  }

  /** Python truthiness of an optional string: present and not empty. */
  predicate Truthy(s: Option<string>)
  {
    s.Some? && s.value != ""
  }
}
