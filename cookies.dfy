/** The cookie jar a caller hands to the client, and the `set-cookie`
    values a response carries. */
module Cookies {
  import opened Http

  /** `new Cookie(raw)`: the parsing of the raw header text into name,
      value and attributes is not part of this model. */
  datatype Cookie = Cookie(raw: string)

  /** The jar the `jar()` factory creates: an ordered list of cookies. */
  class Jar {
    var cookies: seq<Cookie>

    constructor ()
      ensures cookies == []
    {
      cookies := [];
    }

    method Add(c: Cookie)
      modifies this
      ensures cookies == old(cookies) + [c]
    {
      cookies := cookies + [c];
    }
  }

  /** The raw `set-cookie` values of a header set, in header order: every
      element of an array value, or the single string value. */
  function SetCookieValues(h: Headers): seq<string>
  {
    match Get(h, "set-cookie")
    case None => []
    case Some(One(v)) => [v]
    case Some(Many(vs)) => vs
  }

  function Parsed(values: seq<string>): (r: seq<Cookie>)
    ensures |r| == |values|
    ensures forall i :: 0 <= i < |values| ==> r[i] == Cookie(values[i])
  {
    if values == [] then [] else Parsed(values[..|values| - 1]) + [Cookie(values[|values| - 1])]
  }
}
