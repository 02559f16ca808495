/** Values exchanged with the HTTP transport: header sets, responses,
    URLs and the byte type of response bodies. */
module Http {

  datatype Option<+T> = None | Some(value: T)

  newtype byte = x: int | 0 <= x < 256

  /** A header value as Node.js presents it: a single string, or an
      array of strings (as for `set-cookie`). */
  datatype HeaderValue = One(text: string) | Many(texts: seq<string>)

  /** A header object, in the order its properties were written. */
  type Headers = seq<(string, HeaderValue)>

  /** The head of a response handed over by the transport. */
  datatype Response = Response(statusCode: int, headers: Headers)

  /** A request target. `url.resolve` is not computed here: a redirect
      target is kept as the term `Resolved(base, location)`, which stands
      for `url.resolve(base, location)`. */
  datatype Url = Raw(text: string) | Resolved(base: Url, location: string)

  /** The value a property lookup `headers[name]` yields: the last write
      under `name`, or nothing when the object has no such property. */
  function Get(h: Headers, name: string): Option<HeaderValue>
  {
    if h == [] then None
    else if h[|h| - 1].0 == name then Some(h[|h| - 1].1)
    else Get(h[..|h| - 1], name)
  }

  /** A lookup finds a name exactly when some pair carries it, and then
      yields the value of the last such pair. */
  lemma {:induction false} GetLast(h: Headers, name: string)
    ensures Get(h, name).None? <==> forall i :: 0 <= i < |h| ==> h[i].0 != name
    ensures Get(h, name).Some? ==> exists i :: 0 <= i < |h| && h[i] == (name, Get(h, name).value)
                                              && forall j :: i < j < |h| ==> h[j].0 != name
  {
    if h != [] && h[|h| - 1].0 != name {
      GetLast(h[..|h| - 1], name);
      assert forall i :: 0 <= i < |h| - 1 ==> h[..|h| - 1][i] == h[i];
    }
  }

  /** The header map of an outbound response after `setHeader(name, value)`
      has been called for every pair of `h`, in order. */
  function ApplyHeaders(m: map<string, HeaderValue>, h: Headers): map<string, HeaderValue>
  {
    if h == [] then m
    else ApplyHeaders(m, h[..|h| - 1])[h[|h| - 1].0 := h[|h| - 1].1]
  }

  /** Copying a header set onto a response gives every copied name the
      value the header set holds for it (last write wins) and leaves every
      other name as it was. */
  lemma {:induction false} ApplyHeadersGet(m: map<string, HeaderValue>, h: Headers, name: string)
    ensures Get(h, name).Some? ==> name in ApplyHeaders(m, h) && ApplyHeaders(m, h)[name] == Get(h, name).value
    ensures Get(h, name).None? ==> (name in ApplyHeaders(m, h) <==> name in m)
    ensures Get(h, name).None? && name in m ==> ApplyHeaders(m, h)[name] == m[name]
  {
    if h != [] {
      ApplyHeadersGet(m, h[..|h| - 1], name);
    }
  }

  function LowerChar(c: char): char
  {
    if 'A' <= c <= 'Z' then (c as int + 32) as char else c
  }

  /** `String.prototype.toLowerCase`, on the letters that can matter to
      the comparisons made with its result (ASCII letters). */
  function ToLower(s: string): (r: string)
    ensures |r| == |s|
    ensures forall i :: 0 <= i < |s| ==> r[i] == LowerChar(s[i])
  {
    if s == [] then [] else ToLower(s[..|s| - 1]) + [LowerChar(s[|s| - 1])]
  }

  /** Lower-casing twice is lower-casing once. */
  lemma ToLowerIdempotent(s: string)
    ensures ToLower(ToLower(s)) == ToLower(s)
  {
    assert forall i :: 0 <= i < |s| ==> ToLower(ToLower(s))[i] == ToLower(s)[i];
  }
}
