/**
 * The HTTP surface the handler sees: request headers by canonical name with
 * their first value, and the response headers it adds, in order.
 */
module Http {
  datatype Header = Header(name: string, value: string)

  type Request = map<string, string>

  /** `r.Header.Get(name)`: the header's value, "" when absent. */
  function Get(request: Request, name: string): string {
    if name in request then request[name] else ""
  }

  /** `w.Header().Get(name)` on the added headers: the first value added under `name`, "" if none. */
  function HeaderGet(headers: seq<Header>, name: string): (v: string)
    ensures (forall i :: 0 <= i < |headers| ==> headers[i].name != name) ==> v == ""
    ensures v != "" ==> exists i :: 0 <= i < |headers| && headers[i] == Header(name, v)
    ensures forall i ::
      (0 <= i < |headers| && headers[i].name == name && forall j :: 0 <= j < i ==> headers[j].name != name)
      ==> v == headers[i].value
    decreases |headers|
  {
    if headers == [] then ""
    else if headers[0].name == name then headers[0].value
    else HeaderGet(headers[1..], name)
  }

  /** Headers added earlier under other names do not hide a later one. */
  lemma {:induction false} HeaderGetSkips(before: seq<Header>, after: seq<Header>, name: string)
    requires forall i :: 0 <= i < |before| ==> before[i].name != name
    ensures HeaderGet(before + after, name) == HeaderGet(after, name)
    decreases |before|
  {
    if before != [] {
      assert (before + after)[0] == before[0];
      assert (before + after)[1..] == before[1..] + after;
      HeaderGetSkips(before[1..], after, name);
    } else {
      assert before + after == after;
    }
  }
}
