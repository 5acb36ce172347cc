/** What the forms and pages put on the wire, abstracted from axios: the requests they send,
    the multipart bodies they build, and how an awaited call settles. */
module Http {
  import opened Wrappers
  import opened Types

  /** One value of a multipart body: a text field or a chosen file. */
  datatype Part = Text(text: string) | Blob(file: File)

  datatype Entry = Entry(name: string, value: Part)

  /** The value `FormData.get(name)` returns: the first entry with that name. */
  function Lookup(entries: seq<Entry>, name: string): (r: Option<Part>)
    ensures r.None? <==> forall i :: 0 <= i < |entries| ==> entries[i].name != name
    ensures r.Some? ==> exists i :: 0 <= i < |entries| && entries[i] == Entry(name, r.value)
  {
    if entries == [] then None
    else if entries[0].name == name then Some(entries[0].value)
    else
      var r := Lookup(entries[1..], name);
      assert r.Some? ==> entries[1..][0..] == entries[1..];
      r
  }

  /** No two entries of the body share a name. */
  predicate DistinctNames(entries: seq<Entry>) {
    forall i, j :: 0 <= i < j < |entries| ==> entries[i].name != entries[j].name
  }

  /** In a body without repeated names, looking a name up finds the one entry with it. */
  lemma {:induction false} LookupDistinct(entries: seq<Entry>, i: nat)
    requires DistinctNames(entries) && i < |entries|
    ensures Lookup(entries, entries[i].name) == Some(entries[i].value)
  {
    if i > 0 {
      assert entries[1..][i - 1] == entries[i];
      assert entries[0].name != entries[i].name;
      LookupDistinct(entries[1..], i - 1);
    }
  }

  /** Putting an entry in front: its own name finds it, any other name looks further. */
  lemma LookupCons(e: Entry, rest: seq<Entry>, name: string)
    ensures Lookup([e] + rest, name) == (if e.name == name then Some(e.value) else Lookup(rest, name))
  {
    assert ([e] + rest)[1..] == rest;
  }

  /** An entry whose name the rest lacks keeps the names distinct. */
  lemma DistinctCons(e: Entry, rest: seq<Entry>)
    requires DistinctNames(rest)
    requires forall i :: 0 <= i < |rest| ==> rest[i].name != e.name
    ensures DistinctNames([e] + rest)
  {
    var p := [e] + rest;
    forall i, j | 0 <= i < j < |p|
      ensures p[i].name != p[j].name
    {
      assert p[j] == rest[j - 1];
      if i > 0 {
        assert p[i] == rest[i - 1];
      }
    }
  }

  /** A URL built by putting an id between a fixed prefix and suffix names one id only. */
  lemma AffixInjective(prefix: string, a: string, b: string, suffix: string)
    requires prefix + a + suffix == prefix + b + suffix
    ensures a == b
  {
    var u := prefix + a + suffix;
    assert |a| == |b|;
    assert a == u[|prefix|..|prefix| + |a|];
    assert b == (prefix + b + suffix)[|prefix|..|prefix| + |b|];
  }

  datatype Request = Get(url: string) | Post(url: string, body: seq<Entry>) | Delete(url: string)

  /** How an awaited call settles: the response data, or a rejection carrying the server's
      `response.data.detail` text when it sent one. */
  datatype Outcome<+T> = Success(value: T) | Failure(detail: Option<string>)

  /** A multipart body under construction (`new FormData()` and its `append`). */
  class FormData {
    var entries: seq<Entry>

    constructor ()
      ensures entries == []
    {
      entries := [];
    }

    method Append(name: string, value: Part)
      modifies this
      ensures entries == old(entries) + [Entry(name, value)]
    {
      entries := entries + [Entry(name, value)];
    }
  }

  /** The session-bound client as the pages and forms see it: the requests issued through it,
      in order. How each settles is given to the callers as an `Outcome`. */
  class RequestLog {
    var sent: seq<Request>

    constructor ()
      ensures sent == []
    {
      sent := [];
    }

    method Send(r: Request)
      modifies this
      ensures sent == old(sent) + [r]
    {
      sent := sent + [r];
    }
  }
}
