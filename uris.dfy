/**
 * URIs as the link code handles them: a base (scheme, authority and fixed path),
 * path segments appended to it, and an ordered list of query pairs. Percent-encoding
 * and rendering to text are not part of this model.
 */
module Uris {
  import opened Wrappers

  datatype QueryPair = QueryPair(name: string, value: string)

  datatype Uri = Uri(base: string, segments: seq<string>, query: seq<QueryPair>)

  /** The value of the first pair called `name`, if any. */
  function FirstValue(query: seq<QueryPair>, name: string): (r: Option<string>)
    ensures r.None? <==> forall k | 0 <= k < |query| :: query[k].name != name
    ensures r.Some? ==> exists k | 0 <= k < |query| :: query[k] == QueryPair(name, r.value)
  {
    if query == [] then None
    else if query[0].name == name then Some(query[0].value)
    else
      var r := FirstValue(query[1..], name);
      assert forall k | 0 <= k < |query[1..]| :: query[1..][k] == query[k + 1];
      r
  }

  /** Looking a name up in a longer query: pairs already there win over appended ones. */
  lemma {:induction false} FirstValueAppend(query: seq<QueryPair>, pair: QueryPair, name: string)
    ensures FirstValue(query + [pair], name) ==
      if FirstValue(query, name).Some? then FirstValue(query, name)
      else if pair.name == name then Some(pair.value)
      else None
  {
    if query != [] {
      assert (query + [pair])[1..] == query[1..] + [pair];
      FirstValueAppend(query[1..], pair, name);
    }
  }

  /** The pairs called `name`, in query order. */
  function PairsNamed(query: seq<QueryPair>, name: string): seq<QueryPair> {
    if query == [] then []
    else (if query[0].name == name then [query[0]] else []) + PairsNamed(query[1..], name)
  }

  lemma {:induction false} PairsNamedAppend(a: seq<QueryPair>, b: seq<QueryPair>, name: string)
    ensures PairsNamed(a + b, name) == PairsNamed(a, name) + PairsNamed(b, name)
  {
    if a != [] {
      assert (a + b)[1..] == a[1..] + b;
      PairsNamedAppend(a[1..], b, name);
    } else {
      assert a + b == b;
    }
  }

  lemma PairsNamedSingle(pair: QueryPair, name: string)
    ensures PairsNamed([pair], name) == if pair.name == name then [pair] else []
  {
    assert [pair][1..] == [];
  }

  /** `UriUtils.buildUri(baseUri, segment)`: the base URI with one more path segment. */
  function BuildUri(baseUri: Uri, segment: string): Uri {
    baseUri.(segments := baseUri.segments + [segment])
  }

  /** `UriComponentsBuilder`, reduced to starting from a URI and appending query parameters. */
  class UriBuilder {
    var uri: Uri

    /** `UriComponentsBuilder.fromUri`: a builder holding every part of `u`. */
    constructor FromUri(u: Uri)
      ensures uri == u
    {
      uri := u;
    }

    /**
     * `queryParam(name, value)`, reduced to appending one pair at the end of the
     * query. Spring's builder groups the values of a name together, which gives a
     * different order only when the name already occurs in the query.
     */
    method QueryParam(name: string, value: string)
      modifies this
      ensures uri == old(uri).(query := old(uri).query + [QueryPair(name, value)])
    {
      uri := uri.(query := uri.query + [QueryPair(name, value)]);
    }
  }
}
