/**
 * The request as the resolver and the link builder read it: the parameters of an
 * `HttpServletRequest`, in enumeration order, each with its values in order. A
 * servlet parameter always carries at least one value, so a parameter is a first
 * value and the rest.
 */
module ServletRequest {
  import opened Wrappers
  import opened Uris

  datatype Param = Param(name: string, first: string, rest: seq<string>) {
    function Values(): seq<string> {
      [first] + rest
    }
  }

  type Request = seq<Param>

  /** `getParameterNames()`, as a sequence in enumeration order. */
  function ParameterNames(req: Request): (names: seq<string>)
    ensures |names| == |req|
    ensures forall k | 0 <= k < |req| :: names[k] == req[k].name
  {
    if req == [] then [] else [req[0].name] + ParameterNames(req[1..])
  }

  /** `getParameterValues(name)`: all values of the parameter, or `None` (null) when it is absent. */
  function GetParameterValues(req: Request, name: string): (r: Option<seq<string>>)
    ensures r.None? <==> name !in ParameterNames(req)
    ensures r.Some? ==> |r.value| > 0
  {
    if req == [] then None
    else if req[0].name == name then Some(req[0].Values())
    else GetParameterValues(req[1..], name)
  }

  /** `getParameter(name)`: the first value of the parameter, or `None` (null) when it is absent. */
  function GetParameter(req: Request, name: string): (r: Option<string>)
    ensures r.None? <==> GetParameterValues(req, name).None?
    ensures r.Some? ==> r.value == GetParameterValues(req, name).value[0]
  {
    match GetParameterValues(req, name)
    case None => None
    case Some(values) => Some(values[0])
  }

  /** A container never reports the same parameter name twice. */
  predicate DistinctNames(req: Request) {
    forall i, j | 0 <= i < j < |req| :: req[i].name != req[j].name
  }

  /** With distinct names, looking up a parameter's own name finds that parameter. */
  lemma {:induction false} GetOwnParameter(req: Request, k: nat)
    requires DistinctNames(req)
    requires k < |req|
    ensures GetParameterValues(req, req[k].name) == Some(req[k].Values())
    ensures GetParameter(req, req[k].name) == Some(req[k].first)
  {
    if k > 0 {
      assert req[0].name != req[k].name;
      assert req[1..][k - 1] == req[k];
      GetOwnParameter(req[1..], k - 1);
    }
  }

  /** Dropping the last parameter keeps names distinct, and the last name is then absent. */
  lemma DistinctNamesInit(req: Request)
    requires DistinctNames(req) && req != []
    ensures DistinctNames(req[..|req| - 1])
    ensures GetParameter(req[..|req| - 1], req[|req| - 1].name).None?
  {
    var init := req[..|req| - 1];
    assert forall k | 0 <= k < |init| :: init[k] == req[k];
    assert forall k | 0 <= k < |init| :: ParameterNames(init)[k] != req[|req| - 1].name;
  }

  /** Looking a name up after one more parameter: earlier parameters win. */
  lemma {:induction false} GetParameterAppend(request: Request, param: Param, name: string)
    ensures GetParameter(request + [param], name) ==
      if GetParameter(request, name).Some? then GetParameter(request, name)
      else if param.name == name then Some(param.first)
      else None
  {
    if request != [] {
      assert (request + [param])[1..] == request[1..] + [param];
      GetParameterAppend(request[1..], param, name);
    }
  }

  /** `GetParameterAppend` for a request split before its last parameter. */
  lemma GetParameterSnoc(req: Request, name: string)
    requires req != []
    ensures var last := req[|req| - 1];
      GetParameter(req, name) ==
        if GetParameter(req[..|req| - 1], name).Some? then GetParameter(req[..|req| - 1], name)
        else if last.name == name then Some(last.first)
        else None
  {
    assert req == req[..|req| - 1] + [req[|req| - 1]];
    GetParameterAppend(req[..|req| - 1], req[|req| - 1], name);
  }

  // ---------------------------------------------------------------------------
  // Reading a query string back as a request

  /** Adds one query pair to a parsed request, the way a container groups repeated names. */
  function AddPair(req: Request, pair: QueryPair): Request {
    if req == [] then [Param(pair.name, pair.value, [])]
    else if req[0].name == pair.name then [req[0].(rest := req[0].rest + [pair.value])] + req[1..]
    else [req[0]] + AddPair(req[1..], pair)
  }

  /** The request parameters a container derives from a query, pair by pair. */
  function FromQuery(query: seq<QueryPair>): Request {
    if query == [] then []
    else AddPair(FromQuery(query[..|query| - 1]), query[|query| - 1])
  }

  lemma {:induction false} GetParameterAddPair(req: Request, pair: QueryPair, name: string)
    ensures GetParameter(AddPair(req, pair), name) ==
      if GetParameter(req, name).Some? then GetParameter(req, name)
      else if pair.name == name then Some(pair.value)
      else None
  {
    if req != [] && req[0].name != pair.name {
      GetParameterAddPair(req[1..], pair, name);
    }
  }

  /** `getParameter` on a request read from a query gives the first value in the query. */
  lemma {:induction false} FromQueryGetParameter(query: seq<QueryPair>, name: string)
    ensures GetParameter(FromQuery(query), name) == FirstValue(query, name)
  {
    if query != [] {
      var init, last := query[..|query| - 1], query[|query| - 1];
      assert query == init + [last];
      FromQueryGetParameter(init, name);
      GetParameterAddPair(FromQuery(init), last, name);
      FirstValueAppend(init, last, name);
    }
  }
}
