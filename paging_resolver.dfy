/**
 * `PagingAndSortingMethodArgumentResolver`: turns the page, limit and sort query
 * parameters of a request into a page request. The query's page number is 1-based
 * and becomes a 0-based index; the limit falls back to a default and is capped at a
 * maximum; each sort value gives one order, whose direction comes from the parameter
 * `<value>.dir`. A `@PageableDefaults` annotation on the handler parameter replaces
 * all of this.
 */
module PagingResolver {
  import opened Wrappers
  import opened JavaLang
  import opened ServletRequest
  import opened RestConfig

  /** The page asked for when the request names none: pages are 1-based in the query. */
  const DEFAULT_PAGE: Int32 := 1

  datatype Direction = ASC | DESC

  datatype Order = Order(direction: Direction, property: string)

  /** Spring Data's `PageRequest`: a 0-based page index, a size and an optional sort. */
  datatype PageRequest = PageRequest(page: Int32, size: Int32, sort: Option<seq<Order>>)

  /** What the resolver hands to the handler: the configuration and the page request. */
  datatype PagingAndSorting = PagingAndSorting(config: Config, pageRequest: PageRequest) {
    /** `getPageSize()`. */
    function PageSize(): Int32 {
      pageRequest.size
    }
  }

  /** The annotations on the handler's parameter; only `@PageableDefaults` matters. */
  datatype Annotation =
    | PageableDefaults(pageNumber: Int32, value: Int32)
    | OtherAnnotation(name: string)

  /**
   * What `nameForParam` finds: no repository-information resolver at all, a resolver
   * that yields no repository information (`null`), or the resource mapping the
   * configuration holds for the resolved domain type (if any).
   */
  datatype SortNaming =
    | NoRepoInfoResolver
    | NoRepoInfo
    | RepoInfoResolved(mapping: Option<ResourceMapping>)

  /**
   * The exceptions that end resolution: `Sort.Direction.valueOf`'s
   * `IllegalArgumentException` for an unknown name, and the `NullPointerException`
   * of asking absent repository information for its domain type.
   */
  datatype Error = NoSuchDirection(name: string) | NullRepoInfo

  // ---------------------------------------------------------------------------
  // @PageableDefaults

  /** The page request of the first `@PageableDefaults` annotation, if there is one. */
  function FirstDefaults(annotations: seq<Annotation>): Option<PageRequest> {
    if annotations == [] then None
    else match annotations[0]
      case PageableDefaults(pageNumber, value) => Some(PageRequest(pageNumber, value, None))
      case OtherAnnotation(_) => FirstDefaults(annotations[1..])
  }

  lemma {:induction false} FirstDefaultsAppend(a: seq<Annotation>, b: seq<Annotation>)
    ensures FirstDefaults(a + b) == if FirstDefaults(a).Some? then FirstDefaults(a) else FirstDefaults(b)
  {
    if a == [] {
      assert a + b == b;
    } else {
      assert (a + b)[1..] == a[1..] + b;
      FirstDefaultsAppend(a[1..], b);
    }
  }

  /** Only the first `@PageableDefaults` counts: its page number and size, and no sort. */
  lemma {:induction false} FirstDefaultsIsFirst(annotations: seq<Annotation>, k: nat)
    requires k < |annotations| && annotations[k].PageableDefaults?
    requires forall j | 0 <= j < k :: !annotations[j].PageableDefaults?
    ensures FirstDefaults(annotations) ==
      Some(PageRequest(annotations[k].pageNumber, annotations[k].value, None))
  {
    if k > 0 {
      assert annotations[1..][k - 1] == annotations[k];
      FirstDefaultsIsFirst(annotations[1..], k - 1);
    }
  }

  /** Without any `@PageableDefaults` annotation there are no defaults. */
  lemma {:induction false} NoDefaults(annotations: seq<Annotation>)
    requires forall j | 0 <= j < |annotations| :: !annotations[j].PageableDefaults?
    ensures FirstDefaults(annotations) == None
  {
    if annotations != [] {
      NoDefaults(annotations[1..]);
    }
  }

  // ---------------------------------------------------------------------------
  // Page and limit

  /** The 1-based page: the page parameter when it has text and parses, else `DEFAULT_PAGE`. */
  function RequestedPage(config: Config, request: Request): Int32 {
    match GetParameter(request, config.pageParamName)
    case Some(sPage) =>
      if HasText(sPage) then ParseInt(sPage).GetOr(DEFAULT_PAGE) else DEFAULT_PAGE
    case None => DEFAULT_PAGE
  }

  /**
   * The page is the parsed page parameter, or 1 when the parameter is absent, blank
   * or not an `int`.
   */
  lemma RequestedPageSpec(config: Config, request: Request)
    ensures RequestedPage(config, request) ==
      match GetParameter(request, config.pageParamName)
      case Some(s) => if ParseInt(s).Some? then ParseInt(s).value else 1
      case None => 1
  {
    var sPage := GetParameter(request, config.pageParamName);
    if sPage.Some? && ParseInt(sPage.value).Some? {
      ParsedHasText(sPage.value);
    }
  }

  /** The page size: the limit parameter capped at the maximum, or the default size. */
  function RequestedLimit(config: Config, request: Request): Int32 {
    match GetParameter(request, config.limitParamName)
    case Some(sLimit) =>
      if HasText(sLimit) then
        match ParseInt(sLimit)
        case Some(n) => Min(n, config.maxPageSize)
        case None => config.defaultPageSize
      else config.defaultPageSize
    case None => config.defaultPageSize
  }

  /**
   * The size is the default when the limit parameter is absent, blank or not an
   * `int`; otherwise it is the parsed limit, capped so that it never exceeds the
   * maximum.
   */
  lemma RequestedLimitSpec(config: Config, request: Request)
    ensures GetParameter(request, config.limitParamName).Some? &&
            ParseInt(GetParameter(request, config.limitParamName).value).Some? ==>
      var n := ParseInt(GetParameter(request, config.limitParamName).value).value;
      RequestedLimit(config, request) <= config.maxPageSize &&
      RequestedLimit(config, request) <= n &&
      (RequestedLimit(config, request) == n || RequestedLimit(config, request) == config.maxPageSize)
    ensures GetParameter(request, config.limitParamName).None? ||
            ParseInt(GetParameter(request, config.limitParamName).value).None? ==>
      RequestedLimit(config, request) == config.defaultPageSize
  {
    var sLimit := GetParameter(request, config.limitParamName);
    if sLimit.Some? && ParseInt(sLimit.value).Some? {
      ParsedHasText(sLimit.value);
    }
  }

  // ---------------------------------------------------------------------------
  // Sort orders

  /** `Sort.Direction.valueOf`: the constant with exactly this name. */
  function ValueOf(name: string): (r: Option<Direction>)
    ensures r == Some(ASC) <==> name == "ASC"
    ensures r == Some(DESC) <==> name == "DESC"
  {
    if name == "ASC" then Some(ASC)
    else if name == "DESC" then Some(DESC)
    else None
  }

  /** The direction for the value of a `<field>.dir` parameter: ASC when it is absent. */
  function DirectionFor(sortDir: Option<string>): Result<Direction, Error> {
    match sortDir
    case None => Ok(ASC)
    case Some(s) =>
      match ValueOf(ToUpperCase(s))
      case Some(dir) => Ok(dir)
      case None => Err(NoSuchDirection(ToUpperCase(s)))
  }

  /**
   * An absent direction means ascending; a given one is read without regard to the
   * case of its letters, and anything other than "asc" or "desc" is an error rather
   * than a default.
   */
  lemma DirectionForSpec(sortDir: Option<string>)
    ensures sortDir.None? ==> DirectionFor(sortDir) == Ok(ASC)
    ensures sortDir.Some? ==>
      var s := sortDir.value;
      (DirectionFor(sortDir) == Ok(ASC) <==>
        |s| == 3 && (s[0] == 'a' || s[0] == 'A') && (s[1] == 's' || s[1] == 'S') && (s[2] == 'c' || s[2] == 'C')) &&
      (DirectionFor(sortDir) == Ok(DESC) <==>
        |s| == 4 && (s[0] == 'd' || s[0] == 'D') && (s[1] == 'e' || s[1] == 'E') &&
        (s[2] == 's' || s[2] == 'S') && (s[3] == 'c' || s[3] == 'C'))
  {
    if sortDir.Some? {
      UpperIsAsc(sortDir.value);
      UpperIsDesc(sortDir.value);
    }
  }

  /**
   * `nameForParam`: the property a sort value names, mapped through the resource
   * mapping of the domain type when there is a repository-information resolver and
   * such a mapping; a resolver that yields no repository information fails.
   */
  function NameForParam(naming: SortNaming, orderParam: string): (r: Result<string, Error>)
    ensures r.Err? <==> naming.NoRepoInfo?
    ensures r.Err? ==> r.error == NullRepoInfo
    ensures r.Ok? && r.value != orderParam ==> naming.RepoInfoResolved? && naming.mapping.Some?
  {
    match naming
    case NoRepoInfoResolver => Ok(orderParam)
    case NoRepoInfo => Err(NullRepoInfo)
    case RepoInfoResolved(mapping) =>
      match mapping
      case Some(repoMapping) => Ok(repoMapping.nameForPath(orderParam))
      case None => Ok(orderParam)
  }

  /**
   * The order one sort value gives: its property name and the direction of
   * `<value>.dir`; the name is looked up first, so its failure comes first.
   */
  function OrderFor(naming: SortNaming, request: Request, orderParam: string): Result<Order, Error> {
    match NameForParam(naming, orderParam)
    case Err(e) => Err(e)
    case Ok(name) =>
      match DirectionFor(GetParameter(request, orderParam + ".dir"))
      case Ok(dir) => Ok(Order(dir, name))
      case Err(e) => Err(e)
  }

  /** The orders of a list of sort values, in order; the first failing value ends it. */
  function Orders(naming: SortNaming, request: Request, values: seq<string>): Result<seq<Order>, Error> {
    if values == [] then Ok([])
    else
      match Orders(naming, request, values[..|values| - 1])
      case Err(e) => Err(e)
      case Ok(orders) =>
        match OrderFor(naming, request, values[|values| - 1])
        case Err(e) => Err(e)
        case Ok(order) => Ok(orders + [order])
  }

  /** Exactly one order per sort value, in the order the values come. */
  lemma {:induction false} OrdersOnePerValue(naming: SortNaming, request: Request, values: seq<string>)
    requires Orders(naming, request, values).Ok?
    ensures |Orders(naming, request, values).value| == |values|
    ensures forall k | 0 <= k < |values| ::
      OrderFor(naming, request, values[k]) == Ok(Orders(naming, request, values).value[k])
  {
    if values != [] {
      var init := values[..|values| - 1];
      OrdersOnePerValue(naming, request, init);
      assert forall k | 0 <= k < |init| :: init[k] == values[k];
    }
  }

  /**
   * The orders are made exactly when every sort value's order can be made: its name
   * lookup succeeds and its `.dir` direction is valid.
   */
  lemma {:induction false} OrdersOkIffEveryValue(naming: SortNaming, request: Request, values: seq<string>)
    ensures Orders(naming, request, values).Ok? <==>
      forall k | 0 <= k < |values| :: OrderFor(naming, request, values[k]).Ok?
  {
    if values != [] {
      var init := values[..|values| - 1];
      OrdersOkIffEveryValue(naming, request, init);
      assert forall k | 0 <= k < |init| :: init[k] == values[k];
    }
  }

  /** The error reported is the one of the first sort value that fails. */
  lemma {:induction false} OrdersFailAtFirstBadValue(naming: SortNaming, request: Request, values: seq<string>, k: nat)
    requires k < |values| && OrderFor(naming, request, values[k]).Err?
    requires forall j | 0 <= j < k :: OrderFor(naming, request, values[j]).Ok?
    ensures Orders(naming, request, values) == Err(OrderFor(naming, request, values[k]).error)
  {
    var init := values[..|values| - 1];
    assert forall j | 0 <= j < |init| :: init[j] == values[j];
    if k == |values| - 1 {
      OrdersOkIffEveryValue(naming, request, init);
    } else {
      OrdersFailAtFirstBadValue(naming, request, init, k);
    }
  }

  /** Once a prefix of the sort values fails, the whole list fails with the same error. */
  lemma {:induction false} OrdersErrPersists(naming: SortNaming, request: Request, values: seq<string>, n: nat)
    requires n <= |values| && Orders(naming, request, values[..n]).Err?
    ensures Orders(naming, request, values) == Orders(naming, request, values[..n])
    decreases |values| - n
  {
    if n == |values| {
      assert values[..n] == values;
    } else {
      assert values[..n + 1][..n] == values[..n];
      OrdersErrPersists(naming, request, values, n + 1);
    }
  }

  /** The sort of the request: none without sort values, else the orders of the values. */
  function RequestedSort(config: Config, naming: SortNaming, request: Request): Result<Option<seq<Order>>, Error> {
    match GetParameterValues(request, config.sortParamName)
    case None => Ok(None)
    case Some(values) =>
      match Orders(naming, request, values)
      case Err(e) => Err(e)
      case Ok(orders) => Ok(if orders != [] then Some(orders) else None)
  }

  // ---------------------------------------------------------------------------
  // resolveArgument

  /** What `resolveArgument` produces for a handler parameter and a request. */
  function Resolve(config: Config, naming: SortNaming, annotations: seq<Annotation>, request: Request)
    : Result<PagingAndSorting, Error>
  {
    match FirstDefaults(annotations)
    case Some(pr) => Ok(PagingAndSorting(config, pr))
    case None =>
      match RequestedSort(config, naming, request)
      case Err(e) => Err(e)
      case Ok(sort) =>
        var page := RequestedPage(config, request);
        Ok(PagingAndSorting(config, PageRequest(Wrap(page - 1), RequestedLimit(config, request), sort)))
  }

  /**
   * The sort step of `resolveArgument`: no sort without sort values; otherwise one
   * order per value, in order, the name looked up before `.dir` is read, and the
   * first exception ends the loop; no orders at all give no sort either.
   */
  method ReadSort(config: Config, naming: SortNaming, request: Request)
    returns (r: Result<Option<seq<Order>>, Error>)
    ensures r == RequestedSort(config, naming, request)
  {
    var orderValues := GetParameterValues(request, config.sortParamName);
    if orderValues.None? {
      return Ok(None);
    }
    var values := orderValues.value;
    var orders: seq<Order> := [];
    for j := 0 to |values|
      invariant Orders(naming, request, values[..j]) == Ok(orders)
    {
      var orderParam := values[j];
      var name := NameForParam(naming, orderParam);
      if name.Err? {
        assert values[..j + 1][..j] == values[..j];
        OrdersErrPersists(naming, request, values, j + 1);
        return Err(name.error);
      }
      var sortDir := GetParameter(request, orderParam + ".dir");
      var dir: Direction := ASC;
      if sortDir.Some? {
        var named := ValueOf(ToUpperCase(sortDir.value));
        if named.None? {
          assert values[..j + 1][..j] == values[..j];
          OrdersErrPersists(naming, request, values, j + 1);
          return Err(NoSuchDirection(ToUpperCase(sortDir.value)));
        }
        dir := named.value;
      }
      orders := orders + [Order(dir, name.value)];
      assert values[..j + 1][..j] == values[..j];
    }
    assert values[..|values|] == values;
    if orders != [] {
      return Ok(Some(orders));
    }
    return Ok(None);
  }

  /**
   * The page step of `resolveArgument`: 1 unless the page parameter has text that
   * `parseInt` accepts, whose `NumberFormatException` is ignored.
   */
  method ReadPage(config: Config, request: Request) returns (page: Int32)
    ensures page == RequestedPage(config, request)
  {
    page := DEFAULT_PAGE;
    var sPage := GetParameter(request, config.pageParamName);
    if sPage.Some? && HasText(sPage.value) {
      var parsed := ParseInt(sPage.value);
      if parsed.Some? {
        page := parsed.value;
      }
    }
  }

  /**
   * The limit step of `resolveArgument`: the default page size unless the limit
   * parameter has text that `parseInt` accepts, which is then capped at the maximum.
   */
  method ReadLimit(config: Config, request: Request) returns (limit: Int32)
    ensures limit == RequestedLimit(config, request)
  {
    limit := config.defaultPageSize;
    var sLimit := GetParameter(request, config.limitParamName);
    if sLimit.Some? && HasText(sLimit.value) {
      var parsed := ParseInt(sLimit.value);
      if parsed.Some? {
        limit := Min(parsed.value, config.maxPageSize);
      }
    }
  }

  /**
   * The annotation loop of `resolveArgument`: it stops at the first
   * `@PageableDefaults` and takes its page number and size.
   */
  method FindDefaults(annotations: seq<Annotation>) returns (pr: Option<PageRequest>)
    ensures pr == FirstDefaults(annotations)
  {
    pr := None;
    for i := 0 to |annotations|
      invariant FirstDefaults(annotations[..i]) == None
    {
      if annotations[i].PageableDefaults? {
        pr := Some(PageRequest(annotations[i].pageNumber, annotations[i].value, None));
        assert annotations == annotations[..i] + annotations[i..];
        FirstDefaultsAppend(annotations[..i], annotations[i..]);
        return;
      }
      assert annotations[..i + 1] == annotations[..i] + [annotations[i]];
      FirstDefaultsAppend(annotations[..i], [annotations[i]]);
    }
    assert annotations[..|annotations|] == annotations;
  }

  /**
   * `resolveArgument`: the first `@PageableDefaults` annotation wins; otherwise the
   * page, the limit and each sort value are read from the request.
   */
  method ResolveArgument(config: Config, naming: SortNaming, annotations: seq<Annotation>, request: Request)
    returns (r: Result<PagingAndSorting, Error>)
    ensures r == Resolve(config, naming, annotations, request)
  {
    var pr := FindDefaults(annotations);
    if pr.Some? {
      assert Resolve(config, naming, annotations, request) == Ok(PagingAndSorting(config, pr.value));
      return Ok(PagingAndSorting(config, pr.value));
    }
    assert FirstDefaults(annotations) == None;

    var page := ReadPage(config, request);
    var limit := ReadLimit(config, request);

    var sort := ReadSort(config, naming, request);
    if sort.Err? {
      return Err(sort.error);
    }
    if sort.value.Some? {
      r := Ok(PagingAndSorting(config, PageRequest(Wrap(page as int - 1), limit, sort.value)));
    } else {
      r := Ok(PagingAndSorting(config, PageRequest(Wrap(page as int - 1), limit, None)));
    }
  }

  // ---------------------------------------------------------------------------
  // What a resolved page request promises

  /**
   * The first `@PageableDefaults` annotation alone decides the result: its page
   * number and size, no sort, whatever the request and the naming are.
   */
  lemma DefaultsShortCircuit(config: Config, naming: SortNaming, annotations: seq<Annotation>,
                             request: Request, k: nat)
    requires k < |annotations| && annotations[k].PageableDefaults?
    requires forall j | 0 <= j < k :: !annotations[j].PageableDefaults?
    ensures Resolve(config, naming, annotations, request) ==
      Ok(PagingAndSorting(config, PageRequest(annotations[k].pageNumber, annotations[k].value, None)))
  {
    FirstDefaultsIsFirst(annotations, k);
  }

  /**
   * Without `@PageableDefaults`, the 0-based index is the 1-based page minus one
   * (wrapping as Java's `int` does for the one page that has no predecessor), sorted
   * or not, and the size is the requested limit.
   */
  lemma ResolvedPageIndex(config: Config, naming: SortNaming, annotations: seq<Annotation>, request: Request)
    requires forall j | 0 <= j < |annotations| :: !annotations[j].PageableDefaults?
    requires Resolve(config, naming, annotations, request).Ok?
    ensures var pr := Resolve(config, naming, annotations, request).value.pageRequest;
      var page := RequestedPage(config, request);
      (page > MIN_INT ==> pr.page == page - 1) &&
      (page == MIN_INT ==> pr.page == MAX_INT) &&
      pr.size == RequestedLimit(config, request)
  {
    NoDefaults(annotations);
  }

  /**
   * Without `@PageableDefaults`, resolution fails exactly when there are sort values
   * and either the resolver yields no repository information (which is then the
   * error reported) or some sort value has a `.dir` parameter that is neither "asc"
   * nor "desc" in any letter case.
   */
  lemma ResolveFailureCases(config: Config, naming: SortNaming, annotations: seq<Annotation>, request: Request)
    requires forall j | 0 <= j < |annotations| :: !annotations[j].PageableDefaults?
    ensures Resolve(config, naming, annotations, request).Err? <==>
      GetParameterValues(request, config.sortParamName).Some? &&
      var values := GetParameterValues(request, config.sortParamName).value;
      values != [] &&
      (naming.NoRepoInfo? ||
       exists k | 0 <= k < |values| :: DirectionFor(GetParameter(request, values[k] + ".dir")).Err?)
    ensures (naming.NoRepoInfo? && GetParameterValues(request, config.sortParamName).Some? &&
             GetParameterValues(request, config.sortParamName).value != []) ==>
      Resolve(config, naming, annotations, request) == Err(NullRepoInfo)
  {
    NoDefaults(annotations);
    var values := GetParameterValues(request, config.sortParamName);
    if values.Some? {
      OrdersOkIffEveryValue(naming, request, values.value);
      if naming.NoRepoInfo? && values.value != [] {
        OrdersFailAtFirstBadValue(naming, request, values.value, 0);
      }
    }
  }

  /**
   * Without `@PageableDefaults`, a resolved request is unsorted exactly when there
   * are no sort values; otherwise it has one order per sort value, in the same order,
   * whose property is the value (mapped through the domain type's resource mapping
   * when there is one) and whose direction is that of `<value>.dir`.
   */
  lemma ResolvedSort(config: Config, naming: SortNaming, annotations: seq<Annotation>, request: Request)
    requires forall j | 0 <= j < |annotations| :: !annotations[j].PageableDefaults?
    requires Resolve(config, naming, annotations, request).Ok?
    ensures var sort := Resolve(config, naming, annotations, request).value.pageRequest.sort;
      var values := GetParameterValues(request, config.sortParamName);
      (sort.None? <==> values.None?) &&
      (sort.Some? ==>
        |sort.value| == |values.value| &&
        forall k | 0 <= k < |sort.value| ::
          sort.value[k].property ==
            (if naming.RepoInfoResolved? && naming.mapping.Some?
             then naming.mapping.value.nameForPath(values.value[k]) else values.value[k]) &&
          DirectionFor(GetParameter(request, values.value[k] + ".dir")) == Ok(sort.value[k].direction))
  {
    NoDefaults(annotations);
    var values := GetParameterValues(request, config.sortParamName);
    if values.Some? {
      OrdersOnePerValue(naming, request, values.value);
    }
  }
}
