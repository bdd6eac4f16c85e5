/**
 * `RepositoryRestRequest`: the per-request context of the REST layer. Its
 * constructor resolves the repository's resource mapping and, for an exported
 * repository, the link, repository, method invoker and entity metadata. Its link
 * methods build "next" and "previous" page links from the current request: every
 * request parameter except the page and limit parameters, then a fresh page and
 * limit.
 */
module RestRequest {
  import opened Wrappers
  import opened JavaLang
  import opened Uris
  import opened ServletRequest
  import opened RestConfig
  import opened PagingResolver

  /** `RepositoryInformation`, reduced to the name of the domain type. */
  datatype RepositoryInformation = RepositoryInformation(domainType: string)

  /** A repository bean, identified by name; its behaviour is not part of this model. */
  datatype Repository = Repository(beanName: string)

  /** `PersistentEntity`: the mapping metadata of a domain type. */
  datatype PersistentEntity = PersistentEntity(typeName: string)

  datatype RepositoryMethodInvoker = RepositoryMethodInvoker(repository: Option<Repository>, repoInfo: RepositoryInformation)

  /** `Repositories`: the lookups the constructor makes, by domain type. */
  datatype Repositories = Repositories(
    repositoryFor: string -> Option<Repository>,
    persistentEntityFor: string -> Option<PersistentEntity>)

  /** `ResourceMappingUtils.getResourceMapping`, for a repository and for an entity. */
  datatype ResourceMappings = ResourceMappings(
    forRepository: RepositoryInformation -> Option<ResourceMapping>,
    forEntity: Option<PersistentEntity> -> Option<ResourceMapping>)

  /** A HATEOAS link: a target and a relation name. Rendering the target as text is not modelled. */
  datatype Link = Link(href: Uri, rel: string)

  /** Spring Data's `Page`, reduced to `getNumber()`. */
  datatype Page = Page(number: Int32)

  /** The caller's `List<Link>`, which the link methods extend in place. */
  class LinkList {
    var links: seq<Link>

    constructor()
      ensures links == []
    {
      links := [];
    }

    /** `add(link)`: appends at the end. */
    method Add(link: Link)
      modifies this
      ensures links == old(links) + [link]
    {
      links := links + [link];
    }
  }

  // ---------------------------------------------------------------------------
  // Query parameters carried over into paging links

  /**
   * What `addQueryParameters` appends for the parameter names `names`: each name
   * other than the page and limit parameter names, with the request's first value.
   * The names are the request's own, so each has a value; a name without one would
   * add nothing.
   */
  function CopiedParams(config: Config, request: Request, names: seq<string>): (copied: seq<QueryPair>)
    ensures forall k | 0 <= k < |copied| ::
      copied[k].name != config.pageParamName && copied[k].name != config.limitParamName
  {
    if names == [] then []
    else
      var copied := CopiedParams(config, request, names[..|names| - 1]);
      var name := names[|names| - 1];
      if name == config.pageParamName || name == config.limitParamName then copied
      else
        match GetParameter(request, name)
        case Some(value) => copied + [QueryPair(name, value)]
        case None => copied
  }

  /** Copying one more name: it is skipped when it is the page or limit name, else appended. */
  lemma CopiedParamsStep(config: Config, request: Request, names: seq<string>, i: nat)
    requires i < |names| && GetParameter(request, names[i]).Some?
    ensures CopiedParams(config, request, names[..i + 1]) ==
      if names[i] == config.pageParamName || names[i] == config.limitParamName
      then CopiedParams(config, request, names[..i])
      else CopiedParams(config, request, names[..i]) + [QueryPair(names[i], GetParameter(request, names[i]).value)]
  {
    assert names[..i + 1][..i] == names[..i];
  }

  /**
   * Reference reading of the same: the request's parameters in order, without the
   * page and limit parameters, each with its first value.
   */
  function KeptParams(config: Config, request: Request): (kept: seq<QueryPair>)
    ensures forall k | 0 <= k < |kept| ::
      kept[k].name != config.pageParamName && kept[k].name != config.limitParamName
    ensures forall k | 0 <= k < |kept| ::
      exists j | 0 <= j < |request| :: kept[k] == QueryPair(request[j].name, request[j].first)
    ensures forall j | 0 <= j < |request| ::
      request[j].name != config.pageParamName && request[j].name != config.limitParamName ==>
      QueryPair(request[j].name, request[j].first) in kept
  {
    if request == [] then []
    else
      var init := request[..|request| - 1];
      var last := request[|request| - 1];
      var kept := KeptParams(config, init);
      assert forall j | 0 <= j < |init| :: init[j] == request[j];
      if last.name == config.pageParamName || last.name == config.limitParamName then kept
      else kept + [QueryPair(last.name, last.first)]
  }

  /**
   * With the distinct names a container reports, copying by name and first value
   * is the same as keeping the non-paging parameters in order.
   */
  lemma {:induction false} CopiedParamsAreKept(config: Config, request: Request, n: nat)
    requires DistinctNames(request)
    requires n <= |request|
    ensures CopiedParams(config, request, ParameterNames(request)[..n]) == KeptParams(config, request[..n])
  {
    var names := ParameterNames(request);
    if n > 0 {
      CopiedParamsAreKept(config, request, n - 1);
      CopiedParamsStep(config, request, names, n - 1);
      assert request[..n][..n - 1] == request[..n - 1];
      GetOwnParameter(request, n - 1);
    }
  }

  /**
   * Looking a name up in the kept parameters: the page and limit parameters are
   * gone, and every other parameter of the request is there exactly once, with its
   * first value.
   */
  lemma {:induction false} KeptParamsByName(config: Config, request: Request, name: string)
    requires DistinctNames(request)
    ensures name == config.pageParamName || name == config.limitParamName ==>
      PairsNamed(KeptParams(config, request), name) == []
    ensures name != config.pageParamName && name != config.limitParamName ==>
      PairsNamed(KeptParams(config, request), name) ==
        match GetParameter(request, name)
        case Some(v) => [QueryPair(name, v)]
        case None => []
  {
    if request != [] {
      var init := request[..|request| - 1];
      var last := request[|request| - 1];
      var lastPair := QueryPair(last.name, last.first);
      var skipped := last.name == config.pageParamName || last.name == config.limitParamName;
      var added := if skipped then [] else [lastPair];
      DistinctNamesInit(request);
      KeptParamsByName(config, init, name);
      KeptParamsSnoc(config, request);
      GetParameterSnoc(request, name);
      PairsNamedAppend(KeptParams(config, init), added, name);
      assert PairsNamed(added, name) == if !skipped && last.name == name then [lastPair] else [] by {
        PairsNamedSingle(lastPair, name);
      }
      if name == config.pageParamName || name == config.limitParamName {
        assert PairsNamed(added, name) == [];
      } else if last.name == name {
        assert PairsNamed(KeptParams(config, init), name) == [];
        assert GetParameter(request, name) == Some(last.first);
      } else {
        assert PairsNamed(added, name) == [];
        assert GetParameter(request, name) == GetParameter(init, name);
      }
    }
  }

  /** The kept parameters of a request are those of all but its last, then maybe the last. */
  lemma KeptParamsSnoc(config: Config, request: Request)
    requires request != []
    ensures var last := request[|request| - 1];
      KeptParams(config, request) == KeptParams(config, request[..|request| - 1]) +
        if last.name == config.pageParamName || last.name == config.limitParamName then []
        else [QueryPair(last.name, last.first)]
  {
  }


  /** The target of a paging link: the base URI, the copied parameters, then page and limit. */
  function PagingLinkUri(config: Config, request: Request, baseUri: Uri, page: Int32, pageSize: Int32): Uri {
    var copied := CopiedParams(config, request, ParameterNames(request));
    baseUri.(query := baseUri.query + copied +
      [QueryPair(config.pageParamName, IntToString(page)),
       QueryPair(config.limitParamName, IntToString(pageSize))])
  }

  // ---------------------------------------------------------------------------
  // The request context

  class RepositoryRestRequest {
    const config: Config
    const request: Request
    const pagingAndSorting: PagingAndSorting
    const baseUri: Uri
    const repoInfo: RepositoryInformation
    const repoMapping: Option<ResourceMapping>
    const repoLink: Option<Link>
    const repository: Option<Repository>
    const repoMethodInvoker: Option<RepositoryMethodInvoker>
    const persistentEntity: Option<PersistentEntity>
    const entityMapping: Option<ResourceMapping>

    /** The repository has a resource mapping and that mapping is exported. */
    predicate Exported() {
      repoMapping.Some? && repoMapping.value.exported
    }

    /**
     * Keeps its arguments; for an exported repository also builds the repository
     * link and looks up the repository, its entity metadata and the entity's
     * mapping, and leaves all of those null otherwise.
     */
    constructor(config: Config, repositories: Repositories, request: Request,
                pagingAndSorting: PagingAndSorting, baseUri: Uri,
                repoInfo: RepositoryInformation, mappings: ResourceMappings)
      ensures this.config == config && this.request == request
      ensures this.pagingAndSorting == pagingAndSorting && this.baseUri == baseUri
      ensures this.repoInfo == repoInfo
      ensures repoMapping == mappings.forRepository(repoInfo)
      ensures !Exported() ==>
        repoLink.None? && repository.None? && repoMethodInvoker.None? &&
        persistentEntity.None? && entityMapping.None?
      ensures Exported() ==>
        repoLink == Some(Link(BuildUri(baseUri, repoMapping.value.path), repoMapping.value.rel)) &&
        repository == repositories.repositoryFor(repoInfo.domainType) &&
        persistentEntity == repositories.persistentEntityFor(repoInfo.domainType) &&
        repoMethodInvoker == Some(RepositoryMethodInvoker(repository, repoInfo)) &&
        entityMapping == mappings.forEntity(persistentEntity)
    {
      this.config := config;
      this.request := request;
      this.pagingAndSorting := pagingAndSorting;
      this.baseUri := baseUri;
      this.repoInfo := repoInfo;
      var mapping := mappings.forRepository(repoInfo);
      this.repoMapping := mapping;
      if mapping.None? || !mapping.value.exported {
        this.repoLink := None;
        this.repository := None;
        this.repoMethodInvoker := None;
        this.persistentEntity := None;
        this.entityMapping := None;
      } else {
        this.repoLink := Some(Link(BuildUri(baseUri, mapping.value.path), mapping.value.rel));
        var repo := repositories.repositoryFor(repoInfo.domainType);
        var entity := repositories.persistentEntityFor(repoInfo.domainType);
        this.repository := repo;
        this.persistentEntity := entity;
        this.repoMethodInvoker := Some(RepositoryMethodInvoker(repo, repoInfo));
        this.entityMapping := mappings.forEntity(entity);
      }
    }

    /** Appends a link to the page after `page`: rel "page.next", page parameter `number + 1`. */
    method AddNextLink(page: Page, links: LinkList)
      modifies links
      ensures links.links == old(links.links) +
        [Link(PagingLinkUri(config, request, baseUri, Wrap(page.number + 1), pagingAndSorting.PageSize()), "page.next")]
    {
      var builder := new UriBuilder.FromUri(baseUri);
      AddQueryParameters(request, builder);
      builder.QueryParam(config.pageParamName, IntToString(Wrap(page.number + 1)));
      builder.QueryParam(config.limitParamName, IntToString(pagingAndSorting.PageSize()));
      assert builder.uri == PagingLinkUri(config, request, baseUri, Wrap(page.number + 1), pagingAndSorting.PageSize());
      links.Add(Link(builder.uri, "page.next"));
    }

    /** Appends a link to the page before `page`: rel "page.previous", page parameter `number - 1`. */
    method AddPrevLink(page: Page, links: LinkList)
      modifies links
      ensures links.links == old(links.links) +
        [Link(PagingLinkUri(config, request, baseUri, Wrap(page.number - 1), pagingAndSorting.PageSize()), "page.previous")]
    {
      var builder := new UriBuilder.FromUri(baseUri);
      AddQueryParameters(request, builder);
      builder.QueryParam(config.pageParamName, IntToString(Wrap(page.number - 1)));
      builder.QueryParam(config.limitParamName, IntToString(pagingAndSorting.PageSize()));
      assert builder.uri == PagingLinkUri(config, request, baseUri, Wrap(page.number - 1), pagingAndSorting.PageSize());
      links.Add(Link(builder.uri, "page.previous"));
    }

    /**
     * `addQueryParameters`: appends each request parameter, in enumeration order and
     * with its first value, skipping those named like the page or limit parameter.
     */
    method AddQueryParameters(request: Request, builder: UriBuilder)
      modifies builder
      ensures builder.uri == old(builder.uri).(query :=
        old(builder.uri).query + CopiedParams(config, request, ParameterNames(request)))
    {
      var names := ParameterNames(request);
      for i := 0 to |names|
        invariant builder.uri == old(builder.uri).(query :=
          old(builder.uri).query + CopiedParams(config, request, names[..i]))
      {
        var name := names[i];
        assert GetParameter(request, name).Some? by {
          assert name in ParameterNames(request);
        }
        var value := GetParameter(request, name).value;
        CopiedParamsStep(config, request, names, i);
        if name == config.pageParamName || name == config.limitParamName {
          continue;
        }
        ghost var before := builder.uri.query;
        builder.QueryParam(name, value);
        assert builder.uri.query == old(builder.uri).query + CopiedParams(config, request, names[..i + 1]) by {
          assert before + [QueryPair(name, value)] ==
            old(builder.uri).query + (CopiedParams(config, request, names[..i]) + [QueryPair(name, value)]);
        }
      }
      assert names[..|names|] == names;
    }
  }

  // ---------------------------------------------------------------------------
  // What a paging link carries

  /**
   * When the base URI has no page or limit pair, a paging link has exactly one page
   * pair and one limit pair, the fresh ones, at its end; every other request
   * parameter appears once more than in the base URI, with its first value.
   */
  lemma PagingLinkPairs(config: Config, request: Request, baseUri: Uri, page: Int32, pageSize: Int32, name: string)
    requires DistinctNames(request)
    requires config.pageParamName != config.limitParamName
    requires PairsNamed(baseUri.query, config.pageParamName) == []
    requires PairsNamed(baseUri.query, config.limitParamName) == []
    ensures var q := PagingLinkUri(config, request, baseUri, page, pageSize).query;
      var pagePair := QueryPair(config.pageParamName, IntToString(page));
      var limitPair := QueryPair(config.limitParamName, IntToString(pageSize));
      |q| >= 2 && q[|q| - 2..] == [pagePair, limitPair] &&
      PairsNamed(q, config.pageParamName) == [pagePair] &&
      PairsNamed(q, config.limitParamName) == [limitPair] &&
      (name != config.pageParamName && name != config.limitParamName ==>
        PairsNamed(q, name) == PairsNamed(baseUri.query, name) +
          match GetParameter(request, name)
          case Some(v) => [QueryPair(name, v)]
          case None => [])
  {
    var pagePair := QueryPair(config.pageParamName, IntToString(page));
    var limitPair := QueryPair(config.limitParamName, IntToString(pageSize));
    assert [pagePair, limitPair] == [pagePair] + [limitPair];
    PairsNamedAppend([pagePair], [limitPair], name);
    PairsNamedAppend([pagePair], [limitPair], config.pageParamName);
    PairsNamedAppend([pagePair], [limitPair], config.limitParamName);
    PairsNamedSingle(pagePair, name);
    PairsNamedSingle(limitPair, name);
    PairsNamedSingle(pagePair, config.limitParamName);
    PairsNamedSingle(limitPair, config.pageParamName);
    PairsNamedInLink(config, request, baseUri, page, pageSize, name);
    PairsNamedInLink(config, request, baseUri, page, pageSize, config.pageParamName);
    PairsNamedInLink(config, request, baseUri, page, pageSize, config.limitParamName);
    KeptParamsByName(config, request, name);
    KeptParamsByName(config, request, config.pageParamName);
    KeptParamsByName(config, request, config.limitParamName);
  }

  /** The pairs of one name in a paging link, part by part. */
  lemma PairsNamedInLink(config: Config, request: Request, baseUri: Uri, page: Int32, pageSize: Int32, name: string)
    requires DistinctNames(request)
    ensures var pagePair := QueryPair(config.pageParamName, IntToString(page));
      var limitPair := QueryPair(config.limitParamName, IntToString(pageSize));
      PairsNamed(PagingLinkUri(config, request, baseUri, page, pageSize).query, name) ==
        PairsNamed(baseUri.query, name) + PairsNamed(KeptParams(config, request), name) +
        PairsNamed([pagePair, limitPair], name)
  {
    var copied := CopiedParams(config, request, ParameterNames(request));
    var tail := [QueryPair(config.pageParamName, IntToString(page)), QueryPair(config.limitParamName, IntToString(pageSize))];
    assert PagingLinkUri(config, request, baseUri, page, pageSize).query == baseUri.query + (copied + tail) by {
      assert PagingLinkUri(config, request, baseUri, page, pageSize).query == baseUri.query + copied + tail;
    }
    PairsNamedAppend(baseUri.query, copied + tail, name);
    PairsNamedAppend(copied, tail, name);
    assert copied == KeptParams(config, request) by {
      CopiedParamsAreKept(config, request, |request|);
      assert ParameterNames(request)[..|request|] == ParameterNames(request);
      assert request[..|request|] == request;
    }
  }

  /**
   * Following a paging link and resolving its query again yields the link's page
   * number and its size, capped at the maximum, whatever other parameters the
   * request carried. The link is read as the structured query built here, not as
   * rendered text, where an unencoded `&` or `=` in a copied value would add pairs.
   */
  lemma PagingLinkResolves(config: Config, request: Request, baseUri: Uri, page: Int32, pageSize: Int32)
    requires config.pageParamName != config.limitParamName
    requires FirstValue(baseUri.query, config.pageParamName).None?
    requires FirstValue(baseUri.query, config.limitParamName).None?
    ensures var followed := FromQuery(PagingLinkUri(config, request, baseUri, page, pageSize).query);
      RequestedPage(config, followed) == page &&
      RequestedLimit(config, followed) == Min(pageSize, config.maxPageSize)
  {
    var q := PagingLinkUri(config, request, baseUri, page, pageSize).query;
    PagingLinkFirstValues(config, request, baseUri, page, pageSize);
    FromQueryGetParameter(q, config.pageParamName);
    FromQueryGetParameter(q, config.limitParamName);
    ParseIntToString(page);
    ParseIntToString(pageSize);
    ParsedHasText(IntToString(page));
    ParsedHasText(IntToString(pageSize));
  }

  /** In a paging link, the first page and limit values are the new ones. */
  lemma PagingLinkFirstValues(config: Config, request: Request, baseUri: Uri, page: Int32, pageSize: Int32)
    requires config.pageParamName != config.limitParamName
    requires FirstValue(baseUri.query, config.pageParamName).None?
    requires FirstValue(baseUri.query, config.limitParamName).None?
    ensures var q := PagingLinkUri(config, request, baseUri, page, pageSize).query;
      FirstValue(q, config.pageParamName) == Some(IntToString(page)) &&
      FirstValue(q, config.limitParamName) == Some(IntToString(pageSize))
  {
    var copied := CopiedParams(config, request, ParameterNames(request));
    var pagePair := QueryPair(config.pageParamName, IntToString(page));
    var limitPair := QueryPair(config.limitParamName, IntToString(pageSize));
    var front := baseUri.query + copied;
    assert PagingLinkUri(config, request, baseUri, page, pageSize).query == front + [pagePair] + [limitPair];
    assert FirstValue(front, config.pageParamName).None? && FirstValue(front, config.limitParamName).None? by {
      forall k | 0 <= k < |front|
        ensures front[k].name != config.pageParamName && front[k].name != config.limitParamName
      {
        if k >= |baseUri.query| {
          assert front[k] == copied[k - |baseUri.query|];
        }
      }
    }
    FirstValueAppend(front, pagePair, config.pageParamName);
    FirstValueAppend(front + [pagePair], limitPair, config.pageParamName);
    FirstValueAppend(front, pagePair, config.limitParamName);
    FirstValueAppend(front + [pagePair], limitPair, config.limitParamName);
  }

  // ---------------------------------------------------------------------------
  // Page numbers in paging links

  /**
   * As written, the next link of the page with 0-based index `number` carries page
   * parameter `number + 1`; the resolver reads page parameters as 1-based, so the
   * link resolves to index `number`: the same page again.
   */
  lemma NextLinkRevisitsCurrentPage(config: Config, naming: SortNaming, request: Request,
                                    baseUri: Uri, number: Int32, pageSize: Int32)
    requires 0 <= number < MAX_INT
    requires config.pageParamName != config.limitParamName
    requires FirstValue(baseUri.query, config.pageParamName).None?
    requires FirstValue(baseUri.query, config.limitParamName).None?
    ensures var followed := FromQuery(PagingLinkUri(config, request, baseUri, Wrap(number + 1), pageSize).query);
      Resolve(config, naming, [], followed).Ok? ==>
        Resolve(config, naming, [], followed).value.pageRequest.page == number
  {
    PagingLinkResolves(config, request, baseUri, Wrap(number + 1), pageSize);
    var followed := FromQuery(PagingLinkUri(config, request, baseUri, Wrap(number + 1), pageSize).query);
    if Resolve(config, naming, [], followed).Ok? {
      ResolvedPageIndex(config, naming, [], followed);
    }
  }

  /**
   * As written, the previous link of the page with 0-based index `number` carries page
   * parameter `number - 1`, which resolves to index `number - 2`: two pages back, and
   * index -1 from the second page.
   */
  lemma PrevLinkSkipsBack(config: Config, naming: SortNaming, request: Request,
                          baseUri: Uri, number: Int32, pageSize: Int32)
    requires 0 < number
    requires config.pageParamName != config.limitParamName
    requires FirstValue(baseUri.query, config.pageParamName).None?
    requires FirstValue(baseUri.query, config.limitParamName).None?
    ensures var followed := FromQuery(PagingLinkUri(config, request, baseUri, Wrap(number - 1), pageSize).query);
      Resolve(config, naming, [], followed).Ok? ==>
        Resolve(config, naming, [], followed).value.pageRequest.page == number - 2
  {
    PagingLinkResolves(config, request, baseUri, Wrap(number - 1), pageSize);
    var followed := FromQuery(PagingLinkUri(config, request, baseUri, Wrap(number - 1), pageSize).query);
    if Resolve(config, naming, [], followed).Ok? {
      ResolvedPageIndex(config, naming, [], followed);
    }
  }

  /** The 1-based page parameter of the page after 0-based index `number`. */
  function IntendedNextPage(number: Int32): Int32 {
    Wrap(number + 2)
  }

  /** The 1-based page parameter of the page before 0-based index `number`. */
  function IntendedPrevPage(number: Int32): Int32 {
    number
  }

  /** With the 1-based conversion, the next link resolves to index `number + 1`. */
  lemma IntendedNextLinkAdvances(config: Config, naming: SortNaming, request: Request,
                                 baseUri: Uri, number: Int32, pageSize: Int32)
    requires 0 <= number < MAX_INT - 1
    requires config.pageParamName != config.limitParamName
    requires FirstValue(baseUri.query, config.pageParamName).None?
    requires FirstValue(baseUri.query, config.limitParamName).None?
    ensures var followed := FromQuery(PagingLinkUri(config, request, baseUri, IntendedNextPage(number), pageSize).query);
      Resolve(config, naming, [], followed).Ok? ==>
        Resolve(config, naming, [], followed).value.pageRequest.page == number + 1
  {
    PagingLinkResolves(config, request, baseUri, IntendedNextPage(number), pageSize);
    var followed := FromQuery(PagingLinkUri(config, request, baseUri, IntendedNextPage(number), pageSize).query);
    if Resolve(config, naming, [], followed).Ok? {
      ResolvedPageIndex(config, naming, [], followed);
    }
  }

  /** With the 1-based conversion, the previous link resolves to index `number - 1`. */
  lemma IntendedPrevLinkGoesBack(config: Config, naming: SortNaming, request: Request,
                                 baseUri: Uri, number: Int32, pageSize: Int32)
    requires 0 < number
    requires config.pageParamName != config.limitParamName
    requires FirstValue(baseUri.query, config.pageParamName).None?
    requires FirstValue(baseUri.query, config.limitParamName).None?
    ensures var followed := FromQuery(PagingLinkUri(config, request, baseUri, IntendedPrevPage(number), pageSize).query);
      Resolve(config, naming, [], followed).Ok? ==>
        Resolve(config, naming, [], followed).value.pageRequest.page == number - 1
  {
    PagingLinkResolves(config, request, baseUri, IntendedPrevPage(number), pageSize);
    var followed := FromQuery(PagingLinkUri(config, request, baseUri, IntendedPrevPage(number), pageSize).query);
    if Resolve(config, naming, [], followed).Ok? {
      ResolvedPageIndex(config, naming, [], followed);
    }
  }
}
