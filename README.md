# Paging parameters and paging links of the Spring Data REST web layer

This project is a Dafny model of two pieces of request logic in the Spring Data REST
web layer. It proves properties of both.

- **`PagingAndSortingMethodArgumentResolver`** turns a request's query parameters into a
  page request. The query's page number is 1-based and becomes a 0-based index. A page
  parameter that is missing or not a valid `int` gives page 1. The limit falls back to
  the configured default page size and is capped at the configured maximum. Each value
  of the sort parameter gives one sort order. The order's direction comes from the
  parameter `<value>.dir`: ASC when that parameter is missing, and an error when it is
  not "asc" or "desc" in some letter case. The property name can be mapped through the
  domain type's resource mapping; a repository-information resolver that yields no
  repository information makes that lookup fail with a `NullPointerException`. A `@PageableDefaults` annotation on the handler
  parameter replaces all of this.
- **`RepositoryRestRequest`** holds the per-request context. Its constructor fills in
  the repository link, the repository, the method invoker, the entity and the entity
  mapping only when the repository's resource mapping exists and is exported. Its
  methods `addNextLink` and `addPrevLink` each append one link to the caller's list. The
  link's query has every request parameter except page and limit, each with its first
  value, then a new page pair (`number ± 1`) and a new limit pair (the page size).

Files, one module each:

- `wrappers.dfy`: Option and Result. These stand for Java's `null` and thrown exceptions.
- `java_lang.dfy`: the Java platform pieces the code uses:
  - 32-bit `int` wrap-around and `Math.min`
  - `Integer.parseInt` and `Integer.toString`
  - `Character.isWhitespace` and `StringUtils.hasText`
  - ASCII `toUpperCase`
- `uris.dfy`: a URI as a base, path segments and ordered query pairs. It also has a
  builder that appends query pairs at the end of the query.
- `servlet_request.dfy`: a request is its parameters in enumeration order. Each
  parameter has a first value and the rest. It also covers how a container reads a
  query string back into parameters.
- `rest_config.dfy`: the configuration (parameter names and page sizes) and the
  resource mapping.
- `paging_resolver.dfy`: the resolver. `ResolveArgument` is the method. It runs its
  steps in source order: the annotation loop (`FindDefaults`), the page (`ReadPage`),
  the limit (`ReadLimit`) and the sort-order loop (`ReadSort`). `Resolve` is the
  function that specifies it, and each step is proved against its part of `Resolve`.
  The lemmas state what a resolved page request promises.
- `rest_request.dfy`: the request context. It is a class with `const` fields, because
  the Java fields are final. The link methods change the caller's `LinkList`.
  `AddQueryParameters` is a loop that feeds a `UriBuilder`.

## Model

| member | source | states |
|---|---|---|
| `JavaLang.Wrap` | spring-data-rest-webmvc/src/main/java/org/springframework/data/rest/webmvc/PagingAndSortingMethodArgumentResolver.java:115-117 | Java `int` subtraction wraps: the result is congruent to the exact value mod 2^32, and equal to it when it fits |
| `JavaLang.Min` | spring-data-rest-webmvc/src/main/java/org/springframework/data/rest/webmvc/PagingAndSortingMethodArgumentResolver.java:90 | `Math.min` returns one of its arguments, and the result is at most each of them |
| `JavaLang.ParseInt` | spring-data-rest-webmvc/src/main/java/org/springframework/data/rest/webmvc/PagingAndSortingMethodArgumentResolver.java:82 | `Integer.parseInt` accepts a string only when the string ends in a digit; anything else is the NumberFormatException path (`None`) |
| `JavaLang.NatToString` | spring-data-rest-webmvc/src/main/java/org/springframework/data/rest/webmvc/RepositoryRestRequest.java:111-112 | the decimal text of a number is non-empty, all digits, and denotes that number; it starts with '0' only when it is exactly "0" |
| `JavaLang.ParseIntToString` | spring-data-rest-webmvc/src/main/java/org/springframework/data/rest/webmvc/RepositoryRestRequest.java:111-112 | every `int` written into a link's query parses back to itself |
| `JavaLang.ParsedHasText` | spring-data-rest-webmvc/src/main/java/org/springframework/data/rest/webmvc/PagingAndSortingMethodArgumentResolver.java:80-82 | a string that `parseInt` accepts always has text, so the `hasText` guard never changes the outcome |
| `JavaLang.UpperIsAsc` | spring-data-rest-webmvc/src/main/java/org/springframework/data/rest/webmvc/PagingAndSortingMethodArgumentResolver.java:106 | upper-casing gives "ASC" exactly for the case variants of "asc" (both directions) |
| `JavaLang.UpperIsDesc` | spring-data-rest-webmvc/src/main/java/org/springframework/data/rest/webmvc/PagingAndSortingMethodArgumentResolver.java:106 | upper-casing gives "DESC" exactly for the case variants of "desc" (both directions) |
| `PagingResolver.FirstDefaultsIsFirst` | spring-data-rest-webmvc/src/main/java/org/springframework/data/rest/webmvc/PagingAndSortingMethodArgumentResolver.java:70-76 | the defaults are those of the first `@PageableDefaults` annotation, whatever follows it: its page number and size, and no sort |
| `PagingResolver.FindDefaults` | spring-data-rest-webmvc/src/main/java/org/springframework/data/rest/webmvc/PagingAndSortingMethodArgumentResolver.java:69-76 | the annotation loop, which stops at the first `@PageableDefaults`, computes the specified defaults |
| `PagingResolver.DefaultsShortCircuit` | spring-data-rest-webmvc/src/main/java/org/springframework/data/rest/webmvc/PagingAndSortingMethodArgumentResolver.java:70-77 | with a `@PageableDefaults` annotation, resolution succeeds with that annotation's page number and size and no sort, for every request and every naming, so no query parameter is consulted |
| `PagingResolver.RequestedPageSpec` | spring-data-rest-webmvc/src/main/java/org/springframework/data/rest/webmvc/PagingAndSortingMethodArgumentResolver.java:78-85 | the page is the parsed page parameter; it is 1 when the parameter is missing, blank or not a valid `int` |
| `PagingResolver.ReadPage` | spring-data-rest-webmvc/src/main/java/org/springframework/data/rest/webmvc/PagingAndSortingMethodArgumentResolver.java:78-85 | the page step, with its ignored `NumberFormatException`, computes the specified page |
| `PagingResolver.RequestedLimitSpec` | spring-data-rest-webmvc/src/main/java/org/springframework/data/rest/webmvc/PagingAndSortingMethodArgumentResolver.java:86-93 | a parsable limit gives a size that is at most the maximum, at most the limit, and equal to one of them; a missing, blank or unparsable limit gives the default page size |
| `PagingResolver.ReadLimit` | spring-data-rest-webmvc/src/main/java/org/springframework/data/rest/webmvc/PagingAndSortingMethodArgumentResolver.java:86-93 | the limit step, with its ignored `NumberFormatException`, computes the specified, capped limit |
| `PagingResolver.ValueOf` | spring-data-rest-webmvc/src/main/java/org/springframework/data/rest/webmvc/PagingAndSortingMethodArgumentResolver.java:106 | `Direction.valueOf` gives ASC exactly for "ASC" and DESC exactly for "DESC" |
| `PagingResolver.DirectionForSpec` | spring-data-rest-webmvc/src/main/java/org/springframework/data/rest/webmvc/PagingAndSortingMethodArgumentResolver.java:105-106 | a missing `.dir` parameter means ASC; a given one means ASC or DESC exactly for the case variants of "asc" or "desc", and is an error otherwise rather than a default |
| `PagingResolver.NameForParam` | spring-data-rest-webmvc/src/main/java/org/springframework/data/rest/webmvc/PagingAndSortingMethodArgumentResolver.java:124-141 | fails, with the null-pointer error, exactly when the resolver yields no repository information; otherwise a sort value is renamed only when there is a repository-information resolver and a resource mapping for the domain type |
| `PagingResolver.OrdersOnePerValue` | spring-data-rest-webmvc/src/main/java/org/springframework/data/rest/webmvc/PagingAndSortingMethodArgumentResolver.java:97-108 | when the orders are built, there is exactly one per sort value and the k-th is the order of the k-th value |
| `PagingResolver.OrdersOkIffEveryValue` | spring-data-rest-webmvc/src/main/java/org/springframework/data/rest/webmvc/PagingAndSortingMethodArgumentResolver.java:99-108 | the orders are built if and only if every sort value's order can be made: its name lookup succeeds and its `.dir` direction is valid |
| `PagingResolver.OrdersFailAtFirstBadValue` | spring-data-rest-webmvc/src/main/java/org/springframework/data/rest/webmvc/PagingAndSortingMethodArgumentResolver.java:99-108 | the error reported is the first failing sort value's: the null-repository error or its unknown direction |
| `PagingResolver.ReadSort` | spring-data-rest-webmvc/src/main/java/org/springframework/data/rest/webmvc/PagingAndSortingMethodArgumentResolver.java:95-112 | the sort step, which appends one order per sort value, looks up the name before the direction and stops at the first exception, computes the specified sort: none without sort values or orders, else the orders |
| `PagingResolver.ResolveArgument` | spring-data-rest-webmvc/src/main/java/org/springframework/data/rest/webmvc/PagingAndSortingMethodArgumentResolver.java:62-122 | the method, running its steps in source order, returning at the first exception and choosing between the two `PageRequest` constructors, returns exactly what the specification `Resolve` gives |
| `PagingResolver.ResolvedPageIndex` | spring-data-rest-webmvc/src/main/java/org/springframework/data/rest/webmvc/PagingAndSortingMethodArgumentResolver.java:114-118 | with no defaults, sorted or not, the 0-based index is the 1-based page minus one (wrapping only for the smallest `int`), and the size is the requested limit |
| `PagingResolver.ResolveFailureCases` | spring-data-rest-webmvc/src/main/java/org/springframework/data/rest/webmvc/PagingAndSortingMethodArgumentResolver.java:97-108 | with no defaults, resolution fails if and only if there are sort values and either the resolver yields no repository information (then that is the error) or some sort value has a `.dir` parameter that is not a valid direction |
| `PagingResolver.ResolvedSort` | spring-data-rest-webmvc/src/main/java/org/springframework/data/rest/webmvc/PagingAndSortingMethodArgumentResolver.java:95-118 | with no defaults: there is no sort exactly when there are no sort values. Otherwise there is one order per value, in the same order. Its property is the raw value, or the mapping's name for it when a resolver and a mapping exist. Its direction is the one given by `<value>.dir` |
| `RestRequest.CopiedParams` | spring-data-rest-webmvc/src/main/java/org/springframework/data/rest/webmvc/RepositoryRestRequest.java:128-139 | no copied pair is named like the page or limit parameter |
| `RestRequest.KeptParams` | spring-data-rest-webmvc/src/main/java/org/springframework/data/rest/webmvc/RepositoryRestRequest.java:128-139 | reference reading: every kept pair is a request parameter with its first value and not a paging name, and every non-paging parameter is kept |
| `RestRequest.CopiedParamsAreKept` | spring-data-rest-webmvc/src/main/java/org/springframework/data/rest/webmvc/RepositoryRestRequest.java:130-137 | copying by enumerated name and `getParameter` gives the request's non-paging parameters in enumeration order, each with its first value |
| `RestRequest.KeptParamsByName` | spring-data-rest-webmvc/src/main/java/org/springframework/data/rest/webmvc/RepositoryRestRequest.java:133-137 | looked up by name, the page and limit parameters are absent, and every other parameter appears exactly once with its first value |
| `RestRequest.RepositoryRestRequest.constructor` | spring-data-rest-webmvc/src/main/java/org/springframework/data/rest/webmvc/RepositoryRestRequest.java:39-64 | when the mapping is missing or not exported, the link, repository, invoker, entity and entity mapping are all null. Otherwise the link has the mapping's rel and the base URI plus the mapping's path, and the other four come from the lookups |
| `RestRequest.RepositoryRestRequest.AddQueryParameters` | spring-data-rest-webmvc/src/main/java/org/springframework/data/rest/webmvc/RepositoryRestRequest.java:128-139 | the builder keeps its base and path, and its query gains exactly the copied parameters after what it already had |
| `RestRequest.RepositoryRestRequest.AddNextLink` | spring-data-rest-webmvc/src/main/java/org/springframework/data/rest/webmvc/RepositoryRestRequest.java:106-115 | exactly one link is appended and the earlier links are unchanged. Its rel is "page.next". Its query is the base query, then the copied parameters, then page = number + 1, then limit = page size |
| `RestRequest.RepositoryRestRequest.AddPrevLink` | spring-data-rest-webmvc/src/main/java/org/springframework/data/rest/webmvc/RepositoryRestRequest.java:117-126 | the same as the next link, with page = number - 1 and rel "page.previous" |
| `RestRequest.PagingLinkPairs` | spring-data-rest-webmvc/src/main/java/org/springframework/data/rest/webmvc/RepositoryRestRequest.java:106-115 | when the base URI's query has no page or limit pair, a paging link has exactly one page pair and one limit pair, the new ones, at its end; every other request parameter appears once more than in the base URI's query, with its first value |
| `RestRequest.PagingLinkFirstValues` | spring-data-rest-webmvc/src/main/java/org/springframework/data/rest/webmvc/RepositoryRestRequest.java:106-115 | when the base URI's query has no page or limit pair, the first page value and the first limit value of a paging link are the new ones |
| `RestRequest.PagingLinkResolves` | spring-data-rest-webmvc/src/main/java/org/springframework/data/rest/webmvc/RepositoryRestRequest.java:111-112 | reading a paging link's query back with the resolver gives the link's page number, and its size capped at the maximum |
| `RestRequest.NextLinkRevisitsCurrentPage` | spring-data-rest-webmvc/src/main/java/org/springframework/data/rest/webmvc/RepositoryRestRequest.java:111 | as written, the next link of the page with 0-based index n resolves to index n again |
| `RestRequest.PrevLinkSkipsBack` | spring-data-rest-webmvc/src/main/java/org/springframework/data/rest/webmvc/RepositoryRestRequest.java:122 | as written, the previous link of the page with index n resolves to index n - 2 |
| `RestRequest.IntendedNextLinkAdvances` | spring-data-rest-webmvc/src/main/java/org/springframework/data/rest/webmvc/RepositoryRestRequest.java:111 | with the page parameter converted to 1-based (`number + 2`), the next link resolves to index n + 1 |
| `RestRequest.IntendedPrevLinkGoesBack` | spring-data-rest-webmvc/src/main/java/org/springframework/data/rest/webmvc/RepositoryRestRequest.java:122 | with the page parameter converted to 1-based (`number`), the previous link resolves to index n - 1 |

## Findings

| source | as written | input that shows it | evidently intended | confidence | as-written member | corrected member |
|---|---|---|---|---|---|---|
| spring-data-rest-webmvc/src/main/java/org/springframework/data/rest/webmvc/RepositoryRestRequest.java:111 | the next link's page parameter is `page.getNumber() + 1`, but `getNumber()` is the 0-based index and the resolver reads the parameter as 1-based | the first page (`?page=1`, index 0): its next link carries `page=1`, which resolves to index 0, the same page | `page.getNumber() + 2`, the 1-based number of the next page | medium; not executed. It assumes `Page.getNumber()` is the 0-based index of the page request, which is how Spring Data's `PageImpl` reports it | `RestRequest.NextLinkRevisitsCurrentPage` | `RestRequest.IntendedNextLinkAdvances` |
| spring-data-rest-webmvc/src/main/java/org/springframework/data/rest/webmvc/RepositoryRestRequest.java:122 | the previous link's page parameter is `page.getNumber() - 1`, read back as 1-based | the second page (`?page=2`, index 1): its previous link carries `page=0`, which resolves to index -1 | `page.getNumber()`, the 1-based number of the previous page | medium; not executed. It rests on the same assumption | `RestRequest.PrevLinkSkipsBack` | `RestRequest.IntendedPrevLinkGoesBack` |

The class methods `AddNextLink` and `AddPrevLink` keep the page numbers as written, so
that they can be compared line by line with the code. The intended page numbers are
`IntendedNextPage` and `IntendedPrevPage`. They are proved to lead to the adjacent pages.

## Left out

- The servlet and `NativeWebRequest` access and the `HandlerMethodArgumentResolver` contract (`supportsParameter`, `ClassUtils.isAssignable`). These are framework hooks. The request is its list of parameters.
- Annotation reflection. The handler parameter's annotations are a sequence of `Annotation` values.
- The resolver's injected fields (`config`, `repoInfoResolver`), its constructors and its getter and setter. The configuration and the naming outcome are parameters of `ResolveArgument`.
- `repoInfoResolver.resolveArgument`, `getResourceMappingForDomainType` and `ResourceMapping.getNameForPath`. Their code is not part of this model. Their outcome is the `SortNaming` input, with `nameForPath` as an arbitrary function. Of their outcomes only a `null` repository information is modelled: `SortNaming.NoRepoInfo` ends resolution with `Error.NullRepoInfo`, the `NullPointerException` of line 136. Exceptions thrown inside them are not modelled.
- `Repositories.getRepositoryFor`, `getPersistentEntity`, `RepositoryMethodInvoker` and `ResourceMappingUtils.getResourceMapping`. These become arbitrary lookup functions passed to the constructor.
- The trivial getters of `RepositoryRestRequest`. The `const` fields are read directly.
- Validation inside Spring Data's `PageRequest`, `Sort` and `Sort.Order` constructors, such as rejecting a negative index, a size below 1 or an empty property. That code is not part of this model. A page request with index -1 is returned where Spring Data would throw.
- `PagingAndSorting.getPageSize()` is taken to be the page request's size. `PagingAndSorting` is not part of this model.
- `Page` is reduced to `getNumber()`.
- `UriComponentsBuilder` encoding, `build().toString()`, `UriUtils.buildUri` and HATEOAS link rendering. A URI stays a structured value. `buildUri` appends one path segment.
- `Uris.UriBuilder.QueryParam`: appends the new pair at the end of the query. Spring's builder keeps the query as a multi-value map and adds the value to the group of its name, so the order differs when that name already occurs in the query. `RestRequest.RepositoryRestRequest.AddQueryParameters` inherits this: the copied pairs come after the base pairs in the model.
- `RestRequest.PagingLinkResolves`: the round trip is proved for the structured query the link is built from, not for its rendered text. `build().toString()` does not percent-encode values, so a copied value holding `&`, `=`, `#` or `%` adds or changes pairs once the link is parsed again (a value `x&page=7` makes the followed link resolve to page 7). `RestRequest.PagingLinkPairs`, `RestRequest.NextLinkRevisitsCurrentPage`, `RestRequest.PrevLinkSkipsBack`, `RestRequest.IntendedNextLinkAdvances` and `RestRequest.IntendedPrevLinkGoesBack` hold in the same structured sense.
- `JavaLang.ParseInt`: only ASCII digits are accepted. `Character.digit` also accepts other Unicode decimal digits. A leading '+' is accepted, as in Java 7 and later.
- `JavaLang.ToUpperCase`: only ASCII letters are upper-cased, with no locale. Java's `toUpperCase` also maps some non-ASCII letters to ASCII ones, for example U+017F to 'S'.
- `JavaLang.IsWhitespace`: the Unicode space separators are those of the Unicode version used by Java 6 and 7.
- Some lemmas need the request's parameter names to be distinct, as a servlet container guarantees: `CopiedParamsAreKept`, `KeptParamsByName` and `PagingLinkPairs`.
- The paging-link lemmas assume that the base URI has no page or limit query pair and that the page and limit parameter names differ.
- `RestRequest.NextLinkRevisitsCurrentPage`, `RestRequest.PrevLinkSkipsBack`, `RestRequest.IntendedNextLinkAdvances`, `RestRequest.IntendedPrevLinkGoesBack`: these speak about the resolved index only when resolution succeeds. It can fail on an invalid sort direction copied from the original request, or when the resolver yields no repository information.
