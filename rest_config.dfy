/** The configuration the resolver and the request context read. */
module RestConfig {
  import opened JavaLang

  /**
   * `RepositoryRestConfiguration`, reduced to the names of the paging parameters
   * and the page sizes.
   */
  datatype Config = Config(
    pageParamName: string,
    limitParamName: string,
    sortParamName: string,
    defaultPageSize: Int32,
    maxPageSize: Int32)

  /**
   * `ResourceMapping`: how a repository or an entity is exposed. `nameForPath` is
   * `getNameForPath`, whose code is not part of this model; it is kept as an
   * arbitrary function.
   */
  datatype ResourceMapping = ResourceMapping(
    rel: string,
    path: string,
    exported: bool,
    nameForPath: string -> string)
}
