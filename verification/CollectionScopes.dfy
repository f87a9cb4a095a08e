/** What a collector is asked for: a source, a projection and a range of days. */
module CollectionScopes {

  datatype Projection = Daily | Session

  datatype RefreshTarget = RefreshTarget(source: string, projection: Projection)

  /** Days are counted from 1970-01-01, which is day 0. */
  datatype CollectionScope = FullScope | Range(startDate: int, endDate: int)

  /** What a checked incremental range guarantees. */
  predicate IsRange(scope: CollectionScope)
  {
    scope.Range? && scope.startDate <= scope.endDate
  }
}
