/** Optional values, scrape outcomes and fetched responses shared by the scrapers.
    Python's `None` returns become `Option`, and the exceptions the scrapers raise
    (or let escape) become the `Failure` case of `Result`. */
module Results {

  datatype Option<+T> = None | Some(value: T)

  /** Why one point of interest could not be turned into a record. */
  datatype ScrapeError =
    | FetchFailed(url: string)        // a detail fetch answered with a status other than 200
    | BadPlaceUrl(url: string)        // the URL has fewer than four '/'-separated segments
    | NoAddress                       // the page has no <address> element
    | AddressTooShort(tokens: nat)    // the address text splits into fewer than five tokens
    | NoNearbyPlaces                  // the page has no "nearby-places" container
    | NearbyItemIncomplete            // a list item lacks its link or its distance label

  datatype Result<+T> = Success(value: T) | Failure(error: ScrapeError) {
    predicate IsFailure() { Failure? }

    function PropagateFailure<U>(): Result<U>
      requires Failure?
    {
      Failure(error)
    }

    function Extract(): T
      requires Success?
    {
      value
    }
  }

  /** What the transport hands back for one GET: the status code and the body,
      the body already parsed into whatever shape the caller reads. */
  datatype Response<T> = Response(status: int, body: T)
}
