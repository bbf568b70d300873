/** The first-load flag that holds the loading screen until it is dismissed. */
module LoadingContext {
  import opened Wrappers

  /** `LoadingProvider`: the flag starts set on every mount and can only be
      cleared. */
  class LoadingProvider {
    var isFirstLoad: bool

    constructor()
      ensures isFirstLoad
    {
      isFirstLoad := true;
    }

    method SetFirstLoadComplete()
      modifies this
      ensures !isFirstLoad
    {
      isFirstLoad := false;
    }
  }

  const UseLoadingError := "useLoading must be used within a LoadingProvider"

  /** `useLoading`: the nearest provider's flag, or the error it throws when
      no provider encloses the caller. */
  function UseLoading(provided: Option<bool>): (r: Result<bool, string>)
    ensures r.Success? <==> provided.Some?
    ensures r.Success? ==> r.value == provided.value
    ensures r.Failure? ==> r.error == UseLoadingError
  {
    if provided.None? then Failure(UseLoadingError) else Success(provided.value)
  }
}
