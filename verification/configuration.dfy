/** What both clients hold after construction: the endpoint and the two
    middleware lists (`__init__` of `AsyncClient` and `Client`). */
module Configuration {
  import opened Wrappers
  import opened Errors
  import opened Pipeline

  datatype Config<!R> = Config(endpoint: string, copying: seq<Middleware<R>>, inPlace: seq<Middleware<R>>)

  /** At most one of `mdws` and `mdws_nc` may be given, even an empty one;
      the list not given defaults to empty. */
  function NewConfig<R>(endpoint: string, mdws: Option<seq<Middleware<R>>>, mdwsNc: Option<seq<Middleware<R>>>)
    : (r: Result<Config<R>, Error>)
    ensures r.Failure? <==> mdws.Some? && mdwsNc.Some?
    ensures r.Failure? ==> r.error == AssertionError(BothMiddlewareLists)
    ensures r.Success? ==> r.value.endpoint == endpoint
    ensures r.Success? ==> r.value.copying == (if mdws.Some? then mdws.value else [])
    ensures r.Success? ==> r.value.inPlace == (if mdwsNc.Some? then mdwsNc.value else [])
    ensures r.Success? ==> r.value.copying == [] || r.value.inPlace == []
  {
    if mdws.Some? && mdwsNc.Some? then Failure(AssertionError(BothMiddlewareLists))
    else Success(Config(endpoint, mdws.GetOr([]), mdwsNc.GetOr([])))
  }

  /** Two empty lists are still two lists, and are refused. */
  lemma TwoEmptyListsRefused<R>(endpoint: string)
    ensures NewConfig<R>(endpoint, Some([]), Some([])) == Failure(AssertionError(BothMiddlewareLists))
  {
  }
}
