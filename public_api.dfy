/**
 * The fault-tolerant read-only fetcher used by server-rendered pages
 * (src/lib/publicApi.ts): it never throws; any failure is null.
 */
module PublicApi {
  import opened Wrappers
  import Api

  /** The revalidation window, in seconds, when the caller gives none. */
  const DefaultRevalidate := 30

  /** The request `fetchPublicApi` issues: the path and its `next.revalidate` hint. */
  datatype PublicRequest = PublicRequest(path: string, revalidate: int)

  /** The request issued and the value the call resolves to (`None` is null). */
  datatype PublicFetch<T> = PublicFetch(request: PublicRequest, result: Option<Api.Data<T>>)

  /** `options.revalidate ?? 30`: only a missing value falls back, so 0 is kept. */
  function Revalidate(revalidate: Option<int>): (seconds: int)
    ensures revalidate.Some? ==> seconds == revalidate.value
    ensures revalidate.None? ==> seconds == DefaultRevalidate
  {
    revalidate.GetOr(DefaultRevalidate)
  }

  /**
   * `fetchPublicApi(path, {revalidate})`: resolves to `data` when the envelope's
   * `result` is true, and to null when it is false or when fetching or parsing
   * threw.
   */
  function FetchPublicApi<T>(path: string, revalidate: Option<int>, response: Api.Response<T>): (r: PublicFetch<T>)
    ensures r.request.path == path
    ensures r.request.revalidate == (if revalidate.Some? then revalidate.value else DefaultRevalidate)
    ensures response.Thrown? ==> r.result.None?
    ensures response.Received? && !response.json.result ==> r.result.None?
    ensures Api.Succeeded(response) ==> r.result == Some(response.json.data)
  {
    PublicFetch(PublicRequest(path, Revalidate(revalidate)), Api.DataOrNull(response))
  }
}
