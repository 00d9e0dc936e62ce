/**
 * Records exchanged with the paginated list API (src/types.ts), the request
 * a component issues, the settled outcome of that request, and the two bits
 * of JavaScript semantics the components rely on: truthiness of the `next`
 * link and the `page ? page * step : undefined` offset rule.
 */
module PokeApi {

  datatype Option<T> = None | Some(value: T)

  /** One list entry. */
  datatype Pokemon = Pokemon(name: string, url: string)

  /** The body of one page of the list endpoint; `next`/`previous` are links or null. */
  datatype PokeapiResponse = PokeapiResponse(
    count: int,
    next: Option<string>,
    previous: Option<string>,
    results: seq<Pokemon>)

  /** How the promise returned by the HTTP client settles. */
  datatype Outcome = Fulfilled(data: PokeapiResponse) | Rejected

  /**
   * The GET a component issues: either the absolute link of a previous
   * response, or a path under a base URL with `limit` and an optional
   * `offset` query parameter (an undefined offset is not sent).
   */
  datatype Request =
    | FollowUrl(url: string)
    | Query(baseUrl: string, path: string, limit: int, offset: Option<int>)

  const BaseUrl: string := "https://pokeapi.co/api/v2/"

  /** JavaScript truthiness of a `string | null`: null and "" are falsy. */
  predicate IsTruthy(link: Option<string>)
  {
    link.Some? && link.value != ""
  }

  /** The offset rule `page ? page * step : undefined` for a non-negative page counter. */
  function OffsetFor(page: nat, step: int): (r: Option<int>)
    ensures r.None? <==> page == 0
    ensures r.Some? ==> r.value == page * step
  {
    if page != 0 then Some(page * step) else None
  }

  /** The outcomes of a run of requests that all succeeded, in order. */
  function AllFulfilled(pages: seq<PokeapiResponse>): (os: seq<Outcome>)
    ensures |os| == |pages|
    ensures forall i :: 0 <= i < |pages| ==> os[i] == Fulfilled(pages[i])
  {
    if pages == [] then [] else [Fulfilled(pages[0])] + AllFulfilled(pages[1..])
  }

  /** The items of several pages, page after page. */
  function AllResults(pages: seq<PokeapiResponse>): seq<Pokemon>
  {
    if pages == [] then [] else pages[0].results + AllResults(pages[1..])
  }

  /** The sum of the page sizes. */
  function TotalResults(pages: seq<PokeapiResponse>): nat
  {
    if pages == [] then 0 else |pages[0].results| + TotalResults(pages[1..])
  }

  /** The concatenated items number exactly the sum of the page sizes. */
  lemma {:induction false} AllResultsLength(pages: seq<PokeapiResponse>)
    ensures |AllResults(pages)| == TotalResults(pages)
  {
    if pages != [] {
      AllResultsLength(pages[1..]);
    }
  }
}
