# Pagination bookkeeping of the "show more" Pokémon lists

The repository renders three near-duplicate list components. Each one fetches
pages of a paginated list API (PokéAPI) and appends them to a list on screen.
This project models the pagination state of each component and proves what
its transitions keep true. The React rendering and the HTTP client are not
modelled.

- `poke_api.dfy` (module `PokeApi`) holds the records of `src/types.ts`
  (`Pokemon`, `PokeapiResponse`) and the `Request` a component issues. It also
  holds the `Outcome` of that request: `Fulfilled(data)` or `Rejected`.
  Two bits of JavaScript semantics are written out here:
  - `IsTruthy`: a `next` link is `Option<string>`, and both `None` (null) and
    `Some("")` are falsy.
  - `OffsetFor`: the offset rule `page ? page * step : undefined`.
- `pokemon_list.dfy` (module `PokemonList`) models `src/PokemonList.tsx`. It
  follows the `next` link of the last response, and a three-valued status
  (`Initial`, `HasMore`, `NoMore`) stops fetching once the server has no more.
- `pokemon_with_filters.dfy` (module `PokemonWithFilters`) models
  `src/PokemonWithFilters.tsx`. It counts pages, asks for `step` items at
  offset `page * step`, resets when `step` changes, and fetches the next page on
  its own while its list is empty and `initialLoad` is set.
- `pokemon_list_alt.dfy` (module `PokemonListAlt`) models
  `src/PokemonListAlt.tsx`. A click only advances `page`. An effect keyed on
  `page` then issues one request for the new page, and the response appends its
  items and sets `next`.

Each module has two layers:
- A state datatype with pure transition functions (`Fetched`, `Settled`,
  `Loaded`, `AfterLoadMore`) and lemmas about runs of them.
- A class whose fields are the component's `useState` cells. Its methods
  update those fields in place. Each request-issuing method is proved to
  return the request the component issues, and every method is proved to
  leave the state the transition function gives.

A request is a value the method returns. Its settled outcome is a parameter.
Each fetch is one atomic step: the request goes out, then its outcome is
applied.

## Model

| member | source | states |
|---|---|---|
| PokeApi.IsTruthy | src/PokemonList.tsx:19 | a link is truthy when it is present and not the empty string (also the tests at src/PokemonWithFilters.tsx:46 and src/PokemonListAlt.tsx:21) |
| PokeApi.OffsetFor | src/PokemonWithFilters.tsx:39 | the offset is absent exactly when the page counter is 0, otherwise it is `page * step` |
| PokemonList.Consistent | src/PokemonList.tsx:18-31 | the invariant the transitions keep: `hasMore` comes with a truthy link and every other status with a null link, so the status says `hasMore` exactly when the link is truthy |
| PokemonList.StateAfter | src/PokemonList.tsx:18-29 | a truthy `next` gives `{nextPage: next, status: hasMore}`, a null or empty one gives `{null, noMore}`; the result is always consistent and never `initial` |
| PokemonList.RequestFor | src/PokemonList.tsx:33-54 | no request exactly when the status is `noMore`; otherwise the stored link when it is truthy, else the first page of `type` with limit 10 and no offset |
| PokemonList.LoadDisabled | src/PokemonList.tsx:71-73 | the button is disabled exactly when a click would issue no request |
| PokemonList.InitialRequestsFirstPage | src/PokemonList.tsx:12-16 | the initial state `{null, initial}` is consistent, leaves the button enabled, and its first request is the first page |
| PokemonList.Fetched | src/PokemonList.tsx:33-54 | one click: only a successful request from a state other than `noMore` changes anything, and then the list gets the page appended and the state becomes `StateAfter(data)`; any outcome keeps the state consistent |
| PokemonList.RunKeepsConsistent | src/PokemonList.tsx:18-31 | any sequence of fetches keeps the status and the link in agreement |
| PokemonList.RunOnlyAppends | src/PokemonList.tsx:30 | across any sequence of fetches the old list stays a prefix of the new one |
| PokemonList.NoMoreIsFinal | src/PokemonList.tsx:34-36 | once the status is `noMore`, no sequence of fetches changes the list or the state, and none issues a request |
| PokemonList.RunCollectsPages | src/PokemonList.tsx:18-31 | successful pages, all but the last with a truthy `next`, leave the old list followed by every page's results in order; the length grows by the sum of the page sizes; the final state is decided by the last page |
| PokemonList.NextRequestFollowsLink | src/PokemonList.tsx:19-42 | after a response the next request is that response's `next` link when it is truthy, and no request at all otherwise |
| PokemonList.DisabledExactlyWhenInert | src/PokemonList.tsx:33-73 | with the button disabled every fetch outcome leaves the state as it was; with it enabled a successful fetch appends the page |
| PokemonList.PokemonListComponent.constructor | src/PokemonList.tsx:12-16 | starts with an empty list and `{nextPage: null, status: initial}` |
| PokemonList.PokemonListComponent.UpdatePokemon | src/PokemonList.tsx:18-31 | the state becomes `StateAfter(data)` and the list becomes the old list followed by `data.results`; consistency is preserved |
| PokemonList.PokemonListComponent.FetchPokemon | src/PokemonList.tsx:33-54 | returns the request of `RequestFor` for the state before the click and leaves the state `Fetched` gives: nothing changes when `noMore` or on failure; it follows a link exactly when the status was `hasMore` |
| PokemonWithFilters.RequestFor | src/PokemonWithFilters.tsx:35-41 | a `type` query with `limit = step`, offset absent when `page == 0`, else `page * step` |
| PokemonWithFilters.Settled | src/PokemonWithFilters.tsx:43-47 | a failed request leaves the state as it was; a successful one appends `data.results`, advances `page` by one and sets `hasMore` to whether `data.next` is truthy |
| PokemonWithFilters.AutoFetchFires | src/PokemonWithFilters.tsx:58 | the list-watching effect fetches only with an empty list, and never when `initialLoad` is false |
| PokemonWithFilters.LoadEnabled | src/PokemonWithFilters.tsx:80 | the button is enabled exactly when `hasMore` holds |
| PokemonWithFilters.LoadEnabledTracksNext | src/PokemonWithFilters.tsx:80 | the button is enabled after a reset; after a successful fetch it is enabled exactly when the response's `next` (line 46) is truthy; a failure leaves it as it was |
| PokemonWithFilters.RejectionsChangeNothing | src/PokemonWithFilters.tsx:43-47 | any number of failed requests leave `pokemon`, `page` and `hasMore` unchanged |
| PokemonWithFilters.FetchesOnlyAppend | src/PokemonWithFilters.tsx:44-45 | across any fetches the old list stays a prefix, and `page` grows by exactly the number of successful ones |
| PokemonWithFilters.SuccessesAppend | src/PokemonWithFilters.tsx:44-46 | k successful fetches from any state advance `page` by k, append the pages' results in order, and leave `hasMore` decided by the last page |
| PokemonWithFilters.SuccessesFromReset | src/PokemonWithFilters.tsx:39-53 | after a reset and k successful fetches: `page == k`, the list is the pages' results in order, its length is the sum of the page sizes, the next offset is `k * step` (absent for k = 0), and `hasMore` is the last page's verdict |
| PokemonWithFilters.EmptyPageRefires | src/PokemonWithFilters.tsx:57-61 | a successful but empty first page leaves the list empty, so the auto-fetch condition holds again with `page` advanced |
| PokemonWithFilters.NonEmptyPageStopsAutoFetch | src/PokemonWithFilters.tsx:57-61 | once the list is non-empty, no later fetch makes the auto-fetch condition true again |
| PokemonWithFilters.FetchIgnoresHasMore | src/PokemonWithFilters.tsx:34-48 | with `hasMore` false (button disabled) a fetch still appends its page and advances `page`: the guard is the button's alone |
| PokemonWithFilters.PokemonFilteredList.constructor | src/PokemonWithFilters.tsx:30-32 | the cells start as `[]`, 0, `true`, with the given props |
| PokemonWithFilters.PokemonFilteredList.FetchMorePokemon | src/PokemonWithFilters.tsx:34-48 | returns `RequestFor(page, step)` for the values before the call and leaves the cells as `Settled` says; `step` is untouched |
| PokemonWithFilters.PokemonFilteredList.SetStep | src/PokemonWithFilters.tsx:50-54 | a different `step` resets the cells to `[]`, 0, `true`; the same `step` changes nothing |
| PokemonWithFilters.PokemonFilteredList.PokemonChanged | src/PokemonWithFilters.tsx:57-61 | a fetch happens exactly when the list is empty and `initialLoad` is set, with that fetch's request and state change; otherwise nothing changes |
| PokemonListAlt.RequestFor | src/PokemonListAlt.tsx:11-17 | a `pokemon` query with `limit = 10`, offset absent when `page == 0`, else `page * 10` |
| PokemonListAlt.Loaded | src/PokemonListAlt.tsx:19-22 | `page` is never changed by a response; a failure changes nothing; a success appends `data.results` and sets `next` to whether `data.next` is truthy |
| PokemonListAlt.AfterLoadMore | src/PokemonListAlt.tsx:29-32 | a click is a no-op exactly when `page != 0` and `!next`; otherwise it only advances `page` by one; at `page == 0` it always advances |
| PokemonListAlt.LoadDisabled | src/PokemonListAlt.tsx:48 | the button is disabled when `next` is false; with it enabled a click advances `page`, with it disabled a click does nothing except at `page == 0` |
| PokemonListAlt.Apply | src/PokemonListAlt.tsx:25-32 | one click or one response: only a click that advances `page` by one issues a request, for the new page; otherwise `page` stays; the list only grows |
| PokemonListAlt.Session | src/PokemonListAlt.tsx:25-32 | a run of clicks and responses, collecting the requests the page effect issues in order |
| PokemonListAlt.MountedSession | src/PokemonListAlt.tsx:25-27 | a component's whole life: the page effect's request for page 0 at mount, followed by the requests of a run of clicks and responses |
| PokemonListAlt.EveryPageRequestedOnce | src/PokemonListAlt.tsx:6-27 | from mount on, the requests are exactly one per page value 0, 1, … up to the final page, in order; page 0 has no offset |
| PokemonListAlt.OneRequestPerPage | src/PokemonListAlt.tsx:10-32 | over any interleaving of clicks and responses the requests issued are one per new page value, for pages `page + 1`, `page + 2`, … in order, each with offset `page * 10`; the final page counts them |
| PokemonListAlt.SessionOnlyAppends | src/PokemonListAlt.tsx:20 | across any clicks and responses the old list stays a prefix of the new one |
| PokemonListAlt.PokemonListAltComponent.constructor | src/PokemonListAlt.tsx:6-8 | starts with an empty list, `page == 0`, `next == false` |
| PokemonListAlt.PokemonListAltComponent.LoadPokemon | src/PokemonListAlt.tsx:10-23 | returns `RequestFor(page)` and leaves the cells as `Loaded` says |
| PokemonListAlt.PokemonListAltComponent.LoadMore | src/PokemonListAlt.tsx:25-32 | refused exactly when `page != 0` and `!next`, and then changes nothing; otherwise `page` advances by one and the effect's request is for the new page |

## Left out

- The HTTP calls (axios) are not modelled as I/O. Each is a returned `Request`
  value plus an `Outcome` parameter. The rejection reason is not modelled,
  because no handler reads it.
- React scheduling is not modelled: effect ordering, `useCallback` dependency
  tracking and the stale-closure behaviour the comments in
  `src/PokemonWithFilters.tsx` discuss. The model applies state updates in
  their intended order. Every fetch reads the state current at the call.
- Overlapping in-flight requests and out-of-order completions are not
  modelled. Each fetch is one atomic request/response step.
- JSX rendering is not modelled. Neither are the `<select>` with `parseInt`
  that feeds `step`, the `console.log` of the refused fetch, nor
  `src/App.tsx`.
- `PokemonWithFilters.PokemonFilteredList.PokemonChanged` models one run of
  the list-watching effect (src/PokemonWithFilters.tsx:57-61); the caller
  decides when it runs. React re-runs that effect whenever the list cell gets
  a new array, including a new empty one. So at mount the `step` effect
  (lines 50-54) replaces the initial `[]` with a new `[]`, and a list with
  `initialLoad` runs the list effect twice before any response arrives: two
  first-page requests are sent, both pages are appended, and `page` ends at 2.
  The model does not capture this double fetch, because it does not model
  React's effect ordering.
- The events of `PokemonListAlt.Session` are more permissive than the
  component: a `Click` reaches `loadMore` even while the button is disabled,
  and a `Settle` may arrive without a request in flight. The lemmas about
  `Session` hold for every such run, so they cover the real ones too.
- `count` and `previous` of a response are carried in the record, but no
  component reads them.
- No component has a loading flag; a request in flight is not visible in
  the state.
- `PokemonWithFilters.fetchMorePokemon` has no exhaustion guard: only the
  button is disabled when `hasMore` is false (`FetchIgnoresHasMore`).
- `PokemonListAlt.loadMore` guards on `next`, but skips the guard at
  `page == 0`, where a click always advances the page (`AfterLoadMore`).
- Only `PokemonWithFilters` resets, and only when `step` changes.
