/**
 * The offset-paged list with a page-size filter (src/PokemonWithFilters.tsx):
 * the component counts fetched pages, asks for `limit = step` items at
 * offset `page * step`, resets when the page size changes, and fetches the
 * next page by itself while its list is empty and it is told to.
 */
module PokemonWithFilters {
  import opened PokeApi

  /** The three state cells `pokemon`, `page` and `hasMore`. */
  datatype FilterState = FilterState(pokemon: seq<Pokemon>, page: nat, hasMore: bool)

  /** What the step-change effect writes, and also the initial value of the cells. */
  const ResetState: FilterState := FilterState([], 0, true)

  /** The request `fetchMorePokemon` issues for a page counter and a page size. */
  function RequestFor(page: nat, step: int): (r: Request)
    ensures r.Query? && r.baseUrl == BaseUrl && r.path == "type"
    ensures r.limit == step
    ensures r.offset.None? <==> page == 0
    ensures page != 0 ==> r.offset == Some(page * step)
  {
    Query(BaseUrl, "type", step, OffsetFor(page, step))
  }

  /**
   * The cells once a fetch has settled: only a fulfilled request updates
   * them, and then the `.then` handler appends the page, counts it and
   * records whether the server has more.
   */
  function Settled(s: FilterState, o: Outcome): (t: FilterState)
    ensures o.Rejected? ==> t == s
    ensures o.Fulfilled? ==> t.pokemon == s.pokemon + o.data.results
    ensures o.Fulfilled? ==> t.page == s.page + 1
    ensures o.Fulfilled? ==> (t.hasMore <==> IsTruthy(o.data.next))
  {
    match o
    case Rejected => s
    case Fulfilled(data) => FilterState(s.pokemon + data.results, s.page + 1, IsTruthy(data.next))
  }

  /** Several fetches, each settled before the next. */
  function AfterFetches(s: FilterState, os: seq<Outcome>): FilterState
    decreases |os|
  {
    if os == [] then s else AfterFetches(Settled(s, os[0]), os[1..])
  }

  /** The condition of the effect that runs whenever the list changes. */
  predicate AutoFetchFires(s: FilterState, initialLoad: bool)
    ensures AutoFetchFires(s, initialLoad) ==> s.pokemon == []
    ensures !initialLoad ==> !AutoFetchFires(s, initialLoad)
  {
    |s.pokemon| == 0 && initialLoad
  }

  /** The `disabled` attribute of the load button is `!hasMore`. */
  function LoadEnabled(s: FilterState): bool
  {
    s.hasMore
  }

  /**
   * The button is enabled after a reset, and after a successful fetch
   * exactly when that response had a usable `next` link; a failure leaves
   * it as it was.
   */
  lemma LoadEnabledTracksNext(s: FilterState, o: Outcome)
    ensures LoadEnabled(ResetState)
    ensures o.Fulfilled? ==> (LoadEnabled(Settled(s, o)) <==> IsTruthy(o.data.next))
    ensures o.Rejected? ==> (LoadEnabled(Settled(s, o)) <==> LoadEnabled(s))
  {
  }

  /** Failed requests leave every cell as it was. */
  lemma {:induction false} RejectionsChangeNothing(s: FilterState, os: seq<Outcome>)
    requires forall i :: 0 <= i < |os| ==> os[i] == Rejected
    ensures AfterFetches(s, os) == s
    decreases |os|
  {
    if os != [] {
      RejectionsChangeNothing(s, os[1..]);
    }
  }

  /** The number of fulfilled requests in a run. */
  function Successes(os: seq<Outcome>): nat
  {
    if os == [] then 0 else (if os[0].Fulfilled? then 1 else 0) + Successes(os[1..])
  }

  /** Any run of fetches keeps what was there and counts exactly its successes onto `page`. */
  lemma {:induction false} FetchesOnlyAppend(s: FilterState, os: seq<Outcome>)
    ensures s.pokemon <= AfterFetches(s, os).pokemon
    ensures AfterFetches(s, os).page == s.page + Successes(os)
    ensures Successes(os) <= |os|
    decreases |os|
  {
    if os != [] {
      FetchesOnlyAppend(Settled(s, os[0]), os[1..]);
    }
  }

  /**
   * After a reset and k successful fetches: `page == k`, the items are the
   * pages' items in order, the next request's offset is `k * step` (absent
   * for k = 0), and `hasMore` is the last page's verdict.
   */
  lemma {:induction false} SuccessesFromReset(step: int, pages: seq<PokeapiResponse>)
    ensures AfterFetches(ResetState, AllFulfilled(pages)).page == |pages|
    ensures AfterFetches(ResetState, AllFulfilled(pages)).pokemon == AllResults(pages)
    ensures |AfterFetches(ResetState, AllFulfilled(pages)).pokemon| == TotalResults(pages)
    ensures RequestFor(AfterFetches(ResetState, AllFulfilled(pages)).page, step).offset
            == if pages == [] then None else Some(|pages| * step)
    ensures AfterFetches(ResetState, AllFulfilled(pages)).hasMore
            == (pages == [] || IsTruthy(pages[|pages| - 1].next))
  {
    SuccessesAppend(ResetState, pages);
    AllResultsLength(pages);
  }

  /** Successful fetches from any state: the counting and appending of SuccessesFromReset. */
  lemma {:induction false} SuccessesAppend(s: FilterState, pages: seq<PokeapiResponse>)
    ensures AfterFetches(s, AllFulfilled(pages)).page == s.page + |pages|
    ensures AfterFetches(s, AllFulfilled(pages)).pokemon == s.pokemon + AllResults(pages)
    ensures AfterFetches(s, AllFulfilled(pages)).hasMore
            == (if pages == [] then s.hasMore else IsTruthy(pages[|pages| - 1].next))
    decreases |pages|
  {
    if pages != [] {
      var os := AllFulfilled(pages);
      assert os[1..] == AllFulfilled(pages[1..]);
      var s' := Settled(s, os[0]);
      assert s' == FilterState(s.pokemon + pages[0].results, s.page + 1, IsTruthy(pages[0].next));
      SuccessesAppend(s', pages[1..]);
      assert s.pokemon + pages[0].results + AllResults(pages[1..]) == s.pokemon + AllResults(pages);
    }
  }

  /**
   * The list-watching effect re-fires after a successful but empty page:
   * the list is still empty, so the condition that started the fetch holds
   * again, now with the page counter advanced.
   */
  lemma EmptyPageRefires(s: FilterState, data: PokeapiResponse)
    requires AutoFetchFires(s, true)
    requires data.results == []
    ensures AutoFetchFires(Settled(s, Fulfilled(data)), true)
    ensures Settled(s, Fulfilled(data)).page == s.page + 1
  {
  }

  /**
   * A non-empty page switches the automatic fetch off for good: no later
   * fetch empties the list again.
   */
  lemma {:induction false} NonEmptyPageStopsAutoFetch(s: FilterState, os: seq<Outcome>, initialLoad: bool)
    requires |s.pokemon| > 0
    ensures !AutoFetchFires(AfterFetches(s, os), initialLoad)
  {
    FetchesOnlyAppend(s, os);
  }

  /**
   * `fetchMorePokemon` has no `hasMore` guard: called with `hasMore` false
   * it still requests and applies the page; only the button stops it.
   */
  lemma FetchIgnoresHasMore(s: FilterState, data: PokeapiResponse)
    requires !LoadEnabled(s)
    ensures Settled(s, Fulfilled(data)).page == s.page + 1
    ensures Settled(s, Fulfilled(data)).pokemon == s.pokemon + data.results
  {
  }

  /** The component instance: its props `initialLoad` and `step`, and its three cells. */
  class PokemonFilteredList {
    const initialLoad: bool
    var step: int
    var pokemon: seq<Pokemon>
    var page: nat
    var hasMore: bool

    function State(): FilterState
      reads this
    {
      FilterState(pokemon, page, hasMore)
    }

    constructor (initialLoad: bool, step: int)
      ensures this.initialLoad == initialLoad && this.step == step
      ensures State() == ResetState
    {
      this.initialLoad := initialLoad;
      this.step := step;
      pokemon := [];
      page := 0;
      hasMore := true;
    }

    /**
     * `fetchMorePokemon`: returns the request built from the current `page`
     * and `step`, then applies its settled outcome `o`.
     */
    method FetchMorePokemon(o: Outcome) returns (req: Request)
      modifies this
      ensures req == RequestFor(old(page), old(step))
      ensures State() == Settled(old(State()), o)
      ensures step == old(step)
    {
      req := Query(BaseUrl, "type", step, if page != 0 then Some(page * step) else None);
      if o.Fulfilled? {
        pokemon := pokemon + o.data.results;
        page := page + 1;
        hasMore := IsTruthy(o.data.next);
      }
    }

    /**
     * A new `step` prop: the effect that depends on `step` runs only when
     * the value differs, and then clears the cells.
     */
    method SetStep(newStep: int)
      modifies this
      ensures step == newStep
      ensures newStep != old(step) ==> State() == ResetState
      ensures newStep == old(step) ==> State() == old(State())
    {
      if newStep != step {
        pokemon := [];
        page := 0;
        hasMore := true;
      }
      step := newStep;
    }

    /**
     * The effect run after the list changed: fetch, with outcome `o`, only
     * when the list is empty and `initialLoad` is set.
     */
    method PokemonChanged(o: Outcome) returns (req: Option<Request>)
      modifies this
      ensures req.Some? <==> AutoFetchFires(old(State()), initialLoad)
      ensures req.Some? ==> req.value == RequestFor(old(page), old(step))
      ensures req.Some? ==> State() == Settled(old(State()), o)
      ensures req.None? ==> State() == old(State())
      ensures step == old(step)
    {
      if |pokemon| == 0 && initialLoad {
        var r := FetchMorePokemon(o);
        req := Some(r);
      } else {
        req := None;
      }
    }
  }
}
