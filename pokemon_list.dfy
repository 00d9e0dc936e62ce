/**
 * The cursor-following list (src/PokemonList.tsx): the component keeps the
 * `next` link of the last response and a three-valued status; a fetch
 * follows the link, or asks for the first page when there is none, and is
 * refused once the status says there is nothing more.
 */
module PokemonList {
  import opened PokeApi

  datatype Status = Initial | HasMore | NoMore

  /** The `state` cell: the link to follow next and the status. */
  datatype ListState = ListState(nextPage: Option<string>, status: Status)

  /** Everything the component holds: the `pokemon` cell and the `state` cell. */
  datatype ListModel = ListModel(pokemon: seq<Pokemon>, state: ListState)

  /** Page size of the first request. */
  const FirstPageLimit: int := 10

  const InitialState: ListState := ListState(None, Initial)

  /** The status agrees with the stored link: a usable link exactly when there is more. */
  predicate Consistent(s: ListState)
    ensures Consistent(s) ==> (s.status == HasMore <==> IsTruthy(s.nextPage))
  {
    (s.status == HasMore ==> IsTruthy(s.nextPage)) &&
    (s.status != HasMore ==> s.nextPage == None)
  }

  /** The `state` written by `updatePokemon` for a response. */
  function StateAfter(data: PokeapiResponse): (s: ListState)
    ensures Consistent(s)
    ensures s.status != Initial
    ensures s.status == HasMore <==> IsTruthy(data.next)
    ensures s.status == HasMore ==> s.nextPage == data.next
  {
    if IsTruthy(data.next) then ListState(data.next, HasMore) else ListState(None, NoMore)
  }

  /** The request `fetchPokemon` issues from a state, or None when it returns early. */
  function RequestFor(s: ListState): (r: Option<Request>)
    ensures r.None? <==> s.status == NoMore
    ensures r.Some? && IsTruthy(s.nextPage) ==> r.value == FollowUrl(s.nextPage.value)
    ensures r.Some? && !IsTruthy(s.nextPage) ==> r.value == Query(BaseUrl, "type", FirstPageLimit, None)
  {
    if s.status == NoMore then None
    else if IsTruthy(s.nextPage) then Some(FollowUrl(s.nextPage.value))
    else Some(Query(BaseUrl, "type", FirstPageLimit, None))
  }

  /** The `disabled` attribute of the load button. */
  function LoadDisabled(s: ListState): (d: bool)
    ensures d <==> RequestFor(s) == None
  {
    s.status == NoMore
  }

  /** One click of the button: the guard, then, once the request settles, `updatePokemon` on success. */
  function Fetched(m: ListModel, o: Outcome): (r: ListModel)
    ensures r != m ==> o.Fulfilled? && m.state.status != NoMore
    ensures o.Fulfilled? && m.state.status != NoMore ==>
              r.pokemon == m.pokemon + o.data.results && r.state == StateAfter(o.data)
    ensures Consistent(m.state) ==> Consistent(r.state)
  {
    if m.state.status == NoMore then m
    else match o
      case Rejected => m
      case Fulfilled(data) => ListModel(m.pokemon + data.results, StateAfter(data))
  }

  /** A session of fetches, one after the other, each settled before the next. */
  function Run(m: ListModel, os: seq<Outcome>): ListModel
    decreases |os|
  {
    if os == [] then m else Run(Fetched(m, os[0]), os[1..])
  }

  /** The initial cells: consistent, the button enabled, and the first click asks for the first page. */
  lemma InitialRequestsFirstPage()
    ensures Consistent(InitialState) && !LoadDisabled(InitialState)
    ensures RequestFor(InitialState) == Some(Query(BaseUrl, "type", FirstPageLimit, None))
  {
  }

  /** The status agrees with the link after any session. */
  lemma {:induction false} RunKeepsConsistent(m: ListModel, os: seq<Outcome>)
    requires Consistent(m.state)
    ensures Consistent(Run(m, os).state)
    decreases |os|
  {
    if os != [] {
      RunKeepsConsistent(Fetched(m, os[0]), os[1..]);
    }
  }

  /** The list only grows: what was fetched stays, in place, at the front. */
  lemma {:induction false} RunOnlyAppends(m: ListModel, os: seq<Outcome>)
    ensures m.pokemon <= Run(m, os).pokemon
    decreases |os|
  {
    if os != [] {
      RunOnlyAppends(Fetched(m, os[0]), os[1..]);
    }
  }

  /** Once there is nothing more, no fetch changes anything (and none is requested). */
  lemma {:induction false} NoMoreIsFinal(m: ListModel, os: seq<Outcome>)
    requires m.state.status == NoMore
    ensures Run(m, os) == m
    ensures RequestFor(Run(m, os).state) == None
    decreases |os|
  {
    if os != [] {
      NoMoreIsFinal(Fetched(m, os[0]), os[1..]);
    }
  }

  /**
   * A session of successful pages, each but the last with a usable `next`
   * link, collects all their items in order; the status afterwards is
   * decided by the last page's link alone.
   */
  lemma {:induction false} RunCollectsPages(m: ListModel, pages: seq<PokeapiResponse>)
    requires m.state.status != NoMore
    requires forall i :: 0 <= i < |pages| - 1 ==> IsTruthy(pages[i].next)
    ensures Run(m, AllFulfilled(pages)).pokemon == m.pokemon + AllResults(pages)
    ensures |Run(m, AllFulfilled(pages)).pokemon| == |m.pokemon| + TotalResults(pages)
    ensures pages != [] ==> Run(m, AllFulfilled(pages)).state == StateAfter(pages[|pages| - 1])
    ensures pages == [] ==> Run(m, AllFulfilled(pages)).state == m.state
    decreases |pages|
  {
    AllResultsLength(pages);
    if pages != [] {
      var os := AllFulfilled(pages);
      var m' := Fetched(m, os[0]);
      assert m' == ListModel(m.pokemon + pages[0].results, StateAfter(pages[0]));
      assert os[1..] == AllFulfilled(pages[1..]);
      if |pages| == 1 {
        assert os[1..] == [];
      } else {
        assert IsTruthy(pages[0].next);
        RunCollectsPages(m', pages[1..]);
        assert m.pokemon + pages[0].results + AllResults(pages[1..]) == m.pokemon + AllResults(pages);
      }
    }
  }

  /** After a response the next fetch follows its link if usable, and otherwise is refused. */
  lemma NextRequestFollowsLink(m: ListModel, data: PokeapiResponse)
    requires m.state.status != NoMore
    ensures IsTruthy(data.next) ==> RequestFor(Fetched(m, Fulfilled(data)).state) == Some(FollowUrl(data.next.value))
    ensures !IsTruthy(data.next) ==> RequestFor(Fetched(m, Fulfilled(data)).state) == None
  {
  }

  /** The button is disabled exactly when a click would change nothing whatever the server answers. */
  lemma DisabledExactlyWhenInert(m: ListModel)
    ensures LoadDisabled(m.state) ==> forall o :: Fetched(m, o) == m
    ensures !LoadDisabled(m.state) ==> forall data :: Fetched(m, Fulfilled(data)).pokemon == m.pokemon + data.results
  {
  }

  /** The component with its two state cells. */
  class PokemonListComponent {
    var pokemon: seq<Pokemon>
    var state: ListState

    ghost predicate Valid()
      reads this
    {
      Consistent(state)
    }

    function Model(): ListModel
      reads this
    {
      ListModel(pokemon, state)
    }

    constructor ()
      ensures Valid()
      ensures pokemon == [] && state == InitialState
    {
      pokemon := [];
      state := InitialState;
    }

    /** The success handler: overwrite `state` from `data.next`, append `data.results`. */
    method UpdatePokemon(data: PokeapiResponse)
      requires Valid()
      modifies this
      ensures Valid()
      ensures state == StateAfter(data)
      ensures pokemon == old(pokemon) + data.results
    {
      if IsTruthy(data.next) {
        state := ListState(data.next, HasMore);
      } else {
        state := ListState(None, NoMore);
      }
      pokemon := pokemon + data.results;
    }

    /**
     * A click: returns the request issued (None when the status is NoMore)
     * and applies the settled outcome `o` of that request.
     */
    method FetchPokemon(o: Outcome) returns (req: Option<Request>)
      requires Valid()
      modifies this
      ensures Valid()
      ensures req == RequestFor(old(state))
      ensures (req.Some? && req.value.FollowUrl?) <==> old(state.status) == HasMore
      ensures Model() == Fetched(old(Model()), o)
    {
      if state.status == NoMore {
        return None;
      }
      if IsTruthy(state.nextPage) {
        req := Some(FollowUrl(state.nextPage.value));
      } else {
        req := Some(Query(BaseUrl, "type", FirstPageLimit, None));
      }
      if o.Fulfilled? {
        UpdatePokemon(o.data);
      }
    }
  }
}
