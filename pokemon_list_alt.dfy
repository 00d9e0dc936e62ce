/**
 * The page-driven list (src/PokemonListAlt.tsx): a click only advances the
 * `page` counter; an effect keyed on `page` then issues the request for the
 * new page, and its success handler appends the items and records whether
 * the server has more.
 */
module PokemonListAlt {
  import opened PokeApi

  /** The three state cells `pokemon`, `page` and `next`. */
  datatype AltState = AltState(pokemon: seq<Pokemon>, page: nat, next: bool)

  const InitialState: AltState := AltState([], 0, false)

  /** Items per request. */
  const PageSize: int := 10

  /** The request `loadPokemon` issues for a page counter. */
  function RequestFor(page: nat): (r: Request)
    ensures r.Query? && r.baseUrl == BaseUrl && r.path == "pokemon"
    ensures r.limit == PageSize
    ensures r.offset.None? <==> page == 0
    ensures page != 0 ==> r.offset == Some(page * PageSize)
  {
    Query(BaseUrl, "pokemon", PageSize, OffsetFor(page, PageSize))
  }

  /** The cells once a `loadPokemon` request has settled; the page counter is not touched. */
  function Loaded(s: AltState, o: Outcome): (t: AltState)
    ensures t.page == s.page
    ensures o.Rejected? ==> t == s
    ensures o.Fulfilled? ==> t.pokemon == s.pokemon + o.data.results
    ensures o.Fulfilled? ==> (t.next <==> IsTruthy(o.data.next))
  {
    match o
    case Rejected => s
    case Fulfilled(data) => AltState(s.pokemon + data.results, s.page, IsTruthy(data.next))
  }

  /** The click handler `loadMore`. */
  function AfterLoadMore(s: AltState): (t: AltState)
    ensures t == s <==> (s.page != 0 && !s.next)
    ensures t != s ==> t == s.(page := s.page + 1)
    ensures s.page == 0 ==> t.page == 1
  {
    if s.page != 0 && !s.next then s else s.(page := s.page + 1)
  }

  /**
   * The `disabled` attribute of the load button, and how it relates to the
   * guard of `loadMore`: with the button enabled a click always advances the
   * page; with it disabled a click does nothing except on the first page.
   */
  function LoadDisabled(s: AltState): (d: bool)
    ensures !d ==> AfterLoadMore(s).page == s.page + 1
    ensures d && s.page != 0 ==> AfterLoadMore(s) == s
  {
    !s.next
  }

  /** What the user and the server do, one at a time. */
  datatype Event = Click | Settle(o: Outcome)

  /**
   * The cells after one event, and the request the page effect issues
   * because of it (a click that advances the page issues one; nothing else does).
   */
  function Apply(s: AltState, e: Event): (r: (AltState, Option<Request>))
    ensures s.pokemon <= r.0.pokemon
    ensures r.1.None? ==> r.0.page == s.page
    ensures r.1.Some? ==> e == Click && r.0.page == s.page + 1 && r.1.value == RequestFor(r.0.page)
  {
    match e
    case Click =>
      var t := AfterLoadMore(s);
      (t, if t.page != s.page then Some(RequestFor(t.page)) else None)
    case Settle(o) => (Loaded(s, o), None)
  }

  /** The requests issued over a run of events (the mount request excluded), and the final cells. */
  function Session(s: AltState, es: seq<Event>): (AltState, seq<Request>)
    decreases |es|
  {
    if es == [] then (s, [])
    else
      var (t, r) := Apply(s, es[0]);
      var (u, rs) := Session(t, es[1..]);
      (u, (if r.Some? then [r.value] else []) + rs)
  }

  /**
   * Every new page value issues exactly one request, for that page: over any
   * run of events the requests are those of pages `page + 1`, ..., in order,
   * up to the final page, with offsets `10 * page`.
   */
  lemma {:induction false} OneRequestPerPage(s: AltState, es: seq<Event>)
    ensures Session(s, es).0.page == s.page + |Session(s, es).1|
    ensures forall i :: 0 <= i < |Session(s, es).1| ==>
              Session(s, es).1[i] == RequestFor(s.page + i + 1) &&
              Session(s, es).1[i].offset == Some((s.page + i + 1) * PageSize)
    decreases |es|
  {
    if es != [] {
      var (t, r) := Apply(s, es[0]);
      OneRequestPerPage(t, es[1..]);
      var rs := Session(t, es[1..]).1;
      var all := Session(s, es).1;
      assert all == (if r.Some? then [r.value] else []) + rs;
      if r.Some? {
        assert t.page == s.page + 1;
        assert r.value == RequestFor(s.page + 1);
        forall i | 0 <= i < |all|
          ensures all[i] == RequestFor(s.page + i + 1)
        {
          if i > 0 {
            assert all[i] == rs[i - 1];
          }
        }
      } else {
        assert t.page == s.page;
      }
    }
  }

  /**
   * A component's whole life: the page effect issues the request for page 0
   * at mount, then the events follow.
   */
  function MountedSession(es: seq<Event>): (AltState, seq<Request>)
  {
    var (u, rs) := Session(InitialState, es);
    (u, [RequestFor(0)] + rs)
  }

  /**
   * From mount on, the requests are exactly one per page value 0, 1, ...,
   * up to the final page, in order: the first without an offset, page p
   * with offset `10 * p`.
   */
  lemma EveryPageRequestedOnce(es: seq<Event>)
    ensures |MountedSession(es).1| == MountedSession(es).0.page + 1
    ensures forall p :: 0 <= p < |MountedSession(es).1| ==> MountedSession(es).1[p] == RequestFor(p)
    ensures MountedSession(es).1[0].offset == None
  {
    OneRequestPerPage(InitialState, es);
    var (u, rs) := Session(InitialState, es);
    var all := MountedSession(es).1;
    assert all == [RequestFor(0)] + rs;
    forall p | 0 <= p < |all|
      ensures all[p] == RequestFor(p)
    {
      if p > 0 {
        assert all[p] == rs[p - 1];
      }
    }
  }

  /** The items only grow: each event keeps the old list as a prefix. */
  lemma {:induction false} SessionOnlyAppends(s: AltState, es: seq<Event>)
    ensures s.pokemon <= Session(s, es).0.pokemon
    decreases |es|
  {
    if es != [] {
      SessionOnlyAppends(Apply(s, es[0]).0, es[1..]);
    }
  }

  /** The component with its three state cells. */
  class PokemonListAltComponent {
    var pokemon: seq<Pokemon>
    var page: nat
    var next: bool

    function State(): AltState
      reads this
    {
      AltState(pokemon, page, next)
    }

    constructor ()
      ensures State() == InitialState
    {
      pokemon := [];
      page := 0;
      next := false;
    }

    /**
     * `loadPokemon`: returns the request for the current page and applies
     * its settled outcome `o`.
     */
    method LoadPokemon(o: Outcome) returns (req: Request)
      modifies this
      ensures req == RequestFor(old(page))
      ensures State() == Loaded(old(State()), o)
    {
      req := Query(BaseUrl, "pokemon", PageSize, if page != 0 then Some(page * PageSize) else None);
      if o.Fulfilled? {
        pokemon := pokemon + o.data.results;
        next := IsTruthy(o.data.next);
      }
    }

    /**
     * `loadMore` followed by the page effect: when the guard lets the click
     * through, the page advances and the effect issues the request for the
     * new page, settled with `o`; otherwise nothing happens.
     */
    method LoadMore(o: Outcome) returns (req: Option<Request>)
      modifies this
      ensures req.None? <==> (old(page) != 0 && !old(next))
      ensures req.None? ==> State() == old(State())
      ensures req.Some? ==> page == old(page) + 1 && req.value == RequestFor(page)
      ensures req.Some? ==> State() == Loaded(AfterLoadMore(old(State())), o)
    {
      if page != 0 && !next {
        return None;
      }
      page := page + 1;
      var r := LoadPokemon(o);
      req := Some(r);
    }
  }
}
