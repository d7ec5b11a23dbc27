/**
 * The pagination and selection coordinator of the Pokédex application
 * (`PokedexService`): the page offset, the selected Pokémon, the current page
 * of Pokémon and the loading flag, together with the one-shot start-up
 * handling of a deep link and the "latest fetch wins" delivery of pages.
 *
 * The RxJS subjects become plain fields; `switchMap` becomes a list of the
 * offsets of all fetches started (`requested`), of which only the last one can
 * still deliver; the HTTP page fetch becomes the environment calling
 * `DeliverPage` or `FailPage` with the fetch's generation (its index in
 * `requested`).
 */
module Pokedex {

  /** Largest page offset (`maxOffset`). */
  const MaxOffset: int := 130

  /** Number of Pokémon on one page (`pokemonsPerPage`, and the literal 20 in the paging code). */
  const PokemonsPerPage: int := 20

  datatype Option<T> = None | Some(value: T)

  /** A Pokémon record; the coordinator only ever looks at `id`. */
  datatype Pokemon = Pokemon(id: int, name: string)

  /**
   * The value `selectedPokemon$` (a ReplaySubject of size 1) replays:
   * nothing before the first emission, afterwards the last value emitted,
   * which may be `undefined` (here `Published(None)`).
   */
  datatype Selection = Unpublished | Published(pokemon: Option<Pokemon>)

  /** The object `init` receives when the start-up URL holds a Pokémon id. */
  datatype StartingParams = StartingParams(offset: int, selectedPokemonId: int)

  // ---------------------------------------------------------------------------
  // Integer arithmetic of the service
  // ---------------------------------------------------------------------------

  /**
   * JavaScript's `a % 20`: the remainder truncated toward zero, so it takes
   * the sign of `a` (Dafny's own `%` is Euclidean).
   */
  function TruncRem(a: int): (r: int)
    ensures a >= 0 ==> 0 <= r < PokemonsPerPage
    ensures a < 0 ==> -PokemonsPerPage < r <= 0
    ensures (a - r) % PokemonsPerPage == 0
    ensures r == 0 <==> a % PokemonsPerPage == 0
  {
    if a >= 0 then a % PokemonsPerPage else -((-a) % PokemonsPerPage)
  }

  /** The offset `getNextPage` emits: the smaller of twenty further on and `MaxOffset`. */
  function NextOffset(offset: int): (r: int)
    ensures r <= MaxOffset && r <= offset + PokemonsPerPage
    ensures r == MaxOffset || r == offset + PokemonsPerPage
  {
    var next := offset + PokemonsPerPage;
    if next > MaxOffset then MaxOffset else next
  }

  /** The offset `getPreviousPage` emits: the larger of twenty back and 0. */
  function PreviousOffset(offset: int): (r: int)
    ensures 0 <= r && offset - PokemonsPerPage <= r
    ensures r == 0 || r == offset - PokemonsPerPage
  {
    var previous := offset - PokemonsPerPage;
    if previous < 0 then 0 else previous
  }

  /**
   * The catalog lists Pokémon by id starting at 1, so the page fetched at
   * `offset` holds the ids `offset + 1` to `offset + PokemonsPerPage`.
   */
  predicate PageHolds(offset: int, id: int)
  {
    offset < id <= offset + PokemonsPerPage
  }

  /**
   * `countStartingOffset`: the page offset to open for a deep-linked id.
   * For every id of the first `MaxOffset + PokemonsPerPage` Pokémon it is the
   * offset of the page that holds that id; an id on a page boundary
   * (20, 40, ...) therefore belongs to the page before it, because ids are
   * 1-based. Ids past `MaxOffset` open the last page.
   */
  function CountStartingOffset(pokemonId: int): (r: int)
    ensures r <= MaxOffset
    ensures pokemonId > MaxOffset ==> r == MaxOffset
    ensures pokemonId <= MaxOffset ==> r % PokemonsPerPage == 0
    ensures 1 <= pokemonId <= MaxOffset + PokemonsPerPage ==> 0 <= r && PageHolds(r, pokemonId)
    ensures pokemonId <= MaxOffset ==> pokemonId - PokemonsPerPage <= r < pokemonId + PokemonsPerPage
    ensures pokemonId <= 0 && pokemonId % PokemonsPerPage != 0 ==> pokemonId < r < pokemonId + PokemonsPerPage
    ensures pokemonId <= 0 && pokemonId % PokemonsPerPage == 0 ==> r == pokemonId - PokemonsPerPage
  {
    if pokemonId > MaxOffset then
      MaxOffset
    else
      var rest := TruncRem(pokemonId);
      if rest != 0 then pokemonId - rest else pokemonId - PokemonsPerPage
  }

  /** `!param`: 0 and NaN (here `None`) both mean "no deep link". */
  function DeepLinkId(param: Option<int>): (r: Option<int>)
    ensures r.Some? ==> r.value != 0 && param == r
    ensures r.None? ==> param.None? || param.value == 0
  {
    if param.None? || param.value == 0 then None else param
  }

  // ---------------------------------------------------------------------------
  // Lemmas about paging and the deep-link offset
  // ---------------------------------------------------------------------------

  /** Next at `MaxOffset` and previous at 0 leave the offset where it is. */
  lemma PagingClampsAtTheEnds()
    ensures NextOffset(MaxOffset) == MaxOffset
    ensures PreviousOffset(0) == 0
  {
  }

  /**
   * Away from the clamps, next and previous undo each other; at the top they
   * do not: 120 -> 130 -> 110, so offsets leave the multiples of 20.
   */
  lemma PagingRoundTrip(offset: int)
    ensures 0 <= offset <= MaxOffset - PokemonsPerPage ==> PreviousOffset(NextOffset(offset)) == offset
    ensures PokemonsPerPage <= offset <= MaxOffset ==> NextOffset(PreviousOffset(offset)) == offset
    ensures PreviousOffset(NextOffset(120)) == 110
  {
  }

  datatype PageAction = NextPage | PreviousPage

  /** The offset after a sequence of `getNextPage` / `getPreviousPage` calls. */
  function ApplyPaging(offset: int, actions: seq<PageAction>): int
    decreases |actions|
  {
    if actions == [] then offset
    else
      var next := if actions[0] == NextPage then NextOffset(offset) else PreviousOffset(offset);
      ApplyPaging(next, actions[1..])
  }

  /**
   * Paging never moves the offset above `MaxOffset` or below 0 once it is
   * there: an offset in [0, MaxOffset] stays in [0, MaxOffset].
   */
  lemma {:induction false} PagingStaysInRange(offset: int, actions: seq<PageAction>)
    ensures offset <= MaxOffset ==> ApplyPaging(offset, actions) <= MaxOffset
    ensures 0 <= offset ==> 0 <= ApplyPaging(offset, actions)
    decreases |actions|
  {
    if actions != [] {
      var next := if actions[0] == NextPage then NextOffset(offset) else PreviousOffset(offset);
      PagingStaysInRange(next, actions[1..]);
    }
  }

  /** The values `countStartingOffset` returns, including JavaScript's truncated `%` on negative ids. */
  lemma CountStartingOffsetExamples()
    ensures CountStartingOffset(1) == 0
    ensures CountStartingOffset(20) == 0
    ensures CountStartingOffset(21) == 20
    ensures CountStartingOffset(45) == 40
    ensures CountStartingOffset(130) == 120
    ensures CountStartingOffset(131) == 130
    ensures CountStartingOffset(999) == 130
    ensures CountStartingOffset(-5) == 0
    ensures CountStartingOffset(-20) == -40
  {
  }

  /**
   * For an id up to `MaxOffset`, the resolved offset is the only page start
   * (a multiple of 20) whose page holds the id.
   */
  lemma CountStartingOffsetIsTheHoldingPage(pokemonId: int, offset: int)
    requires 1 <= pokemonId <= MaxOffset
    requires offset % PokemonsPerPage == 0
    ensures PageHolds(offset, pokemonId) <==> offset == CountStartingOffset(pokemonId)
  {
  }

  // ---------------------------------------------------------------------------
  // Searching a page (`Array.prototype.find` on the delivered page)
  // ---------------------------------------------------------------------------

  /** The index of the first Pokémon in `ps` with the given id, if any. */
  function FindIndex(ps: seq<Pokemon>, id: int): (r: Option<nat>)
    ensures r.Some? ==> r.value < |ps| && ps[r.value].id == id
    ensures r.Some? ==> forall j :: 0 <= j < r.value ==> ps[j].id != id
    ensures r.None? ==> forall j :: 0 <= j < |ps| ==> ps[j].id != id
    decreases |ps|
  {
    if ps == [] then None
    else if ps[0].id == id then Some(0)
    else
      match FindIndex(ps[1..], id)
      case None => None
      case Some(i) => Some(i + 1)
  }

  /** `pkmns.find((p) => p.id === id)`: the first Pokémon with that id, or `undefined`. */
  function Find(ps: seq<Pokemon>, id: int): (r: Option<Pokemon>)
    ensures r.None? <==> forall j :: 0 <= j < |ps| ==> ps[j].id != id
    ensures r.Some? ==> r.value.id == id
    ensures r.Some? ==> exists k :: 0 <= k < |ps| && ps[k] == r.value && forall j :: 0 <= j < k ==> ps[j].id != id
  {
    match FindIndex(ps, id)
    case None => None
    case Some(k) => Some(ps[k])
  }

  /** A full page as the catalog returns it for `offset`: ids `offset + 1` onwards, in order. */
  ghost predicate IsCatalogPage(offset: int, page: seq<Pokemon>)
  {
    |page| == PokemonsPerPage && forall i :: 0 <= i < |page| ==> page[i].id == offset + 1 + i
  }

  /**
   * A deep link to any of the first `MaxOffset + PokemonsPerPage` Pokémon
   * finds that Pokémon on the page the service opens for it.
   */
  lemma DeepLinkFindsItsPokemon(pokemonId: int, page: seq<Pokemon>)
    requires 1 <= pokemonId <= MaxOffset + PokemonsPerPage
    requires IsCatalogPage(CountStartingOffset(pokemonId), page)
    ensures 0 <= pokemonId - 1 - CountStartingOffset(pokemonId) < |page|
    ensures Find(page, pokemonId) == Some(page[pokemonId - 1 - CountStartingOffset(pokemonId)])
  {
  }

  /** A deep link past the last page's ids does not find anything there. */
  lemma DeepLinkPastLastPageMisses(pokemonId: int, page: seq<Pokemon>)
    requires pokemonId > MaxOffset + PokemonsPerPage
    requires IsCatalogPage(CountStartingOffset(pokemonId), page)
    ensures Find(page, pokemonId) == None
  {
  }

  // ---------------------------------------------------------------------------
  // The service
  // ---------------------------------------------------------------------------

  class PokedexService {
    /** `offset$`: the current page offset. */
    var offset: int
    /** `selectedPokemon$`: what the ReplaySubject would replay. */
    var selected: Selection
    /** `pokemons$`: the current page. */
    var pokemons: seq<Pokemon>
    /** `isFetchingData$` (published as `initialized$`). */
    var isFetching: bool

    /** The first `NavigationEnd` has been handled (`take(1)`). */
    var navigated: bool
    /** `init`'s subscription to `offset$` exists and has not failed. */
    var subscribed: bool
    /** `startingParams.selectedPokemonId` while it has not been consumed. */
    var pending: Option<int>
    /** The offset of every page fetch started, in order; the index is the fetch's generation. */
    var requested: seq<int>
    /** The latest fetch has neither emitted a page nor completed nor failed. */
    var outstanding: bool
    /** The ids passed to `router.navigate(['/pokedex', id])`, in order. */
    var navigations: seq<int>

    /** The offset of the fetch whose page `pokemons` holds. */
    ghost var shownOffset: int

    ghost predicate Valid()
      reads this
    {
      && offset <= MaxOffset
      // before the first fetch nothing has been published
      && (requested == [] ==> !subscribed && !outstanding && isFetching && pokemons == [])
      // last offset wins: the only fetch that can still deliver is for the current offset
      && (subscribed ==> requested != [] && requested[|requested| - 1] == offset)
      && (outstanding ==> subscribed && isFetching)
      // not loading means the page shown is the one for the current offset
      && (!isFetching ==> subscribed && !outstanding && pokemons != [] && shownOffset == offset)
      // the deep link is still to be applied only while no page has been published
      && (pending.Some? ==> navigated && pokemons == [])
      && (requested != [] ==> navigated)
    }

    /** Whether a result of fetch `gen` reaches the subscriber now (`switchMap` has not dropped it). */
    predicate CanDeliver(gen: nat)
      reads this
    {
      subscribed && outstanding && gen + 1 == |requested|
    }

    /** The initial state of the four channels; no navigation has happened yet. */
    constructor ()
      ensures Valid()
      ensures offset == 0 && selected == Unpublished && pokemons == [] && isFetching
      ensures !navigated && !subscribed && pending.None? && requested == [] && !outstanding
      ensures navigations == []
    {
      offset := 0;
      selected := Unpublished;
      pokemons := [];
      isFetching := true;
      navigated := false;
      subscribed := false;
      pending := None;
      requested := [];
      outstanding := false;
      navigations := [];
      shownOffset := 0;
    }

    /** The subscriber's reaction to an offset emission: set the loading flag and start a fetch, superseding any earlier one. */
    method StartFetch()
      requires subscribed
      modifies this
      ensures isFetching && outstanding && requested == old(requested) + [offset]
      ensures offset == old(offset) && selected == old(selected) && pokemons == old(pokemons)
      ensures navigated == old(navigated) && subscribed && pending == old(pending)
      ensures navigations == old(navigations) && shownOffset == old(shownOffset)
    {
      isFetching := true;
      requested := requested + [offset];
      outstanding := true;
    }

    /** `offset$.next(newOffset)`: a new value, and a new fetch if `init` has subscribed. */
    method EmitOffset(newOffset: int)
      requires Valid()
      requires newOffset <= MaxOffset
      modifies this
      ensures Valid()
      ensures offset == newOffset
      ensures old(subscribed) ==> isFetching && outstanding && requested == old(requested) + [newOffset]
      ensures !old(subscribed) ==> isFetching == old(isFetching) && outstanding == old(outstanding) && requested == old(requested)
      ensures selected == old(selected) && pokemons == old(pokemons) && navigated == old(navigated)
      ensures subscribed == old(subscribed) && pending == old(pending) && navigations == old(navigations)
    {
      offset := newOffset;
      if subscribed {
        StartFetch();
      }
    }

    /** `getNextPage`: emits `min(offset + 20, MaxOffset)`, even when that is the current offset. */
    method GetNextPage()
      requires Valid()
      modifies this
      ensures Valid()
      ensures offset == NextOffset(old(offset))
      ensures old(subscribed) ==> isFetching && outstanding && requested == old(requested) + [offset]
      ensures !old(subscribed) ==> isFetching == old(isFetching) && outstanding == old(outstanding) && requested == old(requested)
      ensures selected == old(selected) && pokemons == old(pokemons) && navigated == old(navigated)
      ensures subscribed == old(subscribed) && pending == old(pending) && navigations == old(navigations)
    {
      EmitOffset(NextOffset(offset));
    }

    /** `getPreviousPage`: emits `max(offset - 20, 0)`, even when that is the current offset. */
    method GetPreviousPage()
      requires Valid()
      modifies this
      ensures Valid()
      ensures offset == PreviousOffset(old(offset))
      ensures old(subscribed) ==> isFetching && outstanding && requested == old(requested) + [offset]
      ensures !old(subscribed) ==> isFetching == old(isFetching) && outstanding == old(outstanding) && requested == old(requested)
      ensures selected == old(selected) && pokemons == old(pokemons) && navigated == old(navigated)
      ensures subscribed == old(subscribed) && pending == old(pending) && navigations == old(navigations)
    {
      EmitOffset(PreviousOffset(offset));
    }

    /** `selectPokemon`: asks the router for `/pokedex/<id>` and publishes the Pokémon. */
    method SelectPokemon(pokemon: Pokemon)
      requires Valid()
      modifies this
      ensures Valid()
      ensures selected == Published(Some(pokemon))
      ensures navigations == old(navigations) + [pokemon.id]
      ensures offset == old(offset) && pokemons == old(pokemons) && isFetching == old(isFetching)
      ensures navigated == old(navigated) && subscribed == old(subscribed) && pending == old(pending)
      ensures requested == old(requested) && outstanding == old(outstanding)
    {
      navigations := navigations + [pokemon.id];
      selected := Published(Some(pokemon));
    }

    /**
     * `init`: with starting parameters, first emit their offset (no fetch yet,
     * nothing has subscribed); then subscribe, which replays the current
     * offset and so starts exactly one fetch.
     */
    method Init(startingParams: Option<StartingParams>)
      requires Valid()
      requires navigated && requested == []
      requires startingParams.Some? ==> startingParams.value.offset <= MaxOffset
      modifies this
      ensures Valid()
      ensures offset == (if startingParams.Some? then startingParams.value.offset else old(offset))
      ensures pending == (if startingParams.Some? then Some(startingParams.value.selectedPokemonId) else None)
      ensures subscribed && outstanding && isFetching && requested == [offset]
      ensures selected == old(selected) && pokemons == old(pokemons) && navigated
      ensures navigations == old(navigations)
    {
      if startingParams.Some? {
        EmitOffset(startingParams.value.offset);
      }
      pending := if startingParams.Some? then Some(startingParams.value.selectedPokemonId) else None;
      subscribed := true;
      StartFetch();
    }

    /**
     * The constructor's subscription to the router: only the first
     * `NavigationEnd` is handled. `param` is the URL's trailing segment as a
     * number, `None` when it is not one.
     */
    method OnNavigationEnd(param: Option<int>)
      requires Valid()
      modifies this
      ensures Valid()
      ensures old(navigated) ==> unchanged(this)
      ensures !old(navigated) ==> navigated && subscribed && outstanding && isFetching && requested == [offset]
      ensures !old(navigated) ==> pending == DeepLinkId(param)
      ensures !old(navigated) && DeepLinkId(param).Some? ==> offset == CountStartingOffset(param.value)
      ensures !old(navigated) && DeepLinkId(param).None? ==> offset == old(offset)
      ensures selected == old(selected) && pokemons == old(pokemons) && navigations == old(navigations)
    {
      if navigated {
        return;
      }
      navigated := true;
      match DeepLinkId(param)
      case None =>
        Init(None);
      case Some(id) =>
        Init(Some(StartingParams(CountStartingOffset(id), id)));
    }

    /**
     * Fetch `gen` produced the page `pkmns`. Unless it is the latest fetch and
     * still outstanding, `switchMap` has dropped it. An empty reference list
     * makes `forkJoin` complete without emitting, so nothing is published.
     * Otherwise a pending deep link is resolved on this page (once), then the
     * page is published and loading ends.
     */
    method DeliverPage(gen: nat, pkmns: seq<Pokemon>)
      requires Valid()
      modifies this
      ensures Valid()
      ensures !old(CanDeliver(gen)) ==> unchanged(this)
      ensures old(CanDeliver(gen)) ==> !outstanding && subscribed && offset == old(offset) && requested == old(requested)
      ensures old(CanDeliver(gen)) && pkmns == [] ==>
        isFetching && pokemons == old(pokemons) && selected == old(selected) && pending == old(pending)
      ensures old(CanDeliver(gen)) && pkmns != [] ==>
        pokemons == pkmns && !isFetching && pending.None? && shownOffset == old(requested)[gen]
      ensures old(CanDeliver(gen)) && pkmns != [] ==>
        selected == (if old(pending).Some? then Published(Find(pkmns, old(pending).value)) else old(selected))
      ensures navigated == old(navigated) && navigations == old(navigations)
      ensures old(pending).None? ==> selected == old(selected)
    {
      if !CanDeliver(gen) {
        return;
      }
      outstanding := false;
      if pkmns != [] {
        if pending.Some? {
          selected := Published(Find(pkmns, pending.value));
          pending := None;
        }
        pokemons := pkmns;
        shownOffset := requested[gen];
        isFetching := false;
      }
    }

    /**
     * Fetch `gen` failed. A dropped fetch's error is never seen; the latest
     * one's error ends `init`'s subscription, which has no error handler:
     * the page and the loading flag stay as they are and later offsets are
     * not fetched.
     */
    method FailPage(gen: nat)
      requires Valid()
      modifies this
      ensures Valid()
      ensures !old(CanDeliver(gen)) ==> unchanged(this)
      ensures old(CanDeliver(gen)) ==> !subscribed && !outstanding && isFetching
      ensures offset == old(offset) && selected == old(selected) && pokemons == old(pokemons)
      ensures pending == old(pending) && requested == old(requested) && navigated == old(navigated)
      ensures navigations == old(navigations)
    {
      if CanDeliver(gen) {
        subscribed := false;
        outstanding := false;
      }
    }
  }

  // ---------------------------------------------------------------------------
  // Client scenarios
  // ---------------------------------------------------------------------------

  /** Start-up on `/pokedex/45`: page 40 is fetched once, and Pokémon 45 is selected from it, once. */
  method DeepLinkScenario(page: seq<Pokemon>, later: seq<Pokemon>)
    requires IsCatalogPage(40, page)
  {
    var s := new PokedexService();
    s.OnNavigationEnd(Some(45));
    assert s.offset == 40 && s.requested == [40] && s.isFetching;
    s.DeliverPage(0, page);
    DeepLinkFindsItsPokemon(45, page);
    assert s.selected == Published(Some(page[4])) && page[4].id == 45;
    assert s.pokemons == page && !s.isFetching;
    s.GetNextPage();
    assert s.offset == 60 && s.requested == [40, 60];
    s.DeliverPage(1, later);
    assert s.selected == Published(Some(page[4]));
  }

  /** Start-up on `/pokedex/999`: the last page is opened and `undefined` is published as the selection. */
  method DeepLinkMissScenario(page: seq<Pokemon>)
    requires IsCatalogPage(MaxOffset, page)
  {
    var s := new PokedexService();
    s.OnNavigationEnd(Some(999));
    assert s.offset == MaxOffset;
    s.DeliverPage(0, page);
    DeepLinkPastLastPageMisses(999, page);
    assert s.selected == Published(None);
  }

  /** Two quick "next" clicks: the first page's late answer is dropped; the last one is shown. */
  method StaleFetchScenario(first: seq<Pokemon>, stale: seq<Pokemon>, last: seq<Pokemon>)
    requires first != [] && last != []
  {
    var s := new PokedexService();
    s.OnNavigationEnd(None);
    assert s.offset == 0 && s.pending.None?;
    s.DeliverPage(0, first);
    s.GetNextPage();
    s.GetNextPage();
    assert s.requested == [0, 20, 40];
    s.DeliverPage(1, stale);
    assert s.pokemons == first && s.isFetching;
    s.DeliverPage(2, last);
    assert s.pokemons == last && !s.isFetching && s.offset == 40;
    s.GetNextPage();
    s.GetNextPage();
    assert s.requested == [0, 20, 40, 60, 80];
    s.GetNextPage();
    s.GetNextPage();
    assert s.offset == 120 && s.requested == [0, 20, 40, 60, 80, 100, 120];
    s.GetNextPage();
    assert s.offset == MaxOffset && s.requested == [0, 20, 40, 60, 80, 100, 120, 130];
    s.GetNextPage();
    assert s.offset == MaxOffset && |s.requested| == 9 && s.isFetching;
  }
}
