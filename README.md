# Pokédex pagination and selection coordinator, in Dafny

This project models `PokedexService`, the one stateful component of the
Pokédex web application. The service owns four published values:

- the page offset;
- the selected Pokémon;
- the current page of Pokémon;
- the loading flag.

It pages forwards and backwards in steps of 20, clamped at 0 and at 130. At start-up it reads a
Pokémon id from the first URL the router reports (a "deep link"), opens the
page that holds that Pokémon, and selects it when that page arrives. Page
fetches follow "latest fetch wins": only the fetch for the most recent offset
emission can publish a page.

Everything is in `pokedex_service.dfy`, module `Pokedex`:

- Pure functions hold the arithmetic:
  - `NextOffset` and `PreviousOffset`;
  - `CountStartingOffset`, with `TruncRem` for JavaScript's truncating `%`;
  - the search of a delivered page, `Find` over `FindIndex`.
- Lemmas about these functions state the paging range, the round trips, the
  page that holds a deep-linked id, and the hit or miss of the deep-link search.
- Class `PokedexService` keeps the state as fields. Its methods give the whole
  new state in terms of the old one, and every method except the helper
  `StartFetch` keeps the invariant `Valid()`.
- The RxJS machinery becomes plain fields:
  - `requested` lists the offset of every fetch started. A fetch's
    generation is its index in this list, and only the last entry may still
    deliver (`switchMap`).
  - `outstanding` says that fetch has not finished yet.
  - `subscribed` says the subscription made by `init` is alive.
  - `navigated` says the first `NavigationEnd` has been handled (`take(1)`).
  - `pending` holds the deep-linked id until it is used.
- The HTTP page fetch is an event. The environment calls `DeliverPage(gen, pkmns)` or
  `FailPage(gen)`.
- Three client methods walk through three start-up and paging scenarios:
  `DeepLinkScenario`, `DeepLinkMissScenario` and `StaleFetchScenario`.

Behaviour of the code that the model keeps, though a reader might expect otherwise:

- `getNextPage` at offset 130 emits 130 again. The same goes for `getPreviousPage` at 0.
  Either call starts a new fetch and sets the loading flag.
- Offsets are not always multiples of 20: 120 → next → 130 → previous → 110.
- A page boundary id goes to the page before it: `countStartingOffset(20)` is 0
  and `countStartingOffset(130)` is 120. This is correct, not an off-by-one.
  Pokémon ids start at 1, so the page at offset `o` holds ids `o+1 … o+20`.
  `CountStartingOffset` and `CountStartingOffsetIsTheHoldingPage` prove that
  for every id from 1 to 150 the resolved offset is that id's page.
- If the deep-linked id is not on the delivered page, the selection is
  published as `undefined` (`Published(None)`). It is not left unpublished.
- The deep link is applied on the first page published after start-up,
  whatever its offset. An example: the user pages on before the first answer
  arrives.
- An HTTP error in the latest fetch ends the subscription made by `init`, which has no
  error handler. Nothing resets the loading flag. No error value is kept.
  Later offset changes start no fetch.
- An empty list of references makes `forkJoin` complete without emitting.
  No page is published, and the loading flag stays `true`.
- A negative id is resolved with JavaScript's truncating `%`:
  `countStartingOffset(-5)` is 0, and `countStartingOffset(-20)` is -40.
  So `offset` always stays at most 130, but it is not always at least 0.

## Model

| member | source | states |
|---|---|---|
| Pokedex.TruncRem | src/app/pokedex/pokedex.service.ts:112-115 | JavaScript `id % 20`: the result has the sign of `id`, is less than 20 in absolute value, and leaves a multiple of 20. It is 0 exactly when `id` is a multiple of 20, which is the falsy `rest` of line 114. |
| Pokedex.CountStartingOffset | src/app/pokedex/pokedex.service.ts:106-121 | The result is never above 130. Ids above 130 give 130. Ids up to 130 give a multiple of 20 within 20 of the id. For ids ≤ 0 it is the truncating result: a non-multiple of 20 gives the multiple just above it, a multiple `m` gives `m - 20`. For ids 1..150 the result is at least 0 and is the offset of the page holding the id (`offset < id <= offset + 20`). |
| Pokedex.CountStartingOffsetIsTheHoldingPage | src/app/pokedex/pokedex.service.ts:106-121 | For ids 1..130, a multiple of 20 is the offset of the page holding the id if and only if it equals `countStartingOffset(id)`. |
| Pokedex.CountStartingOffsetExamples | src/app/pokedex/pokedex.service.ts:106-121 | 1→0, 20→0, 21→20, 45→40, 130→120, 131→130, 999→130, -5→0, -20→-40. |
| Pokedex.NextOffset | src/app/pokedex/pokedex.service.ts:70-73 | The emitted offset is `min(offset + 20, 130)`: at most both, and equal to one of them. |
| Pokedex.PreviousOffset | src/app/pokedex/pokedex.service.ts:77-80 | The emitted offset is `max(offset - 20, 0)`: at least both, and equal to one of them. |
| Pokedex.DeepLinkId | src/app/pokedex/pokedex.service.ts:40-42 | `!param`: a non-numeric parameter or 0 means no deep link. Any other number is the deep-linked id. |
| Pokedex.PagingClampsAtTheEnds | src/app/pokedex/pokedex.service.ts:69-81 | Next at 130 gives 130, and previous at 0 gives 0: the offset stays the same. (That the methods still emit it and refetch is stated by `GetNextPage` and `GetPreviousPage`.) |
| Pokedex.PagingRoundTrip | src/app/pokedex/pokedex.service.ts:69-81 | Previous undoes next for offsets 0..110. Next undoes previous for offsets 20..130. From 120, next then previous gives 110, which is not a multiple of 20. |
| Pokedex.PagingStaysInRange | src/app/pokedex/pokedex.service.ts:69-81 | Any sequence of next/previous calls keeps an offset ≤ 130 at ≤ 130 and keeps an offset ≥ 0 at ≥ 0. So [0, 130] is closed under paging. |
| Pokedex.FindIndex | src/app/pokedex/pokedex.service.ts:143 | Returns the index of the first Pokémon with the given id, or none when no Pokémon on the page has that id. |
| Pokedex.Find | src/app/pokedex/pokedex.service.ts:143 | `pkmns.find(p => p.id === id)`: `undefined` exactly when no Pokémon has the id. Otherwise it is the earliest Pokémon on the page with that id. |
| Pokedex.DeepLinkFindsItsPokemon | src/app/pokedex/pokedex.service.ts:140-147 | For ids 1..150, the catalog page at `countStartingOffset(id)` contains the deep-linked Pokémon, and the search returns it. |
| Pokedex.DeepLinkPastLastPageMisses | src/app/pokedex/pokedex.service.ts:140-147 | For ids above 150, the search of the page at offset 130 finds nothing, so `undefined` is published. |
| Pokedex.PokedexService.constructor | src/app/pokedex/pokedex.service.ts:23-28 | Initial state: offset 0, nothing selected, no Pokémon, loading `true`, no navigation handled, no subscription, no fetch. |
| Pokedex.PokedexService.StartFetch | src/app/pokedex/pokedex.service.ts:133-138 | An offset emission reaching the subscriber sets loading to `true`. It appends a fetch for the current offset, which supersedes every earlier fetch. |
| Pokedex.PokedexService.EmitOffset | src/app/pokedex/pokedex.service.ts:130-138 | `offset$.next(v)` sets the offset. Once `init` has subscribed it also starts a fetch for `v`. Before that, nothing else changes. |
| Pokedex.PokedexService.GetNextPage | src/app/pokedex/pokedex.service.ts:69-74 | The offset becomes `NextOffset(old offset)`. When subscribed, a fetch for it always starts, even at 130. Selection, page and deep link are unchanged. |
| Pokedex.PokedexService.GetPreviousPage | src/app/pokedex/pokedex.service.ts:76-81 | The offset becomes `PreviousOffset(old offset)`. When subscribed, a fetch for it always starts, even at 0. Selection, page and deep link are unchanged. |
| Pokedex.PokedexService.SelectPokemon | src/app/pokedex/pokedex.service.ts:83-86 | The selection becomes the Pokémon, and navigation to `/pokedex/<id>` is requested. Offset, page, loading flag and fetches are unchanged. |
| Pokedex.PokedexService.Init | src/app/pokedex/pokedex.service.ts:123-139 | Starting parameters set the offset first. Then exactly one fetch starts, for the current offset. The deep-linked id is held until the first page arrives. |
| Pokedex.PokedexService.OnNavigationEnd | src/app/pokedex/pokedex.service.ts:34-50 | Only the first navigation has an effect (`take(1)`). It opens `countStartingOffset(p)` for a deep link `p` and leaves the offset alone otherwise. It holds `p` as pending. The first fetch is for that offset. |
| Pokedex.PokedexService.DeliverPage | src/app/pokedex/pokedex.service.ts:140-151 | A page from any fetch but the latest outstanding one changes nothing. An empty page publishes nothing and leaves loading `true`. Any other page does three things: it resolves the pending deep link once, to the first match or `undefined`; it becomes `pokemons`; it sets loading to `false`. Without a pending deep link the selection never changes. |
| Pokedex.PokedexService.FailPage | src/app/pokedex/pokedex.service.ts:133-151 | A failed stale fetch changes nothing. A failure of the latest fetch ends the subscription. The page, selection and loading flag (`true`) stay as they were. |

The invariant `PokedexService.Valid()` holds after every method except the helper `StartFetch`, which is only called in the middle of an update. It says:

- the offset is at most 130;
- while subscribed, the last fetch requested is for the current offset;
- an outstanding fetch implies loading;
- when loading is `false`, the page shown is the one fetched for the current offset;
- a deep link is pending only while no page has been published.

## Left out

- `getPokemonList` (src/app/pokedex/pokedex.service.ts:88-104), the list request and the `forkJoin` of detail requests, is not modelled. Its outcome is the `DeliverPage`/`FailPage` event, with the page in list order.
- The observable getters (lines 53-67) only expose the fields read-only, so the model has no getters. Subscribers and replay are not modelled: each channel is its current value.
- The router is outside the model. Its events become calls of `OnNavigationEnd`, and `navigate` becomes an entry in `navigations`.
- The URL's numeric coercion (`+url.replace(...)`, line 40) is taken as its result: `None` for NaN, otherwise an integer. Fractional ids are not modelled.
- The Pokémon record keeps only `id` and `name` of the API type (src/app/_types/pokeapi.d.ts:887-891). The service reads no other field.
- `IsCatalogPage` states an assumption about the external catalog API: the page at offset `o` lists ids `o+1` onwards, in order. The deep-link hit and miss lemmas rest on it.
- The UI components, the stats form, route and module wiring, and the end-to-end browser tests hold no service logic. They are not part of this model.
