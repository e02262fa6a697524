# Pokédex client core in Dafny

This project models the logic core of a React Pokédex client that reads the
public PokéAPI. The model covers:

- **Type helpers.** The type colour table, the type-weakness table with
  order-preserving de-duplication, and the zero-padding of ids.
- **Evolution flattening.** A pre-order walk over a species' evolution tree
  that emits `{name, min_level}` steps.
- **Data service.** The paged listing that fetches every entry by name, and
  the by-id fetch that adds the resolved evolution line. Each call stops at
  the first failed request.
- **List-page pager.** The current page is read from the `page` URL
  parameter. Navigation is guarded, and the page derives its cache keys.
- **List page.** The name filter, the prefetch of the following page, the
  enabled state of the pager buttons, and what the page shows.
- **Spotlight card.** It shows a randomly drawn Pokémon. The model covers its
  derived data and the id it shows. That id is kept both in component state
  and in a module-level variable that outlives the component.
- **Stat circles.** The colour and label tables of the stat circles.

The network is a value of type `PokemonService.Api`, which holds four total
functions: the listing, a record by name or id, a species by URL and an
evolution chain by URL. Each returns `NotOk` (`response.ok` is false),
`Json(body)`, or `Rejected(reason)` when `fetch` or `response.json()` itself
rejects.

- **Requests.** The methods that issue several requests in a row
  (`GetAllPokemons`, `GetPokemonById`, `FetchFromBase`, `FetchWithEvolution`
  and `ResolveSteps`) also return the list of requests they sent. Their
  contracts pin that list down, so "one request per entry" and "no request
  after a failure" are stated, not just implied. The single-request wrappers
  (`PokemonByName`, `PokemonSpecies`, `PokemonEvolutionChain`) do not.
- **Errors.** A thrown `Error` is a `Result.Err` that carries the same
  message. A rejected `fetch` or `json()` passes its own reason through
  unchanged.
- **Random draw.** `Math.random` is replaced by an input `draw` in 0..999.
- **Stateful code.** Stateful hooks and components are classes:
  - `PokemonApi.Pager` holds the URL search parameters as a `map<string, string>`.
  - `PokemonSingle.Spotlight` holds the stored id, the shown id and a count of
    `refetch()` calls.
  - `PokemonUtils.StepCollector` holds the accumulator that the recursive
    `traverse` pushes into.

Modules, one per source file, plus three shared ones:

| file | module | models |
|---|---|---|
| wrappers.dfy | `Wrappers` | `Option`, `Result` |
| strings.dfy | `Strings` | decimal numerals, `padStart`, ASCII `toLowerCase`, `includes` |
| pokemon_types.dfy | `PokemonTypes` | the record shapes the code reads |
| pokemon_utils.dfy | `PokemonUtils` | src/utils/pokemonUtils.ts |
| pokemon_service.dfy | `PokemonService` | src/features/pokemons/pokemon.service.ts |
| pokemon_api.dfy | `PokemonApi` | src/features/pokemons/pokemon.api.ts |
| pokemon_grid.dfy | `PokemonGrid` | src/components/pokemon/PokemonGrid.tsx |
| pokemon_single.dfy | `PokemonSingle` | src/components/pokemon/PokemonSingle.tsx |
| stat_circles.dfy | `StatCircles` | src/components/pokemon/StatCircles.tsx |

Two consequences of the code as written:

- **Out-of-range pages.** The page count is `floor(count / limit)`, and
  `goToPage` accepts every page from 0 to that count inclusive.
  - When `count` is a multiple of the page size, the last accepted page is
    empty (`PokemonApi.LastPageNonEmpty`).
  - A `page` parameter above `totalPages + 1` is never changed by Previous or
    Next (`PokemonApi.PreviousParams`, `PokemonApi.NextParams`).
  - A negative `page` parameter is used as is.
- **`hasNext` and `hasPrevious`.** The hook returns the upstream `next` and
  `previous` links themselves, not a combination with `currentPage` and
  `totalPages`. The model follows the code.
  - The button predicates add the `currentPage === 0` and
    `isPlaceholderData` tests.
  - `PokemonGrid.NextEnabledMoves` and `PokemonGrid.PreviousEnabledMoves`
    prove that an enabled button moves the page. This holds when the links
    are as the listing endpoint returns them (`PokemonGrid.UpstreamLinks`).

## Model

| member | source | states |
|---|---|---|
| PokemonUtils.TypeColor | src/utils/pokemonUtils.ts:3-26 | a known type gets its table colour; any other name gets `#68A090`; the colour is always `#` plus six characters |
| PokemonUtils.WeaknessesOf | src/utils/pokemonUtils.ts:32-89 | an unlisted type contributes no weakness; every weakness named in the switch is itself a type with a colour |
| PokemonUtils.TypeNamesOf | src/utils/pokemonUtils.ts:30-32 | a record without `types` contributes no names; otherwise one name per slot, in slot order |
| PokemonUtils.GetWeaknesses | src/utils/pokemonUtils.ts:28-95 | the push-then-dedupe computation yields the weakness function of the record, with no weakness listed twice |
| PokemonUtils.PushWeaknesses | src/utils/pokemonUtils.ts:29-91 | the `forEach` pushes, type by type in slot order, the weaknesses the switch lists; a record without `types` pushes nothing |
| PokemonUtils.KeepFirstOccurrences | src/utils/pokemonUtils.ts:94 | the loop builds the insertion-ordered de-duplication of the pushed list |
| PokemonUtils.WeaknessesMembers | src/utils/pokemonUtils.ts:28-95 | `w` is a weakness of the record iff some type of the record lists `w` in the table |
| PokemonUtils.WeaknessesShape | src/utils/pokemonUtils.ts:93-94 | the result has no duplicates, keeps the order of first occurrence among the pushed names, and is empty for a record with no known type |
| PokemonUtils.DedupMembers | src/utils/pokemonUtils.ts:94 | `[...new Set(xs)]` has exactly the members of `xs` |
| PokemonUtils.DedupDistinct | src/utils/pokemonUtils.ts:94 | `[...new Set(xs)]` has no duplicates |
| PokemonUtils.DedupFirstOccurrenceOrder | src/utils/pokemonUtils.ts:94 | `[...new Set(xs)]` lists elements in the order of their first occurrence in `xs` |
| PokemonUtils.PushedMembers | src/utils/pokemonUtils.ts:31-89 | a name is pushed iff one of the types lists it |
| PokemonUtils.Weaknesses | src/utils/pokemonUtils.ts:28-95 | the reference definition of `getWeaknesses`: the pushed weaknesses de-duplicated; no weakness is listed twice and each is a type with a colour |
| PokemonUtils.FormatPokemonId | src/utils/pokemonUtils.ts:97-99 | the result is the decimal id left-padded with `0` to at least three characters: its length is max(3, digit count), it ends with the decimal id and starts with zeros only |
| Strings.PadStart | src/utils/pokemonUtils.ts:98 | `padStart(n, c)`: the result has length max(n, length of `s`), ends with `s` and is padded with `c` only |
| PokemonUtils.FormatPokemonIdRoundTrip | src/utils/pokemonUtils.ts:97-99 | the padded id is all digits and reads back as the id |
| PokemonUtils.FormatPokemonIdUnpadded | src/utils/pokemonUtils.ts:97-99 | ids of 100 and above are printed without padding |
| PokemonUtils.StepCollector.constructor | src/utils/pokemonUtils.ts:102 | the accumulator starts empty |
| PokemonUtils.StepCollector.Traverse | src/utils/pokemonUtils.ts:104-115 | `traverse(node)` appends the node's own step, if it has a non-empty species name, and then the steps of each child in array order |
| PokemonUtils.GetSpeciesNames | src/utils/pokemonUtils.ts:101-119 | the result is the flattened step list of the chain's root |
| PokemonUtils.PreOrder | src/utils/pokemonUtils.ts:104-115 | a reference pre-order of the tree (node, then each child's subtree left to right); it starts at the node itself |
| PokemonUtils.SpeciesSteps | src/utils/pokemonUtils.ts:104-115 | the reference definition of `traverse`: a named node's own step comes first; an unnamed leaf emits nothing |
| PokemonUtils.Named | src/utils/pokemonUtils.ts:105 | the `node.species && node.species.name` test: it holds only for a present species with a non-empty name |
| PokemonUtils.StepsOf | src/utils/pokemonUtils.ts:105-110 | at most one step per node: unnamed nodes are skipped |
| PokemonUtils.SpeciesStepsArePreOrder | src/utils/pokemonUtils.ts:104-115 | the flattening equals the reference pre-order over the named nodes |
| PokemonUtils.ChildStepsArePreOrder | src/utils/pokemonUtils.ts:112-114 | the children's steps equal the reference pre-order of the children in array order |
| PokemonUtils.FlattenExample | src/utils/pokemonUtils.ts:101-119 | a chain A→[B→[D], C] flattens to A, B, D, C; the root has no level, and a level 0 is kept as 0 |
| PokemonUtils.SingleNodeChain | src/utils/pokemonUtils.ts:104-110 | a named species with no further evolutions flattens to exactly one step carrying its name |
| PokemonUtils.MinLevelOf | src/utils/pokemonUtils.ts:108 | the step's level is the first evolution detail's `min_level`; with no details, or an empty list, there is none (`null`) |
| PokemonUtils.StepsOfNamed | src/utils/pokemonUtils.ts:105-109 | every step emitted for a list of nodes is the step of a named node of that list, so its name is non-empty |
| PokemonUtils.StepNamesNonEmpty | src/utils/pokemonUtils.ts:105-109 | only nodes passing the `node.species && node.species.name` test emit steps, so no flattened step has an empty name and no record is fetched by an empty name |
| PokemonService.PokemonByName | src/features/pokemons/pokemon.service.ts:82-89 | success iff the response is ok and its body decodes; the value is the body; a non-ok response fails with "Failed to fetch pokemon with name " and the name; a rejected `fetch` or `json()` fails with its own reason |
| PokemonService.PokemonSpecies | src/features/pokemons/pokemon.service.ts:91-99 | success iff the response is ok and its body decodes; the value is the body; a non-ok response fails with a message naming the species URL; a rejection passes its reason through |
| PokemonService.PokemonEvolutionChain | src/features/pokemons/pokemon.service.ts:101-108 | success iff the response is ok and its body decodes; the value is the body; a non-ok response fails with a message naming the chain URL; a rejection passes its reason through |
| PokemonService.ResolveEach | src/features/pokemons/pokemon.service.ts:65-74 | the reference definition of a sequential await loop that stops at the first failure: a success has one value per input; an empty input cannot fail |
| PokemonService.AllPokemons | src/features/pokemons/pokemon.service.ts:29-50 | the reference definition of `getAllPokemons`: a success needs an ok listing for `limit` entries at offset `page * limit`, copies its count and has one record per listed entry |
| PokemonService.PokemonById | src/features/pokemons/pokemon.service.ts:52-80 | the reference definition of `getPokemonById`: a success needs an ok fetch of the id's record and returns that record with only `evolution_chain` replaced |
| PokemonService.ResolveEachAllOk | src/features/pokemons/pokemon.service.ts:39-42 | when every fetch succeeds, the loop yields every value, in order, after trying them all |
| PokemonService.ResolveEachFirstErr | src/features/pokemons/pokemon.service.ts:65-74 | when fetch `k` is the first to fail, the loop fails with its error after exactly `k + 1` fetches |
| PokemonService.ResolveEachAllOrNothing | src/features/pokemons/pokemon.service.ts:65-74 | a sequential await loop succeeds iff every fetch succeeds; a failure is the first failing fetch's error, with no fetch after it |
| PokemonService.GetAllPokemons | src/features/pokemons/pokemon.service.ts:29-50 | the loop computes the listing result and sends exactly the listing request followed by one request per entry tried |
| PokemonService.AllPokemonsListingRequest | src/features/pokemons/pokemon.service.ts:30-35 | the first request asks for `limit` entries at offset `page * limit`; a non-ok listing gives "Failed to fetch pokemons", a rejected one its own reason, and nothing more is sent |
| PokemonService.AllPokemonsResults | src/features/pokemons/pokemon.service.ts:39-49 | on success `count`, `next` and `previous` are copied; `results` has one record per listed entry, in order, each the one fetched by its name; 1 + N requests are sent |
| PokemonService.AllPokemonsAllOrNothing | src/features/pokemons/pokemon.service.ts:29-42 | the page succeeds iff the listing and every by-name fetch succeed; otherwise, after a good listing, some entry `k` failed, every entry before it succeeded, the error is entry `k`'s ("Failed to fetch pokemon with name " and its name, or the rejection's reason), and the requests are the listing followed by entries 0..k |
| PokemonService.ListedFailure | src/features/pokemons/pokemon.service.ts:39-42 | when the by-name loop fails, some entry `k` failed, all before it succeeded, the error is entry `k`'s and exactly `k + 1` entries were tried |
| PokemonService.Member | src/features/pokemons/pokemon.service.ts:66-73 | an evolution entry takes id, name and sprites from the record fetched by the step's name and the level from the step |
| PokemonService.GetPokemonById | src/features/pokemons/pokemon.service.ts:52-80 | the method computes the by-id result and sends exactly the requests of that specification |
| PokemonService.FetchFromBase | src/features/pokemons/pokemon.service.ts:59-79 | after the base record: the species request, then the chain request, then the steps; each failure stops the sequence with its error |
| PokemonService.FetchWithEvolution | src/features/pokemons/pokemon.service.ts:62-79 | the chain is flattened, every step resolved in order, and the list attached to the base record |
| PokemonService.ResolveSteps | src/features/pokemons/pokemon.service.ts:64-74 | the loop over the flattened steps resolves them in order, first failure wins, and sends one request per step tried |
| PokemonService.StepFailure | src/features/pokemons/pokemon.service.ts:65-74 | when the step loop fails, some step `k` failed, all before it succeeded, the error is step `k`'s and exactly `k + 1` steps were tried |
| PokemonService.PokemonByIdAllOrNothing | src/features/pokemons/pokemon.service.ts:52-80 | the by-id fetch succeeds iff the record, species, chain and every step's record are fetched successfully |
| PokemonService.PokemonByIdResult | src/features/pokemons/pokemon.service.ts:62-79 | the result is the base record with only `evolution_chain` replaced: one entry per flattened step, in order, with the step's level and the fetched id, name and sprites; 3 + N requests |
| PokemonService.PokemonByIdErrors | src/features/pokemons/pokemon.service.ts:53-60 | a non-ok base fetch gives "Failed to fetch pokemon with id " and the id after one request; a non-ok species or chain fetch gives the message naming its URL and stops there; at each stage a rejected fetch gives its own reason instead |
| PokemonService.PokemonByIdMemberError | src/features/pokemons/pokemon.service.ts:65-67 | when a step fetch fails, some step `k` failed and every earlier step succeeded; the error is step `k`'s message naming it (or the rejection's reason); the requests are the record, species, chain and steps 0..k |
| PokemonService.ChainUrl | src/features/pokemons/pokemon.service.ts:60 | the chain request goes to the species' chain URL, or to the literal "undefined" when the species has none |
| PokemonApi.PokemonsQuery | src/features/pokemons/pokemon.api.ts:10-12 | the query fetches `currentPage` with size `limit`, and its key is `['pokemons', page, limit]` for that same page and size |
| PokemonApi.PokemonsKey | src/features/pokemons/pokemon.api.ts:11 | the page key is three parts: the text `pokemons`, then the page and the size as numbers |
| PokemonApi.PokemonIdKey | src/features/pokemons/pokemon.api.ts:53 | the by-id key is the text `pokemon` followed by the id as a number |
| PokemonApi.PokemonNameKey | src/features/pokemons/pokemon.api.ts:70 | the by-name key is the text `pokemon` followed by the name as text |
| PokemonApi.PageKeysIdentify | src/features/pokemons/pokemon.api.ts:11 | page keys are equal iff page and size are; a page key never equals an id or name key |
| PokemonApi.IdKeysIdentify | src/features/pokemons/pokemon.api.ts:53 | id keys are equal iff the ids are; an id key never equals a name key |
| PokemonApi.NameKeysIdentify | src/features/pokemons/pokemon.api.ts:70 | name keys are equal iff the names are |
| PokemonApi.TotalPagesOf | src/features/pokemons/pokemon.api.ts:19 | the page count is the floor of count divided by the page size, and 0 with no data |
| PokemonApi.LastPageNonEmpty | src/features/pokemons/pokemon.api.ts:19-23 | page `totalPages` holds entries iff the count is not a multiple of the page size |
| Strings.ParseInt | src/features/pokemons/pokemon.api.ts:8 | `Number()` on the parameter text as far as modelled: a number is read only from an optional sign followed by digits, and a digit string reads as its decimal value |
| Strings.IntToString | src/features/pokemons/pokemon.api.ts:26 | `toString()` of an integer: non-empty; a non-negative integer gives digits only, a negative one a `-` followed by digits |
| PokemonApi.PageOf | src/features/pokemons/pokemon.api.ts:8 | `Number()` of the `page` parameter with 0 as fallback: no parameter gives 0, text that is no numeral gives 0, a numeral gives its value |
| Strings.ParseIntRoundTrip | src/features/pokemons/pokemon.api.ts:8-26 | a page written with `toString()` reads back as the same number |
| Strings.ParseIntSigns | src/features/pokemons/pokemon.api.ts:8 | a numeral with a leading `+` reads as its digits, one with `-` as their negation; a leading character that is neither a sign nor a digit makes it no number |
| PokemonApi.PageOfReads | src/features/pokemons/pokemon.api.ts:8 | a missing or empty `page` parameter and non-numeric text give page 0; a written page, an unsigned, a `+` and a `-` numeral give their value |
| PokemonApi.SetPage | src/features/pokemons/pokemon.api.ts:24-28 | after `params.set('page', page.toString())` the page reads back as `page` and every other parameter is kept |
| PokemonApi.GoToPageParams | src/features/pokemons/pokemon.api.ts:21-32 | a page in 0..totalPages becomes the current page with every other parameter kept; any other page changes nothing |
| PokemonApi.NextParams | src/features/pokemons/pokemon.api.ts:42 | Next moves one page forward from pages -1..totalPages-1 and is a no-op from `totalPages` on and below -1; every other search parameter is kept |
| PokemonApi.PreviousParams | src/features/pokemons/pokemon.api.ts:43 | Previous moves one page back from pages 1..totalPages+1 and is a no-op at page 0 or below and above `totalPages + 1`; every other search parameter is kept |
| PokemonApi.NavigationStaysInRange | src/features/pokemons/pokemon.api.ts:21-43 | every navigation either changes nothing or lands on a page in 0..totalPages |
| PokemonApi.Pager.constructor | src/features/pokemons/pokemon.api.ts:6-17 | the hook starts from the given size, search parameters and query result |
| PokemonApi.Pager.CurrentPage | src/features/pokemons/pokemon.api.ts:8 | `currentPage` is the number the `page` parameter spells when it is a numeral, and 0 otherwise or when the parameter is missing |
| PokemonApi.Pager.TotalPages | src/features/pokemons/pokemon.api.ts:19 | the floor of the count over the page size, 0 with no data |
| PokemonApi.Pager.TotalEntries | src/features/pokemons/pokemon.api.ts:38 | `totalEntries` is the listing's count, 0 with no data, and lies between `totalPages * limit` and the next multiple of `limit` |
| PokemonApi.Pager.HasNext | src/features/pokemons/pokemon.api.ts:40 | the upstream `next` link, absent with no data |
| PokemonApi.Pager.HasPrevious | src/features/pokemons/pokemon.api.ts:41 | the upstream `previous` link, absent with no data |
| PokemonApi.Pager.Pokemons | src/features/pokemons/pokemon.api.ts:35 | `pokemons` is the fetched page's records, absent with no data |
| PokemonApi.Pager.Query | src/features/pokemons/pokemon.api.ts:8-12 | the key is `['pokemons', currentPage, limit]` and the query fetches that page |
| PokemonApi.Pager.GoToPage | src/features/pokemons/pokemon.api.ts:21-32 | the parameters become those of the guarded `goToPage` |
| PokemonApi.Pager.GoToNext | src/features/pokemons/pokemon.api.ts:42 | the parameters become those of `goToNext` |
| PokemonApi.Pager.GoToPrevious | src/features/pokemons/pokemon.api.ts:43 | the parameters become those of `goToPrevious` |
| Strings.ToLower | src/components/pokemon/PokemonGrid.tsx:44 | lower-casing keeps the length and maps each character |
| Strings.ToLowerIdempotent | src/components/pokemon/PokemonGrid.tsx:44 | lower-casing twice is lower-casing once |
| Strings.Contains | src/components/pokemon/PokemonGrid.tsx:44 | `includes`: the empty needle is contained in every string, and a contained needle is no longer than the haystack |
| Strings.ContainsOccurs | src/components/pokemon/PokemonGrid.tsx:44 | `includes` holds iff the needle occurs at some position |
| PokemonGrid.Matching | src/components/pokemon/PokemonGrid.tsx:43-45 | the filtered list is never longer than the page |
| PokemonGrid.FilterPokemons | src/components/pokemon/PokemonGrid.tsx:40-46 | no page stays no page; an empty search returns the page unchanged; a non-empty search on a page gives exactly the matching entries (`Matching`), never more than the page |
| PokemonGrid.MatchingMembers | src/components/pokemon/PokemonGrid.tsx:43-45 | an entry is kept iff it is on the page and its lower-cased name contains the lower-cased search |
| PokemonGrid.MatchingAppend | src/components/pokemon/PokemonGrid.tsx:43-45 | filtering distributes over concatenation, so kept entries stay in page order |
| PokemonGrid.MatchingAll | src/components/pokemon/PokemonGrid.tsx:43-45 | a page whose every name matches is kept whole |
| PokemonGrid.CaseInsensitive | src/components/pokemon/PokemonGrid.tsx:44 | the case of the name and of the search text does not matter |
| PokemonGrid.NameMatches | src/components/pokemon/PokemonGrid.tsx:44 | the filter test: an empty search matches every name, and a matching search is no longer than the name |
| PokemonGrid.FilterCaseInsensitive | src/components/pokemon/PokemonGrid.tsx:43-45 | searching for a text or its lower-case form gives the same list |
| PokemonGrid.FilterExample | src/components/pokemon/PokemonGrid.tsx:40-46 | "CHAR" among bulbasaur, charmander and squirtle keeps charmander alone |
| PokemonGrid.ShowNoResults | src/components/pokemon/PokemonGrid.tsx:79 | `filteredPokemons?.length === 0 && valueToSearch`: never without a page (`undefined === 0` is false) or with an empty search; always for an empty page under a non-empty search |
| PokemonGrid.NoResultsIff | src/components/pokemon/PokemonGrid.tsx:79-80 | the warning shows iff a page is loaded, the search is non-empty and no entry matches |
| PokemonGrid.ShouldPrefetch | src/components/pokemon/PokemonGrid.tsx:61 | no prefetch while placeholder data shows, and none without entries (`pokemons?.length ?? 0` is 0) |
| PokemonGrid.PrefetchQuery | src/components/pokemon/PokemonGrid.tsx:62-65 | the prefetch asks for page `currentPage + 1` of size 12, under the key the hook uses for that page and size |
| PokemonGrid.PrefetchMatchesNext | src/components/pokemon/PokemonGrid.tsx:60-67 | whenever Next moves (from any page -1..totalPages-1), the query it leads to is the one prefetched |
| PokemonGrid.PrefetchServesNext | src/components/pokemon/PokemonGrid.tsx:61-65 | on a loaded, non-placeholder page with entries whose Next button is enabled, the prefetch condition holds and the query Next then runs is the prefetched one |
| PokemonGrid.PreviousDisabled | src/components/pokemon/PokemonGrid.tsx:99 | Previous is disabled on page 0 and whenever the `previous` link is absent or empty (falsy); a non-empty link on another page enables it |
| PokemonGrid.NextDisabled | src/components/pokemon/PokemonGrid.tsx:106 | Next is disabled while placeholder data shows and whenever the `next` link is absent or empty; a non-empty link without placeholder data enables it |
| PokemonGrid.NextEnabledMoves | src/components/pokemon/PokemonGrid.tsx:104-106 | with server links as the listing returns them, an enabled Next button moves to the following page |
| PokemonGrid.PreviousEnabledMoves | src/components/pokemon/PokemonGrid.tsx:97-99 | with server links as the listing returns them, an enabled Previous button on a reachable page moves one page back |
| PokemonGrid.ButtonsFollowPosition | src/components/pokemon/PokemonGrid.tsx:97-106 | with server links as the listing returns them, Previous is disabled exactly on page 0, and Next exactly while placeholder data shows or no entry follows the page |
| PokemonGrid.FirstPageOfShortList | src/components/pokemon/PokemonGrid.tsx:97-106 | on the only page of a short list both buttons are disabled |
| PokemonGrid.GridScreen | src/components/pokemon/PokemonGrid.tsx:69-87 | loading wins, then the error with "Error" as fallback message, then the no-results warning, with its fixed text, exactly when it applies; otherwise the cards are exactly the filtered page (none without a page), so all come from the page, and with no search they are the whole page |
| PokemonSingle.RandomPokemonId | src/components/pokemon/PokemonSingle.tsx:16 | a drawn id lies in 1..1000 |
| PokemonSingle.EveryIdDrawable | src/components/pokemon/PokemonSingle.tsx:16 | every id in 1..1000 can be drawn |
| PokemonSingle.FoldIsSum | src/components/pokemon/PokemonSingle.tsx:39 | the `reduce` from 0 is the sum of `base_stat` over all stats |
| PokemonSingle.PrimaryType | src/components/pokemon/PokemonSingle.tsx:36 | the first type's name, or "water" when there is none |
| PokemonSingle.PokemonData | src/components/pokemon/PokemonSingle.tsx:33-47 | no data without a record; otherwise the primary type, its colour, the record's weaknesses and the sum of its base stats |
| PokemonSingle.ThemeColor | src/components/pokemon/PokemonSingle.tsx:73 | the derived colour, or water's colour without data |
| PokemonSingle.UntypedLooksLikeWater | src/components/pokemon/PokemonSingle.tsx:33-73 | a record with an empty type list is themed like no record at all and has no weaknesses |
| PokemonSingle.LevelLabelSource | src/components/pokemon/PokemonSingle.tsx:204-206 | a step shows a level label iff its node's first evolution detail has a non-zero level; a node with empty details shows none |
| PokemonSingle.ShowLevelLabel | src/components/pokemon/PokemonSingle.tsx:204 | `evolution?.min_level ?`: no label for a missing level or level 0 (falsy), a label for any other level |
| PokemonSingle.SingleScreen | src/components/pokemon/PokemonSingle.tsx:75-105 | loading, then the error with "Error fetching Pokémon" as fallback message, then not-found, then the card with the record's derived data and theme |
| PokemonSingle.Spotlight.constructor | src/components/pokemon/PokemonSingle.tsx:19 | nothing is stored at load |
| PokemonSingle.Spotlight.Mount | src/components/pokemon/PokemonSingle.tsx:23-28 | a mount draws only when nothing is stored, otherwise shows the stored id; afterwards both ids agree |
| PokemonSingle.Spotlight.HandleRefetch | src/components/pokemon/PokemonSingle.tsx:50-56 | both ids become the same new draw and one refetch is issued |
| PokemonSingle.Spotlight.HandlePrevious | src/components/pokemon/PokemonSingle.tsx:59-64 | both ids become the same new draw and no refetch is issued |
| PokemonSingle.Spotlight.HandleNext | src/components/pokemon/PokemonSingle.tsx:66-71 | both ids become the same new draw and no refetch is issued |
| StatCircles.StatColor | src/components/pokemon/StatCircles.tsx:1-12 | the seven known stats get their own colours; any other name gets `#000000` |
| StatCircles.StatLabel | src/components/pokemon/StatCircles.tsx:14-25 | unknown names are shown unchanged |
| StatCircles.KnownLabelsShort | src/components/pokemon/StatCircles.tsx:15-22 | each known stat's label is two or three upper-case letters |

## Left out

- React Query and React Router behaviour is not modelled. This covers caching, `staleTime`, `retry: 3`, `keepPreviousData`, `refetchOnWindowFocus`, how `prefetchQuery` runs, `useMemo`/`useCallback` and re-rendering. The model keeps the query keys, the query arguments and the prefetch condition.
- The 500 ms debounce of the search box is left out: the filter takes the debounced text as its input.
- `Math.random` is an input `draw` in 0..999.
- Only the four network calls are modelled, and only as functions of their argument: URLs are not built, and JSON is not decoded beyond the fields the code reads. A rejection of `fetch` or `json()` is a `Rejected(reason)` outcome whose reason the model does not interpret.
- `PokemonApi.PageOf`: `Number()` on the `page` parameter is read as an optional `+` or `-` sign followed by decimal digits (`[+-]?[0-9]+`), and the empty string as 0. `Number()` also accepts `Infinity`, hexadecimal, exponents, surrounding spaces and fractions; these are not modelled here and read as page 0, while the code would pass the resulting value on unchanged.
- `PokemonUtils.TypeColor` models the colour table as a finite map: a name outside it gets the default colour. In JavaScript an inherited prototype key such as `constructor` or `toString` finds a truthy function on the object literal and returns it instead; that is not modelled.
- `StatCircles.StatColor` uses a finite map in the same way: prototype keys such as `constructor` or `toString`, which the code would answer with a function, get the default colour here.
- `StatCircles.StatLabel` uses a finite map in the same way: prototype keys such as `constructor` or `toString`, which the code would answer with a function, are shown unchanged here.
- `PokemonApi.PageOfReads` reads pages as exact integers. `Number()` rounds numerals beyond 2^53, so a huge `page` parameter would read as a nearby different number in the code.
- `Strings.ParseIntRoundTrip` holds for exact integers. In the code `toString()` switches to exponent notation from 1e21 and `Number()` loses precision beyond 2^53, so the round trip of `page.toString()` is only exact for pages below 2^53.
- `PokemonUtils.FormatPokemonId` takes a natural number: the code is only called with PokéAPI ids, and `padStart` on a negative or fractional number is not modelled.
- `Strings.ToLower` lower-cases ASCII letters only; full Unicode case mapping of `toLowerCase` is not modelled.
- `PokemonSingle.PokemonData` and `PokemonSingle.SingleScreen` require the record's `types` array to be present. The code indexes `pokemon.types[0]` unguarded and would throw without it.
- `PokemonApi.TotalPagesOf` takes a positive page size (`PageSize`). The only caller passes 12; a zero size would give `Infinity`/`NaN` in the code.
- The `Chain` record has its `evolves_to` children as a list. An absent or non-array `evolves_to`, which `Array.isArray` skips, is modelled as the empty list.
- The by-id fetch is split into stages (`PokemonService.GetPokemonById`, `FetchFromBase`, `FetchWithEvolution` and the loop `ResolveSteps`). The weakness computation is split into its two loops, `PushWeaknesses` and `KeepFirstOccurrences`. In the code each is one function; the behaviour and the requests sent are the same.
- The card's markup is not modelled: sprites fallback (`official-artwork || front_default`), the ability names with `-` replaced, and the height, weight and base-experience texts. The same goes for the other presentation components and the `StatBar` floating-point percentages.
- `isPlaceholderData` is not kept in `PokemonApi.Pager`: the list-page predicates and lemmas (`ShouldPrefetch`, `NextDisabled`, `PrefetchServesNext`) take it as an input, as the component receives it from the hook.
- `PokemonSingle.Spotlight`: the model holds one mounted component together with the shared module variable. Several simultaneously mounted components, and React's asynchronous state updates, are not modelled.
