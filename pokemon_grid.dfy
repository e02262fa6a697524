/** The decision logic of the list page, src/components/pokemon/PokemonGrid.tsx:
    the name filter, the prefetch of the following page, the pager buttons and
    the choice of what the page shows. */
module PokemonGrid {
  import opened Wrappers
  import opened Strings
  import opened PokemonTypes
  import opened PokemonService
  import opened PokemonApi

  /** `LIMIT`: entries per page. */
  const Limit: PageSize := 12

  const NoResultsMessage := "No se encontraron Pokémon con ese nombre."

  /** `pokemon.name.toLowerCase().includes(valueToSearch.toLowerCase())`. */
  predicate NameMatches(name: string, search: string)
    ensures search == "" ==> NameMatches(name, search)
    ensures NameMatches(name, search) ==> |search| <= |name|
  {
    Contains(ToLower(name), ToLower(search))
  }

  /** The entries of `pokemons` whose name matches, in their original order. */
  function Matching(pokemons: seq<Pokemon>, search: string): (r: seq<Pokemon>)
    ensures |r| <= |pokemons|
  {
    if pokemons == [] then []
    else
      (if NameMatches(pokemons[0].name, search) then [pokemons[0]] else [])
      + Matching(pokemons[1..], search)
  }

  /** `filteredPokemons`: the page unchanged while there is no page or no search
      text, otherwise the matching entries. */
  function FilterPokemons(pokemons: Option<seq<Pokemon>>, search: string): (r: Option<seq<Pokemon>>)
    ensures pokemons.None? ==> r.None?
    ensures search == "" ==> r == pokemons
    ensures pokemons.Some? ==> r.Some? && |r.value| <= |pokemons.value|
    ensures pokemons.Some? && search != "" ==> r == Some(Matching(pokemons.value, search))
  {
    if pokemons.None? || search == "" then pokemons
    else Some(Matching(pokemons.value, search))
  }

  /** An entry survives the filter iff it is on the page and its name matches. */
  lemma {:induction false} MatchingMembers(pokemons: seq<Pokemon>, search: string, p: Pokemon)
    ensures p in Matching(pokemons, search) <==> p in pokemons && NameMatches(p.name, search)
  {
    if pokemons != [] {
      MatchingMembers(pokemons[1..], search, p);
      assert pokemons == [pokemons[0]] + pokemons[1..];
    }
  }

  /** Filtering distributes over concatenation, so the survivors keep their
      relative order. */
  lemma {:induction false} MatchingAppend(a: seq<Pokemon>, b: seq<Pokemon>, search: string)
    ensures Matching(a + b, search) == Matching(a, search) + Matching(b, search)
  {
    if a == [] {
      assert a + b == b;
    } else {
      var head := if NameMatches(a[0].name, search) then [a[0]] else [];
      assert (a + b)[0] == a[0];
      assert (a + b)[1..] == a[1..] + b;
      assert Matching(a + b, search) == head + Matching(a[1..] + b, search);
      MatchingAppend(a[1..], b, search);
      assert Matching(a, search) == head + Matching(a[1..], search);
    }
  }

  /** A page whose every name matches comes through whole. */
  lemma {:induction false} MatchingAll(pokemons: seq<Pokemon>, search: string)
    requires forall i :: 0 <= i < |pokemons| ==> NameMatches(pokemons[i].name, search)
    ensures Matching(pokemons, search) == pokemons
  {
    if pokemons != [] {
      MatchingAll(pokemons[1..], search);
    }
  }

  /** The comparison ignores the case of both the name and the search text. */
  lemma CaseInsensitive(name: string, search: string)
    ensures NameMatches(name, search) == NameMatches(ToLower(name), search)
    ensures NameMatches(name, search) == NameMatches(name, ToLower(search))
  {
    ToLowerIdempotent(name);
    ToLowerIdempotent(search);
  }

  /** Searching for a text or for its lower-case form gives the same list. */
  lemma {:induction false} FilterCaseInsensitive(pokemons: seq<Pokemon>, search: string)
    ensures Matching(pokemons, search) == Matching(pokemons, ToLower(search))
  {
    if pokemons != [] {
      CaseInsensitive(pokemons[0].name, search);
      FilterCaseInsensitive(pokemons[1..], search);
    }
  }

  /** A text without upper-case letters is its own lower-case form. */
  lemma LowerFixed(s: string)
    requires forall i :: 0 <= i < |s| ==> !('A' <= s[i] <= 'Z')
    ensures ToLower(s) == s
  {
    assert forall i :: 0 <= i < |s| ==> ToLower(s)[i] == s[i];
  }

  /** A text without the letter `c` does not contain "char". */
  lemma NoCharWithoutC(s: string)
    requires forall i :: 0 <= i < |s| ==> s[i] != 'c'
    ensures !Contains(s, "char")
  {
    ContainsOccurs(s, "char");
    forall i
      ensures !OccursAt(s, "char", i)
    {
      if 0 <= i && i + 4 <= |s| {
        assert s[i..i + 4][0] == s[i];
      }
    }
  }

  lemma CharSearchLower()
    ensures ToLower("CHAR") == "char"
  {
    var lower := ToLower("CHAR");
    assert lower[0] == 'c' && lower[1] == 'h' && lower[2] == 'a' && lower[3] == 'r';
  }

  lemma CharSearchHits(name: string)
    requires name == "charmander"
    ensures NameMatches(name, "CHAR")
  {
    CharSearchLower();
    LowerFixed(name);
    assert OccursAt(name, "char", 0);
    ContainsOccurs(name, "char");
  }

  lemma CharSearchMisses(name: string)
    requires name == "bulbasaur" || name == "squirtle"
    ensures !NameMatches(name, "CHAR")
  {
    CharSearchLower();
    LowerFixed(name);
    NoCharWithoutC(name);
  }

  /** Searching "CHAR" among the three starters keeps only charmander. */
  lemma FilterExample(bulbasaur: Pokemon, charmander: Pokemon, squirtle: Pokemon)
    requires bulbasaur.name == "bulbasaur" && charmander.name == "charmander" && squirtle.name == "squirtle"
    ensures FilterPokemons(Some([bulbasaur, charmander, squirtle]), "CHAR") == Some([charmander])
  {
    CharSearchMisses(bulbasaur.name);
    CharSearchHits(charmander.name);
    CharSearchMisses(squirtle.name);
    var ps := [bulbasaur, charmander, squirtle];
    assert Matching(ps[2..], "CHAR") == [];
    assert Matching(ps[1..], "CHAR") == [charmander];
    assert Matching(ps, "CHAR") == [charmander];
  }

  /** The warning shows iff a search is active on a loaded page and no entry of
      that page matches it. */
  predicate ShowNoResults(filtered: Option<seq<Pokemon>>, search: string)
    ensures filtered.None? ==> !ShowNoResults(filtered, search)
    ensures search == "" ==> !ShowNoResults(filtered, search)
    ensures filtered == Some([]) && search != "" ==> ShowNoResults(filtered, search)
  {
    filtered.Some? && |filtered.value| == 0 && search != ""
  }

  lemma NoResultsIff(pokemons: Option<seq<Pokemon>>, search: string)
    ensures ShowNoResults(FilterPokemons(pokemons, search), search)
      <==> pokemons.Some? && search != ""
           && forall p :: p in pokemons.value ==> !NameMatches(p.name, search)
  {
    if pokemons.Some? && search != "" {
      var page := pokemons.value;
      forall p | p in page
        ensures p in Matching(page, search) <==> NameMatches(p.name, search)
      {
        MatchingMembers(page, search, p);
      }
      if |Matching(page, search)| != 0 {
        assert Matching(page, search)[0] in Matching(page, search);
        MatchingMembers(page, search, Matching(page, search)[0]);
      }
    }
  }

  // ---------------------------------------------------------------------------
  // Prefetch of the following page

  /** `!isPlaceholderData && (pokemons?.length ?? 0) > 0`. */
  predicate ShouldPrefetch(isPlaceholderData: bool, pokemons: Option<seq<Pokemon>>)
    ensures isPlaceholderData ==> !ShouldPrefetch(isPlaceholderData, pokemons)
    ensures pokemons.None? || pokemons == Some([]) ==> !ShouldPrefetch(isPlaceholderData, pokemons)
  {
    !isPlaceholderData && pokemons.Some? && |pokemons.value| > 0
  }

  /** The prefetched query, with the key and arguments this component writes out
      itself: key `['pokemons', currentPage + 1, LIMIT]`, fetching page
      `currentPage + 1` of size `LIMIT`. */
  function PrefetchQuery(currentPage: int): (q: PageQuery)
    ensures q.page == currentPage + 1 && q.limit == Limit
    ensures q.key == PokemonsKey(q.page, q.limit)
  {
    PageQuery([Text("pokemons"), Number(currentPage + 1), Number(Limit)], currentPage + 1, Limit)
  }

  /** The prefetch warms exactly the cache entry that pressing Next asks for:
      whenever Next moves, the query the pager then runs (key included) is the
      prefetched one. */
  lemma PrefetchMatchesNext(params: map<string, string>, totalPages: int)
    requires -1 <= PageOf(params) < totalPages
    ensures PokemonsQuery(PageOf(NextParams(params, totalPages)), Limit) == PrefetchQuery(PageOf(params))
  {
  }

  /** The effect's guard in use: on a loaded, non-placeholder page with entries
      whose Next button is enabled, the effect prefetches, and the query that
      pressing Next then runs is the prefetched one. */
  lemma PrefetchServesNext(params: map<string, string>, data: PokemonPage, isPlaceholderData: bool)
    requires 0 <= PageOf(params)
    requires UpstreamLinks(PageOf(params), data.count, data)
    requires |data.results| > 0
    requires !NextDisabled(isPlaceholderData, data.next)
    ensures ShouldPrefetch(isPlaceholderData, Some(data.results))
    ensures PokemonsQuery(PageOf(NextParams(params, TotalPagesOf(Some(data), Limit))), Limit)
      == PrefetchQuery(PageOf(params))
  {
    NextEnabledMoves(params, data, isPlaceholderData);
  }

  // ---------------------------------------------------------------------------
  // Pager buttons

  /** JavaScript truthiness of an optional link: `null`, `undefined` and `""`
      are falsy. */
  predicate Truthy(link: Option<string>)
  {
    link.Some? && link.value != ""
  }

  /** `currentPage === 0 || !hasPrevious`. */
  predicate PreviousDisabled(currentPage: int, hasPrevious: Option<string>)
    ensures currentPage == 0 ==> PreviousDisabled(currentPage, hasPrevious)
    ensures hasPrevious.None? || hasPrevious == Some("") ==> PreviousDisabled(currentPage, hasPrevious)
    ensures currentPage != 0 && hasPrevious.Some? && hasPrevious.value != "" ==> !PreviousDisabled(currentPage, hasPrevious)
  {
    currentPage == 0 || !Truthy(hasPrevious)
  }

  /** `isPlaceholderData || !hasNext`. */
  predicate NextDisabled(isPlaceholderData: bool, hasNext: Option<string>)
    ensures isPlaceholderData ==> NextDisabled(isPlaceholderData, hasNext)
    ensures hasNext.None? || hasNext == Some("") ==> NextDisabled(isPlaceholderData, hasNext)
    ensures !isPlaceholderData && hasNext.Some? && hasNext.value != "" ==> !NextDisabled(isPlaceholderData, hasNext)
  {
    isPlaceholderData || !Truthy(hasNext)
  }

  /** The paging links the list endpoint returns for `offset`: `next` is
      present iff entries remain after this page, `previous` iff the offset is
      positive. This is an assumption about the server, not code of this
      repository. */
  predicate UpstreamLinks(page: int, count: int, data: PokemonPage)
  {
    && data.count == count
    && (Truthy(data.next) <==> (page + 1) * Limit < count)
    && (Truthy(data.previous) <==> page > 0)
  }

  /** With links as the list endpoint returns them, an enabled Next button
      always moves to the following page. */
  lemma NextEnabledMoves(params: map<string, string>, data: PokemonPage, isPlaceholderData: bool)
    requires 0 <= PageOf(params)
    requires UpstreamLinks(PageOf(params), data.count, data)
    requires !NextDisabled(isPlaceholderData, data.next)
    ensures PageOf(NextParams(params, TotalPagesOf(Some(data), Limit))) == PageOf(params) + 1
  {
    var total := TotalPagesOf(Some(data), Limit);
    assert PageOf(params) < total;
  }

  /** With links as the list endpoint returns them, an enabled Previous button
      on a page that holds entries always moves one page back. */
  lemma PreviousEnabledMoves(params: map<string, string>, data: PokemonPage)
    requires 0 <= PageOf(params) && PageOf(params) * Limit <= data.count
    requires UpstreamLinks(PageOf(params), data.count, data)
    requires !PreviousDisabled(PageOf(params), data.previous)
    ensures PageOf(PreviousParams(params, TotalPagesOf(Some(data), Limit))) == PageOf(params) - 1
  {
    var total := TotalPagesOf(Some(data), Limit);
    assert PageOf(params) <= total;
  }

  /** With links as the list endpoint returns them, Previous is disabled exactly
      on the first page, and Next exactly while placeholder data is shown or
      when no entry follows this page. */
  lemma ButtonsFollowPosition(page: int, data: PokemonPage, isPlaceholderData: bool)
    requires 0 <= page
    requires UpstreamLinks(page, data.count, data)
    ensures PreviousDisabled(page, data.previous) <==> page == 0
    ensures NextDisabled(isPlaceholderData, data.next) <==> isPlaceholderData || data.count <= (page + 1) * Limit
  {
  }

  /** Both buttons are disabled on the first page of a list that fits in it. */
  lemma FirstPageOfShortList(data: PokemonPage)
    requires data.count <= Limit && UpstreamLinks(0, data.count, data)
    ensures PreviousDisabled(0, data.previous) && NextDisabled(false, data.next)
  {
  }

  // ---------------------------------------------------------------------------
  // What the page shows

  datatype GridView =
    | Spinner
    | Failure(message: string)
    | NoResults(warning: string)
    | Cards(cards: seq<Pokemon>)

  /** The loading state wins over the error state, which wins over the list;
      the list is replaced by the warning when the search matches nothing, and
      a missing page renders no card. */
  function GridScreen(isLoading: bool, isError: bool, error: Option<string>,
                      pokemons: Option<seq<Pokemon>>, search: string): (v: GridView)
    ensures isLoading ==> v == Spinner
    ensures !isLoading && isError ==> v == Failure(error.GetOr("Error"))
    ensures v.NoResults? <==> !isLoading && !isError && ShowNoResults(FilterPokemons(pokemons, search), search)
    ensures v.NoResults? ==> v.warning == NoResultsMessage
    ensures !isLoading && !isError && !ShowNoResults(FilterPokemons(pokemons, search), search) ==>
      v == Cards(FilterPokemons(pokemons, search).GetOr([]))
    ensures v.Cards? ==> v.cards == FilterPokemons(pokemons, search).GetOr([])
    ensures v.Cards? ==> forall p :: p in v.cards ==> pokemons.Some? && p in pokemons.value
    ensures !isLoading && !isError && pokemons.Some? && search == "" ==> v == Cards(pokemons.value)
  {
    if isLoading then Spinner
    else if isError then Failure(error.GetOr("Error"))
    else
      var filtered := FilterPokemons(pokemons, search);
      if ShowNoResults(filtered, search) then NoResults(NoResultsMessage)
      else
        match filtered
        case None => Cards([])
        case Some(list) =>
          assert forall p :: p in list ==> p in pokemons.value by {
            forall p | p in list
              ensures p in pokemons.value
            {
              if search != "" {
                MatchingMembers(pokemons.value, search, p);
              }
            }
          }
          Cards(list)
  }
}
