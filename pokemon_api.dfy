/** The query hooks of src/features/pokemons/pokemon.api.ts: the current page
    read from the `page` URL parameter, the page count, guarded navigation that
    rewrites the search parameters, and the cache keys. */
module PokemonApi {
  import opened Wrappers
  import opened Strings
  import opened PokemonTypes
  import opened PokemonService

  /** One element of a query-key array. */
  datatype KeyPart = Text(text: string) | Number(number: int)

  type QueryKey = seq<KeyPart>

  /** A page size; the only caller passes 12. */
  type PageSize = n: int | n > 0 witness 12

  /** `['pokemons', currentPage, limit]`. */
  function PokemonsKey(page: int, limit: int): (k: QueryKey)
    ensures |k| == 3 && k[0] == Text("pokemons")
    ensures k[1].Number? && k[1].number == page && k[2].Number? && k[2].number == limit
  {
    [Text("pokemons"), Number(page), Number(limit)]
  }

  /** `['pokemon', id]`. */
  function PokemonIdKey(id: int): (k: QueryKey)
    ensures |k| == 2 && k[0] == Text("pokemon")
    ensures k[1].Number? && k[1].number == id
  {
    [Text("pokemon"), Number(id)]
  }

  /** `['pokemon', name]`. */
  function PokemonNameKey(name: string): (k: QueryKey)
    ensures |k| == 2 && k[0] == Text("pokemon")
    ensures k[1].Text? && k[1].text == name
  {
    [Text("pokemon"), Text(name)]
  }

  /** A page query: its cache key and the arguments its `queryFn` passes to
      `getAllPokemons`. */
  datatype PageQuery = PageQuery(key: QueryKey, page: int, limit: int)

  /** The query `useGetAllPokemons(limit)` runs on `currentPage`. */
  function PokemonsQuery(currentPage: int, limit: int): (q: PageQuery)
    ensures q.page == currentPage && q.limit == limit
    ensures q.key == PokemonsKey(q.page, q.limit)
  {
    PageQuery(PokemonsKey(currentPage, limit), currentPage, limit)
  }

  /** Two page queries share a cache slot iff they fetch the same page with the
      same size, and a page key never collides with a record key. */
  lemma PageKeysIdentify(p: int, l: int, p': int, l': int, id: int, name: string)
    ensures PokemonsKey(p, l) == PokemonsKey(p', l') <==> p == p' && l == l'
    ensures PokemonsKey(p, l) != PokemonIdKey(id) && PokemonsKey(p, l) != PokemonNameKey(name)
  {
    if PokemonsKey(p, l) == PokemonsKey(p', l') {
      assert PokemonsKey(p, l)[1] == PokemonsKey(p', l')[1];
      assert PokemonsKey(p, l)[2] == PokemonsKey(p', l')[2];
    }
  }

  /** Two by-id queries share a cache slot iff the ids are equal; a numeric id
      never shares one with a name, not even the name spelling the same
      digits. */
  lemma IdKeysIdentify(id: int, id': int, name: string)
    ensures PokemonIdKey(id) == PokemonIdKey(id') <==> id == id'
    ensures PokemonIdKey(id) != PokemonNameKey(name)
  {
    if PokemonIdKey(id) == PokemonIdKey(id') {
      assert PokemonIdKey(id)[1] == PokemonIdKey(id')[1];
    }
    assert PokemonIdKey(id)[1] != PokemonNameKey(name)[1];
  }

  /** Two by-name queries share a cache slot iff the names are equal. */
  lemma NameKeysIdentify(name: string, name': string)
    ensures PokemonNameKey(name) == PokemonNameKey(name') <==> name == name'
  {
    if PokemonNameKey(name) == PokemonNameKey(name') {
      assert PokemonNameKey(name)[1] == PokemonNameKey(name')[1];
    }
  }

  // ---------------------------------------------------------------------------
  // Page derivation

  /** `Number(searchParams.get('page')) || 0`: absent, non-numeric and zero all
      give 0; negative numbers are passed through. */
  function PageOf(params: map<string, string>): (page: int)
    ensures "page" !in params ==> page == 0
    ensures "page" in params && ParseInt(params["page"]).None? ==> page == 0
    ensures "page" in params && ParseInt(params["page"]).Some? ==> page == ParseInt(params["page"]).value
  {
    if "page" !in params then 0
    else
      match ParseInt(params["page"])
      case Some(n) => n
      case None => 0
  }

  /** How the `page` parameter reads: a missing or empty parameter and text that
      is not a numeral give 0; a signed or unsigned numeral gives its value. */
  lemma PageOfReads(params: map<string, string>, n: int, digits: string, word: string)
    requires |digits| > 0 && AllDigits(digits)
    requires |word| > 0 && !IsDigit(word[0]) && word[0] != '+' && word[0] != '-'
    ensures "page" !in params ==> PageOf(params) == 0
    ensures PageOf(params["page" := ""]) == 0
    ensures PageOf(params["page" := IntToString(n)]) == n
    ensures PageOf(params["page" := digits]) == DecimalValue(digits)
    ensures PageOf(params["page" := "+" + digits]) == DecimalValue(digits)
    ensures PageOf(params["page" := "-" + digits]) == -(DecimalValue(digits) as int)
    ensures PageOf(params["page" := word]) == 0
  {
    ParseIntRoundTrip(n);
    ParseIntSigns(digits);
    assert !AllDigits(word);
  }

  /** `Math.floor((data?.count || 0) / limit)`. */
  function TotalPagesOf(data: Option<PokemonPage>, limit: PageSize): (total: int)
    ensures data.None? ==> total == 0
    ensures data.Some? ==> total * limit <= data.value.count < (total + 1) * limit
  {
    var count := match data case Some(d) => d.count case None => 0;
    count / limit
  }

  /** The last accepted page, `totalPages`, lists entries from offset
      `totalPages * limit`; it is empty exactly when `count` is a positive
      multiple of `limit`, or zero. */
  lemma LastPageNonEmpty(count: nat, limit: PageSize)
    ensures TotalPagesOf(Some(PokemonPage(count, None, None, [])), limit) * limit < count
      <==> count % limit != 0
  {
  }

  /** The search parameters after `params.set('page', page.toString())`: the page
      reads back as `page` and every other parameter is kept. */
  function SetPage(params: map<string, string>, page: int): (after: map<string, string>)
    ensures PageOf(after) == page
    ensures forall k :: k != "page" ==> (k in after <==> k in params) && (k in params ==> after[k] == params[k])
  {
    ParseIntRoundTrip(page);
    params["page" := IntToString(page)]
  }

  /** `goToPage(page)`: a page in `0..totalPages` becomes the current page with
      every other parameter kept; any other page changes nothing. */
  function GoToPageParams(params: map<string, string>, totalPages: int, page: int): (after: map<string, string>)
    ensures 0 <= page <= totalPages ==> PageOf(after) == page
    ensures !(0 <= page <= totalPages) ==> after == params
    ensures forall k :: k != "page" ==> (k in after <==> k in params) && (k in params ==> after[k] == params[k])
  {
    if 0 <= page <= totalPages then SetPage(params, page) else params
  }

  /** `goToNext()`: `currentPage < totalPages && goToPage(currentPage + 1)`. It
      moves one page forward from any page in `-1..totalPages-1`, and is a no-op
      from `totalPages` on and from pages below -1. */
  function NextParams(params: map<string, string>, totalPages: int): (after: map<string, string>)
    ensures -1 <= PageOf(params) < totalPages ==> PageOf(after) == PageOf(params) + 1
    ensures PageOf(params) >= totalPages ==> after == params
    ensures PageOf(params) < -1 ==> after == params
    ensures forall k :: k != "page" ==> (k in after <==> k in params) && (k in params ==> after[k] == params[k])
  {
    var current := PageOf(params);
    if current < totalPages then GoToPageParams(params, totalPages, current + 1) else params
  }

  /** `goToPrevious()`: `currentPage > 0 && goToPage(currentPage - 1)`. It moves
      one page back from any page in `1..totalPages+1`, and is a no-op on page 0
      (or below) and from any page beyond `totalPages + 1`. */
  function PreviousParams(params: map<string, string>, totalPages: int): (after: map<string, string>)
    ensures 0 < PageOf(params) <= totalPages + 1 ==> PageOf(after) == PageOf(params) - 1
    ensures PageOf(params) <= 0 ==> after == params
    ensures PageOf(params) > totalPages + 1 ==> after == params
    ensures forall k :: k != "page" ==> (k in after <==> k in params) && (k in params ==> after[k] == params[k])
  {
    var current := PageOf(params);
    if current > 0 then GoToPageParams(params, totalPages, current - 1) else params
  }

  /** Navigation never leads outside `0..totalPages`: every transition either
      leaves the parameters as they were or lands on an accepted page. */
  lemma NavigationStaysInRange(params: map<string, string>, totalPages: int, page: int)
    ensures var after := GoToPageParams(params, totalPages, page);
      after == params || 0 <= PageOf(after) <= totalPages
    ensures var after := NextParams(params, totalPages);
      after == params || 0 <= PageOf(after) <= totalPages
    ensures var after := PreviousParams(params, totalPages);
      after == params || 0 <= PageOf(after) <= totalPages
  {
  }

  // ---------------------------------------------------------------------------
  // The hook's state

  /** `useGetAllPokemons(limit)`: the URL search parameters it reads and rewrites,
      and the query result it derives the pager from. */
  class Pager {
    var params: map<string, string>
    const limit: PageSize
    var data: Option<PokemonPage>

    constructor (limit: PageSize, params: map<string, string>, data: Option<PokemonPage>)
      ensures this.limit == limit && this.params == params
      ensures this.data == data
    {
      this.limit := limit;
      this.params := params;
      this.data := data;
    }

    /** `currentPage`: 0, or the number the `page` parameter spells. */
    function CurrentPage(): (page: int)
      reads this
      ensures "page" !in params ==> page == 0
      ensures page == 0 || ("page" in params && ParseInt(params["page"]) == Some(page))
      ensures "page" in params && ParseInt(params["page"]).Some? ==> page == ParseInt(params["page"]).value
    {
      PageOf(params)
    }

    function TotalPages(): (total: int)
      reads this
      ensures data.None? ==> total == 0
      ensures data.Some? ==> total * limit <= data.value.count < (total + 1) * limit
    {
      TotalPagesOf(data, limit)
    }

    /** `data?.count || 0`: the count the page count is derived from. */
    function TotalEntries(): (entries: int)
      reads this
      ensures data.None? ==> entries == 0
      ensures data.Some? ==> entries == data.value.count
      ensures TotalPages() * limit <= entries < (TotalPages() + 1) * limit
    {
      match data
      case Some(d) => d.count
      case None => 0
    }

    /** `hasNext: data?.next`: the upstream value itself, not a comparison with
        `totalPages`. */
    function HasNext(): (next: Option<string>)
      reads this
      ensures data.Some? ==> next == data.value.next
      ensures data.None? ==> next.None?
    {
      if data.Some? then data.value.next else None
    }

    /** `hasPrevious: data?.previous`. */
    function HasPrevious(): (previous: Option<string>)
      reads this
      ensures data.Some? ==> previous == data.value.previous
      ensures data.None? ==> previous.None?
    {
      if data.Some? then data.value.previous else None
    }

    /** `pokemons: data?.results`. */
    function Pokemons(): (pokemons: Option<seq<Pokemon>>)
      reads this
      ensures data.Some? ==> pokemons == Some(data.value.results)
      ensures data.None? ==> pokemons.None?
    {
      if data.Some? then Some(data.value.results) else None
    }

    /** The query the hook runs: key `['pokemons', currentPage, limit]`. */
    function Query(): (q: PageQuery)
      reads this
      ensures q.key == PokemonsKey(CurrentPage(), limit)
      ensures q.page == CurrentPage() && q.limit == limit
    {
      PokemonsQuery(CurrentPage(), limit)
    }

    method GoToPage(page: int)
      modifies this`params
      ensures params == GoToPageParams(old(params), TotalPages(), page)
    {
      if page >= 0 && page <= TotalPages() {
        params := SetPage(params, page);
      }
    }

    method GoToNext()
      modifies this`params
      ensures params == NextParams(old(params), TotalPages())
    {
      if CurrentPage() < TotalPages() {
        GoToPage(CurrentPage() + 1);
      }
    }

    method GoToPrevious()
      modifies this`params
      ensures params == PreviousParams(old(params), TotalPages())
    {
      if CurrentPage() > 0 {
        GoToPage(CurrentPage() - 1);
      }
    }
  }
}
