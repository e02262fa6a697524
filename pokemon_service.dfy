/** The aggregator of src/features/pokemons/pokemon.service.ts. The network is an
    `Api` value (one total function per endpoint); every operation also returns
    the requests it issued, in order, so that sequencing and early exit are
    visible. */
module PokemonService {
  import opened Wrappers
  import opened Strings
  import opened PokemonTypes
  import opened PokemonUtils

  /** The outcome of `fetch` followed by `response.json()`: `response.ok` false;
      ok with the decoded JSON body; or a rejection of `fetch` or of `json()`
      (network failure, malformed body), which carries its reason. */
  datatype Response<T> = NotOk | Json(body: T) | Rejected(reason: string)

  /** Body of `GET /pokemon?limit=L&offset=O`. */
  datatype Listing = Listing(count: int, next: Option<string>, previous: Option<string>, results: seq<NamedRef>)

  /** The remote catalogue. */
  datatype Api = Api(
    listPokemons: (int, int) -> Response<Listing>,        // GET /pokemon?limit=L&offset=O
    pokemon: string -> Response<Pokemon>,                // GET /pokemon/{id or name}
    species: string -> Response<Species>,                // GET {species url}
    evolutionChain: string -> Response<EvolutionChain>)  // GET {evolution chain url}

  /** One network request. */
  datatype Request =
    | ListRequest(limit: int, offset: int)
    | PokemonRequest(key: string)
    | SpeciesRequest(url: string)
    | ChainRequest(url: string)

  /** What `getAllPokemons` resolves with. */
  datatype PokemonPage = PokemonPage(count: int, next: Option<string>, previous: Option<string>, results: seq<Pokemon>)

  const ListingError: string := "Failed to fetch pokemons"

  // ---------------------------------------------------------------------------
  // Straight-line wrappers

  /** `getPokemonByName(name)`. */
  function PokemonByName(api: Api, name: string): (r: Result<Pokemon>)
    ensures r.Ok? <==> api.pokemon(name).Json?
    ensures r.Ok? ==> r.value == api.pokemon(name).body
    ensures api.pokemon(name).NotOk? ==> r == Err("Failed to fetch pokemon with name " + name)
    ensures api.pokemon(name).Rejected? ==> r == Err(api.pokemon(name).reason)
  {
    match api.pokemon(name)
    case NotOk => Err("Failed to fetch pokemon with name " + name)
    case Rejected(reason) => Err(reason)
    case Json(data) => Ok(data)
  }

  /** `getPokemonSpecies(url)`. */
  function PokemonSpecies(api: Api, url: string): (r: Result<Species>)
    ensures r.Ok? <==> api.species(url).Json?
    ensures r.Ok? ==> r.value == api.species(url).body
    ensures api.species(url).NotOk? ==> r == Err("Failed to fetch pokemon species from " + url)
    ensures api.species(url).Rejected? ==> r == Err(api.species(url).reason)
  {
    match api.species(url)
    case NotOk => Err("Failed to fetch pokemon species from " + url)
    case Rejected(reason) => Err(reason)
    case Json(data) => Ok(data)
  }

  /** `getPokemonEvolutionChain(url)`. */
  function PokemonEvolutionChain(api: Api, url: string): (r: Result<EvolutionChain>)
    ensures r.Ok? <==> api.evolutionChain(url).Json?
    ensures r.Ok? ==> r.value == api.evolutionChain(url).body
    ensures api.evolutionChain(url).NotOk? ==> r == Err("Failed to fetch pokemon evolution chain from " + url)
    ensures api.evolutionChain(url).Rejected? ==> r == Err(api.evolutionChain(url).reason)
  {
    match api.evolutionChain(url)
    case NotOk => Err("Failed to fetch pokemon evolution chain from " + url)
    case Rejected(reason) => Err(reason)
    case Json(data) => Ok(data)
  }

  // ---------------------------------------------------------------------------
  // Sequential resolution of a list, stopping at the first failure

  /** Resolve each element in order; the first rejection rejects the whole. */
  function ResolveEach<A, B>(xs: seq<A>, f: A -> Result<B>): (r: Result<seq<B>>)
    ensures r.Ok? ==> |r.value| == |xs|
    ensures r.Err? ==> |xs| > 0
  {
    if xs == [] then Ok([])
    else
      match f(xs[0])
      case Err(e) => Err(e)
      case Ok(y) =>
        match ResolveEach(xs[1..], f)
        case Err(e) => Err(e)
        case Ok(ys) => Ok([y] + ys)
  }

  /** How many elements are attempted: up to and including the first failure. */
  function Attempted<A, B>(xs: seq<A>, f: A -> Result<B>): (n: nat)
    ensures n <= |xs|
  {
    if xs == [] then 0 else if f(xs[0]).Err? then 1 else 1 + Attempted(xs[1..], f)
  }

  lemma {:induction false} ResolveEachAllOk<A, B>(xs: seq<A>, f: A -> Result<B>)
    requires forall i :: 0 <= i < |xs| ==> f(xs[i]).Ok?
    ensures ResolveEach(xs, f).Ok? && Attempted(xs, f) == |xs|
    ensures |ResolveEach(xs, f).value| == |xs|
    ensures forall i :: 0 <= i < |xs| ==> ResolveEach(xs, f).value[i] == f(xs[i]).value
  {
    if xs != [] {
      assert forall i :: 0 <= i < |xs| - 1 ==> xs[1..][i] == xs[i + 1];
      ResolveEachAllOk(xs[1..], f);
    }
  }

  lemma {:induction false} ResolveEachFirstErr<A, B>(xs: seq<A>, f: A -> Result<B>, k: nat)
    requires k < |xs| && f(xs[k]).Err?
    requires forall i :: 0 <= i < k ==> f(xs[i]).Ok?
    ensures ResolveEach(xs, f) == Err(f(xs[k]).error)
    ensures Attempted(xs, f) == k + 1
  {
    if k > 0 {
      assert forall i :: 0 <= i < k - 1 ==> xs[1..][i] == xs[i + 1];
      ResolveEachFirstErr(xs[1..], f, k - 1);
    }
  }

  /** All-or-nothing: the list resolves iff every element does; otherwise it
      rejects with the error of the first element that failed. */
  lemma {:induction false} ResolveEachAllOrNothing<A, B>(xs: seq<A>, f: A -> Result<B>)
    ensures ResolveEach(xs, f).Ok? <==> forall i :: 0 <= i < |xs| ==> f(xs[i]).Ok?
    ensures ResolveEach(xs, f).Err? ==>
      exists k :: 0 <= k < |xs| && f(xs[k]) == Err(ResolveEach(xs, f).error)
        && (forall i :: 0 <= i < k ==> f(xs[i]).Ok?)
        && Attempted(xs, f) == k + 1
  {
    if xs != [] {
      ResolveEachAllOrNothing(xs[1..], f);
      assert forall i :: 0 <= i < |xs| - 1 ==> xs[1..][i] == xs[i + 1];
      if f(xs[0]).Ok? && ResolveEach(xs[1..], f).Err? {
        var k :| 0 <= k < |xs| - 1 && f(xs[1..][k]) == Err(ResolveEach(xs[1..], f).error)
          && (forall i :: 0 <= i < k ==> f(xs[1..][i]).Ok?)
          && Attempted(xs[1..], f) == k + 1;
        assert f(xs[k + 1]) == Err(ResolveEach(xs, f).error);
      }
    }
  }

  // ---------------------------------------------------------------------------
  // getAllPokemons

  function Names(refs: seq<NamedRef>): (names: seq<string>)
    ensures |names| == |refs| && forall i :: 0 <= i < |refs| ==> names[i] == refs[i].name
  {
    seq(|refs|, i requires 0 <= i < |refs| => refs[i].name)
  }

  function PokemonRequests(names: seq<string>): (rs: seq<Request>)
    ensures |rs| == |names| && forall i :: 0 <= i < |names| ==> rs[i] == PokemonRequest(names[i])
  {
    seq(|names|, i requires 0 <= i < |names| => PokemonRequest(names[i]))
  }

  /** `getPokemonByName` as a function value. */
  function ByName(api: Api): (f: string -> Result<Pokemon>)
    ensures forall name :: f(name) == PokemonByName(api, name)
  {
    name => PokemonByName(api, name)
  }

  /** What `getAllPokemons(page, limit)` resolves or rejects with. */
  function AllPokemons(api: Api, page: int, limit: int): (r: Result<PokemonPage>)
    ensures r.Ok? ==>
      && api.listPokemons(limit, page * limit).Json?
      && |r.value.results| == |api.listPokemons(limit, page * limit).body.results|
      && r.value.count == api.listPokemons(limit, page * limit).body.count
  {
    match api.listPokemons(limit, page * limit)
    case NotOk => Err(ListingError)
    case Rejected(reason) => Err(reason)
    case Json(listing) =>
      match ResolveEach(Names(listing.results), ByName(api))
      case Err(e) => Err(e)
      case Ok(data) => Ok(PokemonPage(listing.count, listing.next, listing.previous, data))
  }

  /** The requests `getAllPokemons(page, limit)` issues, in order. */
  function AllPokemonsRequests(api: Api, page: int, limit: int): seq<Request>
  {
    [ListRequest(limit, page * limit)]
      + match api.listPokemons(limit, page * limit)
        case Json(listing) =>
          var names := Names(listing.results);
          PokemonRequests(names[..Attempted(names, ByName(api))])
        case _ => []
  }

  /** `getAllPokemons(page, limit)`: fetch the listing, then each listed record
      in turn. */
  method GetAllPokemons(api: Api, page: int, limit: int) returns (r: Result<PokemonPage>, sent: seq<Request>)
    ensures r == AllPokemons(api, page, limit)
    ensures sent == AllPokemonsRequests(api, page, limit)
  {
    var offset := page * limit;
    sent := [ListRequest(limit, offset)];
    var response := api.listPokemons(limit, offset);
    if response.NotOk? {
      return Err(ListingError), sent;
    }
    if response.Rejected? {
      return Err(response.reason), sent;
    }
    var pokemons := response.body;
    var names := Names(pokemons.results);
    var data: seq<Pokemon> := [];
    var i := 0;
    while i < |pokemons.results|
      invariant 0 <= i <= |names|
      invariant forall j :: 0 <= j < i ==> PokemonByName(api, names[j]).Ok?
      invariant |data| == i && forall j :: 0 <= j < i ==> data[j] == PokemonByName(api, names[j]).value
      invariant sent == [ListRequest(limit, offset)] + PokemonRequests(names[..i])
    {
      var name := pokemons.results[i].name;
      var pokemonData := PokemonByName(api, name);
      sent := sent + [PokemonRequest(name)];
      assert PokemonRequests(names[..i + 1]) == PokemonRequests(names[..i]) + [PokemonRequest(name)];
      if pokemonData.Err? {
        ResolveEachFirstErr(names, ByName(api), i);
        return Err(pokemonData.error), sent;
      }
      data := data + [pokemonData.value];
      i := i + 1;
    }
    ResolveEachAllOk(names, ByName(api));
    assert names[..|names|] == names;
    assert data == ResolveEach(names, ByName(api)).value;
    r := Ok(PokemonPage(pokemons.count, pokemons.next, pokemons.previous, data));
  }

  /** The listing is requested with `limit` and `offset = page * limit`; when it
      is not ok the call rejects with the fixed message, when the fetch itself
      rejects with that rejection's reason, and nothing else is requested. */
  lemma AllPokemonsListingRequest(api: Api, page: int, limit: int)
    ensures AllPokemonsRequests(api, page, limit)[0] == ListRequest(limit, page * limit)
    ensures api.listPokemons(limit, page * limit).NotOk? ==>
      AllPokemons(api, page, limit) == Err(ListingError)
      && AllPokemonsRequests(api, page, limit) == [ListRequest(limit, page * limit)]
    ensures api.listPokemons(limit, page * limit).Rejected? ==>
      AllPokemons(api, page, limit) == Err(api.listPokemons(limit, page * limit).reason)
      && AllPokemonsRequests(api, page, limit) == [ListRequest(limit, page * limit)]
  {
  }

  /** On success the page has one record per listed name, in listing order, each
      the record fetched for that name; `count`, `next` and `previous` are the
      listing's; exactly 1 + N requests were issued. */
  lemma AllPokemonsResults(api: Api, page: int, limit: int)
    requires AllPokemons(api, page, limit).Ok?
    ensures api.listPokemons(limit, page * limit).Json?
    ensures
      var listing := api.listPokemons(limit, page * limit).body;
      var result := AllPokemons(api, page, limit).value;
      && result.count == listing.count
      && result.next == listing.next
      && result.previous == listing.previous
      && |result.results| == |listing.results|
      && (forall i :: 0 <= i < |listing.results| ==>
            api.pokemon(listing.results[i].name) == Json(result.results[i]))
      && |AllPokemonsRequests(api, page, limit)| == 1 + |listing.results|
  {
    var listing := api.listPokemons(limit, page * limit).body;
    var names := Names(listing.results);
    ResolveEachAllOrNothing(names, ByName(api));
    ResolveEachAllOk(names, ByName(api));
  }

  /** All-or-nothing: the page resolves iff the listing and every listed record
      can be fetched; otherwise it rejects with the message of the first listed
      record that could not be fetched, and the requests are the listing and the
      records up to and including that one. */
  lemma AllPokemonsAllOrNothing(api: Api, page: int, limit: int)
    ensures AllPokemons(api, page, limit).Ok? <==>
      api.listPokemons(limit, page * limit).Json?
      && forall i :: 0 <= i < |api.listPokemons(limit, page * limit).body.results| ==>
           api.pokemon(api.listPokemons(limit, page * limit).body.results[i].name).Json?
    ensures AllPokemons(api, page, limit).Err? && api.listPokemons(limit, page * limit).Json? ==>
      var names := Names(api.listPokemons(limit, page * limit).body.results);
      exists k :: 0 <= k < |names|
        && !api.pokemon(names[k]).Json?
        && (forall i :: 0 <= i < k ==> api.pokemon(names[i]).Json?)
        && AllPokemons(api, page, limit).error
           == (if api.pokemon(names[k]).NotOk? then "Failed to fetch pokemon with name " + names[k]
               else api.pokemon(names[k]).reason)
        && AllPokemonsRequests(api, page, limit) == [ListRequest(limit, page * limit)] + PokemonRequests(names[..k + 1])
  {
    var response := api.listPokemons(limit, page * limit);
    if response.Json? {
      var names := Names(response.body.results);
      ResolveEachAllOrNothing(names, ByName(api));
      if AllPokemons(api, page, limit).Err? {
        ListedFailure(api, names, ResolveEach(names, ByName(api)).error);
      }
    }
  }

  /** The first by-name fetch that fails, seen from the loop's result. */
  lemma ListedFailure(api: Api, names: seq<string>, error: string)
    requires ResolveEach(names, ByName(api)) == Err(error)
    ensures exists k ::
      && 0 <= k < |names|
      && !api.pokemon(names[k]).Json?
      && (forall i :: 0 <= i < k ==> api.pokemon(names[i]).Json?)
      && error == PokemonByName(api, names[k]).error
      && Attempted(names, ByName(api)) == k + 1
  {
    ResolveEachAllOrNothing(names, ByName(api));
    var k :| 0 <= k < |names| && ByName(api)(names[k]) == Err(error)
      && (forall i :: 0 <= i < k ==> ByName(api)(names[i]).Ok?)
      && Attempted(names, ByName(api)) == k + 1;
    assert !api.pokemon(names[k]).Json?;
  }

  // ---------------------------------------------------------------------------
  // getPokemonById

  /** `species?.evolution_chain?.url`, interpolated as `undefined` when absent. */
  function ChainUrl(species: Species): (url: string)
    ensures species.evolutionChainUrl.Some? ==> url == species.evolutionChainUrl.value
    ensures species.evolutionChainUrl.None? ==> url == "undefined"
  {
    species.evolutionChainUrl.GetOr("undefined")
  }

  /** The `evolvesArr` entry for one flattened step: the step's level (`?? null`)
      with the id, name and sprites of the record fetched by its name. */
  function Member(api: Api, step: Step): (r: Result<EvolutionMember>)
    ensures r.Ok? <==> api.pokemon(step.name).Json?
    ensures r.Ok? ==> r.value == EvolutionMember(api.pokemon(step.name).body.id,
      api.pokemon(step.name).body.name, step.minLevel, api.pokemon(step.name).body.sprites)
    ensures r.Err? ==> r.error == PokemonByName(api, step.name).error
  {
    match PokemonByName(api, step.name)
    case Err(e) => Err(e)
    case Ok(evolutionSpecies) =>
      Ok(EvolutionMember(evolutionSpecies.id, evolutionSpecies.name, step.minLevel, evolutionSpecies.sprites))
  }

  /** `Member` as a function value. */
  function MemberOf(api: Api): (f: Step -> Result<EvolutionMember>)
    ensures forall step :: f(step) == Member(api, step)
  {
    step => Member(api, step)
  }

  function IdError(id: int): string
  {
    "Failed to fetch pokemon with id " + IntToString(id)
  }

  /** The last stage of `getPokemonById`: resolve every flattened step of the
      chain and attach the list to the base record. */
  function WithEvolution(api: Api, data: Pokemon, chain: EvolutionChain): Result<Pokemon>
  {
    match ResolveEach(SpeciesSteps(chain.chain), MemberOf(api))
    case Err(e) => Err(e)
    case Ok(members) => Ok(data.(evolutionChain := Some(members)))
  }

  /** The stages after the base record: species, then evolution chain. */
  function FromBase(api: Api, data: Pokemon): Result<Pokemon>
  {
    match PokemonSpecies(api, data.species.url)
    case Err(e) => Err(e)
    case Ok(species) =>
      match PokemonEvolutionChain(api, ChainUrl(species))
      case Err(e) => Err(e)
      case Ok(chain) => WithEvolution(api, data, chain)
  }

  /** What `getPokemonById(id)` resolves or rejects with. */
  function PokemonById(api: Api, id: int): (r: Result<Pokemon>)
    ensures r.Ok? ==>
      && api.pokemon(IntToString(id)).Json?
      && r.value.(evolutionChain := api.pokemon(IntToString(id)).body.evolutionChain)
         == api.pokemon(IntToString(id)).body
  {
    match api.pokemon(IntToString(id))
    case NotOk => Err(IdError(id))
    case Rejected(reason) => Err(reason)
    case Json(data) => FromBase(api, data)
  }

  function StepRequests(steps: seq<Step>): (rs: seq<Request>)
    ensures |rs| == |steps| && forall i :: 0 <= i < |steps| ==> rs[i] == PokemonRequest(steps[i].name)
  {
    seq(|steps|, i requires 0 <= i < |steps| => PokemonRequest(steps[i].name))
  }

  /** The requests issued for the flattened steps of `chain`. */
  function EvolutionRequests(api: Api, chain: EvolutionChain): seq<Request>
  {
    var steps := SpeciesSteps(chain.chain);
    StepRequests(steps[..Attempted(steps, MemberOf(api))])
  }

  /** The requests issued after the base record. */
  function FromBaseRequests(api: Api, data: Pokemon): seq<Request>
  {
    [SpeciesRequest(data.species.url)]
      + match api.species(data.species.url)
        case Json(species) =>
          [ChainRequest(ChainUrl(species))]
            + (match api.evolutionChain(ChainUrl(species))
               case Json(chain) => EvolutionRequests(api, chain)
               case _ => [])
        case _ => []
  }

  /** The requests `getPokemonById(id)` issues, in order. */
  function PokemonByIdRequests(api: Api, id: int): seq<Request>
  {
    [PokemonRequest(IntToString(id))]
      + match api.pokemon(IntToString(id))
        case Json(data) => FromBaseRequests(api, data)
        case _ => []
  }

  /** `getPokemonById(id)`: record, species, evolution chain, flatten, then one
      fetch per step. */
  method GetPokemonById(api: Api, id: int) returns (r: Result<Pokemon>, sent: seq<Request>)
    ensures r == PokemonById(api, id)
    ensures sent == PokemonByIdRequests(api, id)
  {
    var key := IntToString(id);
    var response := api.pokemon(key);
    if response.NotOk? {
      return Err(IdError(id)), [PokemonRequest(key)];
    }
    if response.Rejected? {
      return Err(response.reason), [PokemonRequest(key)];
    }
    var more;
    r, more := FetchFromBase(api, response.body);
    sent := [PokemonRequest(key)] + more;
  }

  /** The body of `getPokemonById` after the base record has been fetched. */
  method FetchFromBase(api: Api, data: Pokemon) returns (r: Result<Pokemon>, sent: seq<Request>)
    ensures r == FromBase(api, data)
    ensures sent == FromBaseRequests(api, data)
  {
    sent := [SpeciesRequest(data.species.url)];
    var species := PokemonSpecies(api, data.species.url);
    if species.Err? {
      return Err(species.error), sent;
    }
    var url := ChainUrl(species.value);
    sent := sent + [ChainRequest(url)];
    var evolutionChain := PokemonEvolutionChain(api, url);
    if evolutionChain.Err? {
      return Err(evolutionChain.error), sent;
    }
    var more;
    r, more := FetchWithEvolution(api, data, evolutionChain.value);
    sent := sent + more;
  }

  /** The body of `getPokemonById` once the evolution chain is known: flatten it,
      resolve every step and attach the list to the base record. */
  method FetchWithEvolution(api: Api, data: Pokemon, chain: EvolutionChain) returns (r: Result<Pokemon>, sent: seq<Request>)
    ensures r == WithEvolution(api, data, chain)
    ensures sent == EvolutionRequests(api, chain)
  {
    var evolutionPokemons := GetSpeciesNames(chain);
    var evolvesArr;
    evolvesArr, sent := ResolveSteps(api, evolutionPokemons);
    if evolvesArr.Err? {
      return Err(evolvesArr.error), sent;
    }
    r := Ok(data.(evolutionChain := Some(evolvesArr.value)));
  }

  /** The `for` loop of `getPokemonById`: fetch the record of each flattened
      step in turn and build its `evolvesArr` entry; a failing fetch aborts. */
  method ResolveSteps(api: Api, evolutionPokemons: seq<Step>) returns (r: Result<seq<EvolutionMember>>, sent: seq<Request>)
    ensures r == ResolveEach(evolutionPokemons, MemberOf(api))
    ensures sent == StepRequests(evolutionPokemons[..Attempted(evolutionPokemons, MemberOf(api))])
  {
    sent := [];
    var evolvesArr: seq<EvolutionMember> := [];
    var i := 0;
    while i < |evolutionPokemons|
      invariant 0 <= i <= |evolutionPokemons|
      invariant forall j :: 0 <= j < i ==> Member(api, evolutionPokemons[j]).Ok?
      invariant |evolvesArr| == i
      invariant forall j :: 0 <= j < i ==> evolvesArr[j] == Member(api, evolutionPokemons[j]).value
      invariant sent == StepRequests(evolutionPokemons[..i])
    {
      var step := evolutionPokemons[i];
      var evolutionSpecies := PokemonByName(api, step.name);
      sent := sent + [PokemonRequest(step.name)];
      assert StepRequests(evolutionPokemons[..i + 1]) == StepRequests(evolutionPokemons[..i]) + [PokemonRequest(step.name)];
      if evolutionSpecies.Err? {
        ResolveEachFirstErr(evolutionPokemons, MemberOf(api), i);
        return Err(evolutionSpecies.error), sent;
      }
      var member := EvolutionMember(evolutionSpecies.value.id, evolutionSpecies.value.name,
                                    step.minLevel, evolutionSpecies.value.sprites);
      assert Member(api, step) == Ok(member);
      evolvesArr := evolvesArr + [member];
      i := i + 1;
    }
    ResolveEachAllOk(evolutionPokemons, MemberOf(api));
    assert evolutionPokemons[..|evolutionPokemons|] == evolutionPokemons;
    assert evolvesArr == ResolveEach(evolutionPokemons, MemberOf(api)).value;
    r := Ok(evolvesArr);
  }

  /** Every request `getPokemonById(id)` needs succeeds: the record, its species,
      the evolution chain, and the record of every flattened step. */
  predicate ByIdFetchesOk(api: Api, id: int)
  {
    match api.pokemon(IntToString(id))
    case Json(base) =>
      (match api.species(base.species.url)
       case Json(species) =>
         (match api.evolutionChain(ChainUrl(species))
          case Json(chain) => forall step :: step in SpeciesSteps(chain.chain) ==> api.pokemon(step.name).Json?
          case _ => false)
       case _ => false)
    case _ => false
  }

  /** All-or-nothing: the aggregation resolves iff every fetch it needs succeeds;
      no partial result is ever returned. */
  lemma PokemonByIdAllOrNothing(api: Api, id: int)
    ensures PokemonById(api, id).Ok? <==> ByIdFetchesOk(api, id)
  {
    var response := api.pokemon(IntToString(id));
    if response.Json? && api.species(response.body.species.url).Json? {
      var species := api.species(response.body.species.url).body;
      if api.evolutionChain(ChainUrl(species)).Json? {
        var steps := SpeciesSteps(api.evolutionChain(ChainUrl(species)).body.chain);
        ResolveEachAllOrNothing(steps, MemberOf(api));
        if ResolveEach(steps, MemberOf(api)).Ok? {
          forall step | step in steps ensures api.pokemon(step.name).Json? {
            var k :| 0 <= k < |steps| && steps[k] == step;
            assert MemberOf(api)(steps[k]).Ok?;
          }
        }
      }
    }
  }

  /** On success the result is the base record with `evolution_chain` set and
      every other field unchanged: one entry per flattened step, in flattened
      order, each with the step's level and the id, name and sprites of the
      record fetched by the step's name; 3 + N requests were issued. */
  lemma PokemonByIdResult(api: Api, id: int, base: Pokemon, species: Species, chain: EvolutionChain)
    requires api.pokemon(IntToString(id)) == Json(base)
    requires api.species(base.species.url) == Json(species)
    requires api.evolutionChain(ChainUrl(species)) == Json(chain)
    requires PokemonById(api, id).Ok?
    ensures PokemonById(api, id).value.(evolutionChain := base.evolutionChain) == base
    ensures PokemonById(api, id).value.evolutionChain.Some?
    ensures |PokemonById(api, id).value.evolutionChain.value| == |SpeciesSteps(chain.chain)|
    ensures forall i :: 0 <= i < |SpeciesSteps(chain.chain)| ==>
      var step := SpeciesSteps(chain.chain)[i];
      && api.pokemon(step.name).Json?
      && PokemonById(api, id).value.evolutionChain.value[i]
         == EvolutionMember(api.pokemon(step.name).body.id, api.pokemon(step.name).body.name,
                            step.minLevel, api.pokemon(step.name).body.sprites)
    ensures |PokemonByIdRequests(api, id)| == 3 + |SpeciesSteps(chain.chain)|
  {
    var steps := SpeciesSteps(chain.chain);
    ResolveEachAllOrNothing(steps, MemberOf(api));
    ResolveEachAllOk(steps, MemberOf(api));
  }

  /** Each failing stage rejects with a message naming what was being fetched
      (or, when the fetch itself rejected, with that rejection's reason), and
      nothing is requested after it. */
  lemma PokemonByIdErrors(api: Api, id: int)
    ensures !api.pokemon(IntToString(id)).Json? ==>
      && PokemonById(api, id)
         == Err(if api.pokemon(IntToString(id)).NotOk? then "Failed to fetch pokemon with id " + IntToString(id)
                else api.pokemon(IntToString(id)).reason)
      && PokemonByIdRequests(api, id) == [PokemonRequest(IntToString(id))]
    ensures api.pokemon(IntToString(id)).Json? ==>
      var url := api.pokemon(IntToString(id)).body.species.url;
      !api.species(url).Json? ==>
        && PokemonById(api, id)
           == Err(if api.species(url).NotOk? then "Failed to fetch pokemon species from " + url
                  else api.species(url).reason)
        && PokemonByIdRequests(api, id) == [PokemonRequest(IntToString(id)), SpeciesRequest(url)]
    ensures api.pokemon(IntToString(id)).Json? ==>
      var url := api.pokemon(IntToString(id)).body.species.url;
      api.species(url).Json? ==>
        var chainUrl := ChainUrl(api.species(url).body);
        !api.evolutionChain(chainUrl).Json? ==>
          && PokemonById(api, id)
             == Err(if api.evolutionChain(chainUrl).NotOk? then "Failed to fetch pokemon evolution chain from " + chainUrl
                    else api.evolutionChain(chainUrl).reason)
          && PokemonByIdRequests(api, id) == [PokemonRequest(IntToString(id)), SpeciesRequest(url), ChainRequest(chainUrl)]
  {
  }

  /** A failure while resolving the evolution members rejects with the message of
      the first step whose record could not be fetched; the requests are the
      record, its species, the chain and the steps up to and including that
      one. */
  lemma PokemonByIdMemberError(api: Api, id: int, base: Pokemon, species: Species, chain: EvolutionChain)
    requires api.pokemon(IntToString(id)) == Json(base)
    requires api.species(base.species.url) == Json(species)
    requires api.evolutionChain(ChainUrl(species)) == Json(chain)
    requires PokemonById(api, id).Err?
    ensures exists k ::
      && 0 <= k < |SpeciesSteps(chain.chain)|
      && !api.pokemon(SpeciesSteps(chain.chain)[k].name).Json?
      && (forall i :: 0 <= i < k ==> api.pokemon(SpeciesSteps(chain.chain)[i].name).Json?)
      && PokemonById(api, id).error
         == (if api.pokemon(SpeciesSteps(chain.chain)[k].name).NotOk?
             then "Failed to fetch pokemon with name " + SpeciesSteps(chain.chain)[k].name
             else api.pokemon(SpeciesSteps(chain.chain)[k].name).reason)
      && PokemonByIdRequests(api, id)
         == [PokemonRequest(IntToString(id)), SpeciesRequest(base.species.url), ChainRequest(ChainUrl(species))]
            + StepRequests(SpeciesSteps(chain.chain)[..k + 1])
  {
    var steps := SpeciesSteps(chain.chain);
    assert PokemonById(api, id) == WithEvolution(api, base, chain);
    assert PokemonByIdRequests(api, id)
      == [PokemonRequest(IntToString(id)), SpeciesRequest(base.species.url), ChainRequest(ChainUrl(species))]
         + EvolutionRequests(api, chain);
    StepFailure(api, steps, PokemonById(api, id).error);
  }

  /** The first step whose record cannot be fetched, seen from the loop's
      result. */
  lemma StepFailure(api: Api, steps: seq<Step>, error: string)
    requires ResolveEach(steps, MemberOf(api)) == Err(error)
    ensures exists k ::
      && 0 <= k < |steps|
      && !api.pokemon(steps[k].name).Json?
      && (forall i :: 0 <= i < k ==> api.pokemon(steps[i].name).Json?)
      && error == PokemonByName(api, steps[k].name).error
      && Attempted(steps, MemberOf(api)) == k + 1
  {
    ResolveEachAllOrNothing(steps, MemberOf(api));
    var k :| 0 <= k < |steps| && MemberOf(api)(steps[k]) == Err(error)
      && (forall i :: 0 <= i < k ==> MemberOf(api)(steps[i]).Ok?)
      && Attempted(steps, MemberOf(api)) == k + 1;
    assert !api.pokemon(steps[k].name).Json?;
  }
}
