/** The spotlight card of src/components/pokemon/PokemonSingle.tsx: the data it
    derives from the fetched record, the randomly drawn id it shows (kept in a
    module-level variable shared by every mount of the component), and the
    choice between spinner, error, not-found and card. */
module PokemonSingle {
  import opened Wrappers
  import opened PokemonTypes
  import opened PokemonUtils

  /** `Math.floor(Math.random() * 1000)`: the random draw, an input here. */
  type Draw = d: int | 0 <= d < 1000

  /** `getRandomPokemonId()`. */
  function RandomPokemonId(draw: Draw): (id: int)
    ensures 1 <= id <= 1000
  {
    draw + 1
  }

  /** Every id in 1..1000 can be drawn. */
  lemma EveryIdDrawable(id: int)
    requires 1 <= id <= 1000
    ensures exists draw: Draw :: RandomPokemonId(draw) == id
  {
    var draw: Draw := id - 1;
    assert RandomPokemonId(draw) == id;
  }

  // ---------------------------------------------------------------------------
  // pokemonData

  /** The reference total: the sum of `base_stat` over the stats. */
  function Sum(stats: seq<Stat>): int
  {
    if stats == [] then 0 else Sum(stats[..|stats| - 1]) + stats[|stats| - 1].baseStat
  }

  /** `stats.reduce((total, stat) => total + stat.base_stat, acc)`: a left fold. */
  function SumFrom(acc: int, stats: seq<Stat>): int
    decreases |stats|
  {
    if stats == [] then acc else SumFrom(acc + stats[0].baseStat, stats[1..])
  }

  lemma {:induction false} SumCons(stats: seq<Stat>)
    requires stats != []
    ensures Sum(stats) == stats[0].baseStat + Sum(stats[1..])
    decreases |stats|
  {
    if |stats| > 1 {
      var init := stats[..|stats| - 1];
      SumCons(init);
      assert init[1..] == stats[1..][..|stats[1..]| - 1];
    } else {
      assert stats[..0] == [];
    }
  }

  /** The fold computes the sum, offset by its seed. */
  lemma {:induction false} FoldIsSum(acc: int, stats: seq<Stat>)
    ensures SumFrom(acc, stats) == acc + Sum(stats)
    decreases |stats|
  {
    if stats != [] {
      FoldIsSum(acc + stats[0].baseStat, stats[1..]);
      SumCons(stats);
    }
  }

  /** `pokemon.types[0]?.type?.name ?? 'water'`. */
  function PrimaryType(types: seq<TypeSlot>): (t: string)
    ensures types != [] ==> t == types[0].name
    ensures types == [] ==> t == "water"
  {
    if types == [] then "water" else types[0].name
  }

  datatype PokemonView = PokemonView(primaryType: string, typeColor: string, weaknesses: seq<string>, totalStats: int)

  /** `pokemonData`: nothing without a record; otherwise the primary type, its
      colour, the weaknesses and the stat total. The record must carry its
      `types` array, which the expression indexes unguarded. */
  function PokemonData(pokemon: Option<Pokemon>): (d: Option<PokemonView>)
    requires pokemon.Some? ==> pokemon.value.types.Some?
    ensures d.None? <==> pokemon.None?
    ensures d.Some? ==>
      && d.value.primaryType == PrimaryType(pokemon.value.types.value)
      && d.value.typeColor == TypeColor(d.value.primaryType)
      && d.value.weaknesses == Weaknesses(pokemon.value)
      && d.value.totalStats == Sum(pokemon.value.stats)
  {
    match pokemon
    case None => None
    case Some(p) =>
      var primary := PrimaryType(p.types.value);
      FoldIsSum(0, p.stats);
      Some(PokemonView(primary, TypeColor(primary), Weaknesses(p), SumFrom(0, p.stats)))
  }

  /** `pokemonData?.typeColor ?? getTypeColor('water')`. */
  function ThemeColor(data: Option<PokemonView>): (c: string)
    ensures data.Some? ==> c == data.value.typeColor
    ensures data.None? ==> c == TypeColor("water")
  {
    match data
    case Some(v) => v.typeColor
    case None => TypeColor("water")
  }

  /** A record without types is themed like a water type, exactly as no
      record at all is. */
  lemma UntypedLooksLikeWater(p: Pokemon)
    requires p.types == Some([])
    ensures ThemeColor(PokemonData(Some(p))) == ThemeColor(PokemonData(None))
    ensures PokemonData(Some(p)).value.weaknesses == []
  {
    WeaknessesShape(p);
  }

  /** `evolution?.min_level ? … : null`: the label is shown only for a truthy
      level, so both a missing level and level 0 are hidden. */
  predicate ShowLevelLabel(minLevel: Option<int>)
    ensures minLevel.None? || minLevel == Some(0) ==> !ShowLevelLabel(minLevel)
    ensures minLevel.Some? && minLevel.value != 0 ==> ShowLevelLabel(minLevel)
  {
    minLevel.Some? && minLevel.value != 0
  }

  /** A flattened step carries a level label exactly when the node's first
      evolution detail names a non-zero level; the root of a chain, which has
      no details, never does. */
  lemma LevelLabelSource(node: Chain)
    requires Named(node)
    ensures ShowLevelLabel(StepOf(node).minLevel) <==>
      && node.evolutionDetails.Some?
      && |node.evolutionDetails.value| > 0
      && node.evolutionDetails.value[0].minLevel.Some?
      && node.evolutionDetails.value[0].minLevel.value != 0
    ensures node.evolutionDetails == Some([]) ==> !ShowLevelLabel(StepOf(node).minLevel)
  {
  }

  // ---------------------------------------------------------------------------
  // What the card shows

  datatype SingleView =
    | Spinner
    | Failure(message: string)
    | NotFound
    | Card(pokemon: Pokemon, data: PokemonView, themeColor: string)

  /** Loading wins over the error, the error over a missing record, and only a
      loaded record shows the card, themed by its primary type. */
  function SingleScreen(isLoading: bool, isError: bool, error: Option<string>, pokemon: Option<Pokemon>): (v: SingleView)
    requires pokemon.Some? ==> pokemon.value.types.Some?
    ensures isLoading ==> v == Spinner
    ensures !isLoading && isError ==> v == Failure(error.GetOr("Error fetching Pokémon"))
    ensures !isLoading && !isError && pokemon.None? ==> v == NotFound
    ensures v.Card? <==> !isLoading && !isError && pokemon.Some?
    ensures v.Card? ==>
      && v.pokemon == pokemon.value
      && Some(v.data) == PokemonData(pokemon)
      && v.themeColor == TypeColor(PrimaryType(pokemon.value.types.value))
  {
    if isLoading then Spinner
    else if isError then Failure(error.GetOr("Error fetching Pokémon"))
    else
      match pokemon
      case None => NotFound
      case Some(p) =>
        var data := PokemonData(pokemon);
        Card(p, data.value, ThemeColor(data))
  }

  // ---------------------------------------------------------------------------
  // The drawn id

  /** The module-level `initialPokemonId` together with one mounted
      component's `currentPokemonId`; `refetchCalls` counts the `refetch()`
      calls the component has issued. */
  class Spotlight {
    var storedId: Option<int>
    var currentId: int
    var refetchCalls: nat

    /** Page load: nothing drawn yet, no component mounted. */
    constructor ()
      ensures storedId == None && refetchCalls == 0
      ensures StoredInRange()
    {
      storedId := None;
      currentId := 0;
      refetchCalls := 0;
    }

    /** Whatever is stored was drawn. */
    ghost predicate StoredInRange()
      reads this
    {
      storedId.Some? ==> 1 <= storedId.value <= 1000
    }

    /** The two ids agree and lie in the drawable range. */
    ghost predicate Synced()
      reads this
    {
      storedId == Some(currentId) && StoredInRange()
    }

    /** The `useState` initialiser on a (re)mount: draw only while nothing is
        stored, otherwise reuse the stored id. */
    method Mount(draw: Draw)
      requires StoredInRange()
      modifies this
      ensures old(storedId).None? ==> currentId == RandomPokemonId(draw)
      ensures old(storedId).Some? ==> currentId == old(storedId).value
      ensures storedId == Some(currentId) && refetchCalls == old(refetchCalls)
      ensures Synced()
    {
      if storedId.None? {
        storedId := Some(RandomPokemonId(draw));
      }
      currentId := storedId.value;
    }

    /** `handleRefetch`: a new id for both variables, then `refetch()`. */
    method HandleRefetch(draw: Draw)
      modifies this
      ensures currentId == RandomPokemonId(draw) && storedId == Some(currentId)
      ensures refetchCalls == old(refetchCalls) + 1
      ensures Synced()
    {
      var randomId := RandomPokemonId(draw);
      currentId := randomId;
      storedId := Some(randomId);
      refetchCalls := refetchCalls + 1;
    }

    /** `handlePrevious`: a new id for both variables, no explicit refetch. */
    method HandlePrevious(draw: Draw)
      modifies this
      ensures currentId == RandomPokemonId(draw) && storedId == Some(currentId)
      ensures refetchCalls == old(refetchCalls)
      ensures Synced()
    {
      var randomId := RandomPokemonId(draw);
      currentId := randomId;
      storedId := Some(randomId);
    }

    /** `handleNext`: the same as `handlePrevious`. */
    method HandleNext(draw: Draw)
      modifies this
      ensures currentId == RandomPokemonId(draw) && storedId == Some(currentId)
      ensures refetchCalls == old(refetchCalls)
      ensures Synced()
    {
      var randomId := RandomPokemonId(draw);
      currentId := randomId;
      storedId := Some(randomId);
    }
  }
}
