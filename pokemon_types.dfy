/** The records the catalogue API returns, reduced to the fields the client reads
    (src/features/pokemons/pokemon.d.ts). */
module PokemonTypes {
  import opened Wrappers

  /** A `{name, url}` reference. */
  datatype NamedRef = NamedRef(name: string, url: string)

  /** Image references: `sprites.front_default` and
      `sprites.other['official-artwork'].front_default`. */
  datatype Sprites = Sprites(frontDefault: Option<string>, officialArtwork: Option<string>)

  /** One entry of `stats`: the stat's name and its `base_stat`. */
  datatype Stat = Stat(name: string, baseStat: int)

  /** One entry of `types`: its slot and `type.name`. */
  datatype TypeSlot = TypeSlot(slot: int, name: string)

  /** One resolved member of an evolution line, as the aggregator attaches it. */
  datatype EvolutionMember = EvolutionMember(id: int, name: string, minLevel: Option<int>, sprites: Sprites)

  /** A creature's record. `types` is optional because the weakness table guards
      against its absence; `evolutionChain` is absent on a plain record and set by
      the aggregator. */
  datatype Pokemon = Pokemon(
    id: int,
    name: string,
    height: int,
    weight: int,
    baseExperience: int,
    species: NamedRef,
    sprites: Sprites,
    stats: seq<Stat>,
    types: Option<seq<TypeSlot>>,
    evolutionChain: Option<seq<EvolutionMember>>)

  /** A species record; only the reference to its evolution chain is read. */
  datatype Species = Species(name: string, evolutionChainUrl: Option<string>)

  /** One entry of `evolution_details`; only `min_level` is read. */
  datatype EvolutionDetail = EvolutionDetail(minLevel: Option<int>)

  /** A node of an evolution tree. `species` is absent on malformed nodes; a
      non-array `evolves_to` is represented by the empty sequence. */
  datatype Chain = Chain(
    species: Option<NamedRef>,
    evolutionDetails: Option<seq<EvolutionDetail>>,
    evolvesTo: seq<Chain>)

  /** The evolution-chain resource: an id and the root node. */
  datatype EvolutionChain = EvolutionChain(id: int, chain: Chain)
}
