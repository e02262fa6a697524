/** Pure helpers of src/utils/pokemonUtils.ts: the type-colour table, the
    weakness table with order-preserving de-duplication, id padding and the
    evolution-tree flattener. */
module PokemonUtils {
  import opened Wrappers
  import opened Strings
  import opened PokemonTypes

  // ---------------------------------------------------------------------------
  // getTypeColor

  const DefaultTypeColor: string := "#68A090"

  /** The colour listed for each of the eighteen type names. */
  const TypeColors: map<string, string> := map[
    "normal" := "#A8A878",
    "fire" := "#F08030",
    "water" := "#6890F0",
    "electric" := "#F8D030",
    "grass" := "#78C850",
    "ice" := "#98D8D8",
    "fighting" := "#C03028",
    "poison" := "#A040A0",
    "ground" := "#E0C068",
    "flying" := "#A890F0",
    "psychic" := "#F85888",
    "bug" := "#A8B820",
    "rock" := "#B8A038",
    "ghost" := "#705898",
    "dragon" := "#7038F8",
    "dark" := "#705848",
    "steel" := "#B8B8D0",
    "fairy" := "#EE99AC"]

  /** `typeColors[type] || '#68A090'`: a listed colour is never falsy, so every
      listed type gets its colour and every other string the default. */
  function TypeColor(t: string): (c: string)
    ensures t in TypeColors ==> c == TypeColors[t]
    ensures t !in TypeColors ==> c == DefaultTypeColor
    ensures |c| == 7 && c[0] == '#'
  {
    if t in TypeColors && TypeColors[t] != "" then TypeColors[t] else DefaultTypeColor
  }

  // ---------------------------------------------------------------------------
  // getWeaknesses

  /** The weaknesses the `switch` pushes for one type name, in push order. */
  function WeaknessesOf(t: string): (w: seq<string>)
    ensures t !in TypeColors ==> w == []
    ensures forall x :: x in w ==> x in TypeColors
  {
    match t
    case "fire" => ["water", "ground", "rock"]
    case "water" => ["electric", "grass"]
    case "grass" => ["fire", "ice", "poison", "flying", "bug"]
    case "electric" => ["ground"]
    case "ground" => ["water", "ice", "grass"]
    case "rock" => ["water", "grass", "fighting", "ground", "steel"]
    case "fighting" => ["flying", "psychic", "fairy"]
    case "psychic" => ["bug", "ghost", "dark"]
    case "bug" => ["fire", "flying", "rock"]
    case "ice" => ["fire", "fighting", "rock", "steel"]
    case "dragon" => ["ice", "dragon", "fairy"]
    case "fairy" => ["poison", "steel"]
    case "ghost" => ["ghost", "dark"]
    case "dark" => ["fighting", "bug", "fairy"]
    case "steel" => ["fire", "fighting", "ground"]
    case "flying" => ["electric", "ice", "rock"]
    case "poison" => ["ground", "psychic"]
    case "normal" => ["fighting"]
    case _ => []
  }

  /** The type names of a record, in order; an absent `types` contributes none. */
  function TypeNamesOf(types: Option<seq<TypeSlot>>): (names: seq<string>)
    ensures types.None? ==> names == []
    ensures types.Some? ==>
      (|names| == |types.value| && forall i :: 0 <= i < |names| ==> names[i] == types.value[i].name)
  {
    match types
    case None => []
    case Some(ts) => seq(|ts|, i requires 0 <= i < |ts| => ts[i].name)
  }

  /** Everything pushed for the given type names, type by type. */
  function Pushed(names: seq<string>): (pushed: seq<string>)
    ensures forall w :: w in pushed ==> w in TypeColors
  {
    if names == [] then [] else Pushed(names[..|names| - 1]) + WeaknessesOf(names[|names| - 1])
  }

  /** `[...new Set(s)]`: each element kept at its first occurrence. */
  function Dedup<T(==)>(s: seq<T>): seq<T>
  {
    if s == [] then []
    else
      var d := Dedup(s[..|s| - 1]);
      if s[|s| - 1] in d then d else d + [s[|s| - 1]]
  }

  predicate Distinct<T(==)>(s: seq<T>)
  {
    forall i, j :: 0 <= i < j < |s| ==> s[i] != s[j]
  }

  /** The position of the first occurrence of `x` in `s`. */
  function FirstIndex<T(==)>(s: seq<T>, x: T): (k: nat)
    requires x in s
    ensures k < |s| && s[k] == x && x !in s[..k]
  {
    if s[0] == x then 0 else 1 + FirstIndex(s[1..], x)
  }

  /** `getWeaknesses(pokemon)`. */
  function Weaknesses(p: Pokemon): (r: seq<string>)
    ensures Distinct(r)
    ensures forall w :: w in r ==> w in TypeColors
  {
    var pushed := Pushed(TypeNamesOf(p.types));
    DedupDistinct(pushed);
    DedupMembers(pushed);
    Dedup(pushed)
  }

  lemma {:induction false} DedupMembers<T>(s: seq<T>)
    ensures forall x :: x in Dedup(s) <==> x in s
  {
    if s != [] {
      DedupMembers(s[..|s| - 1]);
      assert s == s[..|s| - 1] + [s[|s| - 1]];
    }
  }

  /** De-duplication leaves no element twice. */
  lemma {:induction false} DedupDistinct<T>(s: seq<T>)
    ensures Distinct(Dedup(s))
  {
    if s != [] {
      DedupDistinct(s[..|s| - 1]);
    }
  }

  lemma {:induction false} FirstIndexInPrefix<T>(s: seq<T>, n: nat, x: T)
    requires n <= |s| && x in s[..n]
    ensures FirstIndex(s, x) == FirstIndex(s[..n], x)
  {
    assert s[..n][0] == s[0];
    if s[0] != x {
      assert s[..n][1..] == s[1..][..n - 1];
      assert x in s[1..][..n - 1];
      FirstIndexInPrefix(s[1..], n - 1, x);
    }
  }

  /** Order by first occurrence in `s'` carries over to `s` when `s'` is a
      prefix of `s` holding every element compared. */
  lemma OrderInLonger<T>(s: seq<T>, n: nat, d: seq<T>)
    requires n <= |s|
    requires forall x :: x in d ==> x in s[..n]
    requires forall i, j :: 0 <= i < j < |d| ==> FirstIndex(s[..n], d[i]) < FirstIndex(s[..n], d[j])
    ensures forall x :: x in d ==> x in s && FirstIndex(s, x) < n
    ensures forall i, j :: 0 <= i < j < |d| ==> FirstIndex(s, d[i]) < FirstIndex(s, d[j])
  {
    forall x | x in d
      ensures x in s && FirstIndex(s, x) == FirstIndex(s[..n], x) < n
    {
      FirstIndexInPrefix(s, n, x);
    }
  }

  /** Appending the last element of `s`, new in `s`, keeps the order. */
  lemma OrderSnoc<T>(s: seq<T>, d: seq<T>, e: seq<T>)
    requires |s| > 0 && s[|s| - 1] !in s[..|s| - 1]
    requires forall x :: x in d ==> x in s && FirstIndex(s, x) < |s| - 1
    requires forall i, j :: 0 <= i < j < |d| ==> FirstIndex(s, d[i]) < FirstIndex(s, d[j])
    requires e == d + [s[|s| - 1]]
    ensures forall x :: x in e ==> x in s
    ensures forall i, j :: 0 <= i < j < |e| ==> FirstIndex(s, e[i]) < FirstIndex(s, e[j])
  {
    var last := s[|s| - 1];
    assert FirstIndex(s, last) == |s| - 1;
    forall i, j | 0 <= i < j < |e|
      ensures FirstIndex(s, e[i]) < FirstIndex(s, e[j])
    {
      assert e[i] == d[i] && e[i] in d;
      if j < |d| {
        assert e[j] == d[j];
      }
    }
  }

  /** De-duplication keeps elements in the order of their first occurrence. */
  lemma {:induction false} DedupFirstOccurrenceOrder<T>(s: seq<T>)
    ensures forall x :: x in Dedup(s) ==> x in s
    ensures forall i, j :: 0 <= i < j < |Dedup(s)| ==>
      FirstIndex(s, Dedup(s)[i]) < FirstIndex(s, Dedup(s)[j])
  {
    DedupMembers(s);
    if s != [] {
      var n := |s| - 1;
      var d' := Dedup(s[..n]);
      DedupMembers(s[..n]);
      DedupFirstOccurrenceOrder(s[..n]);
      OrderInLonger(s, n, d');
      if s[n] in d' {
        assert Dedup(s) == d';
      } else {
        OrderSnoc(s, d', Dedup(s));
      }
    }
  }

  lemma {:induction false} PushedMembers(names: seq<string>, w: string)
    ensures w in Pushed(names) <==> exists t :: t in names && w in WeaknessesOf(t)
  {
    if names != [] {
      var last := names[|names| - 1];
      PushedMembers(names[..|names| - 1], w);
      assert names == names[..|names| - 1] + [last];
      if w in WeaknessesOf(last) {
        assert last in names;
      }
    }
  }

  /** A string is a weakness iff it is listed for at least one of the record's
      types. */
  lemma WeaknessesMembers(p: Pokemon, w: string)
    ensures w in Weaknesses(p) <==> exists t :: t in TypeNamesOf(p.types) && w in WeaknessesOf(t)
  {
    DedupMembers(Pushed(TypeNamesOf(p.types)));
    PushedMembers(TypeNamesOf(p.types), w);
  }

  /** The result lists every weakness once, in first-occurrence order of the
      pushed sequence; a record with no types, or only unlisted ones, has none. */
  lemma WeaknessesShape(p: Pokemon)
    ensures Distinct(Weaknesses(p))
    ensures forall x :: x in Weaknesses(p) ==> x in Pushed(TypeNamesOf(p.types))
    ensures forall i, j :: 0 <= i < j < |Weaknesses(p)| ==>
      FirstIndex(Pushed(TypeNamesOf(p.types)), Weaknesses(p)[i])
        < FirstIndex(Pushed(TypeNamesOf(p.types)), Weaknesses(p)[j])
    ensures (forall t :: t in TypeNamesOf(p.types) ==> t !in TypeColors) ==> Weaknesses(p) == []
  {
    var pushed := Pushed(TypeNamesOf(p.types));
    DedupDistinct(pushed);
    DedupFirstOccurrenceOrder(pushed);
    if (forall t :: t in TypeNamesOf(p.types) ==> t !in TypeColors) && Weaknesses(p) != [] {
      WeaknessesMembers(p, Weaknesses(p)[0]);
    }
  }

  /** `getWeaknesses`: push each type's weaknesses, then keep first occurrences. */
  method GetWeaknesses(p: Pokemon) returns (r: seq<string>)
    ensures r == Weaknesses(p)
    ensures Distinct(r)
  {
    var pushed := PushWeaknesses(p.types);
    r := KeepFirstOccurrences(pushed);
    DedupDistinct(pushed);
  }

  /** The `forEach` over the record's types, pushing each type's weaknesses. */
  method PushWeaknesses(types: Option<seq<TypeSlot>>) returns (pushed: seq<string>)
    ensures pushed == Pushed(TypeNamesOf(types))
  {
    pushed := [];
    if types.Some? {
      var names := TypeNamesOf(types);
      for i := 0 to |names|
        invariant pushed == Pushed(names[..i])
      {
        var weak := WeaknessesOf(names[i]);
        assert names[..i + 1][..i] == names[..i];
        assert Pushed(names[..i + 1]) == Pushed(names[..i]) + weak;
        pushed := pushed + weak;
      }
      assert names[..|names|] == names;
    }
  }

  /** `[...new Set(weaknesses)]`: insertion-ordered de-duplication. */
  method KeepFirstOccurrences(pushed: seq<string>) returns (r: seq<string>)
    ensures r == Dedup(pushed)
  {
    r := [];
    for i := 0 to |pushed|
      invariant r == Dedup(pushed[..i])
    {
      assert pushed[..i + 1][..i] == pushed[..i];
      if pushed[i] !in r {
        r := r + [pushed[i]];
      }
    }
    assert pushed[..|pushed|] == pushed;
  }

  // ---------------------------------------------------------------------------
  // formatPokemonId

  /** `id.toString().padStart(3, '0')` for a non-negative id. */
  function FormatPokemonId(id: nat): (s: string)
    ensures |s| == if NumDigits(id) >= 3 then NumDigits(id) else 3
    ensures s[|s| - NumDigits(id)..] == NatToString(id)
    ensures forall i :: 0 <= i < |s| - NumDigits(id) ==> s[i] == '0'
  {
    NatToStringLength(id);
    PadStart(NatToString(id), 3, '0')
  }

  /** The padded id reads back as the id. */
  lemma FormatPokemonIdRoundTrip(id: nat)
    ensures AllDigits(FormatPokemonId(id))
    ensures DecimalValue(FormatPokemonId(id)) == id
  {
    var digits := NatToString(id);
    NatToStringLength(id);
    var s := FormatPokemonId(id);
    var z := |s| - |digits|;
    assert s == Repeat('0', z) + digits;
    LeadingZeros(z, digits);
    DecimalRoundTrip(id);
  }

  /** Ids of three or more digits are not padded. */
  lemma FormatPokemonIdUnpadded(id: nat)
    requires id >= 100
    ensures FormatPokemonId(id) == NatToString(id)
  {
    assert NumDigits(id) == 1 + NumDigits(id / 10);
    assert NumDigits(id / 10) == 1 + NumDigits(id / 100);
    NatToStringLength(id);
  }

  // ---------------------------------------------------------------------------
  // getSpeciesNames

  /** One flattened evolution step: `{name, min_level}`. */
  datatype Step = Step(name: string, minLevel: Option<int>)

  /** `node.species && node.species.name`: the node has a non-empty name. */
  predicate Named(node: Chain)
    ensures Named(node) ==> node.species.Some? && |node.species.value.name| > 0
    ensures node.species.None? || node.species.value.name == "" ==> !Named(node)
  {
    node.species.Some? && node.species.value.name != ""
  }

  /** `node.evolution_details?.[0]?.min_level ?? null`: the level of the first
      evolution detail, absent when there is no detail or it names no level. */
  function MinLevelOf(node: Chain): (level: Option<int>)
    ensures level.Some? ==>
      node.evolutionDetails.Some? && |node.evolutionDetails.value| > 0
      && level == node.evolutionDetails.value[0].minLevel
    ensures node.evolutionDetails.Some? && |node.evolutionDetails.value| > 0 ==>
      level == node.evolutionDetails.value[0].minLevel
    ensures node.evolutionDetails.None? || node.evolutionDetails == Some([]) ==> level.None?
  {
    match node.evolutionDetails
    case Some(details) => if |details| > 0 then details[0].minLevel else None
    case None => None
  }

  function StepOf(node: Chain): Step
    requires Named(node)
  {
    Step(node.species.value.name, MinLevelOf(node))
  }

  /** What `traverse(node)` pushes: the node's own step (if named), then the
      steps of each child in array order. */
  function SpeciesSteps(node: Chain): (steps: seq<Step>)
    ensures Named(node) ==> |steps| > 0 && steps[0] == StepOf(node)
    ensures !Named(node) && node.evolvesTo == [] ==> steps == []
    decreases node, 1
  {
    (if Named(node) then [StepOf(node)] else []) + ChildSteps(node.evolvesTo)
  }

  function ChildSteps(children: seq<Chain>): seq<Step>
    decreases children, 0
  {
    if children == [] then []
    else ChildSteps(children[..|children| - 1]) + SpeciesSteps(children[|children| - 1])
  }

  /** Collects the steps into `names`, the accumulator the inner `traverse` closes
      over. */
  class StepCollector {
    var names: seq<Step>

    constructor ()
      ensures names == []
    {
      names := [];
    }

    /** `traverse(node)`: push the node's step, then recurse into each child. */
    method Traverse(node: Chain)
      modifies this
      ensures names == old(names) + SpeciesSteps(node)
      decreases node
    {
      if Named(node) {
        names := names + [StepOf(node)];
      }
      ghost var mine := names;
      var children := node.evolvesTo;
      for i := 0 to |children|
        invariant names == mine + ChildSteps(children[..i])
      {
        Traverse(children[i]);
        assert children[..i + 1][..i] == children[..i];
      }
      assert children[..|children|] == children;
    }
  }

  /** `getSpeciesNames(chain)`. */
  method GetSpeciesNames(chain: EvolutionChain) returns (steps: seq<Step>)
    ensures steps == SpeciesSteps(chain.chain)
  {
    var collector := new StepCollector();
    collector.Traverse(chain.chain);
    steps := collector.names;
  }

  /** Reference definition: every node of the tree, pre-order, children left to
      right. */
  function PreOrder(node: Chain): (nodes: seq<Chain>)
    ensures |nodes| > 0 && nodes[0] == node
    decreases node, 1
  {
    [node] + PreOrderAll(node.evolvesTo)
  }

  function PreOrderAll(children: seq<Chain>): seq<Chain>
    decreases children, 0
  {
    if children == [] then [] else PreOrder(children[0]) + PreOrderAll(children[1..])
  }

  /** The steps of a sequence of nodes: one per named node, in order. */
  function StepsOf(nodes: seq<Chain>): (steps: seq<Step>)
    ensures |steps| <= |nodes|
  {
    if nodes == [] then []
    else (if Named(nodes[0]) then [StepOf(nodes[0])] else []) + StepsOf(nodes[1..])
  }

  lemma {:induction false} StepsOfAppend(a: seq<Chain>, b: seq<Chain>)
    ensures StepsOf(a + b) == StepsOf(a) + StepsOf(b)
  {
    if a != [] {
      assert (a + b)[0] == a[0];
      assert (a + b)[1..] == a[1..] + b;
      StepsOfAppend(a[1..], b);
    } else {
      assert a + b == b;
    }
  }

  lemma {:induction false} PreOrderAllSnoc(children: seq<Chain>)
    requires children != []
    ensures PreOrderAll(children)
      == PreOrderAll(children[..|children| - 1]) + PreOrder(children[|children| - 1])
  {
    if |children| > 1 {
      PreOrderAllSnoc(children[1..]);
      assert children[1..][..|children| - 2] == children[..|children| - 1][1..];
    }
  }

  /** The flattener emits exactly one step per named node, in pre-order with
      children left to right; unnamed nodes are skipped but their subtrees are
      still visited. */
  lemma {:induction false} SpeciesStepsArePreOrder(node: Chain)
    ensures SpeciesSteps(node) == StepsOf(PreOrder(node))
    decreases node, 1
  {
    ChildStepsArePreOrder(node.evolvesTo);
    StepsOfAppend([node], PreOrderAll(node.evolvesTo));
  }

  lemma {:induction false} ChildStepsArePreOrder(children: seq<Chain>)
    ensures ChildSteps(children) == StepsOf(PreOrderAll(children))
    decreases children, 0
  {
    if children != [] {
      var n := |children| - 1;
      ChildStepsArePreOrder(children[..n]);
      SpeciesStepsArePreOrder(children[n]);
      PreOrderAllSnoc(children);
      StepsOfAppend(PreOrderAll(children[..n]), PreOrder(children[n]));
    }
  }

  /** The steps of a sequence of nodes are those of its named nodes: each carries
      a non-empty name. */
  lemma {:induction false} StepsOfNamed(nodes: seq<Chain>)
    ensures forall step :: step in StepsOf(nodes) ==>
      step.name != "" && exists node :: node in nodes && Named(node) && step == StepOf(node)
  {
    if nodes != [] {
      StepsOfNamed(nodes[1..]);
    }
  }

  /** Flattening never yields a step without a name, so `getPokemonById` never
      fetches a record by an empty name: every step is the step of a named node
      of the tree. */
  lemma StepNamesNonEmpty(node: Chain)
    ensures forall step :: step in SpeciesSteps(node) ==>
      step.name != "" && exists n :: n in PreOrder(node) && Named(n) && step == StepOf(n)
  {
    SpeciesStepsArePreOrder(node);
    StepsOfNamed(PreOrder(node));
  }

  /** A tree A -> [B, C], B -> [D] flattens to A, B, D, C; the root has no
      incoming edge and so no level, and a level of 0 is kept as 0. */
  lemma FlattenExample()
    ensures
      var d := Chain(Some(NamedRef("D", "")), Some([EvolutionDetail(Some(36))]), []);
      var b := Chain(Some(NamedRef("B", "")), Some([EvolutionDetail(Some(16))]), [d]);
      var c := Chain(Some(NamedRef("C", "")), Some([EvolutionDetail(Some(0))]), []);
      var a := Chain(Some(NamedRef("A", "")), Some([]), [b, c]);
      SpeciesSteps(a) == [Step("A", None), Step("B", Some(16)), Step("D", Some(36)), Step("C", Some(0))]
  {
    var d := Chain(Some(NamedRef("D", "")), Some([EvolutionDetail(Some(36))]), []);
    var b := Chain(Some(NamedRef("B", "")), Some([EvolutionDetail(Some(16))]), [d]);
    var c := Chain(Some(NamedRef("C", "")), Some([EvolutionDetail(Some(0))]), []);
    var a := Chain(Some(NamedRef("A", "")), Some([]), [b, c]);
    assert SpeciesSteps(d) == [Step("D", Some(36))];
    assert [d][..0] == [];
    assert ChildSteps([d]) == [Step("D", Some(36))];
    assert SpeciesSteps(b) == [Step("B", Some(16)), Step("D", Some(36))];
    assert SpeciesSteps(c) == [Step("C", Some(0))];
    assert [b, c][..1] == [b] && [b][..0] == [];
    assert ChildSteps([b]) == SpeciesSteps(b);
    assert ChildSteps([b, c]) == SpeciesSteps(b) + SpeciesSteps(c);
  }

  /** A species with no further evolutions flattens to a single step. */
  lemma SingleNodeChain(node: Chain)
    requires Named(node) && node.evolvesTo == []
    ensures |SpeciesSteps(node)| == 1 && SpeciesSteps(node)[0].name == node.species.value.name
  {
  }
}
