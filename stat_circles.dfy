/** The two lookups of src/components/pokemon/StatCircles.tsx: the circle colour
    and the abbreviated label of a base stat. */
module StatCircles {

  /** The stat names both tables know. */
  const StatKeys: set<string> :=
    {"hp", "attack", "defense", "special-attack", "special-defense", "speed", "total"}

  const DefaultStatColor := "#000000"

  /** `getStatColors(statName)`: the table colour, or black for any other name. */
  function StatColor(name: string): (c: string)
    ensures name !in StatKeys ==> c == DefaultStatColor
    ensures name in StatKeys ==> c != DefaultStatColor
    ensures |c| == 7 && c[0] == '#'
  {
    match name
    case "hp" => "#FB2C36"
    case "attack" => "#FF6900"
    case "defense" => "#F0B100"
    case "special-attack" => "#2B7FFF"
    case "special-defense" => "#00C951"
    case "speed" => "#F6339A"
    case "total" => "#AD46FF"
    case _ => DefaultStatColor
  }

  /** `getStatName(statName)`: the table abbreviation, or the name itself. */
  function StatLabel(name: string): (abbrev: string)
    ensures name !in StatKeys ==> abbrev == name
  {
    match name
    case "hp" => "HP"
    case "attack" => "ATK"
    case "defense" => "DEF"
    case "special-attack" => "SPA"
    case "special-defense" => "SPD"
    case "speed" => "SPE"
    case "total" => "TOT"
    case _ => name
  }

  predicate IsUpper(c: char)
  {
    'A' <= c <= 'Z'
  }

  /** Every known stat is shown as two or three capital letters. */
  lemma KnownLabelsShort(name: string)
    requires name in StatKeys
    ensures 2 <= |StatLabel(name)| <= 3
    ensures forall i :: 0 <= i < |StatLabel(name)| ==> IsUpper(StatLabel(name)[i])
  {
  }
}
