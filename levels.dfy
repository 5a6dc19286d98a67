/** The progression table: ordered experience thresholds, and the rule that
    turns a leader's new experience into its level. */
module Levels {
  import opened Outcome

  datatype Level = Level(level: nat, xpNeeded: nat)

  /** The position of the first entry whose threshold exceeds `xp`. */
  function FirstAbove(levels: seq<Level>, xp: nat): (r: Option<nat>)
    ensures r.None? <==> forall i | 0 <= i < |levels| :: levels[i].xpNeeded <= xp
    ensures r.Some? ==> r.value < |levels| && levels[r.value].xpNeeded > xp
    ensures r.Some? ==> forall i | 0 <= i < r.value :: levels[i].xpNeeded <= xp
    decreases |levels|
  {
    if levels == [] then None
    else if levels[0].xpNeeded > xp then Some(0)
    else match FirstAbove(levels[1..], xp)
      case None => None
      case Some(i) => Some(i + 1)
  }

  /** `levels.iter().find(|x| x.xp_needed > xp).unwrap().level - 1`: the
      highest level fully attained; a panic when no threshold is above `xp`
      or the entry found has level 0. */
  function LevelFor(levels: seq<Level>, xp: nat): Result<nat>
  {
    match FirstAbove(levels, xp)
    case None => Err(Panicked(MissingValue))
    case Some(i) => if levels[i].level == 0 then Err(Panicked(Underflow)) else Ok(levels[i].level - 1)
  }

  /** The level a leader shows after gaining experience: recomputed from the
      table while it is below the cap, left alone at or above it. */
  function NextLevel(current: nat, cap: nat, levels: seq<Level>, xp: nat): Result<nat>
  {
    if current < cap then LevelFor(levels, xp) else Ok(current)
  }

  /** A table whose thresholds rise strictly and whose levels never fall. */
  predicate Ascending(levels: seq<Level>)
  {
    forall i, j | 0 <= i < j < |levels| :: levels[i].xpNeeded < levels[j].xpNeeded && levels[i].level <= levels[j].level
  }

  /** In an ascending table more experience never yields a lower level. */
  lemma LevelForMonotone(levels: seq<Level>, xp1: nat, xp2: nat)
    requires Ascending(levels) && xp1 <= xp2
    requires LevelFor(levels, xp1).Ok? && LevelFor(levels, xp2).Ok?
    ensures LevelFor(levels, xp1).value <= LevelFor(levels, xp2).value
  {
  }

  /** A leader whose level agrees with its experience never loses a level by
      gaining experience, and one at or above the cap keeps its level. */
  lemma LevelNeverDecreases(levels: seq<Level>, cap: nat, current: nat, xp: nat, gained: nat)
    requires Ascending(levels)
    requires current < cap ==> LevelFor(levels, xp) == Ok(current)
    requires NextLevel(current, cap, levels, xp + gained).Ok?
    ensures NextLevel(current, cap, levels, xp + gained).value >= current
    ensures current >= cap ==> NextLevel(current, cap, levels, xp + gained).value == current
  {
    if current < cap {
      LevelForMonotone(levels, xp, xp + gained);
    }
  }
}
