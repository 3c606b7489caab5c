/** The static table of Estes motor classes the player chooses from. */
module Engines {
  import opened Wrappers

  /** A motor: total impulse (N s), average thrust (N), burn time (s) and ejection delay (s). */
  datatype Engine = Engine(name: string, totalImpulse: real, averageThrust: real, burnTime: real, delay: real)

  /** The three keys of the table. */
  datatype EngineKey = A | B | C

  /** The ENGINES table. */
  function EngineFor(key: EngineKey): (e: Engine)
    ensures e.burnTime > 0.0 && e.averageThrust > 0.0 && e.delay > 0.0 && e.totalImpulse > 0.0
    ensures |e.name| == 4 && e.name[0] == match key case A => 'A' case B => 'B' case C => 'C'
  {
    match key
    case A => Engine("A8-3", 2.5, 8.0, 0.3125, 3.0)
    case B => Engine("B6-4", 5.0, 6.0, 0.833, 4.0)
    case C => Engine("C6-5", 10.0, 6.0, 1.667, 5.0)
  }

  /** The key a selector character names; any other character is not in the table. */
  function KeyOf(c: char): (k: Option<EngineKey>)
    ensures k.Some? <==> c == 'A' || c == 'B' || c == 'C'
    ensures k.Some? ==> EngineFor(k.value).name[0] == c
  {
    if c == 'A' then Some(A)
    else if c == 'B' then Some(B)
    else if c == 'C' then Some(C)
    else None
  }

  /** ENGINES[c]: the engine for a selector character, or None where Python raises KeyError. */
  function EngineByName(c: char): (r: Option<Engine>)
    ensures r.Some? <==> c == 'A' || c == 'B' || c == 'C'
    ensures r.Some? ==> r.value.burnTime > 0.0 && r.value.averageThrust > 0.0
    ensures r.Some? ==> |r.value.name| == 4 && r.value.name[0] == c
    ensures r.Some? ==> r.value in {EngineFor(A), EngineFor(B), EngineFor(C)}
  {
    match KeyOf(c)
    case Some(k) => Some(EngineFor(k))
    case None => None
  }

  /**
   * Each motor's impulse agrees with its thrust curve to within 0.01 N s:
   * average thrust times burn time is close to the rated total impulse.
   */
  lemma ImpulseMatchesThrust(key: EngineKey)
    ensures var e := EngineFor(key);
      e.totalImpulse - 0.01 <= e.averageThrust * e.burnTime <= e.totalImpulse + 0.01
  {
  }
}
