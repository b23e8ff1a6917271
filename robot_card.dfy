/**
 * Telemetry colouring on the robot card (components/RobotCard.tsx). Battery,
 * signal and temperature are each sorted into a red, yellow or green band.
 * Readings are JavaScript numbers, modelled as reals.
 */
module RobotCard {
  import opened Palette

  /** The three bands, as colours. */
  predicate IsBand(c: string) { c == Red || c == Yellow || c == Green }

  /** Goodness of a band: red 0, yellow 1, green 2. */
  function Rank(c: string): (n: nat)
    requires IsBand(c)
    ensures n <= 2
  {
    if c == Red then 0 else if c == Yellow then 1 else 2
  }

  /** Battery band: at most 20 is red, above 20 up to 40 yellow, above 40 green. */
  function BatteryColor(level: real): (c: string)
    ensures IsBand(c)
    ensures c == Red <==> level <= 20.0
    ensures c == Yellow <==> 20.0 < level <= 40.0
    ensures c == Green <==> 40.0 < level
  {
    if level <= 20.0 then "#FF453A"
    else if level <= 40.0 then "#FFD60A"
    else "#30D158"
  }

  /** Signal band: at most 25 is red, above 25 up to 50 yellow, above 50 green. */
  function SignalColor(strength: real): (c: string)
    ensures IsBand(c)
    ensures c == Red <==> strength <= 25.0
    ensures c == Yellow <==> 25.0 < strength <= 50.0
    ensures c == Green <==> 50.0 < strength
  {
    if strength <= 25.0 then "#FF453A"
    else if strength <= 50.0 then "#FFD60A"
    else "#30D158"
  }

  /** Temperature band: at least 80 is red, from 60 below 80 yellow, below 60 green. */
  function TemperatureColor(temperature: real): (c: string)
    ensures IsBand(c)
    ensures c == Red <==> 80.0 <= temperature
    ensures c == Yellow <==> 60.0 <= temperature < 80.0
    ensures c == Green <==> temperature < 60.0
  {
    if temperature >= 80.0 then "#FF453A"
    else if temperature >= 60.0 then "#FFD60A"
    else "#30D158"
  }

  /** More battery or more signal never gives a worse band. */
  lemma BatteryAndSignalMonotone(lo: real, hi: real)
    requires lo <= hi
    ensures Rank(BatteryColor(lo)) <= Rank(BatteryColor(hi))
    ensures Rank(SignalColor(lo)) <= Rank(SignalColor(hi))
  {
  }

  /** A hotter robot never gets a better band. */
  lemma TemperatureAntitone(lo: real, hi: real)
    requires lo <= hi
    ensures Rank(TemperatureColor(hi)) <= Rank(TemperatureColor(lo))
  {
  }

  /** The boundaries belong to the worse band. */
  lemma BoundariesInclusive()
    ensures BatteryColor(20.0) == Red && BatteryColor(40.0) == Yellow
    ensures SignalColor(25.0) == Red && SignalColor(50.0) == Yellow
    ensures TemperatureColor(80.0) == Red && TemperatureColor(60.0) == Yellow
  {
  }
}
