/**
 * One iteration of the sketch's `loop`: sample the IR sensor into `slot1`
 * (LOW means a car is in the slot), drive the red and green LEDs and the
 * buzzer from `slot1`, check the entrance distance, then serve at most one
 * pending web request from the state just computed.
 */
module Controller {
  import opened Wrappers
  import Http

  /** A digital pin level. */
  datatype Level = Low | High

  /** The occupancy flag and the three outputs that `loop` writes. */
  datatype Pins = Pins(slot1: bool, red: Level, green: Level, buzzer: Level)

  /** What one iteration reads: whether IR_SLOT1 was LOW, and the entrance distance in cm. */
  datatype Sample = Sample(irLow: bool, distCm: int)

  /** Entrance events are logged for distances strictly between 0 and this bound (cm). */
  const EntranceLimitCm: int := 15

  /** The outputs agree with the flag: exactly one LED lit, red and buzzer on iff occupied. */
  predicate Consistent(p: Pins) {
    (p.red == High) != (p.green == High)
    && (p.red == High <==> p.slot1)
    && (p.buzzer == High <==> p.slot1)
  }

  /** The flag and outputs after an iteration that read `irLow`, whatever came before. */
  function Actuate(irLow: bool): (p: Pins)
    ensures p.slot1 == irLow && Consistent(p)
  {
    var slot1 := irLow;
    Pins(slot1, if slot1 then High else Low, if slot1 then Low else High, if slot1 then High else Low)
  }

  /** Consistency leaves no freedom: the outputs are fixed by the flag. */
  lemma ConsistentIsActuate(p: Pins)
    requires Consistent(p)
    ensures p == Actuate(p.slot1)
  {
  }

  /** Whether the iteration logs "Car detected at entrance!". A missing echo reads as 0. */
  predicate EntranceDetected(distCm: int) {
    0 < distCm < EntranceLimitCm
  }

  /** The flag and outputs after `loop` has run once per sample, starting from `p`. */
  function Run(p: Pins, samples: seq<Sample>): (r: Pins)
    ensures samples == [] ==> r == p
    ensures samples != [] ==> r.slot1 == samples[|samples| - 1].irLow
    decreases |samples|
  {
    if samples == [] then p else Run(Actuate(samples[0].irLow), samples[1..])
  }

  /** Last sample wins: after any non-empty run only the last IR reading matters. */
  lemma {:induction false} RunLastSampleWins(p: Pins, samples: seq<Sample>)
    requires samples != []
    ensures Run(p, samples) == Actuate(samples[|samples| - 1].irLow)
    decreases |samples|
  {
    if |samples| > 1 {
      RunLastSampleWins(Actuate(samples[0].irLow), samples[1..]);
    }
  }

  /** Once the outputs agree with the flag, they keep agreeing, iteration after iteration. */
  lemma {:induction false} RunKeepsConsistent(p: Pins, samples: seq<Sample>)
    requires Consistent(p)
    ensures Consistent(Run(p, samples))
    decreases |samples|
  {
    if samples != [] {
      RunKeepsConsistent(Actuate(samples[0].irLow), samples[1..]);
    }
  }

  /** The distances read along a run never influence the flag or the outputs. */
  lemma {:induction false} RunIgnoresDistance(p: Pins, xs: seq<Sample>, ys: seq<Sample>)
    requires |xs| == |ys|
    requires forall i :: 0 <= i < |xs| ==> xs[i].irLow == ys[i].irLow
    ensures Run(p, xs) == Run(p, ys)
    decreases |xs|
  {
    if xs != [] {
      assert xs[0].irLow == ys[0].irLow;
      RunIgnoresDistance(Actuate(xs[0].irLow), xs[1..], ys[1..]);
    }
  }

  /** The device's globals and output pins. */
  class Device {
    var slot1: bool
    var red: Level
    var green: Level
    var buzzer: Level

    ghost function State(): Pins
      reads this
    {
      Pins(slot1, red, green, buzzer)
    }

    /**
     * After `setup`: `slot1` starts false. `setup` writes no level to the
     * output pins; they are assumed to start low.
     */
    constructor ()
      ensures State() == Pins(false, Low, Low, Low)
    {
      slot1, red, green, buzzer := false, Low, Low, Low;
    }

    /**
     * One call of `loop`. `irLow` is the IR level read, `distCm` the entrance
     * distance, `request` the path of the pending client request, if any.
     */
    method Step(irLow: bool, distCm: int, request: Option<string>)
      returns (entrance: bool, response: Option<Http.Response>)
      modifies this
      ensures State() == Actuate(irLow) == Run(old(State()), [Sample(irLow, distCm)])
      ensures Consistent(State()) && slot1 == irLow
      ensures entrance == EntranceDetected(distCm)
      ensures response == if request.Some? then Some(Http.Serve(request.value, irLow)) else None
    {
      slot1 := irLow;

      red := if slot1 then High else Low;
      green := if slot1 then Low else High;

      if slot1 {
        buzzer := High;
      } else {
        buzzer := Low;
      }

      entrance := distCm > 0 && distCm < EntranceLimitCm;

      response := None;
      if request.Some? {
        response := Some(Http.Serve(request.value, slot1));
      }
    }
  }
}
