/**
 * The arrival test of the blocking slew (TelescopeDriver.cs:1584-1695).
 *
 * After `:MS#` is accepted the driver samples the mount's position and keeps
 * an up/down counter. It starts at 3; a sample whose step from the previous
 * one is within the threshold ("settled") takes it down by one, any other
 * sample takes it up by one, but never above 3. The loop runs while the
 * counter is positive. Each sample is abstracted here to one boolean: whether
 * its step residual was within the threshold.
 */
module Convergence {

  /** The counter's starting value, which is also its ceiling. */
  const Start: int := 3

  /** One sample's effect on a counter the loop guard admits (1..3). */
  function Step(inc: int, settled: bool): int
    requires 0 < inc <= Start
  {
    if settled then inc - 1 else if inc < Start then inc + 1 else inc
  }

  /**
   * How many samples the loop takes, starting from counter `inc`, before the
   * counter reaches 0 or the samples run out.
   */
  function Polls(inc: int, samples: seq<bool>): (n: nat)
    requires 0 <= inc <= Start
    ensures n <= |samples|
    decreases |samples|
  {
    if inc == 0 || samples == [] then 0 else 1 + Polls(Step(inc, samples[0]), samples[1..])
  }

  /**
   * The counter when the loop stops. It stays within 0..3, and a loop that
   * has not reached 0 has used every sample: it stops early only by arriving.
   */
  function Final(inc: int, samples: seq<bool>): (c: int)
    requires 0 <= inc <= Start
    ensures 0 <= c <= Start
    ensures c != 0 ==> Polls(inc, samples) == |samples|
    decreases |samples|
  {
    if inc == 0 || samples == [] then inc else Final(Step(inc, samples[0]), samples[1..])
  }

  /** The number of settled samples in a sequence. */
  function Settled(samples: seq<bool>): (n: nat)
    ensures n <= |samples|
  {
    if samples == [] then 0 else (if samples[0] then 1 else 0) + Settled(samples[1..])
  }

  /** Arriving from counter `inc` takes at least `inc` settled samples among those polled. */
  lemma {:induction false} ArrivalNeedsSettledSamples(inc: int, samples: seq<bool>)
    requires 0 <= inc <= Start
    requires Final(inc, samples) == 0
    ensures Settled(samples[..Polls(inc, samples)]) >= inc
    decreases |samples|
  {
    if inc != 0 {
      var next, rest := Step(inc, samples[0]), samples[1..];
      ArrivalNeedsSettledSamples(next, rest);
      var p := Polls(next, rest);
      assert samples[..1 + p][1..] == rest[..p];
    }
  }

  /** So the slew is declared finished only after at least three samples, three of them settled. */
  lemma ArrivalTakesThreeSamples(samples: seq<bool>)
    requires Final(Start, samples) == 0
    ensures Polls(Start, samples) >= 3
    ensures Settled(samples[..Polls(Start, samples)]) >= 3
  {
    ArrivalNeedsSettledSamples(Start, samples);
  }

  /** The sample that brings the counter to 0 is a settled one. */
  lemma {:induction false} LastPollSettled(inc: int, samples: seq<bool>)
    requires 0 < inc <= Start
    requires Final(inc, samples) == 0
    ensures Polls(inc, samples) > 0 && samples[Polls(inc, samples) - 1]
    decreases |samples|
  {
    var next, rest := Step(inc, samples[0]), samples[1..];
    if next != 0 {
      LastPollSettled(next, rest);
    }
  }

  /**
   * The loop ends exactly when the counter first reaches 0: after any number
   * of samples short of the ones polled, the counter is still positive.
   */
  lemma {:induction false} PositiveBeforeStop(inc: int, samples: seq<bool>, k: nat)
    requires 0 < inc <= Start
    requires k < Polls(inc, samples)
    ensures Final(inc, samples[..k]) > 0
    decreases |samples|
  {
    if k > 0 {
      var next, rest := Step(inc, samples[0]), samples[1..];
      assert samples[..k][1..] == rest[..k - 1];
      PositiveBeforeStop(next, rest, k - 1);
    }
  }

  /** From counter `inc`, `inc` settled samples in a row arrive, after exactly that many polls. */
  lemma {:induction false} SettledRunArrives(inc: int, samples: seq<bool>)
    requires 0 <= inc <= Start && inc <= |samples|
    requires forall k :: 0 <= k < inc ==> samples[k]
    ensures Final(inc, samples) == 0 && Polls(inc, samples) == inc
  {
    if inc != 0 {
      var rest := samples[1..];
      assert forall k :: 0 <= k < inc - 1 ==> rest[k] == samples[k + 1];
      SettledRunArrives(inc - 1, rest);
    }
  }

  /**
   * Three settled samples in a row, wherever they occur, end the loop no later
   * than the third of them, whatever the counter was before them.
   */
  lemma {:induction false} ThreeInARowArrive(inc: int, samples: seq<bool>, j: nat)
    requires 0 <= inc <= Start && j + Start <= |samples|
    requires forall k :: j <= k < j + Start ==> samples[k]
    ensures Final(inc, samples) == 0 && Polls(inc, samples) <= j + Start
    decreases |samples|
  {
    if inc == 0 {
    } else if j == 0 {
      SettledRunArrives(inc, samples);
    } else {
      var rest := samples[1..];
      assert forall k :: j - 1 <= k < j - 1 + Start ==> rest[k] == samples[k + 1];
      ThreeInARowArrive(Step(inc, samples[0]), rest, j - 1);
    }
  }

  /** The three settled samples need not be consecutive: one unsettled sample between them only delays arrival. */
  lemma InterruptedRunArrives()
    ensures Final(Start, [true, true, false, true, true]) == 0
    ensures Polls(Start, [true, true, false, true, true]) == 5
  {
  }
}
