/**
 * The fixed-timestep accumulator of the main loop, over exact real arithmetic.
 * Each frame adds its time delta (unless paused); the catch-up loop then takes one
 * physics step per whole time step accumulated and keeps the remainder.
 */
module TimeStep {
  /** The constant physics time step, 1/60 s. */
  const Step: real := 1.0 / 60.0

  /** The number of steps the catch-up loop takes from accumulator `acc`. */
  function StepsFor(acc: real): nat
    decreases if acc < Step then 0 else (acc * 60.0).Floor
  {
    if acc < Step then 0 else 1 + StepsFor(acc - Step)
  }

  /** What the catch-up loop leaves in the accumulator. */
  function Settle(acc: real): real {
    acc - StepsFor(acc) as real * Step
  }

  lemma FloorShift(x: real, n: int)
    ensures (x - n as real).Floor == x.Floor - n
  {
  }

  /**
   * From a non-negative accumulator the loop takes floor(acc / Step) steps, and
   * leaves a remainder in [0, Step); below one step it takes none.
   */
  lemma {:induction false} StepsForFloor(acc: real)
    requires 0.0 <= acc
    ensures StepsFor(acc) == (acc * 60.0).Floor
    ensures 0.0 <= Settle(acc) < Step
    decreases (acc * 60.0).Floor
  {
    if acc >= Step {
      StepsForFloor(acc - Step);
      FloorShift(acc * 60.0, 1);
      assert (acc - Step) * 60.0 == acc * 60.0 - 1.0;
    }
  }

  lemma SettleBelowStep(acc: real)
    requires acc < Step
    ensures StepsFor(acc) == 0 && Settle(acc) == acc
  {
  }

  function Sum(ds: seq<real>): real {
    if ds == [] then 0.0 else Sum(ds[..|ds| - 1]) + ds[|ds| - 1]
  }

  /** The accumulator after feeding the deltas `ds`, frame by frame, from `acc0`. */
  function Final(acc0: real, ds: seq<real>): real {
    if ds == [] then acc0 else Settle(Final(acc0, ds[..|ds| - 1]) + ds[|ds| - 1])
  }

  /** The physics steps taken while feeding the deltas `ds`, frame by frame, from `acc0`. */
  function TotalSteps(acc0: real, ds: seq<real>): nat {
    if ds == [] then 0 else TotalSteps(acc0, ds[..|ds| - 1]) + StepsFor(Final(acc0, ds[..|ds| - 1]) + ds[|ds| - 1])
  }

  predicate NonNegative(ds: seq<real>) {
    forall i :: 0 <= i < |ds| ==> ds[i] >= 0.0
  }

  /**
   * However the elapsed time is split into frames, the steps taken are
   * floor(total / Step), and the accumulator holds exactly the rest, which is less
   * than one step.
   */
  lemma {:induction false} Chunking(acc0: real, ds: seq<real>)
    requires 0.0 <= acc0 < Step && NonNegative(ds)
    ensures TotalSteps(acc0, ds) == ((acc0 + Sum(ds)) * 60.0).Floor
    ensures Final(acc0, ds) == acc0 + Sum(ds) - TotalSteps(acc0, ds) as real * Step
    ensures 0.0 <= Final(acc0, ds) < Step
  {
    if ds != [] {
      var front, d := ds[..|ds| - 1], ds[|ds| - 1];
      assert NonNegative(front) by {
        forall i | 0 <= i < |front| ensures front[i] >= 0.0 {
          assert front[i] == ds[i];
        }
      }
      Chunking(acc0, front);
      var t := TotalSteps(acc0, front);
      var x := Final(acc0, front) + d;
      StepsForFloor(x);
      assert Sum(ds) == Sum(front) + d;
      assert TotalSteps(acc0, ds) == t + StepsFor(x);
      assert Final(acc0, ds) == Settle(x);
      assert (acc0 + Sum(ds)) * 60.0 - t as real == x * 60.0;
      FloorShift((acc0 + Sum(ds)) * 60.0, t);
    }
  }

  /** Two splittings of the same elapsed time take the same number of steps. */
  lemma ChunkingIndependent(ds: seq<real>, es: seq<real>)
    requires NonNegative(ds) && NonNegative(es) && Sum(ds) == Sum(es)
    ensures TotalSteps(0.0, ds) == TotalSteps(0.0, es)
  {
    Chunking(0.0, ds);
    Chunking(0.0, es);
  }

  /** The step log of n physics steps: n copies of `Step`. */
  function Steps(n: nat): (r: seq<real>)
    ensures |r| == n && forall k :: 0 <= k < n ==> r[k] == Step
  {
    seq(n, _ => Step)
  }

  /** The deltas fed after one more frame: its delta while running, nothing while paused. */
  function Fed(ds: seq<real>, d: real, paused: bool): seq<real> {
    if paused then ds else ds + [d]
  }

  /**
   * One frame of the loop: the accumulator after the catch-up is the summary of the
   * deltas fed, and the catch-up takes exactly the steps the summary adds.  While
   * paused the accumulator is below one step, so no step is taken.
   */
  lemma FeedStep(ds: seq<real>, d: real, paused: bool)
    requires NonNegative(ds) && 0.0 <= d
    ensures NonNegative(Fed(ds, d, paused))
    ensures var x := if paused then Final(0.0, ds) else Final(0.0, ds) + d;
      Final(0.0, Fed(ds, d, paused)) == Settle(x) && TotalSteps(0.0, Fed(ds, d, paused)) == TotalSteps(0.0, ds) + StepsFor(x)
  {
    if paused {
      Chunking(0.0, ds);
      SettleBelowStep(Final(0.0, ds));
    } else {
      assert (ds + [d])[..|ds|] == ds;
    }
  }

  /**
   * One frame's accounting: `fedOut` is `fed` after the frame with delta `d` (fed only
   * while running), the deltas are non-negative, `acc` summarises them, and the step
   * log grew from `before` to `after` by exactly the steps the frame accounts for.
   */
  predicate Accounted(fed: seq<real>, d: real, paused: bool, fedOut: seq<real>, acc: real, before: seq<real>, after: seq<real>) {
    && fedOut == Fed(fed, d, paused)
    && NonNegative(fedOut) && acc == Final(0.0, fedOut) && TotalSteps(0.0, fed) <= TotalSteps(0.0, fedOut)
    && after == before + Steps(TotalSteps(0.0, fedOut) - TotalSteps(0.0, fed))
  }

  /**
   * The loop's accounting so far: the deltas fed are non-negative, `acc` summarises
   * them, and the step log grew from `before` to `after` by exactly their steps.
   */
  predicate Summarised(fed: seq<real>, acc: real, before: seq<real>, after: seq<real>) {
    NonNegative(fed) && acc == Final(0.0, fed) && after == before + Steps(TotalSteps(0.0, fed))
  }

  /** One accounted frame keeps the loop's accounting. */
  lemma SummarisedStep(fed: seq<real>, acc: real, d: real, paused: bool, fedOut: seq<real>, accOut: real,
                       s0: seq<real>, s1: seq<real>, s2: seq<real>)
    requires Summarised(fed, acc, s0, s1) && Accounted(fed, d, paused, fedOut, accOut, s1, s2)
    ensures Summarised(fedOut, accOut, s0, s2)
  {
    var a, b := TotalSteps(0.0, fed), TotalSteps(0.0, fedOut);
    assert Steps(a) + Steps(b - a) == Steps(b);
  }
}
