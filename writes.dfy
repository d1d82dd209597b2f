/**
  The specification both revisions' update routines are proved against: a
  sequence of gauge writes performed in order, where each write's source value
  either converts or fails, and the first failure ends the run (a Go panic, a
  Python exception) with every earlier write left in place.
*/
module Writes {
  import opened Wrappers
  import opened Gauges

  /** Set gauge `target` from `source`, or stop with `source`'s error. */
  datatype Write<F, E> = Write(target: Gauge, source: Result<F, E>)

  /** The measurement gauges after a run, and the error that stopped it, if any. */
  datatype Applied<F, E> = Applied(gauges: Snapshot<F>, fault: Option<E>)

  /**
    One write, reached with no failure so far: the target's series is created
    first (at `zero`, if it has none), then the source is converted; a value is
    set, a failure ends the run with the new series left in place.
  */
  function Step<F, E>(m: Snapshot<F>, w: Write<F, E>, zero: F): Applied<F, E> {
    var created := m.Touch(w.target, zero);
    if w.source.Failure? then Applied(created, Some(w.source.error))
    else Applied(created.Set(w.target, w.source.value), None)
  }

  function Run<F, E>(m: Snapshot<F>, ws: seq<Write<F, E>>, zero: F): Applied<F, E>
    decreases |ws|
  {
    if ws == [] then Applied(m, None)
    else
      var a := Step(m, ws[0], zero);
      if a.fault.Some? then a else Run(a.gauges, ws[1..], zero)
  }

  /** How many writes complete: the index of the first failing source, or all of them. */
  function Completed<F, E>(ws: seq<Write<F, E>>): (n: nat)
    ensures n <= |ws|
    ensures forall k :: 0 <= k < n ==> ws[k].source.Success?
    ensures n < |ws| ==> ws[n].source.Failure?
  {
    if ws == [] || ws[0].source.Failure? then 0
    else
      var n := 1 + Completed(ws[1..]);
      assert forall k :: 1 <= k < n ==> ws[k] == ws[1..][k - 1];
      n
  }

  /** The writes a run reaches: the completed ones and the failing one, if any. */
  predicate Reached<F, E>(ws: seq<Write<F, E>>, k: int) {
    0 <= k < |ws| && k <= Completed(ws)
  }

  predicate DistinctTargets<F, E>(ws: seq<Write<F, E>>) {
    forall i, j :: 0 <= i < j < |ws| ==> ws[i].target != ws[j].target
  }

  /** A run fails exactly when some write fails, and then with the first failing write's error. */
  lemma {:induction false} RunFault<F, E>(m: Snapshot<F>, ws: seq<Write<F, E>>, zero: F)
    ensures Run(m, ws, zero).fault ==
      if Completed(ws) == |ws| then None else Some(ws[Completed(ws)].source.error)
    decreases |ws|
  {
    if ws != [] && ws[0].source.Success? {
      RunFault(Step(m, ws[0], zero).gauges, ws[1..], zero);
    }
  }

  /** A gauge that no write the run reaches targets keeps its value, or stays without one. */
  lemma {:induction false} RunUntouched<F, E>(m: Snapshot<F>, ws: seq<Write<F, E>>, zero: F, g: Gauge)
    requires forall k :: Reached(ws, k) ==> ws[k].target != g
    ensures Run(m, ws, zero).gauges.Get(g) == m.Get(g)
    decreases |ws|
  {
    if ws != [] {
      assert Reached(ws, 0);
      if ws[0].source.Success? {
        forall k | Reached(ws[1..], k)
          ensures ws[1..][k].target != g
        {
          assert Reached(ws, k + 1) && ws[1..][k] == ws[k + 1];
        }
        RunUntouched(Step(m, ws[0], zero).gauges, ws[1..], zero, g);
      }
    }
  }

  /** A completed write that no later write of the run overrides decides its gauge's final value. */
  lemma {:induction false} RunLastWrite<F, E>(m: Snapshot<F>, ws: seq<Write<F, E>>, zero: F, k: nat)
    requires k < Completed(ws)
    requires forall j :: k < j && Reached(ws, j) ==> ws[j].target != ws[k].target
    ensures Run(m, ws, zero).gauges.Get(ws[k].target) == Some(ws[k].source.value)
    decreases |ws|
  {
    var m' := Step(m, ws[0], zero).gauges;
    if k == 0 {
      forall j | Reached(ws[1..], j)
        ensures ws[1..][j].target != ws[0].target
      {
        assert Reached(ws, j + 1) && ws[1..][j] == ws[j + 1];
      }
      RunUntouched(m', ws[1..], zero, ws[0].target);
    } else {
      forall j | k - 1 < j && Reached(ws[1..], j)
        ensures ws[1..][j].target != ws[1..][k - 1].target
      {
        assert Reached(ws, j + 1) && ws[1..][j] == ws[j + 1];
      }
      RunLastWrite(m', ws[1..], zero, k - 1);
    }
  }

  /**
    The failing write's gauge, when no completed write targets it, ends the run
    holding its old value, or `zero` if it had none: its series was created
    before the conversion failed.
  */
  lemma {:induction false} RunCreatesFailing<F, E>(m: Snapshot<F>, ws: seq<Write<F, E>>, zero: F)
    requires Completed(ws) < |ws|
    requires forall j :: 0 <= j < Completed(ws) ==> ws[j].target != ws[Completed(ws)].target
    ensures Run(m, ws, zero).gauges.Get(ws[Completed(ws)].target) ==
              if m.Get(ws[Completed(ws)].target).None? then Some(zero) else m.Get(ws[Completed(ws)].target)
    decreases |ws|
  {
    if ws[0].source.Success? {
      var t := ws[Completed(ws)].target;
      assert ws[1..][Completed(ws[1..])] == ws[Completed(ws)];
      forall j | 0 <= j < Completed(ws[1..])
        ensures ws[1..][j].target != t
      {
        assert ws[1..][j] == ws[j + 1];
      }
      assert ws[0].target != t;
      RunCreatesFailing(Step(m, ws[0], zero).gauges, ws[1..], zero);
    }
  }

  /**
    With every write aimed at a different gauge: each completed write's gauge
    holds its value, the failing write's gauge holds its old value or, if it
    had none, `zero`, every other gauge is as before, and the run's error is
    that of the first failing write.
  */
  lemma RunDistinct<F, E>(m: Snapshot<F>, ws: seq<Write<F, E>>, zero: F)
    requires DistinctTargets(ws)
    ensures forall k :: 0 <= k < Completed(ws) ==>
              Run(m, ws, zero).gauges.Get(ws[k].target) == Some(ws[k].source.value)
    ensures Completed(ws) < |ws| ==>
              Run(m, ws, zero).gauges.Get(ws[Completed(ws)].target) ==
                if m.Get(ws[Completed(ws)].target).None? then Some(zero) else m.Get(ws[Completed(ws)].target)
    ensures forall g :: (forall k :: Reached(ws, k) ==> ws[k].target != g) ==>
              Run(m, ws, zero).gauges.Get(g) == m.Get(g)
    ensures Run(m, ws, zero).fault ==
              if Completed(ws) == |ws| then None else Some(ws[Completed(ws)].source.error)
  {
    forall k | 0 <= k < Completed(ws)
      ensures Run(m, ws, zero).gauges.Get(ws[k].target) == Some(ws[k].source.value)
    {
      RunLastWrite(m, ws, zero, k);
    }
    if Completed(ws) < |ws| {
      RunCreatesFailing(m, ws, zero);
    }
    forall g | forall k :: Reached(ws, k) ==> ws[k].target != g
      ensures Run(m, ws, zero).gauges.Get(g) == m.Get(g)
    {
      RunUntouched(m, ws, zero, g);
    }
    RunFault(m, ws, zero);
  }

  /**
    The write at `k` is the first to fail: the run reports its error, every
    earlier write's gauge holds that write's value, write `k`'s gauge holds its
    old value or, if it had none, `zero`, and the gauges of the later writes
    keep their values.
  */
  lemma RunStopsAt<F, E>(m: Snapshot<F>, ws: seq<Write<F, E>>, zero: F, k: nat)
    requires k < |ws| && DistinctTargets(ws)
    requires forall j :: 0 <= j < k ==> ws[j].source.Success?
    requires ws[k].source.Failure?
    ensures Run(m, ws, zero).fault == Some(ws[k].source.error)
    ensures forall j :: 0 <= j < k ==> Run(m, ws, zero).gauges.Get(ws[j].target) == Some(ws[j].source.value)
    ensures Run(m, ws, zero).gauges.Get(ws[k].target) ==
              if m.Get(ws[k].target).None? then Some(zero) else m.Get(ws[k].target)
    ensures forall j :: k < j < |ws| ==> Run(m, ws, zero).gauges.Get(ws[j].target) == m.Get(ws[j].target)
  {
    assert Completed(ws) == k;
    RunDistinct(m, ws, zero);
  }

  /** One more write after a run so far: a run that has already failed stays as it is. */
  function Then<F, E>(a: Applied<F, E>, w: Write<F, E>, zero: F): Applied<F, E> {
    if a.fault.Some? then a else Step(a.gauges, w, zero)
  }

  /** Running one more write at the end is one more `Then`. */
  lemma {:induction false} RunSnoc<F, E>(m: Snapshot<F>, ws: seq<Write<F, E>>, w: Write<F, E>, zero: F)
    ensures Run(m, ws + [w], zero) == Then(Run(m, ws, zero), w, zero)
    decreases |ws|
  {
    if ws == [] {
      assert ws + [w] == [w];
    } else {
      assert (ws + [w])[1..] == ws[1..] + [w];
      if ws[0].source.Success? {
        RunSnoc(Step(m, ws[0], zero).gauges, ws[1..], w, zero);
      }
    }
  }

  /** The run after the first `k` writes, one `Then` at a time. */
  function RunTo<F, E>(m: Snapshot<F>, ws: seq<Write<F, E>>, zero: F, k: nat): Applied<F, E>
    requires k <= |ws|
  {
    if k == 0 then Applied(m, None) else Then(RunTo(m, ws, zero, k - 1), ws[k - 1], zero)
  }

  /** `RunTo` agrees with `Run` on the first `k` writes. */
  lemma {:induction false} RunToIsRun<F, E>(m: Snapshot<F>, ws: seq<Write<F, E>>, zero: F, k: nat)
    requires k <= |ws|
    ensures RunTo(m, ws, zero, k) == Run(m, ws[..k], zero)
  {
    if k > 0 {
      RunToIsRun(m, ws, zero, k - 1);
      assert ws[..k] == ws[..k - 1] + [ws[k - 1]];
      RunSnoc(m, ws[..k - 1], ws[k - 1], zero);
    }
  }

  /** After a failure `RunTo` stays where it is. */
  lemma {:induction false} RunToStops<F, E>(m: Snapshot<F>, ws: seq<Write<F, E>>, zero: F, k: nat, n: nat)
    requires k <= n <= |ws|
    requires RunTo(m, ws, zero, k).fault.Some?
    ensures RunTo(m, ws, zero, n) == RunTo(m, ws, zero, k)
    decreases n
  {
    if k < n {
      RunToStops(m, ws, zero, k, n - 1);
    }
  }

  /** A run that has failed after `k` writes, or that has done them all, is the whole run. */
  lemma RunToDone<F, E>(m: Snapshot<F>, ws: seq<Write<F, E>>, zero: F, k: nat)
    requires k <= |ws|
    requires k == |ws| || RunTo(m, ws, zero, k).fault.Some?
    ensures RunTo(m, ws, zero, k) == Run(m, ws, zero)
  {
    if k < |ws| {
      RunToStops(m, ws, zero, k, |ws|);
    }
    RunToIsRun(m, ws, zero, |ws|);
    assert ws[..|ws|] == ws;
  }
}
