/** The control protocol: `Start`, `Pause`, `Resume`, `Stop`, `Reset` and `Step`, called by one sequential
    controller, against the goroutines that `Start` launches and two channels of capacity one. Each step below
    is one critical section or one channel operation of the code; steps of the controller and of the
    goroutines interleave freely. The controller may make any call at any time; what goes wrong when it calls
    `Start` beside a goroutine, or lets `Step` finish the simulation beside one, is stated exactly. */
module Lifecycle {

  datatype SimState = Idle | Running | Paused | Complete

  /** Where a goroutine is inside `run`. */
  datatype Pc =
    | Selecting        // the outer select
    | Quiet            // the outer select, with its ticker stopped
    | Holding          // the inner select, after a pause token
    | GotTick          // a ticker event was received, the state is not read yet
    | Pausing          // saw Paused, about to stop its ticker and offer a pause token
    | TickDue          // saw Running, about to execute a time unit
    | Ticked           // executed a time unit, about to test for completion
    | Finishing        // found the simulation complete, about to say so
    | Ending           // about to return

  /** Where the controller is inside a call; `Free` between calls. `reset` tells whether a `Stop` is the first
      part of a `Reset`, `sent` whether it has offered a stop token before waiting. */
  datatype Ctl =
    | Free
    | ResumeSend
    | StopSend(reset: bool)
    | StopWait(reset: bool, sent: bool)
    | DrainPause
    | DrainStop
    | ResetState
    | StepTick
    | StepCheck

  datatype Sys = Sys(
    sim: SimState,
    pauseTok: bool,
    stopTok: bool,
    runners: seq<Pc>,   // one entry per goroutine that has not returned
    ctl: Ctl,
    late: nat,          // ticks by goroutines since the controller last left Running
    done: bool)         // every process is complete

  ghost predicate Start0(s: Sys) {
    s == Sys(Idle, false, false, [], Free, 0, s.done)
  }

  // ---------- Steps of a goroutine ----------

  function Without(q: seq<Pc>, k: nat): seq<Pc>
    requires k < |q|
  {
    q[..k] + q[k + 1..]
  }

  ghost predicate RunnerStep(s: Sys, t: Sys, k: nat) {
    k < |s.runners| &&
    match s.runners[k]
    case Selecting =>
      || (s.stopTok && t == s.(stopTok := false, runners := Without(s.runners, k)))
      || (s.pauseTok && t == s.(pauseTok := false, runners := s.runners[k := Holding]))
      || t == s.(runners := s.runners[k := GotTick])
    case Quiet =>
      || (s.stopTok && t == s.(stopTok := false, runners := Without(s.runners, k)))
      || (s.pauseTok && t == s.(pauseTok := false, runners := s.runners[k := Holding]))
    case Holding =>
      || (s.stopTok && t == s.(stopTok := false, runners := Without(s.runners, k)))
      || (s.pauseTok && t == s.(pauseTok := false, runners := s.runners[k := Selecting]))
    case GotTick =>
      t == s.(runners := s.runners[k := if s.sim == Paused then Pausing else if s.sim == Running then TickDue else Selecting])
    case Pausing => t == s.(pauseTok := true, runners := s.runners[k := Quiet])
    case TickDue => (s.done ==> t.done) && t == s.(late := s.late + 1, done := t.done, runners := s.runners[k := Ticked])
    case Ticked => t == s.(runners := s.runners[k := if s.done then Finishing else Selecting])
    case Finishing => t == s.(sim := Complete, runners := s.runners[k := Ending])
    case Ending => t == s.(runners := Without(s.runners, k))
  }

  // ---------- Steps of the controller ----------

  /** `Start`, wherever it is called. */
  function StartCall(s: Sys): Sys {
    if s.sim == Running then s else s.(sim := Running, runners := s.runners + [Selecting])
  }

  function PauseCall(s: Sys): Sys {
    if s.sim == Running then s.(sim := Paused, late := 0) else s
  }

  function ResumeCall(s: Sys): Sys {
    if s.sim == Paused then s.(sim := Running, ctl := ResumeSend) else s
  }

  function StopCall(s: Sys, reset: bool): Sys {
    match s.sim
    case Running => s.(sim := Idle, ctl := StopSend(reset), late := 0)
    case Paused => s.(sim := Idle, ctl := StopSend(reset))
    case Complete => s.(sim := Idle, ctl := StopWait(reset, false), late := 0)
    case Idle => s.(ctl := if reset then DrainPause else Free)
  }

  function StepCall(s: Sys): Sys {
    if s.sim == Running || s.sim == Complete then s else s.(sim := Paused, ctl := StepTick)
  }

  ghost predicate ControllerStep(s: Sys, t: Sys) {
    match s.ctl
    case Free =>
      || t == StartCall(s)
      || t == PauseCall(s)
      || t == ResumeCall(s)
      || t == StopCall(s, false)
      || t == StopCall(s, true)
      || t == StepCall(s)
    case ResumeSend => t == s.(pauseTok := true, ctl := Free)
    case StopSend(reset) => t == s.(stopTok := true, ctl := StopWait(reset, true))
    case StopWait(reset, _) => s.runners == [] && t == s.(ctl := if reset then DrainPause else Free)
    case DrainPause => t == s.(pauseTok := false, ctl := DrainStop)
    case DrainStop => t == s.(stopTok := false, ctl := ResetState)
    case ResetState => t == s.(sim := Idle, ctl := Free, done := t.done)
    case StepTick => (s.done ==> t.done) && t == s.(ctl := StepCheck, done := t.done)
    case StepCheck => t == s.(sim := if s.done then Complete else s.sim, ctl := Free)
  }

  ghost predicate GoroutineStep(s: Sys, t: Sys) {
    exists k: nat :: RunnerStep(s, t, k)
  }

  ghost predicate NextStep(s: Sys, t: Sys) {
    ControllerStep(s, t) || GoroutineStep(s, t)
  }

  // ---------- Histories ----------

  /** Any interleaving from any state. */
  ghost predicate Path(h: seq<Sys>) {
    h != [] && forall i | 0 < i < |h| :: NextStep(h[i - 1], h[i])
  }

  /** Goroutines that can still touch the protocol: all but those about to return. */
  function Active(q: seq<Pc>): nat {
    if q == [] then 0 else Active(q[..|q| - 1]) + if q[|q| - 1] == Ending then 0 else 1
  }

  function Due(q: seq<Pc>): nat {
    if q == [] then 0 else Due(q[..|q| - 1]) + if q[|q| - 1] == TickDue then 1 else 0
  }

  /** `Start` does nothing, or finds no goroutine that can still touch the protocol. */
  predicate StartAllowed(s: Sys) {
    s.sim == Running || Active(s.runners) == 0
  }

  /** A history from the initial state in which `Start` is only called where it is allowed. */
  ghost predicate Guarded(h: seq<Sys>) {
    && Path(h) && Start0(h[0])
    && forall i | 0 < i < |h| :: h[i - 1].ctl == Free && h[i] == StartCall(h[i - 1]) ==> StartAllowed(h[i - 1])
  }

  // ---------- The invariant ----------

  predicate Stopping(ctl: Ctl) {
    ctl.StopSend? || ctl.StopWait? || ctl.DrainPause? || ctl.DrainStop? || ctl.ResetState?
  }

  ghost predicate Safe(s: Sys) {
    // at most one goroutine can tick or change the protocol state
    && Active(s.runners) <= 1
    // only a finished simulation is declared complete
    && (s.sim == Complete ==> s.done)
    && (Finishing in s.runners ==> s.done)
    // between calls an idle simulator has no goroutine at all
    && (s.sim == Idle && s.ctl == Free ==> s.runners == [])
    && (s.ctl in {DrainPause, DrainStop, ResetState} ==> s.runners == [])
    && (s.ctl in {ResumeSend, StepTick, StepCheck} ==> s.sim != Idle)
    // a waiting Stop that sent its token has it out as long as a goroutine is there to take it
    && (s.ctl.StopWait? && s.ctl.sent && Active(s.runners) > 0 ==> s.stopTok)
    && (s.ctl.StopSend? || (s.ctl.StopWait? && s.ctl.sent) ==> s.sim == Complete ==> Active(s.runners) == 0)
    && (s.ctl in {DrainStop, ResetState} ==> !s.pauseTok)
    && (s.ctl == ResetState ==> !s.stopTok)
    // at most one tick after the controller left Running
    && (s.sim == Paused || s.sim == Idle || Stopping(s.ctl) ==> s.late + Due(s.runners) <= 1)
    && (Stopping(s.ctl) ==> s.sim == Idle || s.sim == Complete)
  }

  // ---------- Counting goroutines ----------

  lemma {:induction false} CountUpdate(q: seq<Pc>, k: nat, pc: Pc)
    requires k < |q|
    ensures Active(q[k := pc]) == Active(q) - (if q[k] == Ending then 0 else 1) + (if pc == Ending then 0 else 1)
    ensures Due(q[k := pc]) == Due(q) - (if q[k] == TickDue then 1 else 0) + (if pc == TickDue then 1 else 0)
  {
    var n := |q| - 1;
    var r := q[k := pc];
    if k == n {
      assert r[..n] == q[..n];
    } else {
      assert r[..n] == q[..n][k := pc];
      CountUpdate(q[..n], k, pc);
    }
  }

  lemma {:induction false} CountWithout(q: seq<Pc>, k: nat)
    requires k < |q|
    ensures Active(Without(q, k)) == Active(q) - (if q[k] == Ending then 0 else 1)
    ensures Due(Without(q, k)) == Due(q) - (if q[k] == TickDue then 1 else 0)
  {
    var n := |q| - 1;
    var r := Without(q, k);
    if k == n {
      assert r == q[..n];
    } else {
      assert r[..|r| - 1] == Without(q[..n], k);
      CountWithout(q[..n], k);
    }
  }

  lemma CountAppend(q: seq<Pc>, pc: Pc)
    ensures Active(q + [pc]) == Active(q) + if pc == Ending then 0 else 1
    ensures Due(q + [pc]) == Due(q) + if pc == TickDue then 1 else 0
  {
    assert (q + [pc])[..|q|] == q;
  }

  lemma {:induction false} DueIsActive(q: seq<Pc>)
    ensures Due(q) <= Active(q)
  {
    if q != [] {
      DueIsActive(q[..|q| - 1]);
    }
  }

  /** A goroutine that is not about to return is the only active one. */
  lemma OnlyActive(q: seq<Pc>, k: nat)
    requires k < |q| && q[k] != Ending && Active(q) <= 1
    ensures Active(q) == 1 && Due(q) == (if q[k] == TickDue then 1 else 0)
  {
    CountUpdate(q, k, Ending);
    DueIsActive(q[k := Ending]);
  }

  // ---------- Every step keeps the invariant ----------

  /** A goroutine returns, at the end of `run` or on a stop token. */
  lemma ReturnKeepsSafe(s: Sys, t: Sys, k: nat)
    requires Safe(s) && k < |s.runners|
    requires t == s.(runners := Without(s.runners, k), stopTok := t.stopTok, pauseTok := t.pauseTok)
    requires if s.runners[k] == Ending then t.stopTok == s.stopTok && t.pauseTok == s.pauseTok
             else !t.stopTok && t.pauseTok == s.pauseTok
    ensures Safe(t)
  {
    hide Active, Due;
    var q := s.runners;
    CountWithout(q, k);
    if q[k] != Ending {
      OnlyActive(q, k);
    }
    if |q| == 1 {
      assert t.runners == [];
    }
  }

  /** A goroutine goes on inside `run`. */
  lemma MoveKeepsSafe(s: Sys, t: Sys, k: nat, pc: Pc)
    requires Safe(s) && RunnerStep(s, t, k) && t.runners == s.runners[k := pc] && s.runners[k] != Ending
    ensures Safe(t)
  {
    hide Active, Due;
    CountUpdate(s.runners, k, pc);
    OnlyActive(s.runners, k);
    assert t.runners[k] == pc && s.runners[k] in s.runners;
    assert |Without(s.runners, k)| < |t.runners|;
    if Finishing in t.runners && pc != Finishing {
      var j :| 0 <= j < |t.runners| && t.runners[j] == Finishing;
      assert s.runners[j] == Finishing && s.runners[j] in s.runners;
    }
  }

  lemma RunnerKeepsSafe(s: Sys, t: Sys, k: nat)
    requires Safe(s) && RunnerStep(s, t, k)
    ensures Safe(t)
  {
    hide Safe;
    if |t.runners| < |s.runners| {
      ReturnKeepsSafe(s, t, k);
    } else {
      MoveKeepsSafe(s, t, k, t.runners[k]);
    }
  }

  lemma StartKeepsSafe(s: Sys)
    requires Safe(s) && s.ctl == Free && StartAllowed(s)
    ensures Safe(StartCall(s))
  {
    hide Active, Due;
    CountAppend(s.runners, Selecting);
    DueIsActive(s.runners);
  }

  lemma PauseKeepsSafe(s: Sys)
    requires Safe(s) && s.ctl == Free
    ensures Safe(PauseCall(s)) && Safe(ResumeCall(s))
  {
    DueIsActive(s.runners);
  }

  lemma StopKeepsSafe(s: Sys, reset: bool)
    requires Safe(s) && s.ctl == Free
    ensures Safe(StopCall(s, reset))
  {
    DueIsActive(s.runners);
  }

  lemma StepKeepsSafe(s: Sys)
    requires Safe(s) && s.ctl == Free
    ensures Safe(StepCall(s))
  {
  }

  lemma CallKeepsSafe(s: Sys, t: Sys)
    requires Safe(s) && s.ctl != Free && ControllerStep(s, t)
    ensures Safe(t)
  {
    hide Active, Due;
    assert Active([]) == 0 && Due([]) == 0 by { NobodyCounts(); }
  }

  lemma NobodyCounts()
    ensures Active([]) == 0 && Due([]) == 0
  {
  }

  lemma ControllerKeepsSafe(s: Sys, t: Sys)
    requires Safe(s) && ControllerStep(s, t)
    requires s.ctl == Free && t == StartCall(s) ==> StartAllowed(s)
    ensures Safe(t)
  {
    hide Safe, StartCall, PauseCall, ResumeCall, StopCall, StepCall, StartAllowed;
    if s.ctl == Free {
      if t == StartCall(s) {
        StartKeepsSafe(s);
      }
      PauseKeepsSafe(s);
      StopKeepsSafe(s, false);
      StopKeepsSafe(s, true);
      StepKeepsSafe(s);
    } else {
      CallKeepsSafe(s, t);
    }
  }

  lemma NextKeepsSafe(s: Sys, t: Sys)
    requires Safe(s) && NextStep(s, t)
    requires s.ctl == Free && t == StartCall(s) ==> StartAllowed(s)
    ensures Safe(t)
  {
    hide Safe, RunnerStep, ControllerStep, StartAllowed, StartCall;
    if ControllerStep(s, t) {
      ControllerKeepsSafe(s, t);
    } else {
      var k: nat :| RunnerStep(s, t, k);
      RunnerKeepsSafe(s, t, k);
    }
  }

  lemma {:induction false} GuardedSafe(h: seq<Sys>, i: nat)
    requires Guarded(h) && i < |h|
    ensures Safe(h[i])
  {
    hide NextStep, StartCall, StartAllowed;
    if i > 0 {
      GuardedSafe(h, i - 1);
      assert NextStep(h[i - 1], h[i]);
      NextKeepsSafe(h[i - 1], h[i]);
    }
  }


  // ---------- What the protocol guarantees ----------

  /** Able to execute a time unit now or later. */
  predicate CanTick(pc: Pc) {
    pc != Finishing && pc != Ending
  }

  /** Never two goroutines that can tick. */
  lemma AtMostOneTicks(h: seq<Sys>, i: nat, j: nat, k: nat)
    requires Guarded(h) && i < |h| && j < |h[i].runners| && k < |h[i].runners|
    requires CanTick(h[i].runners[j]) && CanTick(h[i].runners[k])
    ensures j == k
  {
    GuardedSafe(h, i);
    if j != k {
      OthersEnd(h[i].runners, j, k);
    }
  }

  lemma OthersEnd(q: seq<Pc>, j: nat, k: nat)
    requires Active(q) <= 1 && j < |q| && k < |q| && j != k && q[k] != Ending
    ensures q[j] == Ending
  {
    if q[j] != Ending {
      CountUpdate(q, j, Ending);
      CountUpdate(q[j := Ending], k, Ending);
    }
  }

  /** A call of `Start` keeps it at one goroutine exactly where it is allowed. */
  lemma StartKeepsOneIff(h: seq<Sys>, i: nat)
    requires Guarded(h) && i < |h| && h[i].ctl == Free
    ensures Active(StartCall(h[i]).runners) <= 1 <==> StartAllowed(h[i])
  {
    GuardedSafe(h, i);
    CountAppend(h[i].runners, Selecting);
  }

  /** The guard can fail: start, pause, start again. */
  lemma StartWhilePausedDoubles()
    ensures exists h: seq<Sys> :: Guarded(h) && |h| == 3 && h[2].sim == Paused && StartCall(h[2]).runners == [Selecting, Selecting]
  {
    var a := Sys(Idle, false, false, [], Free, 0, false);
    var b := StartCall(a);
    var c := PauseCall(b);
    var h := [a, b, c];
    assert ControllerStep(a, b) && ControllerStep(b, c);
    assert Guarded(h) && StartCall(h[2]).runners == [Selecting, Selecting];
  }

  /** Being paused is not what decides: after a `Step` of an idle simulator `Start` is allowed. */
  lemma StartAfterStepIsAllowed()
    ensures exists h: seq<Sys> :: Guarded(h) && |h| == 4 && h[3].sim == Paused && h[3].ctl == Free && StartAllowed(h[3])
  {
    var a := Sys(Idle, false, false, [], Free, 0, false);
    var b := StepCall(a);
    var c := b.(ctl := StepCheck);
    var d := c.(ctl := Free);
    var h := [a, b, c, d];
    assert ControllerStep(a, b) && ControllerStep(b, c) && ControllerStep(c, d);
    assert Guarded(h) && StartAllowed(h[3]);
  }

  /** While `Stop` waits on a token it has sent, and a goroutine still runs, the token is in the channel, and the
      goroutine takes no further decision to tick. */
  lemma StopKeepsItsToken(h: seq<Sys>, i: nat, k: nat)
    requires Guarded(h) && i < |h| && h[i].ctl.StopWait? && h[i].ctl.sent
    requires k < |h[i].runners| && h[i].runners[k] != Ending
    ensures h[i].stopTok
    ensures h[i].sim == Idle
  {
    GuardedSafe(h, i);
    OnlyActive(h[i].runners, k);
  }

  /** After `Pause` has returned, and until the state changes again, goroutines execute at most one more tick; and
      none beyond one once `Stop` has begun. */
  lemma AtMostOneLateTick(h: seq<Sys>, i: nat)
    requires Guarded(h) && i < |h| && (h[i].sim == Paused || Stopping(h[i].ctl))
    ensures h[i].late <= 1
  {
    GuardedSafe(h, i);
  }

  /** `Reset` returns with no goroutine alive and both channels empty. */
  lemma ResetLeavesNothingBehind(h: seq<Sys>, i: nat)
    requires Guarded(h) && 0 < i < |h| && h[i - 1].ctl == ResetState && h[i].ctl == Free
    ensures h[i].runners == [] && !h[i].pauseTok && !h[i].stopTok && h[i].sim == Idle
  {
    hide Path, Safe, Active, Due, Guarded;
    GuardedSafe(h, i - 1);
    SafeReset(h[i - 1]);
    assert NextStep(h[i - 1], h[i]) by { GuardedSteps(h, i); }
    assert ControllerStep(h[i - 1], h[i]);
  }

  lemma SafeReset(s: Sys)
    requires Safe(s) && s.ctl == ResetState
    ensures s.runners == [] && !s.pauseTok && !s.stopTok
  {
  }

  lemma GuardedSteps(h: seq<Sys>, i: nat)
    requires Guarded(h) && 0 < i < |h|
    ensures NextStep(h[i - 1], h[i])
  {
  }

  // ---------- Stepping beside a goroutine ----------

  /** The goroutines go on while a `Step` called in `s` is at its tick. */
  ghost predicate DuringStep(g: seq<Sys>, s: Sys) {
    Path(g) && g[0] == StepCall(s) && forall i | 0 <= i < |g| :: g[i].ctl == StepTick
  }

  lemma NoneDue(q: seq<Pc>, k: nat)
    requires k < |q| && Due(q) == 0
    ensures q[k] != TickDue
  {
    CountUpdate(q, k, Ending);
  }

  lemma {:induction false} NoneDueDuringStep(g: seq<Sys>, s: Sys, i: nat)
    requires DuringStep(g, s) && i < |g| && (s.sim == Idle || s.sim == Paused) && Due(s.runners) == 0
    ensures Due(g[i].runners) == 0 && g[i].sim != Running
  {
    hide Due, RunnerStep;
    if i > 0 {
      NoneDueDuringStep(g, s, i - 1);
      var a, b := g[i - 1], g[i];
      assert NextStep(a, b) && !ControllerStep(a, b);
      var k: nat :| RunnerStep(a, b, k);
      NoneDueStep(a, b, k);
    }
  }

  lemma NoneDueStep(s: Sys, t: Sys, k: nat)
    requires RunnerStep(s, t, k) && s.sim != Running && Due(s.runners) == 0
    ensures t.sim != Running && Due(t.runners) == 0
  {
    hide Due;
    NoneDue(s.runners, k);
    CountWithout(s.runners, k);
    if |t.runners| == |s.runners| {
      CountUpdate(s.runners, k, t.runners[k]);
    }
  }

  /** A `Step` that goes ahead never ticks beside a goroutine that is about to tick, if and only if no goroutine is
      about to tick when it is called. */
  lemma StepTicksAloneIff(s: Sys)
    requires s.ctl == Free && (s.sim == Idle || s.sim == Paused)
    ensures (forall g: seq<Sys> | DuringStep(g, s) :: Due(g[|g| - 1].runners) == 0) <==> Due(s.runners) == 0
  {
    hide Due, NextStep;
    if Due(s.runners) == 0 {
      forall g: seq<Sys> | DuringStep(g, s)
        ensures Due(g[|g| - 1].runners) == 0
      {
        NoneDueDuringStep(g, s, |g| - 1);
      }
    } else {
      var g := [StepCall(s)];
      assert DuringStep(g, s) && Due(g[|g| - 1].runners) != 0;
    }
  }

  /** The condition can fail: a goroutine that has seen Running before a pause is still about to tick. */
  lemma StepBesideDueTick()
    ensures exists h: seq<Sys> :: Guarded(h) && |h| == 5 && h[4].sim == Paused && h[4].ctl == Free && h[4].runners == [TickDue]
  {
    var a := Sys(Idle, false, false, [], Free, 0, false);
    var b := StartCall(a);
    var c := b.(runners := [GotTick]);
    var d := b.(runners := [TickDue]);
    var e := PauseCall(d);
    var h := [a, b, c, d, e];
    assert b.runners[0 := GotTick] == [GotTick] && c.runners[0 := TickDue] == [TickDue];
    assert ControllerStep(a, b) && RunnerStep(b, c, 0) && RunnerStep(c, d, 0) && ControllerStep(d, e);
    assert Guarded(h) && h[4].runners == [TickDue];
  }

  // ---------- When Stop returns ----------

  /** Returns on a stop token only. */
  predicate Lingers(pc: Pc) {
    pc == Selecting || pc == Quiet || pc == Holding || pc == GotTick || pc == Pausing
  }

  predicate Lingering(s: Sys) {
    exists k | 0 <= k < |s.runners| :: Lingers(s.runners[k])
  }

  /** `Stop` waits for a goroutine that waits for a token nobody will send. */
  ghost predicate Stuck(s: Sys) {
    s.ctl.StopWait? && !s.stopTok && (s.sim == Idle || s.sim == Complete) && Lingering(s)
  }

  lemma StuckStays(s: Sys, t: Sys)
    requires Stuck(s) && NextStep(s, t)
    ensures Stuck(t)
  {
    hide RunnerStep;
    assert !ControllerStep(s, t);
    var k: nat :| RunnerStep(s, t, k);
    StuckRunner(s, t, k);
  }

  lemma StuckRunner(s: Sys, t: Sys, k: nat)
    requires Stuck(s) && RunnerStep(s, t, k)
    ensures Stuck(t)
  {
    hide Lingering;
    assert Lingering(t) by { LingerStays(s, t, k); }
  }

  lemma LingerStays(s: Sys, t: Sys, k: nat)
    requires Stuck(s) && RunnerStep(s, t, k)
    ensures Lingering(t)
  {
    var j :| 0 <= j < |s.runners| && Lingers(s.runners[j]);
    if |t.runners| < |s.runners| {
      assert t.runners[if j < k then j else j - 1] == s.runners[j];
    } else if j != k {
      assert t.runners[j] == s.runners[j];
    } else {
      assert Lingers(t.runners[k]);
    }
  }

  lemma {:induction false} StuckForever(g: seq<Sys>, i: nat)
    requires Path(g) && Stuck(g[0]) && i < |g|
    ensures Stuck(g[i])
  {
    hide NextStep, Stuck;
    if i > 0 {
      StuckForever(g, i - 1);
      StuckStays(g[i - 1], g[i]);
    }
  }

  /** From inside a `Stop`: some interleaving gets past the wait. */
  ghost predicate CanReturn(s: Sys) {
    exists g: seq<Sys> :: Path(g) && g[0] == s && !g[|g| - 1].ctl.StopSend? && !g[|g| - 1].ctl.StopWait?
  }

  ghost predicate Returnable(s: Sys) {
    Safe(s) && s.ctl.StopWait? && (Lingering(s) ==> s.stopTok) && (Active(s.runners) > 0 ==> s.stopTok || s.done)
  }

  function Rank(pc: Pc): nat {
    match pc
    case TickDue => 5
    case Ticked => 4
    case GotTick => 3
    case Pausing => 3
    case Selecting => 2
    case Quiet => 2
    case Holding => 2
    case Finishing => 1
    case Ending => 0
  }

  /** The next step of the last goroutine on its way out. */
  function LastMoves(s: Sys): Sys
    requires s.runners != []
  {
    var k := |s.runners| - 1;
    match s.runners[k]
    case Selecting => s.(stopTok := false, runners := Without(s.runners, k))
    case Quiet => s.(stopTok := false, runners := Without(s.runners, k))
    case Holding => s.(stopTok := false, runners := Without(s.runners, k))
    case Ending => s.(runners := Without(s.runners, k))
    case GotTick => s.(runners := s.runners[k := Selecting])
    case Pausing => s.(pauseTok := true, runners := s.runners[k := Quiet])
    case TickDue => s.(late := s.late + 1, runners := s.runners[k := Ticked])
    case Ticked => s.(runners := s.runners[k := if s.done then Finishing else Selecting])
    case Finishing => s.(sim := Complete, runners := s.runners[k := Ending])
  }

  lemma LastMovesOn(s: Sys)
    requires Returnable(s) && s.runners != []
    ensures var t := LastMoves(s); var k := |s.runners| - 1;
            && NextStep(s, t) && Returnable(t)
            && (|t.runners| < |s.runners| || (|t.runners| == |s.runners| && Rank(t.runners[k]) < Rank(s.runners[k])))
  {
    hide Active, Due, Safe, RunnerStep;
    var t, k := LastMoves(s), |s.runners| - 1;
    SafeStops(s);
    LastStep(s);
    RunnerKeepsSafe(s, t, k);
    CountWithout(s.runners, k);
    if |t.runners| == |s.runners| {
      CountUpdate(s.runners, k, t.runners[k]);
    }
    if s.runners[k] != Ending {
      OnlyActive(s.runners, k);
      forall j | 0 <= j < k
        ensures s.runners[j] == Ending
      {
        OthersEnd(s.runners, j, k);
      }
    }
  }

  lemma LastStep(s: Sys)
    requires Returnable(s) && s.runners != []
    ensures RunnerStep(s, LastMoves(s), |s.runners| - 1)
  {
    hide Active, Due, Safe;
    SafeStops(s);
    if Lingers(s.runners[|s.runners| - 1]) {
      assert Lingering(s);
    }
  }

  lemma SafeStops(s: Sys)
    requires Safe(s) && s.ctl.StopWait?
    ensures (s.sim == Idle || s.sim == Complete) && Active(s.runners) <= 1
  {
  }

  lemma {:induction false} WayOut(s: Sys) returns (g: seq<Sys>)
    requires Returnable(s)
    ensures Path(g) && g[0] == s && !g[|g| - 1].ctl.StopSend? && !g[|g| - 1].ctl.StopWait?
    decreases |s.runners|, if s.runners == [] then 0 else Rank(s.runners[|s.runners| - 1])
  {
    hide Returnable, RunnerStep;
    assert s.ctl.StopWait? by { ReturnableWaits(s); }
    if s.runners == [] {
      var t := s.(ctl := if s.ctl.reset then DrainPause else Free);
      assert ControllerStep(s, t);
      g := [s, t];
    } else {
      LastMovesOn(s);
      var g' := WayOut(LastMoves(s));
      g := Before(s, g');
    }
  }

  lemma ReturnableWaits(s: Sys)
    requires Returnable(s)
    ensures s.ctl.StopWait? && Safe(s)
  {
  }

  lemma Before(s: Sys, g: seq<Sys>) returns (r: seq<Sys>)
    requires Path(g) && NextStep(s, g[0])
    ensures Path(r) && r[0] == s && r[|r| - 1] == g[|g| - 1]
  {
    hide NextStep;
    r := [s] + g;
    forall i | 0 < i < |r|
      ensures NextStep(r[i - 1], r[i])
    {
      assert i > 1 ==> r[i - 1] == g[i - 2] && r[i] == g[i - 1];
    }
  }

  /** Whatever happens inside a `Stop`, it can still return. */
  ghost predicate StaysReturnable(s: Sys) {
    forall g: seq<Sys> | WithinStop(g, s) :: CanReturn(g[|g| - 1])
  }

  ghost predicate WithinStop(g: seq<Sys>, s: Sys) {
    Path(g) && g[0] == s && forall i | 0 <= i < |g| :: g[i].ctl.StopSend? || g[i].ctl.StopWait?
  }

  /** On the way to the wait, or in it with a way out. */
  ghost predicate OnTheWay(s: Sys) {
    Safe(s) && (s.ctl.StopSend? || Returnable(s))
  }

  lemma ReturnableStays(s: Sys, t: Sys)
    requires Returnable(s) && NextStep(s, t) && t.ctl.StopWait?
    ensures Returnable(t)
  {
    hide Active, Due, Safe, Lingering, NextStep;
    NextKeepsSafe(s, t);
    assert GoroutineStep(s, t) by { WaitStep(s, t); }
    var k: nat :| RunnerStep(s, t, k);
    SafeStops(s);
    assert Lingering(t) ==> t.stopTok by { LingerNeedsToken(s, t, k); }
    CountWithout(s.runners, k);
    if t.runners != Without(s.runners, k) {
      CountUpdate(s.runners, k, t.runners[k]);
    }
    if s.runners[k] != Ending {
      OnlyActive(s.runners, k);
    }
  }

  /** Inside the wait only goroutines move. */
  lemma WaitStep(s: Sys, t: Sys)
    requires NextStep(s, t) && s.ctl.StopWait? && t.ctl.StopWait?
    ensures GoroutineStep(s, t)
  {
    hide RunnerStep;
    assert !ControllerStep(s, t);
  }

  lemma LingerNeedsToken(s: Sys, t: Sys, k: nat)
    requires Returnable(s) && RunnerStep(s, t, k) && s.ctl.StopWait? && Active(s.runners) <= 1
    requires s.sim == Idle || s.sim == Complete
    ensures Lingering(t) ==> t.stopTok
  {
    hide Active, Due, Safe;
    if !t.stopTok {
      forall j | 0 <= j < |t.runners|
        ensures !Lingers(t.runners[j])
      {
        var j0 := if |t.runners| < |s.runners| && j >= k then j + 1 else j;
        if s.stopTok {
          OnlyActive(s.runners, k);
          OthersEnd(s.runners, j0, k);
        } else if s.runners[k] != Ending {
          OnlyActive(s.runners, k);
        }
        assert j0 != k ==> t.runners[j] == s.runners[j0];
      }
    }
  }

  lemma OnTheWayStays(s: Sys, t: Sys)
    requires OnTheWay(s) && NextStep(s, t) && (t.ctl.StopSend? || t.ctl.StopWait?)
    ensures OnTheWay(t)
  {
    hide Safe, Returnable, RunnerStep, StartAllowed;
    if s.ctl.StopSend? {
      NextKeepsSafe(s, t);
      if t.ctl.StopWait? {
        SendsToken(s, t);
        SentIsReturnable(t);
      }
    } else {
      ReturnableWaits(s);
      assert t.ctl.StopWait? by { StaysWaiting(s, t); }
      ReturnableStays(s, t);
      ReturnableWaits(t);
    }
  }

  lemma SendsToken(s: Sys, t: Sys)
    requires s.ctl.StopSend? && NextStep(s, t) && t.ctl.StopWait?
    ensures t.ctl.sent && t.stopTok
  {
  }

  lemma StaysWaiting(s: Sys, t: Sys)
    requires s.ctl.StopWait? && NextStep(s, t) && (t.ctl.StopSend? || t.ctl.StopWait?)
    ensures t.ctl.StopWait?
  {
  }

  lemma SentIsReturnable(t: Sys)
    requires Safe(t) && t.ctl.StopWait? && t.ctl.sent && t.stopTok
    ensures Returnable(t)
  {
  }

  lemma OnTheWayReturns(s: Sys)
    requires OnTheWay(s)
    ensures CanReturn(s)
  {
    hide NextStep, Safe, Returnable, Path;
    if s.ctl.StopSend? {
      var u := s.(stopTok := true, ctl := StopWait(s.ctl.reset, true));
      ControllerNext(s, u);
      CallKeepsSafe(s, u);
      SentIsReturnable(u);
      var g' := WayOut(u);
      var g := Before(s, g');
    } else {
      var g := WayOut(s);
    }
  }

  lemma {:induction false} OnTheWayThroughout(g: seq<Sys>, s: Sys, i: nat)
    requires WithinStop(g, s) && OnTheWay(s) && i < |g|
    ensures OnTheWay(g[i])
  {
    hide NextStep, OnTheWay;
    if i > 0 {
      OnTheWayThroughout(g, s, i - 1);
      OnTheWayStays(g[i - 1], g[i]);
    }
  }

  /** `Stop`, alone or as the first part of `Reset`, can return if and only if the simulation was not declared complete
      over the head of a goroutine that only a token makes return, with no token in the channel; and then it can
      return from every state it may get into. */
  lemma StopReturnsIff(h: seq<Sys>, i: nat, reset: bool)
    requires Guarded(h) && i < |h| && h[i].ctl == Free
    ensures CanReturn(StopCall(h[i], reset)) <==> !(h[i].sim == Complete && Lingering(h[i]) && !h[i].stopTok)
    ensures StaysReturnable(StopCall(h[i], reset)) <==> CanReturn(StopCall(h[i], reset))
  {
    StopCanReturnIff(h, i, reset);
    hide NextStep, Safe, Active, Due, Guarded, CanReturn, OnTheWay, Lingering;
    var t := StopCall(h[i], reset);
    GuardedSafe(h, i);
    if h[i].sim == Complete && Lingering(h[i]) && !h[i].stopTok {
      var g := [t];
      assert WithinStop(g, t) && !CanReturn(g[|g| - 1]);
    } else {
      forall g: seq<Sys> | WithinStop(g, t)
        ensures CanReturn(g[|g| - 1])
      {
        StopIsOnTheWay(h[i], reset);
        OnTheWayThroughout(g, t, |g| - 1);
        OnTheWayReturns(g[|g| - 1]);
      }
    }
  }

  lemma StopIsOnTheWay(s: Sys, reset: bool)
    requires Safe(s) && s.ctl == Free && s.sim != Idle
    requires !(s.sim == Complete && Lingering(s) && !s.stopTok)
    ensures OnTheWay(StopCall(s, reset))
  {
    hide Active, Due;
    StopKeepsSafe(s, reset);
    assert Lingering(StopCall(s, reset)) ==> Lingering(s);
  }

  lemma StopCanReturnIff(h: seq<Sys>, i: nat, reset: bool)
    requires Guarded(h) && i < |h| && h[i].ctl == Free
    ensures CanReturn(StopCall(h[i], reset)) <==> !(h[i].sim == Complete && Lingering(h[i]) && !h[i].stopTok)
  {
    hide NextStep, Safe, Active, Due, Guarded;
    var s := h[i];
    var t := StopCall(s, reset);
    GuardedSafe(h, i);
    StopKeepsSafe(s, reset);
    if s.sim == Complete && Lingering(s) && !s.stopTok {
      assert Stuck(t) by { assert Lingering(t); }
      forall g: seq<Sys> | Path(g) && g[0] == t
        ensures g[|g| - 1].ctl.StopWait?
      {
        StuckForever(g, |g| - 1);
      }
    } else if s.sim == Idle {
      var g := [t];
      assert Path(g) && !g[|g| - 1].ctl.StopWait?;
    } else {
      StopIsOnTheWay(s, reset);
      OnTheWayReturns(t);
    }
  }

  lemma ControllerNext(s: Sys, t: Sys)
    requires ControllerStep(s, t)
    ensures NextStep(s, t)
  {
  }

  /** So a `Step` leaves a simulator that can be stopped if and only if it does not complete the simulation beside
      such a goroutine. */
  lemma StopAfterStepIff(h: seq<Sys>, i: nat, reset: bool)
    requires Guarded(h) && 0 < i < |h| && h[i - 1].ctl == StepCheck && h[i].ctl == Free
    ensures var s := h[i - 1];
            CanReturn(StopCall(h[i], reset)) <==> !(s.done && Lingering(s) && !s.stopTok)
  {
    hide Path, CanReturn, Active, Due, StopCall, Guarded;
    GuardedSafe(h, i - 1);
    assert NextStep(h[i - 1], h[i]) by { GuardedSteps(h, i); }
    assert ControllerStep(h[i - 1], h[i]);
    assert Lingering(h[i]) <==> Lingering(h[i - 1]);
    StopReturnsIff(h, i, reset);
  }

  /** A parked goroutine and a `Stop` that has sent nothing: no step is possible at all. */
  lemma ParkedForever(s: Sys, t: Sys)
    requires s.ctl.StopWait? && s.runners == [Holding] && !s.stopTok && !s.pauseTok
    ensures !NextStep(s, t)
  {
  }

  lemma GuardedMore(h: seq<Sys>, t: Sys)
    requires Guarded(h) && NextStep(h[|h| - 1], t)
    requires h[|h| - 1].ctl == Free && t == StartCall(h[|h| - 1]) ==> StartAllowed(h[|h| - 1])
    ensures Guarded(h + [t])
  {
    hide NextStep, StartCall, StartAllowed;
  }

  lemma RunnerMore(h: seq<Sys>, t: Sys)
    requires h != [] && Guarded(h) && RunnerStep(h[|h| - 1], t, 0) && h[|h| - 1].sim != Idle
    requires |t.runners| == |h[|h| - 1].runners|
    ensures Guarded(h + [t])
  {
    hide Path, RunnerStep;
    assert h != [] && NextStep(h[|h| - 1], t);
    GuardedMore(h, t);
  }

  /** A goroutine parks after a pause. */
  lemma ParkingHistory() returns (h: seq<Sys>)
    ensures Guarded(h) && h[|h| - 1] == Sys(Paused, false, false, [Holding], Free, 0, false) && |h| == 7
  {
    hide Guarded, NextStep;
    var a := Sys(Idle, false, false, [], Free, 0, false);
    var b := StartCall(a);
    var c := PauseCall(b);
    var d := c.(runners := [GotTick]);
    var e := c.(runners := [Pausing]);
    var f := c.(pauseTok := true, runners := [Quiet]);
    var p := c.(runners := [Holding]);
    assert Guarded([a, b, c]) by { StartedAndPaused(); }
    assert c.runners[0 := GotTick] == [GotTick] && d.runners[0 := Pausing] == [Pausing];
    assert e.runners[0 := Quiet] == [Quiet] && f.runners[0 := Holding] == [Holding];
    RunnerMore([a, b, c], d);
    RunnerMore([a, b, c] + [d], e);
    RunnerMore([a, b, c] + [d] + [e], f);
    RunnerMore([a, b, c] + [d] + [e] + [f], p);
    h := [a, b, c] + [d] + [e] + [f] + [p];
  }

  lemma StartedAndPaused()
    ensures var a := Sys(Idle, false, false, [], Free, 0, false); Guarded([a, StartCall(a), PauseCall(StartCall(a))])
  {
    var a := Sys(Idle, false, false, [], Free, 0, false);
    var b := StartCall(a);
    assert ControllerStep(a, b) && ControllerStep(b, PauseCall(b));
  }

  lemma ControllerMore(h: seq<Sys>, t: Sys)
    requires h != [] && Guarded(h) && ControllerStep(h[|h| - 1], t) && |t.runners| == |h[|h| - 1].runners|
    requires h[|h| - 1].sim != Running
    ensures Guarded(h + [t])
  {
    hide Guarded, ControllerStep;
    ControllerNext(h[|h| - 1], t);
    GuardedMore(h, t);
  }

  /** The hang is reachable: start, pause, wait for the goroutine to park, step to completion, stop. */
  lemma StepToCompletionHangsStop()
    ensures exists h: seq<Sys> ::
              && Guarded(h) && |h| == 11 && Stuck(h[10]) && h[10].runners == [Holding]
              && forall t :: !NextStep(h[10], t)
  {
    hide Guarded, NextStep;
    var h := ParkingHistory();
    var p := h[|h| - 1];
    var x := StepCall(p);
    var y := x.(ctl := StepCheck, done := true);
    var z := y.(sim := Complete, ctl := Free);
    var w := StopCall(z, false);
    ControllerMore(h, x);
    ControllerMore(h + [x], y);
    ControllerMore(h + [x] + [y], z);
    ControllerMore(h + [x] + [y] + [z], w);
    var r := h + [x] + [y] + [z] + [w];
    assert Lingers(w.runners[0]);
    forall t
      ensures !NextStep(w, t)
    {
      ParkedForever(w, t);
    }
    assert Guarded(r) && r[10] == w && Stuck(w);
  }

  // ---------- Running means that somebody runs ----------

  /** The goroutines go on while the controller does nothing. */
  ghost predicate RunnerPath(g: seq<Sys>) {
    g != [] && forall i | 0 < i < |g| :: GoroutineStep(g[i - 1], g[i])
  }

  /** Left to itself a Running simulator always has a goroutine to run it, until it is complete. */
  ghost predicate KeepsRunning(s: Sys) {
    forall g: seq<Sys> | RunnerPath(g) && g[0] == s ::
      g[|g| - 1].sim == Running ==> Active(g[|g| - 1].runners) >= 1
  }

  /** Where a goroutine of a Running simulator can still come to read the stop channel. */
  predicate MayTake(pc: Pc, done: bool) {
    pc == Selecting || pc == Quiet || pc == Holding || pc == Pausing || (!done && (pc == GotTick || pc == TickDue || pc == Ticked))
  }

  predicate NobodyTakes(s: Sys) {
    forall k | 0 <= k < |s.runners| :: !MayTake(s.runners[k], s.done)
  }

  ghost predicate Held(s: Sys) {
    s.sim == Complete || (s.sim == Running && Active(s.runners) == 1 && (s.stopTok ==> NobodyTakes(s)))
  }

  lemma HeldStays(s: Sys, t: Sys, k: nat)
    requires Held(s) && RunnerStep(s, t, k)
    ensures Held(t)
  {
    hide Active, Due, NobodyTakes;
    CountWithout(s.runners, k);
    if |t.runners| == |s.runners| {
      CountUpdate(s.runners, k, t.runners[k]);
    }
    if s.stopTok && s.sim == Running {
      assert t.stopTok ==> NobodyTakes(t) by { NobodyTakesStays(s, t, k); }
      assert !MayTake(s.runners[k], s.done) by { NoTaker(s, k); }
    }
  }

  lemma NoTaker(s: Sys, k: nat)
    requires NobodyTakes(s) && k < |s.runners|
    ensures !MayTake(s.runners[k], s.done)
  {
  }

  lemma NobodyTakesStays(s: Sys, t: Sys, k: nat)
    requires NobodyTakes(s) && RunnerStep(s, t, k) && s.sim == Running
    ensures NobodyTakes(t)
  {
    forall j | 0 <= j < |t.runners|
      ensures !MayTake(t.runners[j], t.done)
    {
      if |t.runners| < |s.runners| {
        assert t.runners[j] == s.runners[if j < k then j else j + 1];
      } else if j != k {
        assert t.runners[j] == s.runners[j];
      } else {
        assert !MayTake(s.runners[k], s.done);
      }
    }
  }

  lemma {:induction false} HeldThroughout(g: seq<Sys>, i: nat)
    requires RunnerPath(g) && Held(g[0]) && i < |g|
    ensures Held(g[i])
  {
    hide Held, RunnerStep;
    if i > 0 {
      HeldThroughout(g, i - 1);
      assert GoroutineStep(g[i - 1], g[i]);
      var k: nat :| RunnerStep(g[i - 1], g[i], k);
      HeldStays(g[i - 1], g[i], k);
    }
  }

  function StepsToSelect(pc: Pc): nat {
    match pc
    case GotTick => 4
    case TickDue => 3
    case Ticked => 2
    case Pausing => 2
    case _ => 1
  }

  /** The next step of goroutine `k` on its way to the token. */
  function TowardsToken(s: Sys, k: nat): Sys
    requires k < |s.runners|
  {
    match s.runners[k]
    case GotTick => s.(runners := s.runners[k := TickDue])
    case TickDue => s.(late := s.late + 1, runners := s.runners[k := Ticked])
    case Ticked => s.(runners := s.runners[k := Selecting])
    case Pausing => s.(pauseTok := true, runners := s.runners[k := Quiet])
    case _ => s.(stopTok := false, runners := Without(s.runners, k))
  }

  /** The only goroutine takes the stop token, and nobody is left. */
  lemma {:induction false} TakesToken(s: Sys, k: nat) returns (g: seq<Sys>)
    requires s.sim == Running && s.stopTok && Active(s.runners) == 1 && k < |s.runners| && MayTake(s.runners[k], s.done)
    ensures RunnerPath(g) && g[0] == s && g[|g| - 1].sim == Running && Active(g[|g| - 1].runners) == 0
    decreases StepsToSelect(s.runners[k])
  {
    hide Active, Due;
    var t := TowardsToken(s, k);
    assert RunnerStep(s, t, k);
    CountWithout(s.runners, k);
    if |t.runners| < |s.runners| {
      g := [s, t];
    } else {
      CountUpdate(s.runners, k, t.runners[k]);
      var g' := TakesToken(t, k);
      g := RunnerBefore(s, g');
    }
  }

  lemma RunnerBefore(s: Sys, g: seq<Sys>) returns (r: seq<Sys>)
    requires RunnerPath(g) && GoroutineStep(s, g[0])
    ensures RunnerPath(r) && r[0] == s && r[|r| - 1] == g[|g| - 1]
  {
    hide GoroutineStep;
    r := [s] + g;
    forall i | 0 < i < |r|
      ensures GoroutineStep(r[i - 1], r[i])
    {
      assert i > 1 ==> r[i - 1] == g[i - 2] && r[i] == g[i - 1];
    }
  }

  /** A Running simulator keeps a goroutine if and only if it has one and no stop token waits for it. */
  lemma KeepsRunningIff(s: Sys)
    requires Active(s.runners) <= 1 && s.sim == Running
    ensures KeepsRunning(s) <==> Active(s.runners) == 1 && (s.stopTok ==> NobodyTakes(s))
  {
    hide Active, GoroutineStep, NobodyTakes;
    if Held(s) {
      forall g: seq<Sys> | RunnerPath(g) && g[0] == s
        ensures g[|g| - 1].sim == Running ==> Active(g[|g| - 1].runners) >= 1
      {
        HeldThroughout(g, |g| - 1);
      }
    } else if Active(s.runners) == 0 {
      var g := [s];
      assert RunnerPath(g) && g[0] == s;
    } else {
      var k := Taker(s);
      var g := TakesToken(s, k);
      assert RunnerPath(g) && g[0] == s;
    }
  }

  lemma Taker(s: Sys) returns (k: nat)
    requires !NobodyTakes(s)
    ensures k < |s.runners| && MayTake(s.runners[k], s.done)
  {
    k :| k < |s.runners| && MayTake(s.runners[k], s.done);
  }

  /** A `Start` that launches a goroutine where it is allowed keeps the simulator running if and only if no stop token is
      left in the channel. */
  lemma StartKeepsRunningIff(h: seq<Sys>, i: nat)
    requires Guarded(h) && i < |h| && h[i].ctl == Free && h[i].sim != Running && StartAllowed(h[i])
    ensures KeepsRunning(StartCall(h[i])) <==> !h[i].stopTok
  {
    hide Active, KeepsRunning, NobodyTakes;
    var s := h[i];
    var t := StartCall(s);
    CountAppend(s.runners, Selecting);
    KeepsRunningIff(t);
    assert !NobodyTakes(t) by { SelectingTakes(t, |s.runners|); }
  }

  lemma SelectingTakes(s: Sys, k: nat)
    requires k < |s.runners| && s.runners[k] == Selecting
    ensures !NobodyTakes(s)
  {
    assert MayTake(s.runners[k], s.done);
  }

  /** A `Resume` of a paused simulator keeps it running if and only if there is a goroutine and no stop token for it. */
  lemma ResumeKeepsRunningIff(h: seq<Sys>, i: nat)
    requires Guarded(h) && i < |h| && h[i].ctl == Free && h[i].sim == Paused
    ensures KeepsRunning(ResumeCall(h[i])) <==> Active(h[i].runners) == 1 && (h[i].stopTok ==> NobodyTakes(h[i]))
  {
    hide Active, KeepsRunning, NobodyTakes;
    GuardedSafe(h, i);
    var t := ResumeCall(h[i]);
    KeepsRunningIff(t);
    assert NobodyTakes(t) <==> NobodyTakes(h[i]) by { SameTakers(h[i], t); }
  }

  lemma SameTakers(s: Sys, t: Sys)
    requires t.runners == s.runners && t.done == s.done
    ensures NobodyTakes(t) <==> NobodyTakes(s)
  {
  }

  /** A history in which no launching `Start` and no `Resume` finds a stop token, and every `Resume` finds a goroutine. */
  ghost predicate Careful(h: seq<Sys>) {
    && Guarded(h)
    && forall i | 0 < i < |h| && h[i - 1].ctl == Free && h[i - 1].sim != Running && h[i].sim == Running ::
         !h[i - 1].stopTok && (h[i] == ResumeCall(h[i - 1]) ==> Active(h[i - 1].runners) == 1)
  }

  /** Then Running always means that exactly one goroutine runs and that nothing tells it to stop. */
  lemma {:induction false} RunningHasRunner(h: seq<Sys>, i: nat)
    requires Careful(h) && i < |h|
    ensures h[i].sim == Running ==> Active(h[i].runners) == 1 && !h[i].stopTok
  {
    hide Active, Due, NextStep, Safe, Path;
    if i > 0 {
      RunningHasRunner(h, i - 1);
      GuardedSafe(h, i - 1);
      assert NextStep(h[i - 1], h[i]) by { GuardedSteps(h, i); }
      RunningStays(h[i - 1], h[i]);
    } else {
      assert Start0(h[0]);
    }
  }

  lemma RunningStays(s: Sys, t: Sys)
    requires Safe(s) && NextStep(s, t) && (s.sim == Running ==> Active(s.runners) == 1 && !s.stopTok)
    requires s.ctl == Free && t == StartCall(s) ==> StartAllowed(s)
    requires s.ctl == Free && s.sim != Running && t.sim == Running ==>
               !s.stopTok && (t == ResumeCall(s) ==> Active(s.runners) == 1)
    ensures t.sim == Running ==> Active(t.runners) == 1 && !t.stopTok
  {
    hide Active, Due, RunnerStep;
    if ControllerStep(s, t) {
      CountAppend(s.runners, Selecting);
    } else {
      var k: nat :| RunnerStep(s, t, k);
      GoroutineKeepsRunner(s, t, k);
    }
  }

  lemma GoroutineKeepsRunner(s: Sys, t: Sys, k: nat)
    requires RunnerStep(s, t, k) && (s.sim == Running ==> Active(s.runners) == 1 && !s.stopTok)
    ensures t.sim == Running ==> Active(t.runners) == 1 && !t.stopTok
  {
    hide Active, Due;
    CountWithout(s.runners, k);
    if |t.runners| == |s.runners| {
      CountUpdate(s.runners, k, t.runners[k]);
    }
  }

  /** A `Step` of an idle simulator has run. */
  lemma SteppedHistory() returns (h: seq<Sys>)
    ensures Guarded(h) && |h| == 4 && h[3] == Sys(Paused, false, false, [], Free, 0, false)
  {
    var a := Sys(Idle, false, false, [], Free, 0, false);
    var b := StepCall(a);
    var c := b.(ctl := StepCheck);
    var d := c.(ctl := Free);
    assert ControllerStep(a, b) && ControllerStep(b, c) && ControllerStep(c, d);
    h := [a, b, c, d];
  }

  /** `Resume` does not pick such a simulator up: it is Running with nobody to run it, and `Start` does nothing. */
  lemma StepThenResumeRunsNobody()
    ensures exists h: seq<Sys> ::
              && Guarded(h) && |h| == 6 && h[4] == ResumeCall(h[3]) && h[5].ctl == Free
              && h[5].sim == Running && h[5].runners == [] && StartCall(h[5]) == h[5]
  {
    hide Guarded, NextStep;
    var h := SteppedHistory();
    var x := ResumeCall(h[3]);
    var y := x.(pauseTok := true, ctl := Free);
    ControllerMore(h, x);
    ControllerNext(x, y);
    GuardedMore(h + [x], y);
    var r := h + [x] + [y];
    assert Guarded(r) && r[5] == y;
  }

  /** Stopped instead, it keeps the stop token, and the next `Start` launches a goroutine that takes it. */
  lemma StaleTokenEndsStart()
    ensures exists h: seq<Sys> ::
              && Guarded(h) && |h| == 9 && h[7] == StartCall(h[6]) && h[6].sim == Idle && h[6].runners == [] && h[6].stopTok
              && h[8].ctl == Free && h[8].sim == Running && h[8].runners == []
  {
    hide Guarded, NextStep, Active;
    var h := SteppedHistory();
    var p := StopCall(h[3], false);
    var q := p.(stopTok := true, ctl := StopWait(false, true));
    var u := q.(ctl := Free);
    var v := StartCall(u);
    var w := v.(stopTok := false, runners := []);
    ControllerMore(h, p);
    ControllerMore(h + [p], q);
    ControllerMore(h + [p] + [q], u);
    ControllerNext(u, v);
    assert StartAllowed(u) by { NobodyCounts(); }
    GuardedMore(h + [p] + [q] + [u], v);
    assert Without(v.runners, 0) == [];
    assert RunnerStep(v, w, 0);
    assert NextStep(v, w) by { RunnerNext(v, w, 0); }
    GuardedMore(h + [p] + [q] + [u] + [v], w);
    var r := h + [p] + [q] + [u] + [v] + [w];
    assert Guarded(r) && r[6] == u && r[7] == v && r[8] == w;
  }

  lemma RunnerNext(s: Sys, t: Sys, k: nat)
    requires RunnerStep(s, t, k)
    ensures NextStep(s, t)
  {
    assert GoroutineStep(s, t);
  }

  // ---------- Running means that it ticks ----------

  /** Left to themselves the goroutines can execute a time unit. */
  ghost predicate TickReachable(s: Sys) {
    exists g: seq<Sys> :: RunnerPath(g) && g[0] == s && g[|g| - 1].late > s.late
  }

  /** Some goroutine has its ticker, or one that has stopped it can come by a token that it did not put there itself. */
  predicate SomebodyTicks(s: Sys) {
    var q := s.runners;
    || Selecting in q || GotTick in q || TickDue in q || (Ticked in q && !s.done)
    || (Holding in q && (s.pauseTok || Pausing in q))
    || (Pausing in q && Quiet in q && s.pauseTok)
    || TwoPause(q)
  }

  predicate TwoPause(q: seq<Pc>) {
    exists j, k | 0 <= j < k < |q| :: q[j] == Pausing && q[k] == Pausing
  }

  /** One that needs nobody else. */
  predicate HasTicker(pc: Pc, pauseTok: bool, done: bool) {
    pc == Selecting || pc == GotTick || pc == TickDue || (pc == Holding && pauseTok) || (pc == Ticked && !done)
  }

  function StepsToTick(pc: Pc): nat {
    match pc
    case TickDue => 1
    case GotTick => 2
    case Selecting => 3
    case _ => 4
  }

  /** The next step of goroutine `k` on its way to a tick. */
  function TowardsTick(s: Sys, k: nat): Sys
    requires k < |s.runners|
  {
    match s.runners[k]
    case TickDue => s.(late := s.late + 1, runners := s.runners[k := Ticked])
    case GotTick => s.(runners := s.runners[k := TickDue])
    case Selecting => s.(runners := s.runners[k := GotTick])
    case Holding => s.(pauseTok := false, runners := s.runners[k := Selecting])
    case _ => s.(runners := s.runners[k := Selecting])
  }

  lemma TicksNext(s: Sys, t: Sys, k: nat)
    requires RunnerStep(s, t, k) && t.late >= s.late && TickReachable(t)
    ensures TickReachable(s)
  {
    hide RunnerStep;
    var g: seq<Sys> :| RunnerPath(g) && g[0] == t && g[|g| - 1].late > t.late;
    assert GoroutineStep(s, t);
    var r := RunnerBefore(s, g);
  }

  lemma TickNow(s: Sys, t: Sys)
    requires GoroutineStep(s, t) && t.late > s.late
    ensures TickReachable(s)
  {
    hide GoroutineStep;
    var g := [s, t];
    assert RunnerPath(g) && g[|g| - 1].late > s.late;
  }

  lemma {:induction false} TicksAlone(s: Sys, k: nat)
    requires s.sim == Running && k < |s.runners| && HasTicker(s.runners[k], s.pauseTok, s.done)
    ensures TickReachable(s)
    decreases StepsToTick(s.runners[k])
  {
    hide TickReachable;
    var t := TowardsTick(s, k);
    assert RunnerStep(s, t, k);
    if s.runners[k] == TickDue {
      TickNow(s, t);
    } else {
      TicksAlone(t, k);
      TicksNext(s, t, k);
    }
  }

  /** A parked goroutine takes the token another one offers. */
  lemma TicksWithOffer(s: Sys, j: nat, k: nat)
    requires s.sim == Running && j < |s.runners| && k < |s.runners| && s.runners[j] == Holding && s.runners[k] == Pausing
    ensures TickReachable(s)
  {
    hide TickReachable;
    var t := s.(pauseTok := true, runners := s.runners[k := Quiet]);
    assert RunnerStep(s, t, k);
    TicksAlone(t, j);
    TicksNext(s, t, k);
  }

  lemma TicksWithBoth(s: Sys, j: nat, k: nat)
    requires s.sim == Running && j < |s.runners| && k < |s.runners| && s.runners[j] == Quiet && s.runners[k] == Pausing && s.pauseTok
    ensures TickReachable(s)
  {
    hide TickReachable;
    var t := s.(pauseTok := false, runners := s.runners[j := Holding]);
    assert RunnerStep(s, t, j);
    TicksWithOffer(t, j, k);
    TicksNext(s, t, j);
  }

  lemma TicksWithTwo(s: Sys, j: nat, k: nat)
    requires s.sim == Running && j < k < |s.runners| && s.runners[j] == Pausing && s.runners[k] == Pausing
    ensures TickReachable(s)
  {
    hide TickReachable;
    var t := s.(pauseTok := true, runners := s.runners[j := Quiet]);
    assert RunnerStep(s, t, j);
    TicksWithBoth(t, j, k);
    TicksNext(s, t, j);
  }

  lemma SomebodyCan(s: Sys)
    requires s.sim == Running && SomebodyTicks(s)
    ensures TickReachable(s)
  {
    hide TickReachable;
    if k: nat :| k < |s.runners| && HasTicker(s.runners[k], s.pauseTok, s.done) {
      TicksAlone(s, k);
    } else if TwoPause(s.runners) {
      var j: nat, k: nat :| j < k < |s.runners| && s.runners[j] == Pausing && s.runners[k] == Pausing;
      TicksWithTwo(s, j, k);
    } else {
      var k: nat :| k < |s.runners| && s.runners[k] == Pausing;
      if Holding in s.runners {
        var j: nat :| j < |s.runners| && s.runners[j] == Holding;
        TicksWithOffer(s, j, k);
      } else {
        var j: nat :| j < |s.runners| && s.runners[j] == Quiet;
        TicksWithBoth(s, j, k);
      }
    }
  }

  /** Where a goroutine of `t` was before. */
  lemma WasAt(s: Sys, t: Sys, k: nat, j: nat) returns (i: nat)
    requires RunnerStep(s, t, k) && j < |t.runners|
    ensures i < |s.runners| && (|t.runners| < |s.runners| ==> i == if j < k then j else j + 1)
    ensures |t.runners| < |s.runners| || j != k ==> s.runners[i] == t.runners[j]
    ensures |t.runners| >= |s.runners| ==> i == j
  {
    i := if |t.runners| < |s.runners| && j >= k then j + 1 else j;
  }

  lemma NewOrOld(s: Sys, t: Sys, k: nat)
    requires RunnerStep(s, t, k)
    ensures |t.runners| < |s.runners| ==> forall pc | pc in t.runners :: pc in s.runners
    ensures |t.runners| >= |s.runners| ==> k < |t.runners| && forall pc | pc in t.runners :: pc in s.runners || pc == t.runners[k]
  {
    forall pc | pc in t.runners
      ensures pc in s.runners || (|t.runners| >= |s.runners| && pc == t.runners[k])
    {
      var j: nat :| j < |t.runners| && t.runners[j] == pc;
      var i := WasAt(s, t, k, j);
    }
  }

  /** A step makes nobody offer a token who has not just seen a tick, and leaves nobody who offered one offering. */
  lemma OffersStay(s: Sys, t: Sys, k: nat)
    requires RunnerStep(s, t, k) && !TwoPause(s.runners) && GotTick !in s.runners
    ensures !TwoPause(t.runners)
    ensures s.runners[k] == Pausing ==> Pausing !in t.runners
  {
    assert s.runners[k] in s.runners;
    forall a: nat, b: nat | a < b < |t.runners|
      ensures !(t.runners[a] == Pausing && t.runners[b] == Pausing)
    {
      var i := WasAt(s, t, k, a);
      var j := WasAt(s, t, k, b);
      assert i < j;
    }
  }

  lemma NobodyTicksStays(s: Sys, t: Sys, k: nat)
    requires !SomebodyTicks(s) && RunnerStep(s, t, k)
    ensures !SomebodyTicks(t) && t.late == s.late
  {
    hide TwoPause;
    NewOrOld(s, t, k);
    OffersStay(s, t, k);
    assert s.runners[k] in s.runners;
  }

  lemma {:induction false} NobodyTicksThroughout(g: seq<Sys>, i: nat)
    requires RunnerPath(g) && !SomebodyTicks(g[0]) && i < |g|
    ensures !SomebodyTicks(g[i]) && g[i].late == g[0].late
  {
    hide SomebodyTicks, RunnerStep;
    if i > 0 {
      NobodyTicksThroughout(g, i - 1);
      assert GoroutineStep(g[i - 1], g[i]);
      var k: nat :| RunnerStep(g[i - 1], g[i], k);
      NobodyTicksStays(g[i - 1], g[i], k);
    }
  }

  /** From a Running state a tick can be reached if and only if some goroutine has its ticker, or one that has stopped it
      can come by a token: `AloneTicksIff` is the case of a single goroutine. */
  lemma TickReachableIff(s: Sys)
    requires s.sim == Running
    ensures TickReachable(s) <==> SomebodyTicks(s)
  {
    hide GoroutineStep, SomebodyTicks;
    if SomebodyTicks(s) {
      SomebodyCan(s);
    } else {
      forall g: seq<Sys> | RunnerPath(g) && g[0] == s
        ensures g[|g| - 1].late == s.late
      {
        NobodyTicksThroughout(g, |g| - 1);
      }
    }
  }

  /** Of a single goroutine: if and only if it has its ticker or is parked with a token to wake it. */
  lemma AloneTicksIff(s: Sys, k: nat)
    requires s.sim == Running && Active(s.runners) <= 1 && k < |s.runners| && s.runners[k] != Ending
    ensures TickReachable(s) <==> HasTicker(s.runners[k], s.pauseTok, s.done)
  {
    hide Active, Due, TickReachable;
    OnlyActive(s.runners, k);
    AllOthersEnd(s.runners, k);
    TickReachableIff(s);
  }

  /** `Resume` has sent its token. */
  ghost predicate Resumed(h: seq<Sys>, i: nat) {
    0 < i < |h| && h[i - 1].ctl == ResumeSend && h[i].ctl == Free
  }

  lemma ResumedFacts(h: seq<Sys>, i: nat)
    requires Guarded(h) && Resumed(h, i)
    ensures h[i].pauseTok && Safe(h[i])
  {
    hide Safe, Guarded, Path;
    GuardedSafe(h, i);
    GuardedSteps(h, i);
  }

  /** After a `Resume` the goroutine can tick again if and only if it has not stopped its ticker or has parked already,
      and is not on its way out. One that has stopped the ticker and not taken its own token yet is lost. */
  lemma ResumeCanTickIff(h: seq<Sys>, i: nat, k: nat)
    requires Guarded(h) && Resumed(h, i) && h[i].sim == Running
    requires k < |h[i].runners| && h[i].runners[k] != Ending
    ensures var pc := h[i].runners[k];
            TickReachable(h[i]) <==>
              pc == Holding || pc == Selecting || pc == GotTick || pc == TickDue || (pc == Ticked && !h[i].done)
  {
    hide TickReachable, Active, Due, Guarded;
    ResumedFacts(h, i);
    AloneTicksIff(h[i], k);
  }

  /** However the goroutines go on, until one of them ticks it can still come to that. */
  ghost predicate SurelyTicks(s: Sys) {
    forall g: seq<Sys> | RunnerPath(g) && g[0] == s && g[|g| - 1].late == s.late :: TickReachable(g[|g| - 1])
  }

  /** A goroutine that has left the select, or that is parked and about to find the only token. */
  predicate OnItsWay(s: Sys, k: nat)
    requires k < |s.runners|
  {
    match s.runners[k]
    case GotTick => true
    case TickDue => true
    case Selecting => !s.pauseTok && !s.stopTok
    case Holding => s.pauseTok && !s.stopTok
    case _ => false
  }

  ghost predicate Sure(s: Sys) {
    s.sim == Running && Active(s.runners) == 1 && exists k: nat :: k < |s.runners| && OnItsWay(s, k)
  }

  lemma SureStays(s: Sys, t: Sys, k: nat)
    requires Sure(s) && RunnerStep(s, t, k)
    ensures t.late > s.late || (t.late == s.late && Sure(t))
  {
    hide Active, Due;
    var j: nat :| j < |s.runners| && OnItsWay(s, j);
    OnlyActive(s.runners, j);
    CountWithout(s.runners, k);
    if |t.runners| == |s.runners| {
      CountUpdate(s.runners, k, t.runners[k]);
    }
    if k == j {
      assert |t.runners| == |s.runners|;
      assert t.late == s.late ==> OnItsWay(t, k);
    } else {
      OthersEnd(s.runners, k, j);
      var j0 := if j < k then j else j - 1;
      assert t.runners[j0] == s.runners[j];
      assert OnItsWay(t, j0);
    }
  }

  lemma {:induction false} SureThroughout(g: seq<Sys>, i: nat)
    requires RunnerPath(g) && Sure(g[0]) && i < |g|
    ensures g[i].late > g[0].late || (g[i].late == g[0].late && Sure(g[i]))
  {
    hide Sure, RunnerStep;
    if i > 0 {
      SureThroughout(g, i - 1);
      assert GoroutineStep(g[i - 1], g[i]);
      var k: nat :| RunnerStep(g[i - 1], g[i], k);
      LateGrows(g[i - 1], g[i], k);
      if g[i - 1].late == g[0].late {
        SureStays(g[i - 1], g[i], k);
      }
    }
  }

  lemma LateGrows(s: Sys, t: Sys, k: nat)
    requires RunnerStep(s, t, k)
    ensures t.late >= s.late
  {
  }

  lemma SureCanTick(s: Sys)
    requires Sure(s)
    ensures TickReachable(s)
  {
    hide TickReachable, Active;
    var k: nat :| k < |s.runners| && OnItsWay(s, k);
    AloneTicksIff(s, k);
  }

  /** Where a goroutine takes a token for itself: a stop token to its end, or the resume token to be parked with. */
  function TowardsParking(s: Sys, k: nat): Sys
    requires k < |s.runners|
  {
    match s.runners[k]
    case Selecting => s.(pauseTok := false, runners := s.runners[k := Holding])
    case Holding => s.(stopTok := false, runners := Without(s.runners, k))
    case _ => s.(runners := s.runners[k := Selecting])
  }

  /** The only goroutine is parked with no token left, or gone, and has not ticked. */
  lemma {:induction false} MissesWakeUp(s: Sys, k: nat) returns (g: seq<Sys>)
    requires s.sim == Running && s.pauseTok && Active(s.runners) == 1 && k < |s.runners|
    requires s.runners[k] == Selecting || (s.runners[k] == Ticked && !s.done)
             || (s.runners[k] == Holding && s.stopTok)
    ensures RunnerPath(g) && g[0] == s
    ensures var t := g[|g| - 1]; t.sim == Running && t.late == s.late && !SomebodyTicks(t)
    decreases if s.runners[k] == Selecting || s.runners[k] == Holding then 0 else 1
  {
    hide Active, Due, SomebodyTicks;
    var t := TowardsParking(s, k);
    assert RunnerStep(s, t, k);
    if s.runners[k] == Selecting || s.runners[k] == Holding {
      AllOthersEnd(s.runners, k);
      assert !SomebodyTicks(t) by { NobodyLeft(s, t, k); }
      g := [s, t];
    } else {
      CountUpdate(s.runners, k, Selecting);
      var g' := MissesWakeUp(t, k);
      g := RunnerBefore(s, g');
    }
  }

  lemma AllOthersEnd(q: seq<Pc>, k: nat)
    requires Active(q) == 1 && k < |q| && q[k] != Ending
    ensures forall j | 0 <= j < |q| && j != k :: q[j] == Ending
  {
    hide Active;
    forall j | 0 <= j < |q| && j != k
      ensures q[j] == Ending
    {
      OthersEnd(q, j, k);
    }
  }

  lemma NobodyLeft(s: Sys, t: Sys, k: nat)
    requires k < |s.runners| && t == TowardsParking(s, k) && (s.runners[k] == Selecting || s.runners[k] == Holding)
    requires forall j | 0 <= j < |s.runners| && j != k :: s.runners[j] == Ending
    ensures !SomebodyTicks(t)
  {
    forall j | 0 <= j < |t.runners|
      ensures t.runners[j] == Ending || (t.runners[j] == Holding && !t.pauseTok)
    {
    }
  }

  /** The wake-up is sure after a `Resume` if and only if the goroutine is parked and no stop token waits for it, or has
      left the select already. One that comes back to the select can take the token itself and be parked with it. */
  lemma ResumeSurelyTicksIff(h: seq<Sys>, i: nat, k: nat)
    requires Guarded(h) && Resumed(h, i) && h[i].sim == Running
    requires k < |h[i].runners| && h[i].runners[k] != Ending
    ensures var pc := h[i].runners[k];
            SurelyTicks(h[i]) <==> (pc == Holding && !h[i].stopTok) || pc == GotTick || pc == TickDue
  {
    hide TickReachable, Active, Due, GoroutineStep, Guarded;
    var s := h[i];
    ResumedFacts(h, i);
    assert Active(s.runners) <= 1;
    OnlyActive(s.runners, k);
    var pc := s.runners[k];
    if (pc == Holding && !s.stopTok) || pc == GotTick || pc == TickDue {
      assert OnItsWay(s, k);
      SureIsSure(s);
    } else if !HasTicker(pc, s.pauseTok, s.done) {
      var g := [s];
      AloneTicksIff(s, k);
      assert RunnerPath(g) && !TickReachable(g[|g| - 1]);
    } else {
      var g := MissesWakeUp(s, k);
      TickReachableIff(g[|g| - 1]);
      assert !TickReachable(g[|g| - 1]);
    }
  }

  lemma SureIsSure(s: Sys)
    requires Sure(s)
    ensures SurelyTicks(s)
  {
    hide Sure, TickReachable, GoroutineStep;
    forall g: seq<Sys> | RunnerPath(g) && g[0] == s && g[|g| - 1].late == s.late
      ensures TickReachable(g[|g| - 1])
    {
      SureThroughout(g, |g| - 1);
      SureCanTick(g[|g| - 1]);
    }
  }

  /** The wake-up can be lost: start, pause, the goroutine offers its token, resume finds the channel full, and no
      tick can follow. When the goroutine parks on its own token it is Running, not done, and no goroutine can move. */
  lemma WakeUpLost()
    ensures exists h: seq<Sys> ::
              && Guarded(h) && |h| == 9 && Resumed(h, 7) && h[8].ctl == Free && h[8].sim == Running && h[8].runners == [Holding]
              && !h[7].done && !h[8].done && !TickReachable(h[7]) && forall t: Sys :: !GoroutineStep(h[8], t)
  {
    hide Guarded, NextStep, TickReachable, GoroutineStep;
    var h := OvertakenHistory();
    var z := h[8];
    TickReachableIff(h[7]);
    forall t: Sys
      ensures !GoroutineStep(z, t)
    {
      ParkedStays(z, t);
    }
  }

  /** A goroutine answers a pause and finds its own token back after a `Resume` that had no room to send another. */
  lemma OvertakenHistory() returns (h: seq<Sys>)
    ensures Guarded(h) && |h| == 9 && Resumed(h, 7) && h[7] == Sys(Running, true, false, [Quiet], Free, 0, false)
            && h[8] == Sys(Running, false, false, [Holding], Free, 0, false)
  {
    hide Guarded, NextStep;
    h := OfferingHistory();
    var f := h[5];
    var x := ResumeCall(f);
    var y := x.(pauseTok := true, ctl := Free);
    var z := y.(pauseTok := false, runners := [Holding]);
    assert y.runners[0 := Holding] == [Holding];
    ControllerMore(h, x);
    ControllerNext(x, y);
    GuardedMore(h + [x], y);
    RunnerMore(h + [x] + [y], z);
    h := h + [x] + [y] + [z];
  }

  lemma OfferingHistory() returns (h: seq<Sys>)
    ensures Guarded(h) && |h| == 6 && h[5] == Sys(Paused, true, false, [Quiet], Free, 0, false)
  {
    hide Guarded, NextStep;
    var a := Sys(Idle, false, false, [], Free, 0, false);
    var c := PauseCall(StartCall(a));
    h := [a, StartCall(a), c];
    assert Guarded(h) by { StartedAndPaused(); }
    var d := c.(runners := [GotTick]);
    var e := c.(runners := [Pausing]);
    var f := c.(pauseTok := true, runners := [Quiet]);
    assert c.runners[0 := GotTick] == [GotTick] && d.runners[0 := Pausing] == [Pausing] && e.runners[0 := Quiet] == [Quiet];
    RunnerMore(h, d);
    RunnerMore(h + [d], e);
    RunnerMore(h + [d] + [e], f);
    h := h + [d] + [e] + [f];
  }

  lemma ParkedStays(s: Sys, t: Sys)
    requires s.runners == [Holding] && !s.stopTok && !s.pauseTok
    ensures !GoroutineStep(s, t)
  {
  }
}
