/**
 Unattended execution: every gate between a reviewed action and the cluster, with any number
 of actions in flight at once and the kill-switch thrown at any moment.

 Each access to shared state is one step: the two kill-switch reads, the slot reservation,
 the execution and the audit record.
 */
module AutoGate {
  import opened Common
  import opened Policies
  import opened RateLimiting
  import Audit

  datatype Gate = Gate(
    policySet: bool, policy: Policy, minConfidence: real, dryRun: bool, maxPerWindow: int, window: int)

  datatype Phase =
    | Ready
    | Gated
    | Rechecked
    | Cleared
    | Reserved
    | Decided(decision: Audit.Decision)
    | Finished(decision: Audit.Decision)

  /** One action being processed; `checkedAt` is the step of its last kill-switch read. */
  datatype Thread = Thread(act: Action, confidence: real, phase: Phase, checkedAt: nat)

  datatype Entry = Entry(tid: nat, decision: Audit.Decision)

  /** `history` holds the kill-switch as it stood before each step. */
  datatype World = World(
    threads: seq<Thread>, paused: bool, limiter: Limiter,
    granted: seq<nat>, ran: seq<nat>, audit: seq<Entry>, history: seq<bool>)

  datatype Step =
    | Pause
    | Resume
    | First(t: nat)
    | Recheck(t: nat)
    | Validate(t: nat)
    | Slot(t: nat, call: Call)
    | Execute(t: nat, ok: bool)
    | Write(t: nat)

  /** The local gates, in the order the switch evaluates them. */
  function FirstVerdict(g: Gate, paused: bool, th: Thread): Phase {
    if paused then Decided(Audit.Skipped)
    else if th.confidence < g.minConfidence then Decided(Audit.Skipped)
    else if !th.act.reversible then Decided(Audit.Skipped)
    else if th.act.op == "" then Decided(Audit.Skipped)
    else if g.dryRun then Decided(Audit.DryRun)
    else Gated
  }

  predicate Denied(g: Gate, a: Action) { g.policySet && Violation(g.policy, DeriveSafety(g.policy.ops, a)).Some? }

  predicate Enabled(g: Gate, w: World, s: Step) {
    match s
    case Pause => true
    case Resume => true
    case First(t) => t < |w.threads| && w.threads[t].phase == Ready
    case Recheck(t) => t < |w.threads| && w.threads[t].phase == Gated
    case Validate(t) => t < |w.threads| && w.threads[t].phase == Rechecked
    case Slot(t, call) => t < |w.threads| && w.threads[t].phase == Cleared && InOrder(w.limiter, call)
    case Execute(t, ok) => t < |w.threads| && w.threads[t].phase == Reserved
    case Write(t) => t < |w.threads| && w.threads[t].phase.Decided?
  }

  predicate Granted(g: Gate, w: World, call: Call) {
    Allows(g.maxPerWindow, Later(w.limiter.recent, call.first - g.window))
  }

  /** What the step does to the action it advances. */
  function Local(g: Gate, w: World, s: Step): Thread
    requires Enabled(g, w, s) && !s.Pause? && !s.Resume?
  {
    var th := w.threads[s.t];
    match s
    case First(_) => th.(phase := FirstVerdict(g, w.paused, th), checkedAt := |w.history|)
    case Recheck(_) => th.(phase := if w.paused then Decided(Audit.Skipped) else Rechecked, checkedAt := |w.history|)
    case Validate(_) =>
      th.(act := DeriveSafety(g.policy.ops, th.act),
          phase := if Denied(g, th.act) then Decided(Audit.Denied) else Cleared)
    case Slot(_, call) => th.(phase := if Granted(g, w, call) then Reserved else Decided(Audit.Skipped))
    case Execute(_, ok) => th.(phase := Decided(if ok then Audit.Executed else Audit.Failed))
    case Write(_) => th.(phase := Finished(th.phase.decision))
  }

  function Next(g: Gate, w: World, s: Step): World
    requires Enabled(g, w, s)
  {
    World(
      if s.Pause? || s.Resume? then w.threads else w.threads[s.t := Local(g, w, s)],
      s.Pause? || (w.paused && !s.Resume?),
      if s.Slot? then Reserve(g.maxPerWindow, g.window, w.limiter, s.call) else w.limiter,
      if s.Slot? && Granted(g, w, s.call) then w.granted + [s.t] else w.granted,
      if s.Execute? then w.ran + [s.t] else w.ran,
      if s.Write? then w.audit + [Entry(s.t, w.threads[s.t].phase.decision)] else w.audit,
      w.history + [w.paused])
  }

  // ---- Invariant -----------------------------------------------------------------------

  predicate Attempted(p: Phase) { (p.Decided? || p.Finished?) && p.decision in {Audit.Executed, Audit.Failed} }

  function Grants(p: Phase): nat { if p == Reserved || Attempted(p) then 1 else 0 }

  function Runs(p: Phase): nat { if Attempted(p) then 1 else 0 }

  predicate PastFirst(g: Gate, th: Thread) {
    th.confidence >= g.minConfidence && th.act.op != "" && th.act.reversible && !g.dryRun
  }

  /** What the recheck and the envelope established about an action on its way to the cluster. */
  predicate MayRun(g: Gate, history: seq<bool>, th: Thread) {
    && PastFirst(g, th)
    && th.checkedAt < |history| && !history[th.checkedAt]
    && (g.policySet ==> Executable(g.policy, th.act))
  }

  predicate Reviewed(g: Gate, a: Action) { DeriveSafety(g.policy.ops, a) == a }

  predicate ThreadOk(g: Gate, history: seq<bool>, th: Thread) {
    && Reviewed(g, th.act)
    && (th.phase == Gated ==> PastFirst(g, th))
    && (th.phase == Rechecked ==> PastFirst(g, th) && th.checkedAt < |history| && !history[th.checkedAt])
    && (th.phase in {Cleared, Reserved} || Attempted(th.phase) ==> MayRun(g, history, th))
  }

  function PhaseOf(w: World, t: nat): Phase { if t < |w.threads| then w.threads[t].phase else Ready }

  ghost predicate CountsAt(w: World, t: nat) {
    && multiset(w.granted)[t] == Grants(PhaseOf(w, t))
    && multiset(w.ran)[t] == Runs(PhaseOf(w, t))
  }

  ghost predicate Counts(w: World) {
    |w.granted| == |w.limiter.grants| && forall t: nat :: CountsAt(w, t)
  }

  ghost predicate Audited(w: World) {
    && (forall i :: 0 <= i < |w.audit| ==>
          w.audit[i].tid < |w.threads| && w.threads[w.audit[i].tid].phase == Finished(w.audit[i].decision))
    && (forall i, j :: 0 <= i < j < |w.audit| ==> w.audit[i].tid != w.audit[j].tid)
    && (forall t :: 0 <= t < |w.threads| && w.threads[t].phase.Finished? ==>
          exists i :: 0 <= i < |w.audit| && w.audit[i].tid == t)
  }

  ghost predicate GateInv(g: Gate, w: World) {
    && (forall t :: 0 <= t < |w.threads| ==> ThreadOk(g, w.history, w.threads[t]))
    && Counts(w) && Audited(w) && Inv(g.maxPerWindow, g.window, w.limiter)
  }

  lemma ThreadStep(g: Gate, w: World, s: Step, t: nat)
    requires Enabled(g, w, s) && t < |w.threads| && ThreadOk(g, w.history, w.threads[t])
    ensures ThreadOk(g, Next(g, w, s).history, Next(g, w, s).threads[t])
  {
    var n := Next(g, w, s);
    assert forall i :: 0 <= i < |w.history| ==> n.history[i] == w.history[i];
    if s.Validate? {
      GateIsServerAuthoritative(g.policy, w.threads[s.t].act, w.threads[s.t].act);
    }
  }

  lemma PhaseStep(g: Gate, w: World, s: Step, t: nat)
    requires Enabled(g, w, s)
    ensures var p, n := PhaseOf(w, t), PhaseOf(Next(g, w, s), t);
            && Grants(n) == Grants(p) + (if s.Slot? && s.t == t && Granted(g, w, s.call) then 1 else 0)
            && Runs(n) == Runs(p) + (if s.Execute? && s.t == t then 1 else 0)
  {
  }

  lemma CountsStep(g: Gate, w: World, s: Step, t: nat)
    requires Enabled(g, w, s) && CountsAt(w, t)
    ensures CountsAt(Next(g, w, s), t)
  {
    PhaseStep(g, w, s, t);
    if s.Slot? {
      AppendCount(w.granted, s.t, t);
    } else if s.Execute? {
      AppendCount(w.ran, s.t, t);
    }
  }

  lemma AppendCount(ts: seq<nat>, u: nat, t: nat)
    ensures multiset(ts + [u])[t] == multiset(ts)[t] + if u == t then 1 else 0
  {
  }

  lemma UnauditedStep(g: Gate, w: World, s: Step)
    requires Enabled(g, w, s) && Audited(w) && !s.Write?
    ensures Audited(Next(g, w, s))
  {
    var n := Next(g, w, s);
    assert n.audit == w.audit && |n.threads| == |w.threads|;
    assert forall t :: 0 <= t < |w.threads| ==>
      (n.threads[t].phase == w.threads[t].phase || (!n.threads[t].phase.Finished? && !w.threads[t].phase.Finished?));
  }

  lemma WriteStep(g: Gate, w: World, t: nat)
    requires Enabled(g, w, Write(t)) && Audited(w)
    ensures Audited(Next(g, w, Write(t)))
  {
    var n := Next(g, w, Write(t));
    forall u | 0 <= u < |n.threads| && n.threads[u].phase.Finished?
      ensures exists i :: 0 <= i < |n.audit| && n.audit[i].tid == u
    {
      if u == t {
        assert n.audit[|w.audit|].tid == t;
      } else {
        var i :| 0 <= i < |w.audit| && w.audit[i].tid == u;
        assert n.audit[i] == w.audit[i];
      }
    }
  }

  lemma StepKeeps(g: Gate, w: World, s: Step)
    requires GateInv(g, w) && Enabled(g, w, s)
    ensures GateInv(g, Next(g, w, s))
  {
    forall t | 0 <= t < |w.threads| ensures ThreadOk(g, Next(g, w, s).history, Next(g, w, s).threads[t]) {
      ThreadStep(g, w, s, t);
    }
    forall t: nat ensures CountsAt(Next(g, w, s), t) {
      CountsStep(g, w, s, t);
    }
    if s.Write? {
      WriteStep(g, w, s.t);
    } else {
      UnauditedStep(g, w, s);
    }
    if s.Slot? {
      ReserveKeeps(g.maxPerWindow, g.window, w.limiter, s.call);
    }
  }

  // ---- Every interleaving ------------------------------------------------------------------

  /** A run: the worlds it goes through and the steps between them. */
  ghost predicate IsRun(g: Gate, worlds: seq<World>, steps: seq<Step>) {
    && |worlds| == |steps| + 1
    && forall i :: 0 <= i < |steps| ==> Moves(g, worlds[i], steps[i], worlds[i + 1])
  }

  predicate Moves(g: Gate, w: World, s: Step, n: World) { Enabled(g, w, s) && Next(g, w, s) == n }

  /** Built with the kill-switch engaged, over actions that came out of Review. */
  predicate Initial(g: Gate, w: World) {
    && w.paused && w.limiter == Empty(w.limiter.clock) && w.history == []
    && w.granted == [] && w.ran == [] && w.audit == []
    && forall t :: 0 <= t < |w.threads| ==> w.threads[t].phase == Ready && Reviewed(g, w.threads[t].act)
  }

  lemma {:induction false} RunKeeps(g: Gate, worlds: seq<World>, steps: seq<Step>, n: nat)
    requires IsRun(g, worlds, steps) && Initial(g, worlds[0]) && n <= |steps|
    ensures GateInv(g, worlds[n])
  {
    if n == 0 {
      EmptyInv(g.maxPerWindow, g.window, worlds[0].limiter.clock);
      assert forall t: nat :: CountsAt(worlds[0], t);
    } else {
      RunKeeps(g, worlds, steps, n - 1);
      assert Moves(g, worlds[n - 1], steps[n - 1], worlds[n]);
      StepKeeps(g, worlds[n - 1], steps[n - 1]);
    }
  }

  predicate PastRecheck(p: Phase) { p in {Rechecked, Cleared, Reserved} || Attempted(p) }

  /** Step i is the thread's second read of the kill-switch, and no step of the thread before step n reads it
      again. */
  predicate IsLastRead(steps: seq<Step>, t: nat, i: nat, n: nat) {
    && i < n <= |steps| && steps[i] == Recheck(t)
    && forall j :: i < j < n ==> steps[j] != Recheck(t) && steps[j] != First(t)
  }

  /** `checkedAt` is the step of that read, and the read saw the switch released. */
  lemma {:induction false} ReadAtRecheck(g: Gate, worlds: seq<World>, steps: seq<Step>, n: nat, t: nat)
    requires IsRun(g, worlds, steps) && Initial(g, worlds[0]) && n <= |steps|
    ensures |worlds[n].history| == n && |worlds[n].threads| == |worlds[0].threads|
    ensures t < |worlds[n].threads| && PastRecheck(worlds[n].threads[t].phase) ==>
              var i := worlds[n].threads[t].checkedAt;
              IsLastRead(steps, t, i, n) && !worlds[i].paused
  {
    if n > 0 {
      ReadAtRecheck(g, worlds, steps, n - 1, t);
      assert Moves(g, worlds[n - 1], steps[n - 1], worlds[n]);
      if t < |worlds[n].threads| && PastRecheck(worlds[n].threads[t].phase) {
        StepKeepsRead(g, worlds[n - 1], steps[n - 1], t);
      }
    }
  }

  lemma StepKeepsRead(g: Gate, w: World, s: Step, t: nat)
    requires Enabled(g, w, s) && t < |w.threads| && PastRecheck(Next(g, w, s).threads[t].phase)
    ensures var th := Next(g, w, s).threads[t];
            || (s == Recheck(t) && th.checkedAt == |w.history| && !w.paused)
            || (s != Recheck(t) && s != First(t) && PastRecheck(w.threads[t].phase) &&
                th.checkedAt == w.threads[t].checkedAt)
  {
  }

  /** In every interleaving, with a policy set, an action that ran is a known operation the registry calls
      reversible, inside the envelope, at or above the confidence floor, and its last kill-switch read saw it
      released. */
  lemma OnlyCleanActionsRun(g: Gate, worlds: seq<World>, steps: seq<Step>, n: nat, t: nat)
    requires IsRun(g, worlds, steps) && Initial(g, worlds[0]) && n <= |steps| && g.policySet
    requires t in worlds[n].ran
    ensures t < |worlds[n].threads|
    ensures var th := worlds[n].threads[t];
            && Executable(g.policy, th.act) && g.policy.ops[th.act.op].reversible
            && th.confidence >= g.minConfidence && !g.dryRun
    ensures exists i :: 0 <= i < n && IsLastRead(steps, t, i, n) && !worlds[i].paused
  {
    RunKeeps(g, worlds, steps, n);
    assert CountsAt(worlds[n], t) && multiset(worlds[n].ran)[t] > 0;
    assert ThreadOk(g, worlds[n].history, worlds[n].threads[t]);
    ReadAtRecheck(g, worlds, steps, n, t);
    assert IsLastRead(steps, t, worlds[n].threads[t].checkedAt, n);
  }

  /** Slots granted are executions, plus the ones still on their way to the executor. */
  lemma SlotsAreExecutions(g: Gate, worlds: seq<World>, steps: seq<Step>, n: nat)
    requires IsRun(g, worlds, steps) && Initial(g, worlds[0]) && n <= |steps|
    ensures forall t: nat :: multiset(worlds[n].granted)[t] ==
              multiset(worlds[n].ran)[t] + if PhaseOf(worlds[n], t) == Reserved then 1 else 0
    ensures (forall t: nat :: PhaseOf(worlds[n], t) != Reserved) ==>
              |worlds[n].limiter.grants| == |worlds[n].ran|
  {
    RunKeeps(g, worlds, steps, n);
    forall t: nat
      ensures multiset(worlds[n].granted)[t] ==
              multiset(worlds[n].ran)[t] + if PhaseOf(worlds[n], t) == Reserved then 1 else 0
    {
      assert CountsAt(worlds[n], t);
    }
    if forall t: nat :: PhaseOf(worlds[n], t) != Reserved {
      assert multiset(worlds[n].granted) == multiset(worlds[n].ran);
      assert |multiset(worlds[n].granted)| == |worlds[n].granted|;
      assert |multiset(worlds[n].ran)| == |worlds[n].ran|;
    }
  }

  /** The first switch stops an action for one of these. */
  predicate FirstSkips(g: Gate, paused: bool, th: Thread) {
    paused || th.confidence < g.minConfidence || !th.act.reversible || th.act.op == ""
  }

  /** What each decision means: the step that takes it, and what that step saw. */
  predicate Decides(g: Gate, w: World, s: Step, t: nat, d: Audit.Decision) {
    t < |w.threads| && Enabled(g, w, s) &&
    match d
    case Executed => s == Execute(t, true)
    case Failed => s == Execute(t, false)
    case Denied => s == Validate(t) && Denied(g, w.threads[t].act)
    case DryRun => s == First(t) && !FirstSkips(g, w.paused, w.threads[t]) && g.dryRun
    case Skipped =>
      || (s == First(t) && FirstSkips(g, w.paused, w.threads[t]))
      || (s == Recheck(t) && w.paused)
      || (s.Slot? && s.t == t && !Granted(g, w, s.call))
  }

  /** One of the first n steps took the decision. */
  ghost predicate IsTaken(g: Gate, worlds: seq<World>, steps: seq<Step>, n: nat, t: nat, d: Audit.Decision)
    requires n <= |steps| <= |worlds|
  {
    exists i :: 0 <= i < n && Decides(g, worlds[i], steps[i], t, d)
  }

  predicate DecidedAs(p: Phase, d: Audit.Decision) { p == Decided(d) || p == Finished(d) }

  lemma StepDecides(g: Gate, w: World, s: Step, t: nat, d: Audit.Decision)
    requires Enabled(g, w, s) && t < |w.threads|
    ensures |Next(g, w, s).threads| == |w.threads|
    ensures DecidedAs(Next(g, w, s).threads[t].phase, d) <==> DecidedAs(w.threads[t].phase, d) || Decides(g, w, s, t, d)
  {
  }

  /** A decision stands exactly when a step of the run took it, for the reason that decision names. */
  lemma {:induction false} DecidedIff(
    g: Gate, worlds: seq<World>, steps: seq<Step>, n: nat, t: nat, d: Audit.Decision)
    requires IsRun(g, worlds, steps) && Initial(g, worlds[0]) && n <= |steps| && t < |worlds[0].threads|
    ensures |worlds[n].threads| == |worlds[0].threads|
    ensures DecidedAs(worlds[n].threads[t].phase, d) <==> IsTaken(g, worlds, steps, n, t, d)
  {
    if n > 0 {
      DecidedIff(g, worlds, steps, n - 1, t, d);
      assert Moves(g, worlds[n - 1], steps[n - 1], worlds[n]);
      StepDecides(g, worlds[n - 1], steps[n - 1], t, d);
    }
  }

  /** Each finished action has exactly one audit record. It says executed or failed as the execution went, denied
      exactly when the envelope refused, dry-run when only that stopped it, and skipped when the first switch, the
      second read or the rate limit did. */
  lemma OneTruthfulRecord(g: Gate, worlds: seq<World>, steps: seq<Step>, n: nat, t: nat)
    requires IsRun(g, worlds, steps) && Initial(g, worlds[0]) && n <= |steps|
    requires t < |worlds[n].threads| && worlds[n].threads[t].phase.Finished?
    ensures exists i :: 0 <= i < |worlds[n].audit| &&
              worlds[n].audit[i] == Entry(t, worlds[n].threads[t].phase.decision) &&
              forall j :: 0 <= j < |worlds[n].audit| && j != i ==> worlds[n].audit[j].tid != t
    ensures forall d :: worlds[n].threads[t].phase.decision == d <==> IsTaken(g, worlds, steps, n, t, d)
    ensures worlds[n].threads[t].phase.decision in {Audit.Executed, Audit.Failed} <==> t in worlds[n].ran
  {
    RunKeeps(g, worlds, steps, n);
    var i :| 0 <= i < |worlds[n].audit| && worlds[n].audit[i].tid == t;
    assert worlds[n].audit[i] == Entry(t, worlds[n].threads[t].phase.decision);
    assert CountsAt(worlds[n], t) && (t in worlds[n].ran <==> multiset(worlds[n].ran)[t] > 0);
    ReadAtRecheck(g, worlds, steps, n, t);
    forall d ensures worlds[n].threads[t].phase.decision == d <==> IsTaken(g, worlds, steps, n, t, d) {
      DecidedIff(g, worlds, steps, n, t, d);
    }
  }

  lemma PausedStep(g: Gate, w: World, s: Step, t: nat)
    requires Enabled(g, w, s) && w.paused && s != Resume && t < |w.threads| && Held(w.threads[t].phase)
    ensures Next(g, w, s).paused && |Next(g, w, s).threads| == |w.threads| && Held(Next(g, w, s).threads[t].phase)
  {
  }

  /** Not past the second read, or stopped by it. */
  predicate Held(p: Phase) { p in {Ready, Gated, Decided(Audit.Skipped), Finished(Audit.Skipped)} }

  /** The kill-switch: while it stays engaged, nothing that had not yet passed its second read runs. */
  lemma {:induction false} PauseStops(g: Gate, worlds: seq<World>, steps: seq<Step>, from: nat, n: nat, t: nat)
    requires IsRun(g, worlds, steps) && Initial(g, worlds[0]) && from <= n <= |steps|
    requires worlds[from].paused && forall i :: from <= i < n ==> steps[i] != Resume
    requires t < |worlds[from].threads| && worlds[from].threads[t].phase in {Ready, Gated}
    ensures worlds[n].paused && t !in worlds[n].ran
    ensures t < |worlds[n].threads| && Held(worlds[n].threads[t].phase)
    decreases n - from
  {
    if n > from {
      PauseStops(g, worlds, steps, from, n - 1, t);
      assert Moves(g, worlds[n - 1], steps[n - 1], worlds[n]);
      PausedStep(g, worlds[n - 1], steps[n - 1], t);
    }
    RunKeeps(g, worlds, steps, n);
    assert CountsAt(worlds[n], t) && (t in worlds[n].ran <==> multiset(worlds[n].ran)[t] > 0);
  }

  // ---- The program --------------------------------------------------------------------------------

  /** A run and the world it has reached. */
  ghost predicate Reaches(g: Gate, from: World, worlds: seq<World>, steps: seq<Step>, w: World) {
    IsRun(g, worlds, steps) && worlds[0] == from && worlds[|steps|] == w
  }

  lemma RunExtends(g: Gate, from: World, worlds: seq<World>, steps: seq<Step>, w: World, s: Step)
    requires Reaches(g, from, worlds, steps, w) && Enabled(g, w, s)
    ensures Reaches(g, from, worlds + [Next(g, w, s)], steps + [s], Next(g, w, s))
  {
    var ws, ss := worlds + [Next(g, w, s)], steps + [s];
    forall i | 0 <= i < |ss| ensures Moves(g, ws[i], ss[i], ws[i + 1]) {
      if i < |steps| { assert Moves(g, worlds[i], steps[i], worlds[i + 1]); }
    }
  }

  /** The executor behind the gates, with the kill-switch and the rate limiter it owns. `w` is the machine's
      world, and `worlds` and `steps` the run that led to it. */
  class Auto {
    const g: Gate
    const slots: Window
    var paused: bool
    var records: seq<Entry>
    ghost var w: World
    ghost var worlds: seq<World>
    ghost var steps: seq<Step>

    ghost predicate Valid()
      reads this, slots, slots.buf
    {
      && slots.Valid() && slots.maxPerWindow == g.maxPerWindow && slots.window == g.window
      && w.paused == paused && w.limiter == slots.l && w.audit == records
      && worlds != [] && Reaches(g, worlds[0], worlds, steps, w)
    }

    /** The run so far goes on from an earlier one. */
    ghost predicate Grew(worlds: seq<World>, steps: seq<Step>)
      reads this
    {
      worlds <= this.worlds && steps <= this.steps
    }

    constructor (g: Gate, slots: Window, ghost threads: seq<Thread>)
      requires slots.Valid() && slots.maxPerWindow == g.maxPerWindow && slots.window == g.window
      requires slots.l == Empty(slots.l.clock)
      requires forall t :: 0 <= t < |threads| ==> threads[t].phase == Ready && Reviewed(g, threads[t].act)
      ensures Valid() && paused && worlds == [w] && Initial(g, w) && w.threads == threads
      ensures this.slots == slots && this.g == g
    {
      this.g, this.slots, paused, records := g, slots, true, [];
      w := World(threads, true, slots.l, [], [], [], []);
      worlds, steps := [World(threads, true, slots.l, [], [], [], [])], [];
    }

    /** Record that the machine takes a step. */
    ghost method Take(s: Step)
      requires worlds != [] && Reaches(g, worlds[0], worlds, steps, w) && Enabled(g, w, s)
      modifies this`w, this`worlds, this`steps
      ensures w == Next(g, old(w), s) && worlds == old(worlds) + [w] && steps == old(steps) + [s]
      ensures Reaches(g, worlds[0], worlds, steps, w)
    {
      RunExtends(g, worlds[0], worlds, steps, w, s);
      w := Next(g, w, s);
      worlds, steps := worlds + [w], steps + [s];
    }

    /** Pause and Resume. */
    method SetPaused(on: bool)
      requires Valid()
      modifies this
      ensures Grew(old(worlds), old(steps))
      ensures Valid() && paused == on && w == Next(g, old(w), if on then Pause else Resume)
      ensures records == old(records)
    {
      paused := on;
      Take(if on then Pause else Resume);
    }

    /** The first switch: None when the action goes on. */
    method FirstGate(ghost t: nat, act: Action, confidence: real) returns (stop: Option<Audit.Decision>)
      requires Valid() && t < |w.threads| && Stands(w, t, act, Ready) && w.threads[t].confidence == confidence
      modifies this
      ensures Grew(old(worlds), old(steps))
      ensures Valid() && w == Next(g, old(w), First(t))
      ensures Stands(w, t, act, if stop.Some? then Decided(stop.value) else Gated) && records == old(records)
    {
      Take(First(t));
      if paused { return Some(Audit.Skipped); }
      if confidence < g.minConfidence { return Some(Audit.Skipped); }
      if !act.reversible { return Some(Audit.Skipped); }
      if act.op == "" { return Some(Audit.Skipped); }
      if g.dryRun { return Some(Audit.DryRun); }
      return None;
    }

    /** The second read of the kill-switch. */
    method SecondRead(ghost t: nat, act: Action) returns (stop: Option<Audit.Decision>)
      requires Valid() && t < |w.threads| && Stands(w, t, act, Gated)
      modifies this
      ensures Grew(old(worlds), old(steps))
      ensures Valid() && w == Next(g, old(w), Recheck(t))
      ensures Stands(w, t, act, if stop.Some? then Decided(stop.value) else Rechecked) && records == old(records)
    {
      Take(Recheck(t));
      return if paused then Some(Audit.Skipped) else None;
    }

    /** Derive the safety again and check the envelope. */
    method Revalidate(ghost t: nat, act: Action) returns (derived: Action, stop: Option<Audit.Decision>)
      requires Valid() && t < |w.threads| && Stands(w, t, act, Rechecked)
      modifies this
      ensures Grew(old(worlds), old(steps))
      ensures Valid() && w == Next(g, old(w), Validate(t))
      ensures Stands(w, t, derived, if stop.Some? then Decided(stop.value) else Cleared) && records == old(records)
    {
      Take(Validate(t));
      derived, stop := DeriveSafety(g.policy.ops, act), None;
      if g.policySet && Violation(g.policy, derived).Some? { stop := Some(Audit.Denied); }
    }

    /** Reserve a slot, last. */
    method TakeSlot(ghost t: nat, act: Action, call: Call) returns (stop: Option<Audit.Decision>)
      requires Valid() && t < |w.threads| && Stands(w, t, act, Cleared) && InOrder(slots.l, call)
      modifies this, slots, slots.buf
      ensures Grew(old(worlds), old(steps))
      ensures Valid() && w == Next(g, old(w), Slot(t, call))
      ensures Stands(w, t, act, if stop.Some? then Decided(stop.value) else Reserved) && records == old(records)
      ensures slots.buf == old(slots.buf) || fresh(slots.buf)
    {
      var ok := slots.TryReserve(call.first, call.second);
      Take(Slot(t, call));
      return if ok then None else Some(Audit.Skipped);
    }

    /** The audited executor: run the action, then record what happened. */
    method Execute(t: nat, act: Action, ok: bool)
      requires Valid() && t < |w.threads| && Stands(w, t, act, Reserved)
      modifies this
      ensures Grew(old(worlds), old(steps))
      ensures Valid() && w == Next(g, Next(g, old(w), Step.Execute(t, ok)), Write(t))
      ensures Stands(w, t, act, Finished(if ok then Audit.Executed else Audit.Failed))
      ensures records == old(records) + [Entry(t, if ok then Audit.Executed else Audit.Failed)]
    {
      Take(Step.Execute(t, ok));
      Record(t, act, if ok then Audit.Executed else Audit.Failed);
    }

    /** One action through every gate, by the program's order. Between the two reads of the kill-switch another
        goroutine may have thrown it. What the class does is a run of the machine, so every claim about runs is
        one about it. */
    method RunOne(t: nat, act: Action, confidence: real, thrown: Option<bool>, call: Call, ok: bool)
      returns (d: Audit.Decision)
      requires Valid() && Stands(w, t, act, Ready) && w.threads[t].confidence == confidence && InOrder(slots.l, call)
      modifies this, slots, slots.buf
      ensures Valid() && Grew(old(worlds), old(steps))
      ensures t < |w.threads| && w.threads[t].phase == Finished(d)
      ensures d in {Audit.Executed, Audit.Failed} ==> (d == Audit.Executed <==> ok)
      ensures records == old(records) + [Entry(t, d)]
    {
      var stop := FirstGate(t, act, confidence);
      if stop.Some? { Record(t, act, stop.value); return stop.value; }
      if thrown.Some? { SetPaused(thrown.value); }
      d := Proceed(t, act, call, ok);
    }

    /** From the second read on. */
    method Proceed(t: nat, act: Action, call: Call, ok: bool) returns (d: Audit.Decision)
      requires Valid() && Stands(w, t, act, Gated) && InOrder(slots.l, call)
      modifies this, slots, slots.buf
      ensures Valid() && Grew(old(worlds), old(steps))
      ensures t < |w.threads| && w.threads[t].phase == Finished(d)
      ensures d in {Audit.Executed, Audit.Failed} ==> (d == Audit.Executed <==> ok)
      ensures records == old(records) + [Entry(t, d)]
    {
      var stop := SecondRead(t, act);
      if stop.Some? { Record(t, act, stop.value); return stop.value; }
      var derived;
      derived, stop := Revalidate(t, act);
      if stop.Some? { Record(t, derived, stop.value); return stop.value; }
      d := Send(t, derived, call, ok);
    }

    /** The slot, then the executor. */
    method Send(t: nat, act: Action, call: Call, ok: bool) returns (d: Audit.Decision)
      requires Valid() && Stands(w, t, act, Cleared) && InOrder(slots.l, call)
      modifies this, slots, slots.buf
      ensures Valid() && Grew(old(worlds), old(steps))
      ensures t < |w.threads| && w.threads[t].phase == Finished(d)
      ensures d in {Audit.Executed, Audit.Failed} ==> (d == Audit.Executed <==> ok)
      ensures records == old(records) + [Entry(t, d)]
    {
      var stop := TakeSlot(t, act, call);
      if stop.Some? {
        d := stop.value;
        Record(t, act, d);
      } else {
        d := if ok then Audit.Executed else Audit.Failed;
        Execute(t, act, ok);
      }
    }

    method Record(t: nat, act: Action, d: Audit.Decision)
      requires Valid() && t < |w.threads| && Stands(w, t, act, Decided(d))
      modifies this
      ensures Grew(old(worlds), old(steps))
      ensures Valid() && w == Next(g, old(w), Write(t))
      ensures Stands(w, t, act, Finished(d)) && records == old(records) + [Entry(t, d)]
    {
      Take(Write(t));
      records := records + [Entry(t, d)];
    }
  }

  predicate Stands(w: World, t: nat, act: Action, phase: Phase) {
    t < |w.threads| && w.threads[t].act == act && w.threads[t].phase == phase
  }

  // ---- What Review adds ------------------------------------------------------------------------

  /** An action reaches the executor on its own claims and the policy. */
  predicate Passes(g: Gate, a: Action, confidence: real) {
    PastFirst(g, Thread(a, confidence, Gated, 0)) && !Denied(g, a)
  }

  /** Without Review the first reversibility gate reads the proposal's own claim: an operation the registry
      calls irreversible still passes exactly when the proposal claims the opposite and reversible_only is off.
      With the shipped registry no operation is irreversible. */
  lemma UnreviewedIrreversible(g: Gate, a: Action, confidence: real)
    requires g.policySet && a.op in g.policy.ops && !g.policy.ops[a.op].reversible
    ensures Passes(g, a, confidence) <==>
              a.reversible && !g.policy.allow.reversibleOnly && !g.dryRun
              && confidence >= g.minConfidence && a.op != "" && Executable(g.policy, a)
    ensures Reviewed(g, a) ==> !Passes(g, a, confidence)
    ensures g.policy.ops != OPS
  {
    GateIsServerAuthoritative(g.policy, a, a);
  }
}
