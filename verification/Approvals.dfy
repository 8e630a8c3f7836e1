/**
 The approval queue. An entry is claimed, that is removed, under the lock that reads it, and
 checked and executed outside it, so any number of approvals, rejections, registrations and
 listings interleave.
 */
module Approving {
  import opened Common
  import opened Policies

  type Id = string

  datatype Entry = Entry(action: Action, created: int)

  datatype Stage = Claimed | Passed | Denied | Ran(ok: bool)

  /** One Approve call that got hold of an entry, and how far it has come. */
  datatype Claim = Claim(id: Id, action: Action, created: int, at: int, stage: Stage)

  datatype World = World(
    pending: map<Id, Entry>, clock: int,
    registered: set<Id>, rejected: set<Id>,
    claims: seq<Claim>, executed: seq<Id>)

  datatype Step =
    | Register(id: Id, action: Action, now: int)
    | Take(id: Id, now: int)
    | Check(c: nat)
    | Run(c: nat, ok: bool)
    | Reject(id: Id)
    | List(clocks: map<Id, int>, now: int)

  // ---- What each critical section does to the map ---------------------------------------

  predicate Expired(e: Entry, ttl: int, now: int) { now - e.created > ttl }

  predicate Takeable(pending: map<Id, Entry>, ttl: int, id: Id, now: int) {
    id in pending && !Expired(pending[id], ttl, now)
  }

  /** The garbage collection reads the clock once per entry. */
  function Collect(pending: map<Id, Entry>, ttl: int, clocks: map<Id, int>): map<Id, Entry>
    requires pending.Keys <= clocks.Keys
  {
    map id | id in pending && !Expired(pending[id], ttl, clocks[id]) :: pending[id]
  }

  // ---- The machine -------------------------------------------------------------------------

  predicate Enabled(w: World, s: Step) {
    match s
    case Register(id, _, now) => id !in w.registered && w.clock <= now
    case Take(_, now) => w.clock <= now
    case Check(c) => c < |w.claims| && w.claims[c].stage == Claimed
    case Run(c, _) => c < |w.claims| && w.claims[c].stage == Passed
    case Reject(_) => true
    case List(clocks, now) =>
      w.pending.Keys <= clocks.Keys && w.clock <= now && forall id :: id in clocks ==> w.clock <= clocks[id] <= now
  }

  function Checked(p: Policy, c: Claim): Claim {
    var act := DeriveSafety(p.ops, c.action);
    c.(action := act, stage := if Violation(p, act).Some? then Denied else Passed)
  }

  function Next(p: Policy, ttl: int, w: World, s: Step): World
    requires Enabled(w, s)
  {
    match s
    case Register(id, act, now) =>
      w.(pending := w.pending[id := Entry(act, now)], registered := w.registered + {id}, clock := now)
    case Take(id, now) =>
      if Takeable(w.pending, ttl, id, now) then
        w.(pending := w.pending - {id}, clock := now,
           claims := w.claims + [Claim(id, w.pending[id].action, w.pending[id].created, now, Claimed)])
      else w.(clock := now)
    case Check(c) => w.(claims := w.claims[c := Checked(p, w.claims[c])])
    case Run(c, ok) =>
      w.(claims := w.claims[c := w.claims[c].(stage := Ran(ok))], executed := w.executed + [w.claims[c].id])
    case Reject(id) =>
      if id in w.pending then w.(pending := w.pending - {id}, rejected := w.rejected + {id}) else w
    case List(clocks, now) => w.(pending := Collect(w.pending, ttl, clocks), clock := now)
  }

  // ---- Invariant ------------------------------------------------------------------------------

  predicate ClaimOk(p: Policy, ttl: int, c: Claim) {
    && c.at - c.created <= ttl
    && (c.stage == Passed || c.stage.Ran? ==> DeriveSafety(p.ops, c.action) == c.action && Violation(p, c.action).None?)
    && (c.stage == Denied ==> Violation(p, c.action).Some?)
  }

  ghost predicate Inv(p: Policy, ttl: int, w: World) {
    && w.pending.Keys <= w.registered && w.rejected <= w.registered && w.pending.Keys !! w.rejected
    && (forall i :: 0 <= i < |w.claims| ==>
          && w.claims[i].id in w.registered && w.claims[i].id !in w.pending && w.claims[i].id !in w.rejected
          && ClaimOk(p, ttl, w.claims[i])
          && (w.claims[i].id in w.executed <==> w.claims[i].stage.Ran?))
    && (forall i, j :: 0 <= i < j < |w.claims| ==> w.claims[i].id != w.claims[j].id)
    && (forall x :: x in w.executed ==> exists i :: 0 <= i < |w.claims| && w.claims[i].id == x)
    && (forall i, j :: 0 <= i < j < |w.executed| ==> w.executed[i] != w.executed[j])
  }

  lemma TakeKeeps(p: Policy, ttl: int, w: World, id: Id, now: int)
    requires Inv(p, ttl, w) && w.clock <= now
    ensures Inv(p, ttl, Next(p, ttl, w, Take(id, now)))
  {
    var n := Next(p, ttl, w, Take(id, now));
    if Takeable(w.pending, ttl, id, now) {
      assert id !in w.executed;
      forall x | x in n.executed ensures exists i :: 0 <= i < |n.claims| && n.claims[i].id == x {
        var i :| 0 <= i < |w.claims| && w.claims[i].id == x;
        assert n.claims[i].id == x;
      }
    }
  }

  lemma CheckKeeps(p: Policy, ttl: int, w: World, c: nat)
    requires Inv(p, ttl, w) && Enabled(w, Check(c))
    ensures Inv(p, ttl, Next(p, ttl, w, Check(c)))
  {
    var n := Next(p, ttl, w, Check(c));
    DeriveTwice(p.ops, w.claims[c].action);
    assert forall i :: 0 <= i < |w.claims| ==> n.claims[i].id == w.claims[i].id;
    forall x | x in n.executed ensures exists i :: 0 <= i < |n.claims| && n.claims[i].id == x {
      var i :| 0 <= i < |w.claims| && w.claims[i].id == x;
      assert n.claims[i].id == x;
    }
  }

  lemma RunKeepsInv(p: Policy, ttl: int, w: World, c: nat, ok: bool)
    requires Inv(p, ttl, w) && Enabled(w, Run(c, ok))
    ensures Inv(p, ttl, Next(p, ttl, w, Run(c, ok)))
  {
    var n := Next(p, ttl, w, Run(c, ok));
    assert forall i :: 0 <= i < |w.claims| ==> n.claims[i].id == w.claims[i].id;
    forall x | x in n.executed ensures exists i :: 0 <= i < |n.claims| && n.claims[i].id == x {
      if x == w.claims[c].id {
        assert n.claims[c].id == x;
      } else {
        var i :| 0 <= i < |w.claims| && w.claims[i].id == x;
        assert n.claims[i].id == x;
      }
    }
  }

  lemma StepKeeps(p: Policy, ttl: int, w: World, s: Step)
    requires Inv(p, ttl, w) && Enabled(w, s)
    ensures Inv(p, ttl, Next(p, ttl, w, s))
  {
    match s
    case Register(_, _, _) =>
    case Take(id, now) => TakeKeeps(p, ttl, w, id, now);
    case Check(c) => CheckKeeps(p, ttl, w, c);
    case Run(c, ok) => RunKeepsInv(p, ttl, w, c, ok);
    case Reject(_) =>
    case List(_, _) =>
  }

  // ---- Every interleaving -----------------------------------------------------------------------

  ghost predicate IsRun(p: Policy, ttl: int, worlds: seq<World>, steps: seq<Step>) {
    && |worlds| == |steps| + 1
    && worlds[0] == World(map[], worlds[0].clock, {}, {}, [], [])
    && forall i :: 0 <= i < |steps| ==> Moves(p, ttl, worlds[i], steps[i], worlds[i + 1])
  }

  predicate Moves(p: Policy, ttl: int, w: World, s: Step, n: World) { Enabled(w, s) && Next(p, ttl, w, s) == n }

  lemma {:induction false} RunKeeps(p: Policy, ttl: int, worlds: seq<World>, steps: seq<Step>, n: nat)
    requires IsRun(p, ttl, worlds, steps) && n <= |steps|
    ensures Inv(p, ttl, worlds[n])
  {
    if n > 0 {
      RunKeeps(p, ttl, worlds, steps, n - 1);
      assert Moves(p, ttl, worlds[n - 1], steps[n - 1], worlds[n]);
      StepKeeps(p, ttl, worlds[n - 1], steps[n - 1]);
    }
  }

  /** Nothing that happened is taken back: rejections stand, a denied claim stays denied, and what was claimed or
      rejected never becomes pending again. */
  lemma {:induction false} HistoryGrows(p: Policy, ttl: int, worlds: seq<World>, steps: seq<Step>, m: nat, n: nat)
    requires IsRun(p, ttl, worlds, steps) && m <= n <= |steps|
    ensures worlds[m].rejected <= worlds[n].rejected && |worlds[m].claims| <= |worlds[n].claims|
    ensures forall i :: 0 <= i < |worlds[m].claims| ==>
              && worlds[n].claims[i].id == worlds[m].claims[i].id
              && (worlds[m].claims[i].stage == Denied ==> worlds[n].claims[i] == worlds[m].claims[i])
    ensures forall i :: 0 <= i < |worlds[m].claims| ==> worlds[m].claims[i].id !in worlds[n].pending
    ensures forall id :: id in worlds[m].rejected ==> id !in worlds[n].pending
    decreases n - m
  {
    RunKeeps(p, ttl, worlds, steps, n);
    if m < n {
      HistoryGrows(p, ttl, worlds, steps, m, n - 1);
      assert Moves(p, ttl, worlds[n - 1], steps[n - 1], worlds[n]);
    }
  }

  /** An id is executed at most once; and each execution was claimed inside its TTL and, rewritten from the
      registry, inside the envelope. */
  lemma ExecutedOnceWithinPolicy(p: Policy, ttl: int, worlds: seq<World>, steps: seq<Step>, n: nat, i: nat)
    requires IsRun(p, ttl, worlds, steps) && n <= |steps| && i < |worlds[n].executed|
    ensures forall j :: 0 <= j < |worlds[n].executed| && j != i ==> worlds[n].executed[j] != worlds[n].executed[i]
    ensures exists c :: 0 <= c < |worlds[n].claims| && worlds[n].claims[c].id == worlds[n].executed[i]
              && worlds[n].claims[c].at - worlds[n].claims[c].created <= ttl
              && Violation(p, worlds[n].claims[c].action).None?
              && DeriveSafety(p.ops, worlds[n].claims[c].action) == worlds[n].claims[c].action
              && (worlds[n].claims[c].action.op != "" ==> Executable(p, worlds[n].claims[c].action))
  {
    RunKeeps(p, ttl, worlds, steps, n);
    assert worlds[n].executed[i] in worlds[n].executed;
    var c :| 0 <= c < |worlds[n].claims| && worlds[n].claims[c].id == worlds[n].executed[i];
    assert ClaimOk(p, ttl, worlds[n].claims[c]);
    GateIsServerAuthoritative(p, worlds[n].claims[c].action, worlds[n].claims[c].action);
  }

  /** Step s does not consume id: it neither claims nor rejects it. */
  predicate Spares(s: Step, id: Id) { !(s.Take? && s.id == id) && !(s.Reject? && s.id == id) }

  /** What registration buys: until the TTL has passed, whatever else happens short of another claim or a
      rejection, a claim of the id gets the action that was registered, and after it none does. */
  lemma {:induction false} RegisteredIsClaimable(
    p: Policy, ttl: int, worlds: seq<World>, steps: seq<Step>, m: nat, n: nat, now: int)
    requires IsRun(p, ttl, worlds, steps) && m < n <= |steps| && steps[m].Register? && worlds[n].clock <= now
    requires forall i :: m < i < n ==> Spares(steps[i], steps[m].id)
    ensures var id := steps[m].id;
            && (id in worlds[n].pending ==> worlds[n].pending[id] == Entry(steps[m].action, steps[m].now))
            && (Takeable(worlds[n].pending, ttl, id, now) <==> now - steps[m].now <= ttl)
    decreases n
  {
    var id := steps[m].id;
    if n == m + 1 {
      assert Moves(p, ttl, worlds[m], steps[m], worlds[n]);
    } else {
      assert Moves(p, ttl, worlds[n - 1], steps[n - 1], worlds[n]);
      ClockRuns(p, ttl, worlds[n - 1], steps[n - 1]);
      RegisteredIsClaimable(p, ttl, worlds, steps, m, n - 1, now);
      FreshId(p, ttl, worlds, steps, m, n - 1);
      assert Spares(steps[n - 1], id);
    }
  }

  lemma ClockRuns(p: Policy, ttl: int, w: World, s: Step)
    requires Enabled(w, s)
    ensures w.clock <= Next(p, ttl, w, s).clock
  {
  }

  lemma {:induction false} FreshId(p: Policy, ttl: int, worlds: seq<World>, steps: seq<Step>, m: nat, n: nat)
    requires IsRun(p, ttl, worlds, steps) && m < n <= |steps| && steps[m].Register?
    ensures steps[m].id in worlds[n].registered
    decreases n
  {
    assert Moves(p, ttl, worlds[n - 1], steps[n - 1], worlds[n]);
    if n > m + 1 { FreshId(p, ttl, worlds, steps, m, n - 1); }
  }

  /** A rejection that found its entry is final, before and after. */
  lemma RejectIsFinal(p: Policy, ttl: int, worlds: seq<World>, steps: seq<Step>, m: nat, n: nat)
    requires IsRun(p, ttl, worlds, steps) && m < n <= |steps|
    requires steps[m].Reject? && steps[m].id in worlds[m].pending
    ensures steps[m].id !in worlds[n].executed && steps[m].id !in worlds[n].pending
  {
    assert Moves(p, ttl, worlds[m], steps[m], worlds[m + 1]);
    HistoryGrows(p, ttl, worlds, steps, m + 1, n);
    RunKeeps(p, ttl, worlds, steps, n);
  }

  /** A claim the policy denied is consumed for good: never pending again, never executed. */
  lemma DeniedIsConsumed(p: Policy, ttl: int, worlds: seq<World>, steps: seq<Step>, m: nat, n: nat, c: nat)
    requires IsRun(p, ttl, worlds, steps) && m <= n <= |steps|
    requires c < |worlds[m].claims| && worlds[m].claims[c].stage == Denied
    ensures worlds[m].claims[c].id !in worlds[n].executed && worlds[m].claims[c].id !in worlds[n].pending
  {
    HistoryGrows(p, ttl, worlds, steps, m, n);
    RunKeeps(p, ttl, worlds, steps, n);
    assert worlds[n].claims[c].stage == Denied;
  }

  // ---- The queue ------------------------------------------------------------------------------------

  class Approvals {
    const ttl: int
    var pending: map<Id, Entry>

    constructor (ttl: int)
      ensures this.ttl == ttl && pending == map[]
    {
      this.ttl, pending := ttl, map[];
    }

    /** A registered action can be claimed from now on until its TTL has passed, as it was given; every other
        entry stands as it did. */
    method RegisterAction(id: Id, act: Action, now: int)
      modifies this
      ensures forall t :: Takeable(pending, ttl, id, t) <==> t - now <= ttl
      ensures id in pending && pending[id].action == act && pending[id].created == now
      ensures pending - {id} == old(pending) - {id}
    {
      pending := pending[id := Entry(act, now)];
    }

    /** The locked part of Approve: read, check the age, and claim by removing. */
    method ClaimEntry(id: Id, now: int) returns (entry: Option<Entry>)
      modifies this
      ensures entry.Some? <==> Takeable(old(pending), ttl, id, now)
      ensures entry.Some? ==> entry.value == old(pending)[id] && pending == old(pending) - {id}
      ensures entry.None? ==> pending == old(pending)
    {
      if id !in pending { return None; }
      var e := pending[id];
      if now - e.created > ttl { return None; }
      pending := pending - {id};
      return Some(e);
    }

    /** A whole Approve, alone: what reaches the executor is the claimed action with its safety derived again,
        and only inside the envelope; a denied claim is consumed all the same. */
    method Approve(p: Policy, id: Id, now: int, works: bool) returns (sent: Option<Action>, ok: bool)
      modifies this
      ensures pending == if Takeable(old(pending), ttl, id, now) then old(pending) - {id} else old(pending)
      ensures sent.Some? <==>
                Takeable(old(pending), ttl, id, now) && Violation(p, DeriveSafety(p.ops, old(pending)[id].action)).None?
      ensures sent.Some? ==> sent.value == Checked(p, Claim(id, old(pending)[id].action, 0, now, Claimed)).action
      ensures ok <==> sent.Some? && works
    {
      var entry := ClaimEntry(id, now);
      if entry.None? { return None, false; }
      var act := DeriveSafety(p.ops, entry.value.action);
      if Violation(p, act).Some? { return None, false; }
      return Some(act), works;
    }

    method RejectEntry(id: Id) returns (ok: bool)
      modifies this
      ensures ok <==> id in old(pending)
      ensures pending == old(pending) - {id}
    {
      ok := id in pending;
      if ok { pending := pending - {id}; }
    }

    /** Drop what has expired, reading the clock for each entry, and list the rest. */
    method ListPending(clocks: map<Id, int>) returns (out: map<Id, Action>)
      requires pending.Keys <= clocks.Keys
      modifies this
      ensures pending == Collect(old(pending), ttl, clocks)
      ensures out == map id | id in pending :: pending[id].action
    {
      var all := pending;
      var todo := all.Keys;
      while todo != {}
        invariant todo <= all.Keys
        invariant forall id :: id in pending <==> id in all && (id in todo || !Expired(all[id], ttl, clocks[id]))
        invariant forall id :: id in pending ==> pending[id] == all[id]
        decreases todo
      {
        var id :| id in todo;
        if clocks[id] - all[id].created > ttl {
          pending := pending - {id};
        }
        todo := todo - {id};
      }
      out := map id | id in pending :: pending[id].action;
    }
  }
}
