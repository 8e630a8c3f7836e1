/**
 The alert coalescer: correlated alerts are buffered per key and flushed as one
 investigation, and a key that has just flushed suppresses the rest of its storm.

 `Machine` is the coalescer together with its history: every alert that arrived and
 every batch that was flushed. The three primitive moves are Note (a suppressed alert),
 Buffer and FlushKey; Add and Sweep are built from them. `Coalescer` is the class with
 the two maps the program keeps, proved against the machine.
 */
module Coalescing {

  datatype Config = Config(
    debounce: int, maxWait: int, maxBatch: int, cooldown: int,
    correlationLabels: seq<string>,
    hasLedger: bool)

  datatype Request = Request(
    namespace: string, title: string, critical: bool,
    groupKey: string, triggerKey: string, labels: map<string, string>)

  /** How an alert got past the cooldown, or that it did not. */
  datatype Route = Suppressed | Fresh | NewCritical | Contested

  /** An alert as it arrived: its correlation key, its number in arrival order, the clock, and its route. */
  datatype Arrival = Arrival(r: Request, key: string, no: nat, at: int, route: Route)

  datatype Batch = Batch(items: seq<Arrival>, firstSeen: int, lastSeen: int)

  datatype Cooldown = Cooldown(last: int, seen: set<string>)

  /** A flushed batch; `upTo` counts the alerts that had arrived by then. */
  datatype Flush = Flush(key: string, at: int, upTo: nat, items: seq<Arrival>)

  datatype Machine = Machine(
    pending: map<string, Batch>,
    recent: map<string, Cooldown>,
    arrivals: seq<Arrival>,
    log: seq<Flush>,
    clock: int)

  datatype Event =
    | Add(r: Request, standing: bool, at: int)
    | Sweep(order: seq<string>, at: int)

  // ---- Correlation key ---------------------------------------------------------

  function LabelOf(r: Request, l: string): string {
    if l in r.labels then r.labels[l] else ""
  }

  function JoinLabels(r: Request, ls: seq<string>): string {
    if ls == [] then "" else
    if |ls| == 1 then LabelOf(r, ls[0]) else LabelOf(r, ls[0]) + "/" + JoinLabels(r, ls[1..])
  }

  function Key(cfg: Config, r: Request): string {
    if exists l :: l in cfg.correlationLabels && LabelOf(r, l) != "" then
      r.namespace + "/" + JoinLabels(r, cfg.correlationLabels)
    else if r.groupKey != "" then r.groupKey
    else r.namespace + "/" + r.title
  }

  // ---- The machine ---------------------------------------------------------------

  function Empty(start: int): Machine { Machine(map[], map[], [], [], start) }

  function Titles(items: seq<Arrival>): set<string> {
    set i | 0 <= i < |items| :: items[i].r.title
  }

  predicate Within(cfg: Config, recent: map<string, Cooldown>, k: string, now: int) {
    k in recent && cfg.cooldown > 0 && now - recent[k].last < cfg.cooldown
  }

  predicate IsNewCritical(recent: map<string, Cooldown>, k: string, r: Request) {
    r.critical && (k !in recent || r.title !in recent[k].seen)
  }

  predicate HasStanding(cfg: Config, r: Request, standing: bool) {
    cfg.hasLedger && r.triggerKey != "" && standing
  }

  function Classify(cfg: Config, recent: map<string, Cooldown>, r: Request, standing: bool, now: int): Route {
    var k := Key(cfg, r);
    if !Within(cfg, recent, k, now) then Fresh
    else if IsNewCritical(recent, k, r) then NewCritical
    else if HasStanding(cfg, r, standing) then Contested
    else Suppressed
  }

  function Note(m: Machine, a: Arrival): Machine {
    m.(arrivals := m.arrivals + [a], clock := a.at)
  }

  function PendingItems(m: Machine, k: string): seq<Arrival> {
    if k in m.pending then m.pending[k].items else []
  }

  function Buffer(m: Machine, k: string, a: Arrival): Machine {
    var first := if k in m.pending then m.pending[k].firstSeen else a.at;
    Note(m, a).(pending := m.pending[k := Batch(PendingItems(m, k) + [a], first, a.at)])
  }

  function Mark(recent: map<string, Cooldown>, k: string, now: int, items: seq<Arrival>): map<string, Cooldown> {
    recent[k := Cooldown(now, (if k in recent then recent[k].seen else {}) + Titles(items))]
  }

  function FlushKey(m: Machine, k: string): Machine
    requires k in m.pending
  {
    var items := m.pending[k].items;
    m.(pending := m.pending - {k},
       recent := Mark(m.recent, k, m.clock, items),
       log := m.log + [Flush(k, m.clock, |m.arrivals|, items)])
  }

  predicate Full(cfg: Config, items: seq<Arrival>) {
    cfg.maxBatch > 0 && |items| >= cfg.maxBatch
  }

  function AddStep(cfg: Config, m: Machine, r: Request, standing: bool, now: int): Machine {
    var k := Key(cfg, r);
    var a := Arrival(r, Key(cfg, r), |m.arrivals|, now, Classify(cfg, m.recent, r, standing, now));
    if a.route == Suppressed then Note(m, a)
    else
      var b := Buffer(m, k, a);
      if (r.critical && a.route != Contested) || Full(cfg, b.pending[k].items) then FlushKey(b, k) else b
  }

  predicate Due(cfg: Config, b: Batch, now: int) {
    now - b.lastSeen >= cfg.debounce || (cfg.maxWait > 0 && now - b.firstSeen >= cfg.maxWait)
  }

  function DueKeys(cfg: Config, m: Machine, now: int): set<string> {
    set k | k in m.pending && Due(cfg, m.pending[k], now)
  }

  function FlushAll(m: Machine, order: seq<string>): Machine
    decreases |order|
  {
    if order == [] || order[0] !in m.pending then m
    else FlushAll(FlushKey(m, order[0]), order[1..])
  }

  predicate Dead(cfg: Config, c: Cooldown, now: int) {
    cfg.cooldown <= 0 || now - c.last >= cfg.cooldown
  }

  function Evict(cfg: Config, m: Machine): Machine {
    m.(recent := map k | k in m.recent && !Dead(cfg, m.recent[k], m.clock) :: m.recent[k])
  }

  function SweepStep(cfg: Config, m: Machine, order: seq<string>, now: int): Machine {
    Evict(cfg, FlushAll(m.(clock := now), order))
  }

  predicate Distinct(s: seq<string>) { forall i, j :: 0 <= i < j < |s| ==> s[i] != s[j] }

  /** The sweep visits the due keys in whatever order the map yields them. */
  predicate Enumerates(s: seq<string>, keys: set<string>) {
    Distinct(s) && (forall i :: 0 <= i < |s| ==> s[i] in keys) && (forall k :: k in keys ==> k in s)
  }

  predicate Enabled(cfg: Config, m: Machine, e: Event) {
    m.clock <= e.at && (e.Sweep? ==> Enumerates(e.order, DueKeys(cfg, m, e.at)))
  }

  function Step(cfg: Config, m: Machine, e: Event): Machine {
    match e
    case Add(r, standing, now) => AddStep(cfg, m, r, standing, now)
    case Sweep(order, now) => SweepStep(cfg, m, order, now)
  }

  predicate IsRun(cfg: Config, m: Machine, events: seq<Event>)
    decreases |events|
  {
    events == [] || (Enabled(cfg, m, events[0]) && IsRun(cfg, Step(cfg, m, events[0]), events[1..]))
  }

  function After(cfg: Config, m: Machine, events: seq<Event>): Machine
    decreases |events|
  {
    if events == [] then m else After(cfg, Step(cfg, m, events[0]), events[1..])
  }

  // ---- What the history says -----------------------------------------------------

  /** The alerts of key k that were not suppressed, in arrival order. */
  function Admitted(arrivals: seq<Arrival>, k: string): seq<Arrival>
    decreases |arrivals|
  {
    if arrivals == [] then [] else
    var (p, a) := (arrivals[..|arrivals| - 1], arrivals[|arrivals| - 1]);
    if a.key == k && a.route != Suppressed then Admitted(p, k) + [a] else Admitted(p, k)
  }

  /** The batches flushed for key k, in flush order, end to end. */
  function Flushed(log: seq<Flush>, k: string): seq<Arrival>
    decreases |log|
  {
    if log == [] then [] else
    Flushed(log[..|log| - 1], k) + (if log[|log| - 1].key == k then log[|log| - 1].items else [])
  }

  /** Flush f had happened when a arrived, for the same key, less than a cooldown ago. */
  predicate Recent(cfg: Config, a: Arrival, f: Flush) {
    f.key == a.key && f.upTo <= a.no && a.at - f.at < cfg.cooldown
  }

  predicate EarlierTitle(a: Arrival, f: Flush) {
    f.key == a.key && f.upTo <= a.no && a.r.title in Titles(f.items)
  }

  /** What each route says about the flushes that preceded the alert. */
  ghost predicate Justified(cfg: Config, log: seq<Flush>, a: Arrival) {
    && (a.route == Fresh <==> !exists f :: f in log && Recent(cfg, a, f))
    && (a.route == NewCritical ==>
          a.r.critical && !exists f :: f in log && Recent(cfg, a, f) && a.r.title in Titles(f.items))
    && (a.route == Contested ==> cfg.hasLedger && a.r.triggerKey != "")
    && (a.route in {Suppressed, Contested} && a.r.critical ==>
          exists f :: f in log && EarlierTitle(a, f))
  }

  // ---- Invariant -------------------------------------------------------------------

  ghost predicate Ordered(m: Machine) {
    forall k :: Flushed(m.log, k) + PendingItems(m, k) == Admitted(m.arrivals, k)
  }

  ghost predicate Numbered(m: Machine) {
    && (forall i :: 0 <= i < |m.arrivals| ==> m.arrivals[i].no == i && m.arrivals[i].at <= m.clock)
    && (forall i :: 0 <= i < |m.log| ==> m.log[i].upTo <= |m.arrivals| && m.log[i].at <= m.clock)
    && (forall i, j :: 0 <= i < j < |m.log| ==> m.log[i].at <= m.log[j].at)
  }

  ghost predicate PendingOk(m: Machine) {
    forall k, i :: k in m.pending && 0 <= i < |m.pending[k].items| ==>
      var a := m.pending[k].items[i];
      a in m.arrivals && a.key == k && forall f :: f in m.log && f.key == k ==> f.upTo <= a.no
  }

  ghost predicate Covered(cfg: Config, m: Machine) {
    forall f :: f in m.log && cfg.cooldown > 0 && m.clock - f.at < cfg.cooldown ==>
      f.key in m.recent && f.at <= m.recent[f.key].last && Titles(f.items) <= m.recent[f.key].seen
  }

  ghost predicate RecordedBy(m: Machine, k: string, t: string) {
    exists f :: f in m.log && f.key == k && t in Titles(f.items)
  }

  ghost predicate Recorded(m: Machine) {
    forall k :: k in m.recent ==>
      && (exists f :: f in m.log && f.key == k && f.at == m.recent[k].last)
      && (forall t :: t in m.recent[k].seen ==> RecordedBy(m, k, t))
  }

  ghost predicate AllJustified(cfg: Config, m: Machine) {
    forall a :: a in m.arrivals ==> a.key == Key(cfg, a.r) && Justified(cfg, m.log, a)
  }

  ghost predicate FlushesOk(log: seq<Flush>, arrivals: seq<Arrival>) {
    forall i, x :: 0 <= i < |log| && 0 <= x < |log[i].items| ==>
      var a := log[i].items[x];
      a in arrivals && a.key == log[i].key && a.no < log[i].upTo && a.at <= log[i].at &&
      forall j :: 0 <= j < i && log[j].key == log[i].key ==> log[j].upTo <= a.no
  }

  ghost predicate Inv(cfg: Config, m: Machine) {
    && Numbered(m) && Ordered(m) && PendingOk(m)
    && Covered(cfg, m) && Recorded(m) && AllJustified(cfg, m) && FlushesOk(m.log, m.arrivals)
  }

  lemma FlushedAppend(log: seq<Flush>, f: Flush, k: string)
    ensures Flushed(log + [f], k) == Flushed(log, k) + (if f.key == k then f.items else [])
  {
    assert (log + [f])[..|log|] == log;
  }

  lemma AdmittedAppend(arrivals: seq<Arrival>, a: Arrival, k: string)
    ensures Admitted(arrivals + [a], k) ==
            Admitted(arrivals, k) + (if a.key == k && a.route != Suppressed then [a] else [])
  {
    assert (arrivals + [a])[..|arrivals|] == arrivals;
  }

  /** An arriving alert is justified by the records the cooldown map still holds. */
  lemma ArrivalJustified(cfg: Config, m: Machine, r: Request, standing: bool, now: int, a: Arrival)
    requires Inv(cfg, m) && m.clock <= now
    requires a == Arrival(r, Key(cfg, r), |m.arrivals|, now, Classify(cfg, m.recent, r, standing, now))
    ensures Justified(cfg, m.log, a)
  {
    var k := Key(cfg, r);
    if Within(cfg, m.recent, k, now) {
      var f :| f in m.log && f.key == k && f.at == m.recent[k].last;
      assert Recent(cfg, a, f);
      if a.route in {Suppressed, Contested} && r.critical {
        assert RecordedBy(m, k, r.title);
        var g :| g in m.log && g.key == k && r.title in Titles(g.items);
        assert EarlierTitle(a, g);
      }
    }
    forall f | f in m.log && Recent(cfg, a, f)
      ensures Within(cfg, m.recent, k, now) && Titles(f.items) <= m.recent[k].seen
    {
      assert m.clock - f.at < cfg.cooldown;
    }
  }

  /** Justification looks only at flushes before the alert, so a later flush cannot upset it. */
  lemma JustifiedLater(cfg: Config, log: seq<Flush>, f: Flush, a: Arrival)
    requires Justified(cfg, log, a) && a.no < f.upTo
    ensures Justified(cfg, log + [f], a)
  {
    forall g ensures g in log + [f] <==> g in log || g == f {}
  }

  /** Records stay backed by the log when the log is unchanged and the map only loses entries. */
  lemma RecordedFrame(m: Machine, n: Machine)
    requires Recorded(m) && n.log == m.log
    requires forall k :: k in n.recent ==> k in m.recent && n.recent[k] == m.recent[k]
    ensures Recorded(n)
  {
    forall k, t | k in n.recent && t in n.recent[k].seen ensures RecordedBy(n, k, t) {
      assert RecordedBy(m, k, t);
    }
  }

  lemma NoteKeeps(cfg: Config, m: Machine, a: Arrival)
    requires Inv(cfg, m) && m.clock <= a.at && a.no == |m.arrivals|
    requires a.key == Key(cfg, a.r) && Justified(cfg, m.log, a)
    requires a.route == Suppressed
    ensures Inv(cfg, Note(m, a))
  {
    var n := Note(m, a);
    forall k ensures Flushed(n.log, k) + PendingItems(n, k) == Admitted(n.arrivals, k) {
      AdmittedAppend(m.arrivals, a, k);
      assert Flushed(m.log, k) + PendingItems(m, k) == Admitted(m.arrivals, k);
    }
    NoteRest(cfg, m, a, n);
  }

  lemma BufferOrdered(m: Machine, a: Arrival)
    requires Ordered(m) && a.route != Suppressed
    ensures Ordered(Buffer(m, a.key, a))
  {
    var n := Buffer(m, a.key, a);
    forall k ensures Flushed(n.log, k) + PendingItems(n, k) == Admitted(n.arrivals, k) {
      AdmittedAppend(m.arrivals, a, k);
      assert Flushed(m.log, k) + PendingItems(m, k) == Admitted(m.arrivals, k);
    }
  }

  lemma BufferPendingOk(m: Machine, a: Arrival)
    requires PendingOk(m) && Numbered(m) && a.no == |m.arrivals|
    ensures PendingOk(Buffer(m, a.key, a))
  {
  }

  lemma BufferKeeps(cfg: Config, m: Machine, a: Arrival)
    requires Inv(cfg, m) && m.clock <= a.at && a.no == |m.arrivals|
    requires a.key == Key(cfg, a.r) && Justified(cfg, m.log, a)
    requires a.route != Suppressed
    ensures Inv(cfg, Buffer(m, a.key, a))
  {
    var n := Buffer(m, a.key, a);
    BufferOrdered(m, a);
    BufferPendingOk(m, a);
    NoteRest(cfg, m, a, n);
  }

  lemma NoteRest(cfg: Config, m: Machine, a: Arrival, n: Machine)
    requires Numbered(m) && Covered(cfg, m) && Recorded(m) && AllJustified(cfg, m)
    requires FlushesOk(m.log, m.arrivals)
    requires m.clock <= a.at && a.no == |m.arrivals| && a.key == Key(cfg, a.r) && Justified(cfg, m.log, a)
    requires n.log == m.log && n.recent == m.recent && n.arrivals == m.arrivals + [a] && n.clock == a.at
    ensures Numbered(n) && Covered(cfg, n) && Recorded(n) && AllJustified(cfg, n)
    ensures FlushesOk(n.log, n.arrivals)
  {
    RecordedFrame(m, n);
    assert forall b :: b in n.arrivals <==> b in m.arrivals || b == a;
  }

  lemma FlushOrdered(m: Machine, k: string)
    requires Ordered(m) && k in m.pending
    ensures Ordered(FlushKey(m, k))
  {
    var n := FlushKey(m, k);
    var f := Flush(k, m.clock, |m.arrivals|, m.pending[k].items);
    forall x ensures Flushed(n.log, x) + PendingItems(n, x) == Admitted(n.arrivals, x) {
      FlushedAppend(m.log, f, x);
      assert Flushed(m.log, x) + PendingItems(m, x) == Admitted(m.arrivals, x);
    }
  }

  lemma FlushRecorded(m: Machine, k: string)
    requires Recorded(m) && k in m.pending
    ensures Recorded(FlushKey(m, k))
  {
    var n := FlushKey(m, k);
    var f := Flush(k, m.clock, |m.arrivals|, m.pending[k].items);
    assert f in n.log;
    assert forall g :: g in m.log ==> g in n.log;
    forall x, t | x in n.recent && t in n.recent[x].seen ensures RecordedBy(n, x, t) {
      if !(x == k && t in Titles(f.items)) {
        assert RecordedBy(m, x, t);
      }
    }
  }

  lemma FlushCovered(cfg: Config, m: Machine, k: string)
    requires Covered(cfg, m) && Numbered(m) && k in m.pending
    ensures Covered(cfg, FlushKey(m, k)) && Numbered(FlushKey(m, k))
  {
  }

  lemma FlushFlushesOk(m: Machine, k: string)
    requires FlushesOk(m.log, m.arrivals) && PendingOk(m) && Numbered(m) && k in m.pending
    ensures FlushesOk(FlushKey(m, k).log, m.arrivals) && PendingOk(FlushKey(m, k))
  {
    var n := FlushKey(m, k);
    forall i, x | 0 <= i < |n.log| && 0 <= x < |n.log[i].items|
      ensures var a := n.log[i].items[x];
              a in m.arrivals && a.key == n.log[i].key && a.no < n.log[i].upTo && a.at <= n.log[i].at &&
              forall j :: 0 <= j < i && n.log[j].key == n.log[i].key ==> n.log[j].upTo <= a.no
    {
      var a := n.log[i].items[x];
      if i < |m.log| {
        assert a == m.log[i].items[x];
      } else {
        assert a == m.pending[k].items[x];
      }
    }
  }

  lemma FlushKeeps(cfg: Config, m: Machine, k: string)
    requires Inv(cfg, m) && k in m.pending
    ensures Inv(cfg, FlushKey(m, k))
  {
    var n := FlushKey(m, k);
    FlushOrdered(m, k);
    FlushRecorded(m, k);
    FlushCovered(cfg, m, k);
    FlushFlushesOk(m, k);
    forall a | a in n.arrivals ensures Justified(cfg, n.log, a) {
      JustifiedLater(cfg, m.log, Flush(k, m.clock, |m.arrivals|, m.pending[k].items), a);
    }
  }

  lemma EvictKeeps(cfg: Config, m: Machine)
    requires Inv(cfg, m)
    ensures Inv(cfg, Evict(cfg, m))
  {
    var n := Evict(cfg, m);
    assert forall k :: PendingItems(n, k) == PendingItems(m, k);
    RecordedFrame(m, n);
  }

  lemma TickKeeps(cfg: Config, m: Machine, now: int)
    requires Inv(cfg, m) && m.clock <= now
    ensures Inv(cfg, m.(clock := now))
  {
    var n := m.(clock := now);
    assert forall k :: PendingItems(n, k) == PendingItems(m, k);
    RecordedFrame(m, n);
  }

  lemma {:induction false} FlushAllKeeps(cfg: Config, m: Machine, order: seq<string>)
    requires Inv(cfg, m)
    ensures Inv(cfg, FlushAll(m, order))
    decreases |order|
  {
    if order != [] && order[0] in m.pending {
      FlushKeeps(cfg, m, order[0]);
      FlushAllKeeps(cfg, FlushKey(m, order[0]), order[1..]);
    }
  }

  lemma ArrivalKeeps(cfg: Config, m: Machine, a: Arrival, n: Machine)
    requires Inv(cfg, m) && m.clock <= a.at && a.no == |m.arrivals|
    requires a.key == Key(cfg, a.r) && Justified(cfg, m.log, a)
    requires if a.route == Suppressed then n == Note(m, a)
             else n == Buffer(m, a.key, a) || n == FlushKey(Buffer(m, a.key, a), a.key)
    ensures Inv(cfg, n)
  {
    if a.route == Suppressed {
      NoteKeeps(cfg, m, a);
    } else {
      BufferKeeps(cfg, m, a);
      if n != Buffer(m, a.key, a) {
        FlushKeeps(cfg, Buffer(m, a.key, a), a.key);
      }
    }
  }

  lemma AddKeeps(cfg: Config, m: Machine, r: Request, standing: bool, now: int)
    requires Inv(cfg, m) && m.clock <= now
    ensures Inv(cfg, AddStep(cfg, m, r, standing, now))
  {
    var a := Arrival(r, Key(cfg, r), |m.arrivals|, now, Classify(cfg, m.recent, r, standing, now));
    ArrivalJustified(cfg, m, r, standing, now, a);
    ArrivalKeeps(cfg, m, a, AddStep(cfg, m, r, standing, now));
  }

  lemma SweepKeeps(cfg: Config, m: Machine, order: seq<string>, now: int)
    requires Inv(cfg, m) && m.clock <= now
    ensures Inv(cfg, SweepStep(cfg, m, order, now))
  {
    TickKeeps(cfg, m, now);
    FlushAllKeeps(cfg, m.(clock := now), order);
    EvictKeeps(cfg, FlushAll(m.(clock := now), order));
  }

  lemma StepKeeps(cfg: Config, m: Machine, e: Event)
    requires Inv(cfg, m) && m.clock <= e.at
    ensures Inv(cfg, Step(cfg, m, e))
  {
    match e
    case Add(r, standing, now) => AddKeeps(cfg, m, r, standing, now);
    case Sweep(order, now) => SweepKeeps(cfg, m, order, now);
  }

  lemma {:induction false} RunKeeps(cfg: Config, m: Machine, events: seq<Event>)
    requires Inv(cfg, m) && IsRun(cfg, m, events)
    ensures Inv(cfg, After(cfg, m, events))
    decreases |events|
  {
    if events != [] {
      StepKeeps(cfg, m, events[0]);
      RunKeeps(cfg, Step(cfg, m, events[0]), events[1..]);
    }
  }

  // ---- Theorems over every run -------------------------------------------------------

  ghost predicate Reachable(cfg: Config, m: Machine) {
    exists start, events :: IsRun(cfg, Empty(start), events) && m == After(cfg, Empty(start), events)
  }

  lemma ReachableInv(cfg: Config, m: Machine)
    requires Reachable(cfg, m)
    ensures Inv(cfg, m)
  {
    var start, events :| IsRun(cfg, Empty(start), events) && m == After(cfg, Empty(start), events);
    assert Inv(cfg, Empty(start)) by {
      assert forall k :: Flushed([], k) + PendingItems(Empty(start), k) == Admitted([], k);
    }
    RunKeeps(cfg, Empty(start), events);
  }

  function SuppressedOnes(arrivals: seq<Arrival>): seq<Arrival>
    decreases |arrivals|
  {
    if arrivals == [] then [] else
    var (p, a) := (arrivals[..|arrivals| - 1], arrivals[|arrivals| - 1]);
    if a.route == Suppressed then SuppressedOnes(p) + [a] else SuppressedOnes(p)
  }

  function AllFlushed(log: seq<Flush>): seq<Arrival>
    decreases |log|
  {
    if log == [] then [] else AllFlushed(log[..|log| - 1]) + log[|log| - 1].items
  }

  lemma {:induction false} CountFlushed(log: seq<Flush>, arrivals: seq<Arrival>, a: Arrival)
    requires FlushesOk(log, arrivals)
    ensures multiset(Flushed(log, a.key))[a] == multiset(AllFlushed(log))[a]
    decreases |log|
  {
    if log != [] {
      var f := log[|log| - 1];
      CountFlushed(log[..|log| - 1], arrivals, a);
      assert a in f.items ==> f.key == a.key by {
        if x :| 0 <= x < |f.items| && f.items[x] == a {
          assert log[|log| - 1].items[x] == a;
        }
      }
    }
  }

  lemma {:induction false} CountAdmitted(arrivals: seq<Arrival>, a: Arrival)
    ensures multiset(arrivals)[a] ==
            multiset(SuppressedOnes(arrivals))[a] + multiset(Admitted(arrivals, a.key))[a]
    decreases |arrivals|
  {
    if arrivals != [] {
      var p, b := arrivals[..|arrivals| - 1], arrivals[|arrivals| - 1];
      CountAdmitted(p, a);
      assert arrivals == p + [b];
      assert multiset(arrivals) == multiset(p) + multiset{b};
    }
  }

  /** Conservation: every alert is suppressed, pending or flushed, once and nowhere else, and per key the
      flushed batches followed by the pending one are the admitted alerts in arrival order. */
  lemma EveryAlertAccountedFor(cfg: Config, m: Machine)
    requires Reachable(cfg, m)
    ensures forall k :: Flushed(m.log, k) + PendingItems(m, k) == Admitted(m.arrivals, k)
    ensures forall a :: multiset(m.arrivals)[a] ==
                        multiset(SuppressedOnes(m.arrivals))[a]
                        + multiset(PendingItems(m, a.key))[a]
                        + multiset(AllFlushed(m.log))[a]
    ensures forall k, a :: a in PendingItems(m, k) ==> a.key == k
  {
    ReachableInv(cfg, m);
    forall a ensures multiset(m.arrivals)[a] == multiset(SuppressedOnes(m.arrivals))[a]
                        + multiset(PendingItems(m, a.key))[a] + multiset(AllFlushed(m.log))[a]
    {
      var k := a.key;
      CountFlushed(m.log, m.arrivals, a);
      CountAdmitted(m.arrivals, a);
      assert Flushed(m.log, k) + PendingItems(m, k) == Admitted(m.arrivals, k);
    }
  }

  /** Storm collapse: a key that flushes again inside its cooldown flushes only alerts that came after the
      previous flush and were, on arrival, a critical with an unrecorded title or contested. */
  lemma StormCollapses(cfg: Config, m: Machine, i: nat, j: nat, x: nat)
    requires Reachable(cfg, m)
    requires i < j < |m.log| && m.log[i].key == m.log[j].key
    requires m.log[j].at - m.log[i].at < cfg.cooldown && x < |m.log[j].items|
    ensures var a := m.log[j].items[x];
            && m.log[i].upTo <= a.no < m.log[j].upTo
            && m.log[i].at <= m.log[j].at
            && (a.route == NewCritical || a.route == Contested)
            && (a.route == NewCritical ==> a.r.critical && a.r.title !in Titles(m.log[i].items))
  {
    ReachableInv(cfg, m);
    var a := m.log[j].items[x];
    assert Recent(cfg, a, m.log[i]);
    assert a.route != Suppressed by {
      AdmittedOnly(m, j, x);
    }
  }

  lemma {:induction false} FlushedHas(log: seq<Flush>, j: nat, x: nat)
    requires j < |log| && x < |log[j].items|
    ensures log[j].items[x] in Flushed(log, log[j].key)
    decreases |log|
  {
    if j < |log| - 1 {
      FlushedHas(log[..|log| - 1], j, x);
    }
  }

  lemma {:induction false} AdmittedRoutes(arrivals: seq<Arrival>, k: string)
    ensures forall a :: a in Admitted(arrivals, k) ==> a.route != Suppressed
    decreases |arrivals|
  {
    if arrivals != [] {
      AdmittedRoutes(arrivals[..|arrivals| - 1], k);
    }
  }

  lemma AdmittedOnly(m: Machine, j: nat, x: nat)
    requires Ordered(m) && j < |m.log| && x < |m.log[j].items|
    ensures m.log[j].items[x].route != Suppressed
  {
    FlushedHas(m.log, j, x);
    AdmittedRoutes(m.arrivals, m.log[j].key);
    assert m.log[j].items[x] in Flushed(m.log, m.log[j].key) + PendingItems(m, m.log[j].key);
  }

  /** Every critical is flushed by its own Add, or its title had already been flushed for its key: then it
      is suppressed, unless it is contested and waits in the buffer. */
  lemma CriticalFate(cfg: Config, m: Machine, r: Request, standing: bool, now: int, a: Arrival, n: Machine)
    requires Reachable(cfg, m) && m.clock <= now && r.critical
    requires n == AddStep(cfg, m, r, standing, now)
    requires a == Arrival(r, Key(cfg, r), |m.arrivals|, now, Classify(cfg, m.recent, r, standing, now))
    ensures n.arrivals == m.arrivals + [a]
    ensures a.route in {Fresh, NewCritical} ==>
              n.log == m.log + [Flush(Key(cfg, r), now, |n.arrivals|, PendingItems(m, Key(cfg, r)) + [a])]
    ensures a.route in {Suppressed, Contested} ==> exists f :: f in m.log && EarlierTitle(a, f)
    ensures a.route == Suppressed ==> n == Note(m, a)
  {
    assert Justified(cfg, m.log, a) by {
      ReachableInv(cfg, m);
      ArrivalJustified(cfg, m, r, standing, now, a);
    }
  }

  /** The cooldown bites: an uncontested alert whose title its key flushed less than a cooldown ago changes
      nothing, however often the key flushed or was swept since. */
  lemma RepeatIsSuppressed(cfg: Config, m: Machine, f: Flush, r: Request, standing: bool, now: int)
    requires Reachable(cfg, m) && m.clock <= now
    requires f in m.log && f.key == Key(cfg, r) && r.title in Titles(f.items) && now - f.at < cfg.cooldown
    requires !HasStanding(cfg, r, standing)
    ensures AddStep(cfg, m, r, standing, now) == Note(m, Arrival(r, Key(cfg, r), |m.arrivals|, now, Suppressed))
  {
    ReachableInv(cfg, m);
    var i :| 0 <= i < |m.log| && m.log[i] == f;
    assert m.clock - f.at < cfg.cooldown && cfg.cooldown > 0;
  }

  lemma {:induction false} FlushAllPending(m: Machine, order: seq<string>, x: string)
    requires Distinct(order) && forall k :: k in order ==> k in m.pending
    ensures FlushAll(m, order).clock == m.clock
    ensures x in FlushAll(m, order).pending <==> x in m.pending && x !in order
    ensures x in FlushAll(m, order).pending ==> FlushAll(m, order).pending[x] == m.pending[x]
    decreases |order|
  {
    if order != [] {
      var n, rest := FlushKey(m, order[0]), order[1..];
      assert order == [order[0]] + rest;
      FlushAllPending(n, rest, x);
    }
  }

  lemma {:induction false} FlushAllSnoc(m: Machine, order: seq<string>, k: string)
    requires Distinct(order) && k !in order && k in m.pending && forall x :: x in order ==> x in m.pending
    ensures k in FlushAll(m, order).pending
    ensures FlushAll(m, order + [k]) == FlushKey(FlushAll(m, order), k)
    decreases |order|
  {
    FlushAllPending(m, order, k);
    if order == [] {
      assert (order + [k])[1..] == [];
    } else {
      var n, rest := FlushKey(m, order[0]), order[1..];
      assert (order + [k])[1..] == rest + [k];
      assert order == [order[0]] + rest;
      assert forall x :: x in rest ==> x in n.pending;
      FlushAllSnoc(n, rest, k);
    }
  }

  /** Half-way through a sweep: the keys flushed so far are the due ones among those visited. */
  ghost predicate Sweeping(cfg: Config, start: Machine, order: seq<string>, todo: set<string>) {
    && Distinct(order) && (forall x :: x in order ==> x in start.pending && x !in todo)
    && todo <= start.pending.Keys
    && forall x :: x in start.pending && x !in todo ==> (x in order <==> Due(cfg, start.pending[x], start.clock))
  }

  lemma SweepingNext(cfg: Config, start: Machine, order: seq<string>, todo: set<string>, k: string)
    requires Sweeping(cfg, start, order, todo) && k in todo
    ensures var m := FlushAll(start, order);
            m.clock == start.clock && todo <= m.pending.Keys && m.pending[k] == start.pending[k]
    ensures var next := if Due(cfg, start.pending[k], start.clock) then order + [k] else order;
            && Sweeping(cfg, start, next, todo - {k})
            && FlushAll(start, next) ==
               if next == order then FlushAll(start, order) else FlushKey(FlushAll(start, order), k)
  {
    forall x | x in todo ensures x in FlushAll(start, order).pending {
      FlushAllPending(start, order, x);
    }
    FlushAllPending(start, order, k);
    FlushAllSnoc(start, order, k);
  }

  /** A sweep leaves pending exactly the batches that are not due, in whatever order the map yields them. */
  lemma SweepFlushesTheDue(cfg: Config, m: Machine, order: seq<string>, now: int)
    requires Enumerates(order, DueKeys(cfg, m, now))
    ensures SweepStep(cfg, m, order, now).pending == m.pending - DueKeys(cfg, m, now)
  {
    var start, n := m.(clock := now), SweepStep(cfg, m, order, now);
    forall x ensures x in n.pending <==> x in (m.pending - DueKeys(cfg, m, now))
             ensures x in n.pending ==> n.pending[x] == m.pending[x]
    {
      FlushAllPending(start, order, x);
    }
  }

  // ---- The class ----------------------------------------------------------------------

  function Requests(items: seq<Arrival>): (rs: seq<Request>)
    ensures |rs| == |items| && forall i :: 0 <= i < |items| ==> rs[i] == items[i].r
  {
    seq(|items|, i requires 0 <= i < |items| => items[i].r)
  }

  datatype RequestBatch = RequestBatch(incidents: seq<Request>, firstSeen: int, lastSeen: int)

  function Plain(b: Batch): RequestBatch { RequestBatch(Requests(b.items), b.firstSeen, b.lastSeen) }

  /** What the program keeps: the two maps, and the batches handed to the sink. */
  class Coalescer {
    const cfg: Config
    var pending: map<string, RequestBatch>
    var recent: map<string, Cooldown>
    var emitted: seq<seq<Request>>
    ghost var m: Machine

    ghost predicate Valid()
      reads this
    {
      && pending.Keys == m.pending.Keys
      && (forall k :: k in pending ==> pending[k] == Plain(m.pending[k]))
      && recent == m.recent
      && |emitted| == |m.log|
      && forall i :: 0 <= i < |emitted| ==> emitted[i] == Requests(m.log[i].items)
    }

    constructor (cfg: Config, ghost start: int)
      ensures Valid() && this.cfg == cfg && m == Empty(start)
    {
      this.cfg := cfg;
      pending, recent, emitted, m := map[], map[], [], Empty(start);
    }

    /** Hand key k's pending batch to the sink and record it. */
    method FlushPending(k: string, now: int)
      requires Valid() && k in pending && now == m.clock
      modifies this
      ensures Valid() && m == FlushKey(old(m), k)
    {
      var incidents := pending[k].incidents;
      assert (set i | 0 <= i < |incidents| :: incidents[i].title) == Titles(m.pending[k].items);
      pending := pending - {k};
      MarkFlushed(k, now, incidents);
      emitted := emitted + [incidents];
      m := FlushKey(m, k);
    }

    method MarkFlushed(k: string, now: int, batch: seq<Request>)
      modifies this`recent
      ensures recent == old(recent)[k := Cooldown(now,
                (if k in old(recent) then old(recent)[k].seen else {}) + set i | 0 <= i < |batch| :: batch[i].title)]
    {
      var seen := if k in recent then recent[k].seen else {};
      ghost var before := seen;
      for i := 0 to |batch|
        invariant recent == old(recent)
        invariant seen == before + set x | 0 <= x < i :: batch[x].title
      {
        seen := seen + {batch[i].title};
      }
      recent := recent[k := Cooldown(now, seen)];
    }

    method BufferRequest(k: string, r: Request, now: int, ghost a: Arrival)
      requires Valid() && a.r == r && a.at == now
      modifies this
      ensures Valid() && m == Buffer(old(m), k, a)
    {
      var b := if k in pending then pending[k] else RequestBatch([], now, now);
      pending := pending[k := RequestBatch(b.incidents + [r], b.firstSeen, now)];
      assert Requests(PendingItems(m, k) + [a]) == b.incidents + [r];
      m := Buffer(m, k, a);
    }

    method Add(r: Request, standing: bool, now: int)
      requires Valid() && m.clock <= now
      modifies this
      ensures Valid() && m == AddStep(cfg, old(m), r, standing, now)
    {
      var k := Key(cfg, r);
      var suppress := Within(cfg, recent, k, now) && !IsNewCritical(recent, k, r);
      var bypass := suppress && HasStanding(cfg, r, standing);
      ghost var a := Arrival(r, Key(cfg, r), |m.arrivals|, now, Classify(cfg, recent, r, standing, now));
      if suppress && !bypass {
        m := Note(m, a);
      } else {
        BufferRequest(k, r, now, a);
        if (r.critical && !bypass) || (cfg.maxBatch > 0 && |pending[k].incidents| >= cfg.maxBatch) {
          FlushPending(k, now);
        }
      }
    }

    method Sweep(now: int) returns (ghost order: seq<string>)
      requires Valid() && m.clock <= now
      modifies this
      ensures Valid() && Enumerates(order, DueKeys(cfg, old(m), now))
      ensures m == SweepStep(cfg, old(m), order, now)
    {
      m := m.(clock := now);
      order := FlushDue(now);
      EvictExpired(now);
    }

    method FlushDue(now: int) returns (ghost order: seq<string>)
      requires Valid() && m.clock == now
      modifies this
      ensures Valid() && m.clock == now && Enumerates(order, DueKeys(cfg, old(m), now))
      ensures m == FlushAll(old(m), order)
    {
      ghost var start := m;
      order := [];
      var todo := pending.Keys;
      while todo != {}
        invariant Valid() && m == FlushAll(start, order) && m.clock == now && Sweeping(cfg, start, order, todo)
        invariant todo <= pending.Keys
        decreases todo
      {
        var k :| k in todo;
        SweepingNext(cfg, start, order, todo, k);
        if Overdue(k, now) {
          FlushPending(k, now);
          order := order + [k];
        }
        todo := todo - {k};
      }
    }

    predicate Overdue(k: string, now: int)
      requires k in pending
      reads this
    {
      var b := pending[k];
      now - b.lastSeen >= cfg.debounce || (cfg.maxWait > 0 && now - b.firstSeen >= cfg.maxWait)
    }

    method EvictExpired(now: int)
      requires Valid() && m.clock == now
      modifies this
      ensures Valid() && m == Evict(cfg, old(m))
    {
      var todo := recent.Keys;
      ghost var all := recent;
      while todo != {}
        invariant todo <= all.Keys
        invariant m == old(m) && pending == old(pending) && emitted == old(emitted)
        invariant forall k :: k in recent <==> k in all && (k in todo || !Dead(cfg, all[k], now))
        invariant forall k :: k in recent ==> recent[k] == all[k]
        decreases todo
      {
        var k :| k in todo;
        if cfg.cooldown <= 0 || now - recent[k].last >= cfg.cooldown {
          recent := recent - {k};
        }
        todo := todo - {k};
      }
      m := Evict(cfg, m);
    }
  }
}
