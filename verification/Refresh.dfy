/**
 Rebuilding conflicting entry pull requests: strip ready-to-merge, then push the rebuilt
 branch, for at most ten pull requests a pass, labelled ones first.

 The forge may fail any call, and a write that fails may still have taken effect. The claims
 are about every event of the pass, so they hold of every prefix of it.
 */
module Refreshing {
  import opened Common
  import opened Forge

  const BOT_LOGIN := "runlore[bot]"
  const ENTRY_BRANCH_PREFIX := "runlore/kb-"
  const MAX_REBUILDS: nat := 10

  datatype EntryState = EntryState(
    branch: string, mergeable: Option<bool>, fork: bool, truncated: bool, authors: seq<string>, files: seq<string>)

  datatype PushReply = Pushed | OnBase | NotOurs | PushFails(limited: bool)

  /** What the calls about one pull request meet: its state (None: the read fails), the label removal, the
      rebuild, and the promotion after it. */
  datatype Meets = Meets(state: Option<EntryState>, readLimited: bool, strip: Reply, push: PushReply, promote: Reply)

  datatype Why = NotEntryBranch | NothingEarned | PastCap | NotAllOurs | AlreadyOnBase | BadBranchName

  datatype Outcome = Outcome(rebuilt: seq<int>, refused: map<int, Why>, stopped: bool, failed: set<int>)

  // ---- What a rebuild may touch ------------------------------------------------------------

  predicate IsLogFile(p: string) { p == "index.md" || p == "log.md" }

  function EntryFiles(files: seq<string>): seq<string>
    decreases |files|
  {
    if files == [] then [] else
    var (init, p) := (files[..|files| - 1], files[|files| - 1]);
    if IsLogFile(p) then EntryFiles(init) else EntryFiles(init) + [p]
  }

  predicate IsMarkdown(p: string) { |p| >= 3 && p[|p| - 3..] == ".md" }

  predicate Rebuildable(st: EntryState) {
    && !st.fork && !st.truncated && st.authors != []
    && (forall a :: a in st.authors ==> a == BOT_LOGIN)
    && |EntryFiles(st.files)| == 1 && IsMarkdown(EntryFiles(st.files)[0])
  }

  lemma {:induction false} EntryFilesAre(files: seq<string>)
    ensures EntryFiles(files) == [] <==> forall p :: p in files ==> IsLogFile(p)
    ensures |EntryFiles(files)| == 1 <==>
            exists k :: 0 <= k < |files| && !IsLogFile(files[k]) && AllLogBut(files, k)
    ensures forall k :: 0 <= k < |files| && !IsLogFile(files[k]) && AllLogBut(files, k) ==>
              EntryFiles(files) == [files[k]]
    decreases |files|
  {
    if files != [] {
      var init, p := files[..|files| - 1], files[|files| - 1];
      EntryFilesAre(init);
      assert files == init + [p];
      forall k | 0 <= k < |files| && !IsLogFile(files[k]) && AllLogBut(files, k)
        ensures EntryFiles(files) == [files[k]]
      {
        if k < |init| {
          assert AllLogBut(init, k) && init[k] == files[k];
          assert IsLogFile(files[|init|]);
        } else {
          assert forall q :: q in init ==> IsLogFile(q);
        }
      }
      if |EntryFiles(files)| == 1 {
        if IsLogFile(p) {
          var k :| 0 <= k < |init| && !IsLogFile(init[k]) && AllLogBut(init, k);
          assert files[k] == init[k] && AllLogBut(files, k);
        } else {
          assert AllLogBut(files, |init|);
        }
      }
    }
  }

  predicate AllLogBut(files: seq<string>, k: nat) { forall i :: 0 <= i < |files| && i != k ==> IsLogFile(files[i]) }

  /** A rebuild loses nothing exactly when the head is here and fully listed, every commit is the bot's, and
      the change is one markdown entry beside the two files a rebuild writes again. */
  lemma RebuildLosesNothing(st: EntryState)
    ensures Rebuildable(st) <==>
            && !st.fork && !st.truncated && st.authors != []
            && (forall a :: a in st.authors ==> a == BOT_LOGIN)
            && exists k :: 0 <= k < |st.files| && !IsLogFile(st.files[k]) && AllLogBut(st.files, k) &&
                           IsMarkdown(st.files[k])
  {
    EntryFilesAre(st.files);
  }

  // ---- The pass ------------------------------------------------------------------------------

  predicate IsHeld(held: map<string, bool>, pr: PR) { pr.fp in held && held[pr.fp] }

  predicate Conflicts(m: Meets) { m.state.Some? && m.state.value.mergeable == Some(false) }

  /** What a pull request needs before its branch is pushed. */
  predicate Earned(pr: PR, held: map<string, bool>, m: Meets) {
    && !IsEntryEdit(pr.labels) && Conflicts(m)
    && ENTRY_BRANCH_PREFIX <= m.state.value.branch && Rebuildable(m.state.value)
    && (Ready in pr.labels || IsHeld(held, pr))
  }

  function Pushes(trace: seq<Event>): nat
    decreases |trace|
  {
    if trace == [] then 0
    else Pushes(trace[..|trace| - 1]) + (if trace[|trace| - 1].Push? then 1 else 0)
  }

  function Log(w: World, e: Event): (r: World)
    ensures Pushes(r.trace) == Pushes(w.trace) + (if e.Push? then 1 else 0)
  {
    assert (w.trace + [e])[..|w.trace|] == w.trace;
    w.(trace := w.trace + [e])
  }

  /** The new events are all about pull request n, and a push found no ready-to-merge label. */
  predicate CleanSince(before: seq<Event>, after: seq<Event>, n: int, mayPush: bool) {
    && (forall e :: e in before ==> e in after)
    && (forall e :: e in after ==> e in before || e.number == n)
    && (forall e :: e in after && e.Push? ==> e in before || (mayPush && !e.ready))
    && Pushes(after) <= Pushes(before) + if mayPush then 1 else 0
  }

  /** Strip the label, then refuse or rebuild. A refusal leaves no label standing. */
  method Refresh(w: World, m: Meets, promotes: bool, pr: PR, st: EntryState, out: Outcome)
    returns (v: World, res: Outcome, err: Error)
    requires Distinct(w.prs) && pr in w.prs && pr.number !in out.refused && pr.number !in out.rebuilt
    ensures OnlyReadyOf(w.prs, v.prs, pr.number)
    ensures CleanSince(w.trace, v.trace, pr.number, Rebuildable(st))
    ensures res.stopped == out.stopped && res.failed == out.failed
    ensures RefusesAtMost(out, res, pr.number)
    ensures res.rebuilt == out.rebuilt || res.rebuilt == out.rebuilt + [pr.number]
    ensures !(pr.number in res.refused && pr.number in res.rebuilt)
    ensures err == NoError ==> pr.number in res.refused || pr.number in res.rebuilt
    ensures pr.number in res.rebuilt ==> Rebuildable(st) && m.push.Pushed? && Push(pr.number, false) in v.trace
    ensures pr.number in res.refused ==>
              match res.refused[pr.number]
              case NotAllOurs => !Rebuildable(st)
              case AlreadyOnBase => Rebuildable(st) && m.push.OnBase?
              case BadBranchName => Rebuildable(st) && m.push.NotOurs?
              case _ => false
    ensures err != NoError ==> CallFails(m) && (err == Limited ==> MeetsLimit(m))
    ensures Ready in pr.labels && m.strip.Fails? ==>
              Pushes(v.trace) == Pushes(w.trace) && res == out && err == ErrorOf(m.strip)
    ensures pr.number in res.refused ==> !IsReady(v.prs, pr.number)
  {
    v, res, err := w, out, NoError;
    var n := pr.number;
    if Ready in pr.labels {
      v := Strip(v, n, m.strip);
      if m.strip.Fails? { return v, res, ErrorOf(m.strip); }
    }
    assert !IsReady(v.prs, n);
    if !Rebuildable(st) {
      return v, res.(refused := res.refused[n := NotAllOurs]), NoError;
    }
    v := Log(v, Push(n, IsReady(v.prs, n)));
    match m.push {
      case OnBase => return v, res.(refused := res.refused[n := AlreadyOnBase]), NoError;
      case NotOurs => return v, res.(refused := res.refused[n := BadBranchName]), NoError;
      case PushFails(limited) => return v, res, if limited then Limited else Plain;
      case Pushed =>
    }
    res := res.(rebuilt := res.rebuilt + [n]);
    if promotes {
      v := Promote(v, n, m.promote);
      err := ErrorOf(m.promote);
    }
  }

  /** Remove ready-to-merge. */
  function Strip(w: World, n: int, r: Reply): (v: World)
    ensures OnlyReadyOf(w.prs, v.prs, n) && CleanSince(w.trace, v.trace, n, false)
    ensures r.Fine? ==> !IsReady(v.prs, n)
  {
    assert (w.trace + [Relabel(n, false)])[..|w.trace|] == w.trace;
    Write(w, n, false, r)
  }

  /** Put ready-to-merge back on a rebuilt pull request. */
  function Promote(w: World, n: int, r: Reply): (v: World)
    ensures OnlyReadyOf(w.prs, v.prs, n) && CleanSince(w.trace, v.trace, n, false)
  {
    assert (w.trace + [Relabel(n, true)])[..|w.trace|] == w.trace;
    Write(w, n, true, r)
  }

  /** The reason a refusal gives is the one that applies. */
  predicate WhyRight(pr: PR, held: map<string, bool>, m: Meets, why: Why)
    requires Conflicts(m)
  {
    var st := m.state.value;
    match why
    case NotEntryBranch => !(ENTRY_BRANCH_PREFIX <= st.branch)
    case NothingEarned => Ready !in pr.labels && !IsHeld(held, pr)
    case PastCap => Earned(pr, held, m)
    case NotAllOurs => !Rebuildable(st)
    case AlreadyOnBase => Rebuildable(st) && m.push.OnBase?
    case BadBranchName => Rebuildable(st) && m.push.NotOurs?
  }

  predicate CallFails(m: Meets) { m.state.None? || m.strip.Fails? || m.push.PushFails? || m.promote.Fails? }

  /** Some call about the pull request is answered with a rate limit. */
  predicate MeetsLimit(m: Meets) {
    || (m.state.None? && m.readLimited)
    || ErrorOf(m.strip) == Limited || m.push == PushFails(true) || ErrorOf(m.promote) == Limited
  }

  /** A conflicting pull request that was looked at is rebuilt, refused for the reason that applies, or failed
      because a call failed. */
  predicate Settled(out: Outcome, held: map<string, bool>, pr: PR, m: Meets) {
    var n := pr.number;
    !IsEntryEdit(pr.labels) && Conflicts(m) ==>
      && (n in out.refused || n in out.rebuilt || n in out.failed)
      && (n in out.rebuilt ==> Earned(pr, held, m) && m.push.Pushed?)
      && (n in out.refused ==> WhyRight(pr, held, m, out.refused[n]))
      && (n in out.failed ==> CallFails(m))
  }

  /** What looking at one pull request does to the forge, the budget and the outcome. */
  predicate Considered(
    pr: PR, held: map<string, bool>, m: Meets, budget: nat, w: World, out: Outcome,
    v: World, left: nat, res: Outcome, err: Error)
  {
    var n := pr.number;
    var push := Earned(pr, held, m) && budget > 0;
    && OnlyReadyOf(w.prs, v.prs, n)
    && CleanSince(w.trace, v.trace, n, push)
    && left == (if push then budget - 1 else budget)
    && res.stopped == out.stopped && res.failed == out.failed
    && RefusesAtMost(out, res, n)
    && (HeldBack(res.refused, n) <==> Earned(pr, held, m) && budget == 0)
    && (HeldBack(res.refused, n) ==> v == w)
    && (res.rebuilt == out.rebuilt || res.rebuilt == out.rebuilt + [n])
    && !(n in res.refused && n in res.rebuilt)
    && (err == NoError && Conflicts(m) ==> n in res.refused || n in res.rebuilt)
    && (n in res.rebuilt ==> push && m.push.Pushed? && Push(n, false) in v.trace)
    && (n in res.refused ==> Conflicts(m) && WhyRight(pr, held, m, res.refused[n]))
    && (err != NoError ==> CallFails(m) && (err == Limited ==> MeetsLimit(m)))
    && (n in res.refused && res.refused[n] in {NotAllOurs, AlreadyOnBase, BadBranchName} ==> !IsReady(v.prs, n))
  }

  /** Refused for lack of budget alone. */
  predicate HeldBack(refused: map<int, Why>, n: int) { n in refused && refused[n] == PastCap }

  predicate RefusesAtMost(out: Outcome, res: Outcome, n: int) {
    res.refused == out.refused || (n in res.refused && res.refused == out.refused[n := res.refused[n]])
  }

  /** One pull request of a whole pass. */
  method Consider(w: World, m: Meets, promotes: bool, held: map<string, bool>, pr: PR, budget: nat, out: Outcome)
    returns (v: World, left: nat, res: Outcome, err: Error)
    requires Distinct(w.prs) && pr in w.prs && pr.number !in out.refused && pr.number !in out.rebuilt
    requires !IsEntryEdit(pr.labels)
    ensures Considered(pr, held, m, budget, w, out, v, left, res, err)
  {
    v, left, res, err := w, budget, out, NoError;
    if m.state.None? { return v, left, res, if m.readLimited then Limited else Plain; }
    var st := m.state.value;
    if st.mergeable != Some(false) { return; }
    if !(ENTRY_BRANCH_PREFIX <= st.branch) {
      return v, left, res.(refused := res.refused[pr.number := NotEntryBranch]), NoError;
    }
    if Ready !in pr.labels && !IsHeld(held, pr) {
      return v, left, res.(refused := res.refused[pr.number := NothingEarned]), NoError;
    }
    if Rebuildable(st) {
      if left == 0 {
        return v, left, res.(refused := res.refused[pr.number := PastCap]), NoError;
      }
      left := left - 1;
    }
    v, res, err := Refresh(v, m, promotes, pr, st, res);
  }

  predicate IsLabelled(pr: PR) { Ready in pr.labels }

  predicate IsUnlabelled(pr: PR) { Ready !in pr.labels }

  predicate LabelsLead(q: seq<PR>) { forall i, j :: 0 <= i < j < |q| && Ready in q[j].labels ==> Ready in q[i].labels }

  /** The order of a pass: the listing sorted stably, ready-to-merge first. */
  function PassOrder(prs: seq<PR>): seq<PR> {
    Pick(Listed(prs, Runlore), IsLabelled) + Pick(Listed(prs, Runlore), IsUnlabelled)
  }

  lemma PassOrderSorts(prs: seq<PR>)
    requires Distinct(prs)
    ensures Distinct(PassOrder(prs)) && LabelsLead(PassOrder(prs))
    ensures forall pr :: pr in PassOrder(prs) <==> pr in prs && Runlore in pr.labels
  {
    ListedAre(prs, Runlore);
    var all := Listed(prs, Runlore);
    var l, u := Pick(all, IsLabelled), Pick(all, IsUnlabelled);
    Picks(all, IsLabelled);
    Picks(all, IsUnlabelled);
    forall i, j | 0 <= i < |l| && 0 <= j < |u| ensures l[i].number != u[j].number {
      assert l[i] in l && u[j] in u && l[i] != u[j];
    }
    assert forall i :: 0 <= i < |l| ==> l[i] in l && Ready in l[i].labels;
    assert forall j :: 0 <= j < |u| ==> u[j] in u && Ready !in u[j].labels;
  }

  /** Some pull request of the listing with that number earned its push. */
  predicate Justified(q: seq<PR>, held: map<string, bool>, o: int -> Meets, n: int) {
    exists k :: 0 <= k < |q| && q[k].number == n && Earned(q[k], held, o(n))
  }

  predicate Among(q: seq<PR>, i: nat, n: int)
    requires i <= |q|
  {
    exists k :: 0 <= k < i && q[k].number == n
  }

  /** No unlabelled branch is pushed while a labelled one was left past the cap. */
  ghost predicate LabelledFirst(q: seq<PR>, trace: seq<Event>, refused: map<int, Why>) {
    forall n, e :: HeldBack(refused, n) && IsReady(q, n) && e in trace && e.Push? ==> IsReady(q, e.number)
  }

  /** A whole pass over the listed pull requests. */
  method Once(prs: seq<PR>, o: int -> Meets, promotes: bool, held: map<string, bool>) returns (w: World, out: Outcome)
    requires Distinct(prs)
    ensures forall e :: e in w.trace && e.Push? ==> !e.ready && Justified(PassOrder(prs), held, o, e.number)
    ensures Pushes(w.trace) <= MAX_REBUILDS
    ensures LabelledFirst(PassOrder(prs), w.trace, out.refused)
    ensures forall n :: n in out.rebuilt ==> n !in out.refused && Push(n, false) in w.trace
    ensures forall n :: HeldBack(out.refused, n) ==>
              Untouched(w.trace, n) && EarnedCount(PassOrder(prs), held, o) > MAX_REBUILDS
    ensures !out.stopped ==> forall pr :: pr in prs && Runlore in pr.labels ==> Settled(out, held, pr, o(pr.number))
    ensures out.stopped ==> exists pr :: pr in PassOrder(prs) && MeetsLimit(o(pr.number))
    ensures SameNumbers(prs, w.prs)
  {
    PassOrderSorts(prs);
    ghost var looked, budget;
    w, out, looked, budget := Pass(prs, PassOrder(prs), o, promotes, held);
    EarnedCountGrows(PassOrder(prs), held, o, looked);
  }

  /** The loop over the sorted listing, up to the end or to the first rate limit. */
  method Pass(prs: seq<PR>, q: seq<PR>, o: int -> Meets, promotes: bool, held: map<string, bool>)
    returns (w: World, out: Outcome, ghost looked: nat, ghost left: nat)
    requires Distinct(prs) && Distinct(q) && LabelsLead(q) && forall pr :: pr in q ==> pr in prs
    ensures looked <= |q| && PassInv(prs, q, held, o, w, out, left, looked)
    ensures !out.stopped ==> forall pr :: pr in q ==> Settled(out, held, pr, o(pr.number))
    ensures out.stopped ==> exists k :: 0 <= k < |q| && MeetsLimit(o(q[k].number))
  {
    w, out := World(prs, []), Outcome([], map[], false, {});
    var budget: nat := MAX_REBUILDS;
    PassInvStarts(prs, q, held, o);
    for i := 0 to |q|
      invariant !out.stopped && PassInv(prs, q, held, o, w, out, budget, i)
      invariant forall j :: 0 <= j < i ==> Settled(out, held, q[j], o(q[j].number))
    {
      if IsEntryEdit(q[i].labels) {
        PassInvSkips(prs, q, held, o, w, out, budget, i);
        continue;
      }
      var err;
      w, budget, out, err := Visit(prs, q, o, promotes, held, w, budget, out, i);
      if err == Limited {
        return w, out.(stopped := true), i + 1, budget;
      }
    }
    looked, left := |q|, budget;
  }

  ghost predicate PassInv(
    prs: seq<PR>, q: seq<PR>, held: map<string, bool>, o: int -> Meets, w: World, out: Outcome, budget: nat, i: nat)
    requires i <= |q|
  {
    && ForgeInv(prs, q, w, i) && PushInv(q, held, o, w.trace, budget)
    && OutcomeInv(q, w.trace, out.refused, out.rebuilt, budget, i)
    && (forall n :: n in out.failed ==> Among(q, i, n))
    && BudgetInv(EarnedCount(q[..i], held, o), out.refused, budget)
  }

  lemma PassInvStarts(prs: seq<PR>, q: seq<PR>, held: map<string, bool>, o: int -> Meets)
    requires forall pr :: pr in q ==> pr in prs
    ensures PassInv(prs, q, held, o, World(prs, []), Outcome([], map[], false, {}), MAX_REBUILDS, 0)
  {
  }

  lemma PassInvSkips(
    prs: seq<PR>, q: seq<PR>, held: map<string, bool>, o: int -> Meets, w: World, out: Outcome, budget: nat, i: nat)
    requires i < |q| && IsEntryEdit(q[i].labels) && PassInv(prs, q, held, o, w, out, budget, i)
    ensures PassInv(prs, q, held, o, w, out, budget, i + 1)
  {
    EarnedCountNext(q, held, o, i);
    forall n | Among(q, i, n) ensures Among(q, i + 1, n) {
    }
  }

  /** One turn of the loop, with the invariants it keeps. */
  method Visit(
    ghost prs: seq<PR>, q: seq<PR>, o: int -> Meets, promotes: bool, held: map<string, bool>,
    w: World, budget: nat, out: Outcome, i: nat)
    returns (v: World, left: nat, res: Outcome, err: Error)
    requires Distinct(prs) && Distinct(q) && LabelsLead(q) && i < |q| && !IsEntryEdit(q[i].labels)
    requires PassInv(prs, q, held, o, w, out, budget, i) && !Among(q, i, q[i].number)
    ensures PassInv(prs, q, held, o, v, res, left, i + 1)
    ensures res.stopped == out.stopped
    ensures if err == Limited then MeetsLimit(o(q[i].number)) else Settled(res, held, q[i], o(q[i].number))
    ensures forall pr: PR :: pr.number != q[i].number && Settled(out, held, pr, o(pr.number)) ==>
              Settled(res, held, pr, o(pr.number))
  {
    v, left, res, err := Consider(w, o(q[i].number), promotes, held, q[i], budget, out);
    VisitKeepsInv(prs, q, o, held, w, budget, out, i, v, left, res, err);
    var fails := if err == Plain then {q[i].number} else {};
    VisitSettles(q[i], held, o, budget, w, out, v, left, res, err, fails);
    res := res.(failed := res.failed + fails);
  }

  lemma VisitKeepsInv(
    prs: seq<PR>, q: seq<PR>, o: int -> Meets, held: map<string, bool>, w: World, budget: nat, out: Outcome, i: nat,
    v: World, left: nat, res: Outcome, err: Error)
    requires Distinct(q) && LabelsLead(q) && i < |q|
    requires PassInv(prs, q, held, o, w, out, budget, i)
    requires Considered(q[i], held, o(q[i].number), budget, w, out, v, left, res, err)
    ensures PassInv(prs, q, held, o, v, res, left, i + 1)
  {
    assert ForgeInv(prs, q, v, i + 1) by { ForgeInvKept(prs, q, w, i, v); }
    assert PushInv(q, held, o, v.trace, left) by { PushInvKept(q, held, o, w, budget, i, v, left, out, res, err); }
    assert OutcomeInv(q, v.trace, res.refused, res.rebuilt, left, i + 1) by {
      assert !Among(q, i, q[i].number);
      OutcomeInvKept(q, held, o, w, budget, i, v, left, out, res, err);
    }
    assert BudgetInv(EarnedCount(q[..i + 1], held, o), res.refused, left) by {
      EarnedCountNext(q, held, o, i);
      BudgetInvKept(EarnedCount(q[..i], held, o), q[i], held, o(q[i].number), budget, w, out, v, left, res, err);
    }
    forall n | n in res.failed ensures Among(q, i + 1, n) { assert Among(q, i, n); }
  }

  lemma VisitSettles(
    pr: PR, held: map<string, bool>, o: int -> Meets, budget: nat, w: World, out: Outcome,
    v: World, left: nat, res: Outcome, err: Error, fails: set<int>)
    requires Considered(pr, held, o(pr.number), budget, w, out, v, left, res, err) && pr.number !in out.failed
    requires fails == if err == Plain then {pr.number} else {}
    ensures err == Limited || Settled(res.(failed := res.failed + fails), held, pr, o(pr.number))
    ensures forall p: PR :: p.number != pr.number && Settled(out, held, p, o(p.number)) ==>
              Settled(res.(failed := res.failed + fails), held, p, o(p.number))
  {
  }

  /** Pull requests not yet looked at stand on the forge as they were listed. */
  predicate ForgeInv(prs: seq<PR>, q: seq<PR>, w: World, i: nat)
    requires i <= |q|
  {
    && SameNumbers(prs, w.prs)
    && (forall j :: i <= j < |q| ==> q[j] in w.prs)
    && (forall e :: e in w.trace ==> Among(q, i, e.number))
  }

  predicate SameNumbers(prs: seq<PR>, now: seq<PR>) {
    |now| == |prs| && forall k :: 0 <= k < |prs| ==> now[k].number == prs[k].number
  }

  /** How many pull requests of the listing earn a push. */
  function EarnedCount(q: seq<PR>, held: map<string, bool>, o: int -> Meets): nat
    decreases |q|
  {
    if q == [] then 0 else
    var (init, pr) := (q[..|q| - 1], q[|q| - 1]);
    EarnedCount(init, held, o) + if Earned(pr, held, o(pr.number)) then 1 else 0
  }

  lemma EarnedCountNext(q: seq<PR>, held: map<string, bool>, o: int -> Meets, i: nat)
    requires i < |q|
    ensures EarnedCount(q[..i + 1], held, o) ==
            EarnedCount(q[..i], held, o) + if Earned(q[i], held, o(q[i].number)) then 1 else 0
  {
    assert q[..i + 1][..i] == q[..i];
  }

  lemma {:induction false} EarnedCountGrows(q: seq<PR>, held: map<string, bool>, o: int -> Meets, i: nat)
    requires i <= |q|
    ensures EarnedCount(q[..i], held, o) <= EarnedCount(q, held, o)
    decreases |q| - i
  {
    if i == |q| {
      assert q[..i] == q;
    } else {
      EarnedCountNext(q, held, o, i);
      EarnedCountGrows(q, held, o, i + 1);
    }
  }

  /** The budget is what the earners so far have left of it, and only an eleventh one is held back. */
  ghost predicate BudgetInv(earned: nat, refused: map<int, Why>, budget: nat) {
    && budget == (if earned < MAX_REBUILDS then MAX_REBUILDS - earned else 0)
    && forall n :: HeldBack(refused, n) ==> earned > MAX_REBUILDS
  }

  predicate PushInv(q: seq<PR>, held: map<string, bool>, o: int -> Meets, trace: seq<Event>, budget: nat) {
    && (forall e :: e in trace && e.Push? ==> !e.ready && Justified(q, held, o, e.number))
    && Pushes(trace) + budget <= MAX_REBUILDS
  }

  ghost predicate OutcomeInv(
    q: seq<PR>, trace: seq<Event>, refused: map<int, Why>, rebuilt: seq<int>, budget: nat, i: nat)
    requires i <= |q|
  {
    && (forall n :: n in refused || n in rebuilt ==> Among(q, i, n))
    && (forall n :: n in refused ==> n !in rebuilt)
    && (forall n :: n in rebuilt ==> Push(n, false) in trace)
    && (forall n :: HeldBack(refused, n) ==> budget == 0 && Untouched(trace, n))
    && LabelledFirst(q, trace, refused)
  }

  predicate Untouched(trace: seq<Event>, n: int) { forall e :: e in trace ==> e.number != n }

  lemma ForgeInvKept(prs: seq<PR>, q: seq<PR>, w: World, i: nat, v: World)
    requires Distinct(q) && i < |q| && ForgeInv(prs, q, w, i)
    requires OnlyReadyOf(w.prs, v.prs, q[i].number)
    requires forall e :: e in v.trace ==> e in w.trace || e.number == q[i].number
    ensures ForgeInv(prs, q, v, i + 1)
  {
    forall j | i + 1 <= j < |q| ensures q[j] in v.prs {
      var k :| 0 <= k < |w.prs| && w.prs[k] == q[j];
      assert v.prs[k] == q[j];
    }
    forall e | e in v.trace ensures Among(q, i + 1, e.number) {
      assert e in w.trace ==> Among(q, i, e.number);
    }
  }

  lemma PushInvKept(
    q: seq<PR>, held: map<string, bool>, o: int -> Meets, w: World, budget: nat, i: nat,
    v: World, left: nat, out: Outcome, res: Outcome, err: Error)
    requires i < |q| && PushInv(q, held, o, w.trace, budget)
    requires Considered(q[i], held, o(q[i].number), budget, w, out, v, left, res, err)
    ensures PushInv(q, held, o, v.trace, left)
  {
  }

  lemma BudgetInvKept(
    earned: nat, pr: PR, held: map<string, bool>, m: Meets, budget: nat, w: World, out: Outcome,
    v: World, left: nat, res: Outcome, err: Error)
    requires BudgetInv(earned, out.refused, budget) && Considered(pr, held, m, budget, w, out, v, left, res, err)
    ensures BudgetInv(earned + if Earned(pr, held, m) then 1 else 0, res.refused, left)
  {
    forall n | HeldBack(res.refused, n) ensures earned + (if Earned(pr, held, m) then 1 else 0) > MAX_REBUILDS {
      if n != pr.number { assert HeldBack(out.refused, n); }
    }
  }

  lemma OutcomeInvKept(
    q: seq<PR>, held: map<string, bool>, o: int -> Meets, w: World, budget: nat, i: nat,
    v: World, left: nat, out: Outcome, res: Outcome, err: Error)
    requires i < |q| && Distinct(q) && OutcomeInv(q, w.trace, out.refused, out.rebuilt, budget, i)
    requires !Among(q, i, q[i].number)
    requires LabelsLead(q)
    requires forall e :: e in w.trace ==> Among(q, i, e.number)
    requires Considered(q[i], held, o(q[i].number), budget, w, out, v, left, res, err)
    ensures OutcomeInv(q, v.trace, res.refused, res.rebuilt, left, i + 1)
  {
    var n := q[i].number;
    forall x | x in res.refused || x in res.rebuilt ensures Among(q, i + 1, x) {
      assert x != n ==> Among(q, i, x);
    }
    forall x | HeldBack(res.refused, x) ensures left == 0 && Untouched(v.trace, x) {
      if x != n { assert HeldBack(out.refused, x); }
    }
    forall x, e | HeldBack(res.refused, x) && IsReady(q, x) && e in v.trace && e.Push? ensures IsReady(q, e.number) {
      if x == n {
        assert e in w.trace && Among(q, i, e.number);
      } else {
        assert HeldBack(out.refused, x) && e in w.trace;
      }
    }
  }
}
