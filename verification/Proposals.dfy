/**
 Retirement and revalidation proposals. The passes keep no store: an open proposal on the
 forge means "already asked" and one closed without merging means "a human declined". What a
 pass can see is what carries its label.

 The machine interleaves sweeps with humans, who close, merge and label by hand, and with the
 three passes that close pull requests. Opening a proposal is several calls: it can fail after the pull request
 exists, before or after the label is on it.
 */
module Proposing {
  import opened Common
  import opened Forge
  import opened Calibrating
  import D = Deduping
  import S = Sweeping

  datatype Kind = Retiring | Revalidating

  datatype Marker = Marker(kind: Kind, path: string)

  datatype Status = Open | Merged | Closed(byHuman: bool)

  /** A pull request; a proposal carries its marker in the body and no fingerprint. */
  datatype Item = Item(marker: Option<Marker>, labels: set<Label>, fp: string, status: Status)

  type World = seq<Item>

  function LabelOf(kind: Kind): Label { if kind == Retiring then Retire else Revalidate }

  predicate IsVisible(it: Item, m: Marker) { it.marker == Some(m) && LabelOf(m.kind) in it.labels }

  // ---- One sweep --------------------------------------------------------------------------------

  /** What a failed opening leaves behind. */
  datatype Left = Nothing | Labelled | Unlabelled

  datatype OpenReply = Opened | NotWarranted | OpenFails(left: Left)

  function New(m: Marker, labelled: bool): Item {
    Item(Some(m), if labelled then {Runlore, LabelOf(m.kind)} else {}, "", Open)
  }

  /** The pass sees a proposal for this entry that is open or was declined. */
  predicate Blocked(w: World, m: Marker) {
    exists i :: 0 <= i < |w| && IsVisible(w[i], m) && (w[i].status.Open? || w[i].status.Closed?)
  }

  /** The pull requests one candidate adds. */
  function Adds(w: World, m: Marker, r: OpenReply): seq<Item> {
    if Blocked(w, m) then [] else
    match r
    case Opened => [New(m, true)]
    case NotWarranted => []
    case OpenFails(left) => if left.Nothing? then [] else [New(m, left.Labelled?)]
  }

  /** What one candidate costs of the budget: only an opening that succeeded counts. */
  function Cost(w: World, m: Marker, r: OpenReply): nat { if !Blocked(w, m) && r.Opened? then 1 else 0 }

  datatype Swept = Swept(added: seq<Item>, budget: Option<int>)

  predicate Spent(budget: Option<int>) { budget.Some? && budget.value <= 0 }

  /** Candidates in order, each judged against the listings taken at the start; no budget means no bound. */
  function Sweep(w: World, kind: Kind, paths: seq<string>, o: string -> OpenReply, budget: Option<int>): Swept
    decreases |paths|
  {
    if paths == [] then Swept([], budget) else
    var (before, p) := (Sweep(w, kind, paths[..|paths| - 1], o, budget), paths[|paths| - 1]);
    if Spent(before.budget) then before else
    var (m, r) := (Marker(kind, p), o(p));
    Swept(before.added + Adds(w, m, r),
          if before.budget.Some? then Some(before.budget.value - Cost(w, m, r)) else None)
  }

  /** Which open proposals are counted: those the pass can list by their label, those it cannot, or all. */
  datatype View = Listed | Hidden | All

  predicate Counts(it: Item, kind: Kind, view: View) {
    var ours := it.marker.Some? && it.marker.value.kind == kind;
    it.status.Open? &&
    match view
    case Listed => LabelOf(kind) in it.labels
    case Hidden => ours && LabelOf(kind) !in it.labels
    case All => ours
  }

  function OpenCount(w: World, kind: Kind, view: View): nat
    decreases |w|
  {
    if w == [] then 0 else
    var (init, it) := (w[..|w| - 1], w[|w| - 1]);
    OpenCount(init, kind, view) + if Counts(it, kind, view) then 1 else 0
  }

  function EffectiveMax(maxOpen: int): int { if maxOpen <= 0 then 5 else maxOpen }

  /** The budget a sweep starts with: none for retirement, the free review slots for revalidation. */
  function BudgetOf(w: World, kind: Kind, maxOpen: int): Option<int> {
    if kind == Retiring then None else Some(EffectiveMax(maxOpen) - OpenCount(w, kind, Listed))
  }

  /** The loop both passes share. */
  method Propose(w: World, kind: Kind, paths: seq<string>, o: string -> OpenReply, maxOpen: int) returns (v: World)
    ensures v == w + Sweep(w, kind, paths, o, BudgetOf(w, kind, maxOpen)).added
  {
    var budget := BudgetOf(w, kind, maxOpen);
    ghost var start, added: seq<Item> := budget, [];
    v := w;
    for i := 0 to |paths|
      invariant Swept(added, budget) == Sweep(w, kind, paths[..i], o, start) && v == w + added
    {
      assert paths[..i + 1][..i] == paths[..i];
      if Spent(budget) {
        SpentStays(w, kind, paths, o, start, i);
        return;
      }
      var m, r := Marker(kind, paths[i]), o(paths[i]);
      v := v + Adds(w, m, r);
      added := added + Adds(w, m, r);
      if budget.Some? { budget := Some(budget.value - Cost(w, m, r)); }
    }
    assert paths[..|paths|] == paths;
  }

  lemma {:induction false} SpentStays(
    w: World, kind: Kind, paths: seq<string>, o: string -> OpenReply, budget: Option<int>, i: nat)
    requires i <= |paths| && Spent(Sweep(w, kind, paths[..i], o, budget).budget)
    ensures Sweep(w, kind, paths, o, budget) == Sweep(w, kind, paths[..i], o, budget)
    decreases |paths| - i
  {
    if i == |paths| {
      assert paths[..i] == paths;
    } else {
      assert paths[..i + 1][..i] == paths[..i];
      SpentStays(w, kind, paths, o, budget, i + 1);
    }
  }

  /** The entries a test accepts, in order. */
  function Where(ledger: map<string, Aggregate>, paths: seq<string>, want: Aggregate -> bool): seq<string>
    decreases |paths|
  {
    if paths == [] then [] else
    var (init, p) := (Where(ledger, paths[..|paths| - 1], want), paths[|paths| - 1]);
    if p in ledger && want(ledger[p]) then init + [p] else init
  }

  lemma {:induction false} WhereAre(ledger: map<string, Aggregate>, paths: seq<string>, want: Aggregate -> bool)
    ensures forall p :: p in Where(ledger, paths, want) <==> p in paths && p in ledger && want(ledger[p])
    ensures NoRepeats(paths) ==> NoRepeats(Where(ledger, paths, want))
    decreases |paths|
  {
    if paths != [] {
      assert paths == paths[..|paths| - 1] + [paths[|paths| - 1]];
      WhereAre(ledger, paths[..|paths| - 1], want);
    }
  }

  predicate NoRepeats(paths: seq<string>) { forall i, j :: 0 <= i < j < |paths| ==> paths[i] != paths[j] }

  /** `paths` are the ledger's entries in sorted order; `listFails` covers both listings. */
  method RunRetirement(w: World, r: Retirement, ledger: map<string, Aggregate>, paths: seq<string>, live: bool,
                       o: string -> OpenReply, listFails: bool)
    returns (v: World)
    ensures var cands := Where(ledger, paths, a => RetireCandidate(r, a, live));
            v == if listFails then w else w + Sweep(w, Retiring, cands, o, None).added
  {
    var cands := Select(ledger, paths, a => RetireCandidate(r, a, live));
    if |cands| == 0 || listFails { return w; }
    v := Propose(w, Retiring, cands, o, 0);
  }

  method RunRevalidation(w: World, c: Revalidation, ledger: map<string, Aggregate>, paths: seq<string>,
                         o: string -> OpenReply, listFails: bool)
    returns (v: World)
    ensures var cands := Where(ledger, paths, a => RevalidateCandidate(c, a));
            v == if listFails then w
                 else w + Sweep(w, Revalidating, cands, o, BudgetOf(w, Revalidating, c.maxOpen)).added
  {
    var cands := Select(ledger, paths, a => RevalidateCandidate(c, a));
    if |cands| == 0 || listFails { return w; }
    v := Propose(w, Revalidating, cands, o, c.maxOpen);
  }

  method Select(ledger: map<string, Aggregate>, paths: seq<string>, want: Aggregate -> bool)
    returns (cands: seq<string>)
    ensures cands == Where(ledger, paths, want)
  {
    cands := [];
    for i := 0 to |paths|
      invariant cands == Where(ledger, paths[..i], want)
    {
      assert paths[..i + 1][..i] == paths[..i];
      if paths[i] in ledger && want(ledger[paths[i]]) { cands := cands + [paths[i]]; }
    }
    assert paths[..|paths|] == paths;
  }

  // ---- What a sweep adds ---------------------------------------------------------------------------

  /** A fresh open proposal for one of the candidates, none of which the pass had on the forge. */
  predicate IsFresh(w: World, kind: Kind, paths: seq<string>, it: Item) {
    && it.marker.Some? && it.marker.value.kind == kind && it.marker.value.path in paths
    && !Blocked(w, it.marker.value)
    && (it == New(it.marker.value, true) || it == New(it.marker.value, false))
  }

  predicate AllFresh(w: World, kind: Kind, paths: seq<string>, added: seq<Item>) {
    && (forall k :: 0 <= k < |added| ==> IsFresh(w, kind, paths, added[k]))
    && (forall k, l :: 0 <= k < l < |added| ==> added[k].marker != added[l].marker)
  }

  lemma {:induction false} SweepAdds(
    w: World, kind: Kind, paths: seq<string>, o: string -> OpenReply, budget: Option<int>)
    requires NoRepeats(paths)
    ensures AllFresh(w, kind, paths, Sweep(w, kind, paths, o, budget).added)
    decreases |paths|
  {
    if paths != [] {
      var init, p := paths[..|paths| - 1], paths[|paths| - 1];
      SweepAdds(w, kind, init, o, budget);
      FreshWithOneMore(w, kind, paths, Sweep(w, kind, init, o, budget).added, o(p));
    }
  }

  lemma FreshWithOneMore(w: World, kind: Kind, paths: seq<string>, before: seq<Item>, r: OpenReply)
    requires NoRepeats(paths) && paths != [] && AllFresh(w, kind, paths[..|paths| - 1], before)
    ensures AllFresh(w, kind, paths, before)
    ensures AllFresh(w, kind, paths, before + Adds(w, Marker(kind, paths[|paths| - 1]), r))
  {
    var init, p := paths[..|paths| - 1], paths[|paths| - 1];
    assert paths == init + [p] && p !in init;
    forall k | 0 <= k < |before|
      ensures IsFresh(w, kind, paths, before[k]) && before[k].marker != Some(Marker(kind, p))
    {
      assert IsFresh(w, kind, init, before[k]);
    }
    var more := Adds(w, Marker(kind, p), r);
    assert |more| <= 1 && forall k :: 0 <= k < |more| ==> more[k].marker == Some(Marker(kind, p));
  }

  /** The opening of this entry would leave a pull request: the pass sees no proposal for it, and the opening
      succeeds or fails with the pull request there. */
  predicate Would(w: World, kind: Kind, o: string -> OpenReply, p: string) {
    !Blocked(w, Marker(kind, p)) && LeavesOne(o(p))
  }

  /** The opening would succeed, which is what the budget is charged for. */
  predicate Succeeds(w: World, kind: Kind, o: string -> OpenReply, p: string) {
    !Blocked(w, Marker(kind, p)) && o(p).Opened?
  }

  function Successes(w: World, kind: Kind, paths: seq<string>, o: string -> OpenReply): nat
    decreases |paths|
  {
    if paths == [] then 0 else
    var (init, p) := (paths[..|paths| - 1], paths[|paths| - 1]);
    Successes(w, kind, init, o) + if Succeeds(w, kind, o, p) then 1 else 0
  }

  /** The budget is more than that many successful openings. */
  predicate HasSlot(budget: Option<int>, successes: nat) { budget.Some? ==> successes < budget.value }

  /** The k-th candidate's turn leaves a pull request: the successful openings before it leave it a slot, and its
      own opening would leave one. */
  predicate OpensAt(w: World, kind: Kind, paths: seq<string>, o: string -> OpenReply, budget: Option<int>, k: nat) {
    k < |paths| && HasSlot(budget, Successes(w, kind, paths[..k], o)) && Would(w, kind, o, paths[k])
  }

  /** The candidates' turns go on exactly while those before leave a slot. */
  lemma {:induction false} SpentIff(
    w: World, kind: Kind, paths: seq<string>, o: string -> OpenReply, budget: Option<int>)
    ensures var left, n := Sweep(w, kind, paths, o, budget).budget, Successes(w, kind, paths, o);
            && (left.None? <==> budget.None?) && (Spent(left) <==> !HasSlot(budget, n))
            && (budget.Some? && !Spent(left) ==> left == Some(budget.value - n))
    decreases |paths|
  {
    if paths != [] {
      var init, p := paths[..|paths| - 1], paths[|paths| - 1];
      SpentIff(w, kind, init, o, budget);
      assert Cost(w, Marker(kind, p), o(p)) == if Succeeds(w, kind, o, p) then 1 else 0;
    }
  }

  predicate LeavesOne(r: OpenReply) { r.Opened? || (r.OpenFails? && !r.left.Nothing?) }

  predicate Proposes(added: seq<Item>, m: Marker) { exists j :: 0 <= j < |added| && added[j].marker == Some(m) }

  predicate Opens(w: World, kind: Kind, paths: seq<string>, o: string -> OpenReply, budget: Option<int>, p: string) {
    exists k :: 0 <= k < |paths| && paths[k] == p && OpensAt(w, kind, paths, o, budget, k)
  }

  /** A sweep proposes an entry exactly when the successful openings before it leave it a slot and its own opening
      would leave a pull request. */
  lemma {:induction false} SweepProposesIff(
    w: World, kind: Kind, paths: seq<string>, o: string -> OpenReply, budget: Option<int>, p: string)
    ensures Proposes(Sweep(w, kind, paths, o, budget).added, Marker(kind, p)) <==> Opens(w, kind, paths, o, budget, p)
    decreases |paths|
  {
    if paths != [] {
      var init, last := paths[..|paths| - 1], paths[|paths| - 1];
      SweepProposesIff(w, kind, init, o, budget, p);
      SpentIff(w, kind, init, o, budget);
      OpensWithOneMore(w, kind, paths, o, budget, p);
      var before := Sweep(w, kind, init, o, budget);
      if !Spent(before.budget) {
        ProposesConcat(before.added, Adds(w, Marker(kind, last), o(last)), Marker(kind, p));
        AddsProposes(w, Marker(kind, last), o(last), Marker(kind, p));
      }
    }
  }

  lemma AddsProposes(w: World, m: Marker, r: OpenReply, other: Marker)
    ensures Proposes(Adds(w, m, r), other) <==> m == other && !Blocked(w, m) && LeavesOne(r)
  {
    var more := Adds(w, m, r);
    if !Blocked(w, m) && LeavesOne(r) { assert more[0].marker == Some(m); }
  }

  lemma ProposesConcat(x: seq<Item>, y: seq<Item>, m: Marker)
    ensures Proposes(x + y, m) <==> Proposes(x, m) || Proposes(y, m)
  {
    if Proposes(x, m) {
      var j :| 0 <= j < |x| && x[j].marker == Some(m);
      assert (x + y)[j].marker == Some(m);
    }
    if Proposes(y, m) {
      var j :| 0 <= j < |y| && y[j].marker == Some(m);
      assert (x + y)[|x| + j].marker == Some(m);
    }
  }

  lemma OpensWithOneMore(
    w: World, kind: Kind, paths: seq<string>, o: string -> OpenReply, budget: Option<int>, p: string)
    requires paths != []
    ensures var init, last := paths[..|paths| - 1], |paths| - 1;
            Opens(w, kind, paths, o, budget, p) <==>
            Opens(w, kind, init, o, budget, p) || (paths[last] == p && OpensAt(w, kind, paths, o, budget, last))
  {
    var init := paths[..|paths| - 1];
    forall k: nat | k < |init| ensures OpensAt(w, kind, init, o, budget, k) <==> OpensAt(w, kind, paths, o, budget, k) {
      assert init[..k] == paths[..k];
    }
    if Opens(w, kind, init, o, budget, p) {
      var k :| 0 <= k < |init| && init[k] == p && OpensAt(w, kind, init, o, budget, k);
      assert paths[k] == p && OpensAt(w, kind, paths, o, budget, k);
    }
  }

  /** Openings that failed with the pull request there: none of them is charged to the budget. */
  function Slips(paths: seq<string>, o: string -> OpenReply, left: Left): nat
    decreases |paths|
  {
    if paths == [] then 0
    else Slips(paths[..|paths| - 1], o, left) + if o(paths[|paths| - 1]) == OpenFails(left) then 1 else 0
  }

  lemma {:induction false} OpenCountConcat(w: World, v: World, kind: Kind, view: View)
    ensures OpenCount(w + v, kind, view) == OpenCount(w, kind, view) + OpenCount(v, kind, view)
    decreases |v|
  {
    if v == [] {
      assert w + v == w;
    } else {
      OpenCountConcat(w, v[..|v| - 1], kind, view);
      assert (w + v)[..|w + v| - 1] == w + v[..|v| - 1];
    }
  }

  lemma {:induction false} SweepWithinBudget(
    w: World, kind: Kind, paths: seq<string>, o: string -> OpenReply, budget: int)
    ensures var s := Sweep(w, kind, paths, o, Some(budget));
            && s.budget.Some? && (s.budget.value == budget || s.budget.value >= 0)
            && OpenCount(s.added, kind, Listed) <= budget - s.budget.value + Slips(paths, o, Labelled)
            && OpenCount(s.added, kind, Hidden) <= Slips(paths, o, Unlabelled)
    decreases |paths|
  {
    if paths != [] {
      var init, p := paths[..|paths| - 1], paths[|paths| - 1];
      SweepWithinBudget(w, kind, init, o, budget);
      var before, m := Sweep(w, kind, init, o, Some(budget)), Marker(kind, p);
      OpenCountConcat(before.added, Adds(w, m, o(p)), kind, Listed);
      OpenCountConcat(before.added, Adds(w, m, o(p)), kind, Hidden);
      AddsCount(w, m, o(p));
    }
  }

  lemma AddsCount(w: World, m: Marker, r: OpenReply)
    ensures OpenCount(Adds(w, m, r), m.kind, Listed) <= Cost(w, m, r) + if r == OpenFails(Labelled) then 1 else 0
    ensures OpenCount(Adds(w, m, r), m.kind, Hidden) <= if r == OpenFails(Unlabelled) then 1 else 0
  {
    var more := Adds(w, m, r);
    if more != [] { assert more[..|more| - 1] == []; }
  }

  // ---- The machine --------------------------------------------------------------------------------

  datatype Pass = DedupPass | StalePass | SuppressPass

  /** What each closing pass demands of a pull request at least, as their own contracts state it. */
  predicate MayClose(pass: Pass, it: Item) {
    Runlore in it.labels && !IsProtected(it.labels) &&
    match pass
    case DedupPass => !IsAutoCloseExempt(it.labels)
    case StalePass => !IsEntryEdit(it.labels)
    case SuppressPass => it.fp != ""
  }

  /** The passes' own contracts imply MayClose, and rule out every visible proposal. */
  lemma PassesMayClose(
    pr: PR, it: Item, now: int, staleAfter: int, o: int -> CloseReplies, suppressed: map<string, S.Entry>,
    updated: Option<int>, rule: D.Rule, canon: map<int, int>, c: PR)
    requires it.labels == pr.labels && it.fp == pr.fp && Runlore in pr.labels
    ensures S.IsStale(S.Aged(pr, updated), now, staleAfter) ==> MayClose(StalePass, it)
    ensures S.IsRedraft(pr, suppressed, o, pr.number) ==> MayClose(SuppressPass, it)
    ensures D.IsStar(rule, canon, pr, c) ==> MayClose(DedupPass, it)
    ensures it.marker.Some? && ItemOk(it) ==> forall pass :: !MayClose(pass, it)
  {
  }

  datatype Step =
    | HumanCloses(i: nat)
    | HumanMerges(i: nat)
    | HumanLabels(i: nat, labels: set<Label>)
    | PassCloses(i: nat, pass: Pass)
    | Drafts(it: Item)
    | Sweeps(kind: Kind, paths: seq<string>, o: string -> OpenReply, maxOpen: int)

  predicate Can(w: World, s: Step) {
    match s
    case HumanCloses(i) => i < |w| && w[i].status.Open?
    case HumanMerges(i) => i < |w| && w[i].status.Open?
    case HumanLabels(i, labels) =>
      i < |w| && w[i].marker.Some? && w[i].labels == {} && Bears(w[i].marker.value.kind, labels)
    case PassCloses(i, pass) => i < |w| && w[i].status.Open? && MayClose(pass, w[i])
    case Drafts(it) => it.marker.None? && it.status.Open? && !IsEntryEdit(it.labels)
    case Sweeps(_, paths, _, _) => NoRepeats(paths)
  }

  function Next(w: World, s: Step): World
    requires Can(w, s)
  {
    match s
    case HumanCloses(i) => w[i := w[i].(status := Closed(true))]
    case HumanMerges(i) => w[i := w[i].(status := Merged)]
    case HumanLabels(i, labels) => w[i := w[i].(labels := labels)]
    case PassCloses(i, _) => w[i := w[i].(status := Closed(false))]
    case Drafts(it) => w + [it]
    case Sweeps(kind, paths, o, maxOpen) => w + Sweep(w, kind, paths, o, BudgetOf(w, kind, maxOpen)).added
  }

  /** Labels that show a proposal of this kind and not of the other. */
  predicate Bears(kind: Kind, labels: set<Label>) {
    LabelOf(kind) in labels && LabelOf(if kind.Retiring? then Revalidating else Retiring) !in labels
  }

  predicate ItemOk(it: Item) {
    match it.marker
    case None => !IsEntryEdit(it.labels)
    case Some(m) => it.fp == "" && (it.labels == {} || Bears(m.kind, it.labels)) && it.status != Closed(false)
  }

  predicate BothOpen(a: Item, b: Item) {
    a.status.Open? && b.status.Open? && a.marker.Some? && a.marker == b.marker && a.labels != {} && b.labels != {}
  }

  /** A proposal closed without merging was closed by a human. */
  predicate Inv(w: World) { forall i :: 0 <= i < |w| ==> ItemOk(w[i]) }

  /** Of the open proposals the passes can see no two are of one kind for one entry. */
  predicate VisibleSingle(w: World) { forall i, j :: 0 <= i < j < |w| ==> !BothOpen(w[i], w[j]) }

  lemma StepKeepsInv(w: World, s: Step)
    requires Inv(w) && Can(w, s)
    ensures Inv(Next(w, s))
  {
    if s.Sweeps? {
      var added := Sweep(w, s.kind, s.paths, s.o, BudgetOf(w, s.kind, s.maxOpen)).added;
      SweepAdds(w, s.kind, s.paths, s.o, BudgetOf(w, s.kind, s.maxOpen));
      assert forall k :: 0 <= k < |added| ==> IsFresh(w, s.kind, s.paths, added[k]) && ItemOk(added[k]);
    }
  }

  /** A human labels an open proposal while another open one of its kind for its entry carries its label. */
  predicate LabelsSecond(w: World, s: Step) {
    s.HumanLabels? && s.i < |w| && w[s.i].status.Open? &&
    exists j :: 0 <= j < |w| && j != s.i && w[j].status.Open? && w[j].marker == w[s.i].marker && w[j].labels != {}
  }

  /** No pass makes two visible open proposals of one kind for one entry; a human does exactly by labelling a
      second one. */
  lemma StepKeepsVisibleIff(w: World, s: Step)
    requires Inv(w) && VisibleSingle(w) && Can(w, s)
    ensures VisibleSingle(Next(w, s)) <==> !LabelsSecond(w, s)
  {
    if s.Sweeps? {
      SweepKeepsVisible(w, s.kind, s.paths, s.o, BudgetOf(w, s.kind, s.maxOpen));
    } else if s.HumanLabels? {
      LabellingKeepsVisibleIff(w, s);
    }
  }

  lemma LabellingKeepsVisibleIff(w: World, s: Step)
    requires VisibleSingle(w) && Can(w, s) && s.HumanLabels?
    ensures VisibleSingle(Next(w, s)) <==> !LabelsSecond(w, s)
  {
    var v := Next(w, s);
    if LabelsSecond(w, s) {
      var j :| 0 <= j < |w| && j != s.i && w[j].status.Open? && w[j].marker == w[s.i].marker && w[j].labels != {};
      assert BothOpen(v[s.i], v[j]) && BothOpen(v[j], v[s.i]);
    }
  }

  lemma SweepKeepsVisible(w: World, kind: Kind, paths: seq<string>, o: string -> OpenReply, budget: Option<int>)
    requires Inv(w) && VisibleSingle(w) && NoRepeats(paths)
    ensures VisibleSingle(w + Sweep(w, kind, paths, o, budget).added)
  {
    SweepAdds(w, kind, paths, o, budget);
    var added := Sweep(w, kind, paths, o, budget).added;
    forall i, k | 0 <= i < |w| && 0 <= k < |added| ensures !BothOpen(w[i], added[k]) {
      assert IsFresh(w, kind, paths, added[k]) && ItemOk(w[i]);
      if BothOpen(w[i], added[k]) { assert IsVisible(w[i], added[k].marker.value); }
    }
  }

  // ---- Runs -----------------------------------------------------------------------------------------

  ghost predicate Run(worlds: seq<World>, steps: seq<Step>) {
    && |worlds| == |steps| + 1
    && (forall i :: 0 <= i < |steps| ==> Moves(worlds[i], steps[i], worlds[i + 1]))
  }

  predicate Moves(w: World, s: Step, v: World) { Can(w, s) && v == Next(w, s) }

  /** Over every interleaving, a proposal closed unmerged was closed by a human. */
  lemma {:induction false} RunKeepsInv(worlds: seq<World>, steps: seq<Step>, n: nat)
    requires Run(worlds, steps) && Inv(worlds[0]) && n < |worlds|
    ensures Inv(worlds[n])
  {
    if n > 0 {
      RunKeepsInv(worlds, steps, n - 1);
      assert Moves(worlds[n - 1], steps[n - 1], worlds[n - 1 + 1]);
      StepKeepsInv(worlds[n - 1], steps[n - 1]);
    }
  }

  /** Over every interleaving, no two open proposals the passes can see are of one kind for one entry if and only if
      no human labels a second one. */
  lemma RunStaysVisibleIff(worlds: seq<World>, steps: seq<Step>)
    requires Run(worlds, steps) && Inv(worlds[0]) && VisibleSingle(worlds[0])
    ensures (forall n :: 0 <= n < |worlds| ==> VisibleSingle(worlds[n])) <==>
            (forall i :: 0 <= i < |steps| ==> !LabelsSecond(worlds[i], steps[i]))
  {
    if forall n :: 0 <= n < |worlds| ==> VisibleSingle(worlds[n]) {
      forall i | 0 <= i < |steps| ensures !LabelsSecond(worlds[i], steps[i]) {
        assert Moves(worlds[i], steps[i], worlds[i + 1]) && VisibleSingle(worlds[i]) && VisibleSingle(worlds[i + 1]);
        RunKeepsInv(worlds, steps, i);
        StepKeepsVisibleIff(worlds[i], steps[i]);
      }
    }
    if forall i :: 0 <= i < |steps| ==> !LabelsSecond(worlds[i], steps[i]) {
      forall n | 0 <= n < |worlds| ensures VisibleSingle(worlds[n]) { VisibleSoFar(worlds, steps, n); }
    }
  }

  lemma {:induction false} VisibleSoFar(worlds: seq<World>, steps: seq<Step>, n: nat)
    requires Run(worlds, steps) && Inv(worlds[0]) && VisibleSingle(worlds[0]) && n < |worlds|
    requires forall i :: 0 <= i < |steps| ==> !LabelsSecond(worlds[i], steps[i])
    ensures VisibleSingle(worlds[n])
  {
    if n > 0 {
      VisibleSoFar(worlds, steps, n - 1);
      RunKeepsInv(worlds, steps, n - 1);
      assert Moves(worlds[n - 1], steps[n - 1], worlds[n - 1 + 1]) && !LabelsSecond(worlds[n - 1], steps[n - 1]);
      StepKeepsVisibleIff(worlds[n - 1], steps[n - 1]);
    }
  }

  predicate Vetoed(w: World, i: nat, m: Marker) { i < |w| && IsVisible(w[i], m) && w[i].status.Closed? }

  predicate NoneAfter(w: World, from: nat, m: Marker) { forall j :: from <= j < |w| ==> w[j].marker != Some(m) }

  lemma StepKeepsVeto(w: World, s: Step, i: nat, m: Marker, from: nat)
    requires Can(w, s) && Vetoed(w, i, m) && from <= |w| && NoneAfter(w, from, m)
    ensures Vetoed(Next(w, s), i, m) && |w| <= |Next(w, s)| && NoneAfter(Next(w, s), from, m)
  {
    if s.Sweeps? {
      var added := Sweep(w, s.kind, s.paths, s.o, BudgetOf(w, s.kind, s.maxOpen)).added;
      SweepAdds(w, s.kind, s.paths, s.o, BudgetOf(w, s.kind, s.maxOpen));
      assert Blocked(w, m);
      forall k | 0 <= k < |added| ensures added[k].marker != Some(m) {
        assert IsFresh(w, s.kind, s.paths, added[k]);
      }
    }
  }

  /** A veto is for good: after a proposal was declined, no step ever proposes that entry that way again. */
  lemma {:induction false} VetoIsFinal(worlds: seq<World>, steps: seq<Step>, t: nat, n: nat, i: nat, m: Marker)
    requires Run(worlds, steps) && t <= n < |worlds| && Vetoed(worlds[t], i, m)
    ensures Vetoed(worlds[n], i, m) && |worlds[t]| <= |worlds[n]| && NoneAfter(worlds[n], |worlds[t]|, m)
    decreases n
  {
    if n > t {
      VetoIsFinal(worlds, steps, t, n - 1, i, m);
      assert Moves(worlds[n - 1], steps[n - 1], worlds[n - 1 + 1]);
      StepKeepsVeto(worlds[n - 1], steps[n - 1], i, m, |worlds[t]|);
    }
  }

  // ---- The review queue ------------------------------------------------------------------------------

  /** Openings of a step's sweep that failed with the pull request there. */
  function SlipsOf(s: Step, left: Left): nat {
    if s.Sweeps? && s.kind == Revalidating then Slips(s.paths, s.o, left) else 0
  }

  /** The same over the first n steps, labelled or not. */
  function AllSlips(steps: seq<Step>, n: nat): nat
    requires n <= |steps|
  {
    if n == 0 then 0
    else AllSlips(steps, n - 1) + SlipsOf(steps[n - 1], Labelled) + SlipsOf(steps[n - 1], Unlabelled)
  }

  function Max(a: int, b: int): int { if a < b then b else a }

  /** Every sweep of the run uses one maximum. */
  predicate SameMax(steps: seq<Step>, maxOpen: int) {
    forall i :: 0 <= i < |steps| && steps[i].Sweeps? ==> steps[i].maxOpen == maxOpen
  }

  lemma StepWithinMax(w: World, s: Step, maxOpen: int)
    requires Inv(w) && Can(w, s) && (s.Sweeps? ==> s.maxOpen == maxOpen)
    ensures IsBounded(w, s, Next(w, s), maxOpen)
  {
    match s
    case HumanCloses(i) => CloseCounts(w, i, Closed(true));
    case HumanMerges(i) => CloseCounts(w, i, Merged);
    case HumanLabels(i, labels) => LabellingCounts(w, i, labels);
    case PassCloses(i, _) => CloseCounts(w, i, Closed(false));
    case Drafts(it) =>
      assert (w + [it])[..|w|] == w;
    case Sweeps(kind, paths, o, _) =>
      SweepIsBounded(w, kind, paths, o, maxOpen);
  }

  lemma SweepIsBounded(w: World, kind: Kind, paths: seq<string>, o: string -> OpenReply, maxOpen: int)
    requires NoRepeats(paths)
    ensures IsBounded(w, Sweeps(kind, paths, o, maxOpen),
                      w + Sweep(w, kind, paths, o, BudgetOf(w, kind, maxOpen)).added, maxOpen)
  {
    var budget := BudgetOf(w, kind, maxOpen);
    var added := Sweep(w, kind, paths, o, budget).added;
    OpenCountConcat(w, added, Revalidating, Listed);
    OpenCountConcat(w, added, Revalidating, Hidden);
    if kind == Revalidating {
      SweepWithinBudget(w, kind, paths, o, budget.value);
      SpentFromTheStart(w, kind, paths, o, budget);
    } else {
      SweepAdds(w, kind, paths, o, budget);
      NoneOfTheOther(added);
    }
  }

  lemma SpentFromTheStart(w: World, kind: Kind, paths: seq<string>, o: string -> OpenReply, budget: Option<int>)
    ensures Spent(budget) ==> Sweep(w, kind, paths, o, budget) == Swept([], budget)
  {
    if Spent(budget) {
      assert paths[..0] == [];
      SpentStays(w, kind, paths, o, budget, 0);
    }
  }

  lemma {:induction false} CloseCounts(w: World, i: nat, status: Status)
    requires i < |w| && !status.Open?
    ensures forall view ::
              OpenCount(w[i := w[i].(status := status)], Revalidating, view) <= OpenCount(w, Revalidating, view)
    decreases |w|
  {
    var v := w[i := w[i].(status := status)];
    if i == |w| - 1 {
      assert v[..|w| - 1] == w[..|w| - 1];
    } else {
      CloseCounts(w[..|w| - 1], i, status);
      assert v[..|w| - 1] == w[..|w| - 1][i := w[i].(status := status)];
    }
  }

  /** Labelling moves an open proposal from the hidden to the listed. */
  lemma {:induction false} LabellingCounts(w: World, i: nat, labels: set<Label>)
    requires Can(w, HumanLabels(i, labels))
    ensures var v, kind := Next(w, HumanLabels(i, labels)), Revalidating;
            && OpenCount(v, kind, Listed) >= OpenCount(w, kind, Listed)
            && OpenCount(v, kind, Listed) + OpenCount(v, kind, Hidden) ==
               OpenCount(w, kind, Listed) + OpenCount(w, kind, Hidden)
    decreases |w|
  {
    var v := Next(w, HumanLabels(i, labels));
    if i == |w| - 1 {
      assert v[..|w| - 1] == w[..|w| - 1];
    } else {
      LabellingCounts(w[..|w| - 1], i, labels);
      assert v[..|w| - 1] == Next(w[..|w| - 1], HumanLabels(i, labels));
    }
  }

  lemma {:induction false} NoneOfTheOther(added: seq<Item>)
    requires forall k :: 0 <= k < |added| ==> forall view :: !Counts(added[k], Revalidating, view)
    ensures forall view :: OpenCount(added, Revalidating, view) == 0
    decreases |added|
  {
    if added != [] { NoneOfTheOther(added[..|added| - 1]); }
  }

  /** The listed ones, raised to the effective maximum, and the hidden ones. */
  function Load(w: World, maxOpen: int): int {
    Max(OpenCount(w, Revalidating, Listed), EffectiveMax(maxOpen)) + OpenCount(w, Revalidating, Hidden)
  }

  /** A step adds to the load at most one for each opening that failed with its pull request there. */
  predicate IsBounded(w: World, s: Step, v: World, maxOpen: int) {
    Load(v, maxOpen) <= Load(w, maxOpen) + SlipsOf(s, Labelled) + SlipsOf(s, Unlabelled)
  }

  lemma RunStepIsBounded(worlds: seq<World>, steps: seq<Step>, maxOpen: int, i: nat)
    requires Run(worlds, steps) && Inv(worlds[0]) && SameMax(steps, maxOpen) && i < |steps|
    ensures IsBounded(worlds[i], steps[i], worlds[i + 1], maxOpen)
  {
    RunKeepsInv(worlds, steps, i);
    assert Moves(worlds[i], steps[i], worlds[i + 1]);
    StepWithinMax(worlds[i], steps[i], maxOpen);
  }

  lemma {:induction false} BoundsAddUp(worlds: seq<World>, steps: seq<Step>, maxOpen: int, n: nat)
    requires |worlds| == |steps| + 1 && n <= |steps|
    requires forall i :: 0 <= i < |steps| ==> IsBounded(worlds[i], steps[i], worlds[i + 1], maxOpen)
    ensures Load(worlds[n], maxOpen) <= Load(worlds[0], maxOpen) + AllSlips(steps, n)
  {
    if n > 0 {
      BoundsAddUp(worlds, steps, maxOpen, n - 1);
      assert IsBounded(worlds[n - 1], steps[n - 1], worlds[n - 1 + 1], maxOpen);
    }
  }

  /** An open proposal is listed or hidden. */
  lemma {:induction false} ViewsAddUp(w: World, kind: Kind)
    requires forall i :: 0 <= i < |w| ==> ItemOk(w[i])
    ensures OpenCount(w, kind, All) == OpenCount(w, kind, Listed) + OpenCount(w, kind, Hidden)
    decreases |w|
  {
    if w != [] { ViewsAddUp(w[..|w| - 1], kind); }
  }

  /** Over every run, the open revalidation proposals, labelled or not, never exceed the larger of the listed ones
      at the start and the effective maximum, the hidden ones at the start, and one for each opening that failed
      with its pull request there. */
  lemma QueueStaysBounded(worlds: seq<World>, steps: seq<Step>, maxOpen: int, n: nat)
    requires Run(worlds, steps) && Inv(worlds[0]) && SameMax(steps, maxOpen) && n <= |steps|
    ensures OpenCount(worlds[n], Revalidating, All) <=
            Max(OpenCount(worlds[0], Revalidating, Listed), EffectiveMax(maxOpen))
            + OpenCount(worlds[0], Revalidating, Hidden) + AllSlips(steps, n)
  {
    forall i | 0 <= i < |steps| ensures IsBounded(worlds[i], steps[i], worlds[i + 1], maxOpen) {
      RunStepIsBounded(worlds, steps, maxOpen, i);
    }
    BoundsAddUp(worlds, steps, maxOpen, n);
    RunKeepsInv(worlds, steps, n);
    ViewsAddUp(worlds[n], Revalidating);
  }
}
