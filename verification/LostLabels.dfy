/**
 What a lost label costs. Opening a proposal is not one step: it can fail after the pull
 request exists and before its label is on, and the passes see only what is labelled. Each
 promise the passes make about proposals is given here with the exact condition under which
 it holds, and with an input at which it fails.
 */
module LostLabels {
  import opened Common
  import opened Proposing

  // ---- One open proposal an entry ------------------------------------------------------------------

  /** Two open proposals of one kind for one entry, labelled or not. */
  predicate SameOpen(a: Item, b: Item) {
    a.status.Open? && b.status.Open? && a.marker.Some? && a.marker == b.marker
  }

  predicate AllSingle(w: World) { forall i, j :: 0 <= i < j < |w| ==> !SameOpen(w[i], w[j]) }

  predicate IsHidden(it: Item, m: Marker) { it.marker == Some(m) && LabelOf(m.kind) !in it.labels }

  predicate HasHiddenOpen(w: World, m: Marker) { exists i :: 0 <= i < |w| && IsHidden(w[i], m) && w[i].status.Open? }

  /** The sweep's turn for some candidate leaves a pull request while an open one for it stands unlabelled. */
  predicate Repeats(w: World, s: Step) {
    s.Sweeps? &&
    exists k: nat :: k < |s.paths| && HasHiddenOpen(w, Marker(s.kind, s.paths[k])) &&
                     OpensAt(w, s.kind, s.paths, s.o, BudgetOf(w, s.kind, s.maxOpen), k)
  }

  /** From a world where no entry has two open proposals of one kind, a step yields a second one exactly when it is
      a sweep that opens over an unlabelled one. */
  lemma StepDoublesIff(w: World, s: Step)
    requires Inv(w) && AllSingle(w) && Can(w, s)
    ensures !AllSingle(Next(w, s)) <==> Repeats(w, s)
  {
    if s.Sweeps? { SweepDoublesIff(w, s); }
  }

  lemma SweepDoublesIff(w: World, s: Step)
    requires Inv(w) && AllSingle(w) && Can(w, s) && s.Sweeps?
    ensures !AllSingle(Next(w, s)) <==> Repeats(w, s)
  {
    var budget := BudgetOf(w, s.kind, s.maxOpen);
    var added := Sweep(w, s.kind, s.paths, s.o, budget).added;
    SweepAdds(w, s.kind, s.paths, s.o, budget);
    if !AllSingle(Next(w, s)) {
      var i, j :| 0 <= i < j < |w + added| && SameOpen((w + added)[i], (w + added)[j]);
      CrossesOver(w, s, added, i, j);
    }
    if Repeats(w, s) {
      var k: nat :| k < |s.paths| && HasHiddenOpen(w, Marker(s.kind, s.paths[k])) &&
                    OpensAt(w, s.kind, s.paths, s.o, budget, k);
      RepeatDoubles(w, s, added, k);
    }
  }

  lemma CrossesOver(w: World, s: Step, added: seq<Item>, i: nat, j: nat)
    requires Inv(w) && AllSingle(w) && Can(w, s) && s.Sweeps?
    requires added == Sweep(w, s.kind, s.paths, s.o, BudgetOf(w, s.kind, s.maxOpen)).added
    requires AllFresh(w, s.kind, s.paths, added)
    requires i < j < |w + added| && SameOpen((w + added)[i], (w + added)[j])
    ensures Repeats(w, s)
  {
    var budget := BudgetOf(w, s.kind, s.maxOpen);
    assert i < |w| <= j;
    var it := added[j - |w|];
    assert IsFresh(w, s.kind, s.paths, it) && it.marker == w[i].marker;
    var m := it.marker.value;
    assert !IsVisible(w[i], m);
    assert IsHidden(w[i], m);
    assert Proposes(added, m);
    SweepProposesIff(w, s.kind, s.paths, s.o, budget, m.path);
    var k :| 0 <= k < |s.paths| && s.paths[k] == m.path && OpensAt(w, s.kind, s.paths, s.o, budget, k);
  }

  lemma RepeatDoubles(w: World, s: Step, added: seq<Item>, k: nat)
    requires Can(w, s) && s.Sweeps?
    requires added == Sweep(w, s.kind, s.paths, s.o, BudgetOf(w, s.kind, s.maxOpen)).added
    requires AllFresh(w, s.kind, s.paths, added)
    requires k < |s.paths| && HasHiddenOpen(w, Marker(s.kind, s.paths[k]))
    requires OpensAt(w, s.kind, s.paths, s.o, BudgetOf(w, s.kind, s.maxOpen), k)
    ensures !AllSingle(w + added)
  {
    var m := Marker(s.kind, s.paths[k]);
    SweepProposesIff(w, s.kind, s.paths, s.o, BudgetOf(w, s.kind, s.maxOpen), s.paths[k]);
    var j :| 0 <= j < |added| && added[j].marker == Some(m);
    var i :| 0 <= i < |w| && IsHidden(w[i], m) && w[i].status.Open?;
    assert IsFresh(w, s.kind, s.paths, added[j]);
    assert SameOpen((w + added)[i], (w + added)[|w| + j]);
  }

  /** Over a run: no entry ever has two open proposals of one kind if and only if no sweep opens over an unlabelled
      one. */
  lemma RunStaysSingleIff(worlds: seq<World>, steps: seq<Step>)
    requires Run(worlds, steps) && Inv(worlds[0]) && AllSingle(worlds[0])
    ensures (forall n :: 0 <= n < |worlds| ==> AllSingle(worlds[n])) <==>
            (forall i :: 0 <= i < |steps| ==> !Repeats(worlds[i], steps[i]))
  {
    if forall n :: 0 <= n < |worlds| ==> AllSingle(worlds[n]) {
      forall i | 0 <= i < |steps| ensures !Repeats(worlds[i], steps[i]) {
        assert Moves(worlds[i], steps[i], worlds[i + 1]) && AllSingle(worlds[i]) && AllSingle(worlds[i + 1]);
        RunKeepsInv(worlds, steps, i);
        StepDoublesIff(worlds[i], steps[i]);
      }
    }
    if forall i :: 0 <= i < |steps| ==> !Repeats(worlds[i], steps[i]) {
      forall n | 0 <= n < |worlds| ensures AllSingle(worlds[n]) { SingleSoFar(worlds, steps, n); }
    }
  }

  lemma {:induction false} SingleSoFar(worlds: seq<World>, steps: seq<Step>, n: nat)
    requires Run(worlds, steps) && Inv(worlds[0]) && AllSingle(worlds[0]) && n < |worlds|
    requires forall i :: 0 <= i < |steps| ==> !Repeats(worlds[i], steps[i])
    ensures AllSingle(worlds[n])
  {
    if n > 0 {
      SingleSoFar(worlds, steps, n - 1);
      RunKeepsInv(worlds, steps, n - 1);
      assert Moves(worlds[n - 1], steps[n - 1], worlds[n - 1 + 1]) && !Repeats(worlds[n - 1], steps[n - 1]);
      StepDoublesIff(worlds[n - 1], steps[n - 1]);
    }
  }

  // ---- The veto --------------------------------------------------------------------------------------

  /** Some proposal for the entry that is open or was declined carries the label. */
  predicate HasLabelled(w: World, m: Marker) {
    exists i :: 0 <= i < |w| && w[i].marker == Some(m) && LabelOf(m.kind) in w[i].labels && !w[i].status.Merged?
  }

  /** A candidate that the successful openings before it leave a slot, and whose opening would leave a pull request,
      is passed over exactly when some proposal for it, open or declined, carries the label. */
  lemma SkippedIff(w: World, kind: Kind, paths: seq<string>, o: string -> OpenReply, budget: Option<int>, k: nat)
    requires NoRepeats(paths) && k < |paths| && LeavesOne(o(paths[k]))
    requires HasSlot(budget, Successes(w, kind, paths[..k], o))
    ensures var m := Marker(kind, paths[k]);
            !Proposes(Sweep(w, kind, paths, o, budget).added, m) <==> HasLabelled(w, m)
  {
    var m := Marker(kind, paths[k]);
    SweepProposesIff(w, kind, paths, o, budget, paths[k]);
    if Opens(w, kind, paths, o, budget, paths[k]) {
      var j :| 0 <= j < |paths| && paths[j] == paths[k] && OpensAt(w, kind, paths, o, budget, j);
      assert j == k;
    }
    if Blocked(w, m) {
      var i :| 0 <= i < |w| && IsVisible(w[i], m) && (w[i].status.Open? || w[i].status.Closed?);
      assert w[i].marker == Some(m) && LabelOf(m.kind) in w[i].labels && !w[i].status.Merged?;
    }
    if HasLabelled(w, m) {
      var i :| 0 <= i < |w| && w[i].marker == Some(m) && LabelOf(m.kind) in w[i].labels && !w[i].status.Merged?;
      assert IsVisible(w[i], m);
    }
  }

  // ---- The review queue -------------------------------------------------------------------------------

  /** How many of these entries' openings would leave a pull request. */
  function Woulds(w: World, kind: Kind, paths: seq<string>, o: string -> OpenReply): nat
    decreases |paths|
  {
    if paths == [] then 0 else
    var (init, p) := (paths[..|paths| - 1], paths[|paths| - 1]);
    Woulds(w, kind, init, o) + if Would(w, kind, o, p) then 1 else 0
  }

  /** The k-th candidate's turn leaves a pull request, and t others before it would have. */
  predicate OpensPast(
    w: World, kind: Kind, paths: seq<string>, o: string -> OpenReply, budget: Option<int>, t: nat, k: nat)
  {
    OpensAt(w, kind, paths, o, budget, k) && Woulds(w, kind, paths[..k], o) >= t
  }

  predicate SomePast(w: World, kind: Kind, paths: seq<string>, o: string -> OpenReply, budget: Option<int>, t: nat) {
    exists k: nat :: k < |paths| && OpensPast(w, kind, paths, o, budget, t, k)
  }

  lemma {:induction false} AddedWhileSlots(
    w: World, kind: Kind, paths: seq<string>, o: string -> OpenReply, budget: Option<int>)
    ensures var added := Sweep(w, kind, paths, o, budget).added;
            && |added| <= Woulds(w, kind, paths, o)
            && (HasSlot(budget, Successes(w, kind, paths, o)) ==> |added| == Woulds(w, kind, paths, o))
    decreases |paths|
  {
    if paths != [] {
      AddedWhileSlots(w, kind, paths[..|paths| - 1], o, budget);
      SpentIff(w, kind, paths[..|paths| - 1], o, budget);
    }
  }

  /** A sweep adds more than t pull requests exactly when some candidate opens after t that would have. */
  lemma {:induction false} AddsMoreIff(
    w: World, kind: Kind, paths: seq<string>, o: string -> OpenReply, budget: Option<int>, t: nat)
    ensures |Sweep(w, kind, paths, o, budget).added| > t <==> SomePast(w, kind, paths, o, budget, t)
    decreases |paths|
  {
    if paths != [] {
      var init, last := paths[..|paths| - 1], |paths| - 1;
      AddsMoreIff(w, kind, init, o, budget, t);
      AddedWhileSlots(w, kind, init, o, budget);
      SpentIff(w, kind, init, o, budget);
      PastWithOneMore(w, kind, paths, o, budget, t);
      var before := |Sweep(w, kind, init, o, budget).added|;
      assert |Sweep(w, kind, paths, o, budget).added| ==
             before + if OpensAt(w, kind, paths, o, budget, last) then 1 else 0;
      assert OpensAt(w, kind, paths, o, budget, last) ==> before == Woulds(w, kind, paths[..last], o);
    }
  }

  lemma PastWithOneMore(
    w: World, kind: Kind, paths: seq<string>, o: string -> OpenReply, budget: Option<int>, t: nat)
    requires paths != []
    ensures var last := |paths| - 1;
            SomePast(w, kind, paths, o, budget, t) <==>
            SomePast(w, kind, paths[..last], o, budget, t) || OpensPast(w, kind, paths, o, budget, t, last)
  {
    var last := |paths| - 1;
    var init := paths[..last];
    forall k: nat | k < last
      ensures OpensPast(w, kind, init, o, budget, t, k) <==> OpensPast(w, kind, paths, o, budget, t, k)
    {
      assert init[..k] == paths[..k];
    }
    if SomePast(w, kind, init, o, budget, t) {
      var k: nat :| k < last && OpensPast(w, kind, init, o, budget, t, k);
      assert OpensPast(w, kind, paths, o, budget, t, k);
    }
  }

  lemma {:induction false} FreshAreOpen(w: World, kind: Kind, paths: seq<string>, added: seq<Item>)
    requires forall k :: 0 <= k < |added| ==> IsFresh(w, kind, paths, added[k])
    ensures OpenCount(added, kind, All) == |added|
    decreases |added|
  {
    if added != [] {
      assert IsFresh(w, kind, paths, added[|added| - 1]);
      FreshAreOpen(w, kind, paths, added[..|added| - 1]);
    }
  }

  /** A sweep leaves more open proposals, labelled or not, than the larger of those before it and the effective
      maximum exactly when for some candidate three things hold: its opening would leave a pull request, as many
      before it would have as the maximum leaves room for, and the successful ones among them leave it a slot. */
  lemma SweepExceedsIff(w: World, paths: seq<string>, o: string -> OpenReply, maxOpen: int, before: nat, after: nat)
    requires NoRepeats(paths) && before == OpenCount(w, Revalidating, All)
    requires after == OpenCount(Next(w, Sweeps(Revalidating, paths, o, maxOpen)), Revalidating, All)
    ensures after > Max(before, EffectiveMax(maxOpen)) <==>
            exists k: nat ::
              && k < |paths| && Would(w, Revalidating, o, paths[k])
              && Woulds(w, Revalidating, paths[..k], o) >= Max(0, EffectiveMax(maxOpen) - before)
              && Successes(w, Revalidating, paths[..k], o) < EffectiveMax(maxOpen) - OpenCount(w, Revalidating, Listed)
  {
    var budget := BudgetOf(w, Revalidating, maxOpen);
    var t: nat := Max(0, EffectiveMax(maxOpen) - before);
    SweepCounts(w, paths, o, maxOpen, before, after, t);
    AddsMoreIff(w, Revalidating, paths, o, budget, t);
    forall k: nat
      ensures OpensPast(w, Revalidating, paths, o, budget, t, k) <==>
              && k < |paths| && Would(w, Revalidating, o, paths[k]) && Woulds(w, Revalidating, paths[..k], o) >= t
              && Successes(w, Revalidating, paths[..k], o) < EffectiveMax(maxOpen) - OpenCount(w, Revalidating, Listed)
    {
    }
  }

  lemma SweepCounts(
    w: World, paths: seq<string>, o: string -> OpenReply, maxOpen: int, before: nat, after: nat, t: nat)
    requires NoRepeats(paths) && before == OpenCount(w, Revalidating, All)
    requires after == OpenCount(Next(w, Sweeps(Revalidating, paths, o, maxOpen)), Revalidating, All)
    requires t == Max(0, EffectiveMax(maxOpen) - before)
    ensures after > Max(before, EffectiveMax(maxOpen)) <==>
            |Sweep(w, Revalidating, paths, o, BudgetOf(w, Revalidating, maxOpen)).added| > t
  {
    var added := Sweep(w, Revalidating, paths, o, BudgetOf(w, Revalidating, maxOpen)).added;
    SweepAdds(w, Revalidating, paths, o, BudgetOf(w, Revalidating, maxOpen));
    FreshCounts(w, Revalidating, paths, added);
    Exceeds(before, |added|, after, EffectiveMax(maxOpen));
  }

  lemma Exceeds(before: nat, added: nat, after: nat, max: int)
    requires after == before + added
    ensures after > Max(before, max) <==> added > Max(0, max - before)
  {
  }

  lemma FreshCounts(w: World, kind: Kind, paths: seq<string>, added: seq<Item>)
    requires AllFresh(w, kind, paths, added)
    ensures OpenCount(w + added, kind, All) == OpenCount(w, kind, All) + |added|
  {
    FreshAreOpen(w, kind, paths, added);
    OpenCountConcat(w, added, kind, All);
  }

  // ---- Inputs at which the promises fail ----------------------------------------------------------------

  function LosesItsLabel(p: string): OpenReply { OpenFails(Unlabelled) }

  function GoesWell(p: string): OpenReply { Opened }

  /** A sweep over one candidate that it does not see and has budget for. */
  lemma SweepOfOne(w: World, m: Marker, o: string -> OpenReply, budget: Option<int>)
    requires !Spent(budget)
    ensures Sweep(w, m.kind, [m.path], o, budget).added == Adds(w, m, o(m.path))
  {
    assert [m.path][..0] == [];
  }

  /** An opening can fail between the pull request and its label, which leaves it invisible. */
  lemma LabelLost(m: Marker)
    ensures var first := Sweeps(m.kind, [m.path], LosesItsLabel, 1);
            Inv([]) && Can([], first) && Next([], first) == [New(m, false)]
  {
    SweepOfOne([], m, LosesItsLabel, BudgetOf([], m.kind, 1));
  }

  lemma SweepOverHidden(m: Marker, status: Status)
    requires status.Open? || status == Closed(true)
    ensures var w := [New(m, false).(status := status)];
            var second := Sweeps(m.kind, [m.path], GoesWell, 1);
            Inv(w) && Can(w, second) && Next(w, second) == w + [New(m, true)]
  {
    var w := [New(m, false).(status := status)];
    assert w[..0] == [] && OpenCount(w, m.kind, Listed) == 0;
    assert !Blocked(w, m);
    SweepOfOne(w, m, GoesWell, BudgetOf(w, m.kind, 1));
  }

  /** The next sweep then opens a second proposal for the same entry. */
  lemma UnlabelledIsRepeated(m: Marker)
    ensures var w := [New(m, false)];
            var second := Sweeps(m.kind, [m.path], GoesWell, 1);
            Inv(w) && AllSingle(w) && Can(w, second) && !AllSingle(Next(w, second))
  {
    SweepOverHidden(m, Open);
    var v := [New(m, false), New(m, true)];
    assert SameOpen(v[0], v[1]);
    assert [New(m, false)] + [New(m, true)] == v;
  }

  /** And a human who then labels the first by hand, as the error asks, makes it two that the passes can see. */
  lemma LabellingMakesTwo(m: Marker)
    ensures var w := [New(m, false), New(m, true)];
            var labelling := HumanLabels(0, {LabelOf(m.kind)});
            Inv(w) && VisibleSingle(w) && Can(w, labelling) && !VisibleSingle(Next(w, labelling))
  {
    var w := [New(m, false), New(m, true)];
    var labelling := HumanLabels(0, {LabelOf(m.kind)});
    assert w[1].status.Open? && w[1].marker == w[0].marker && w[1].labels != {};
    assert LabelsSecond(w, labelling);
    StepKeepsVisibleIff(w, labelling);
  }

  /** And if a human declines the unlabelled one first, the entry is proposed again all the same. */
  lemma DeclinedIsProposedAgain(m: Marker)
    ensures var w := [New(m, false)];
            var declined := Next(w, HumanCloses(0));
            var again := Sweeps(m.kind, [m.path], GoesWell, 1);
            && Inv(w) && Can(w, HumanCloses(0)) && Can(declined, again)
            && declined[0].marker == Some(m) && declined[0].status == Closed(true)
            && Next(declined, again) == declined + [New(m, true)]
  {
    SweepOverHidden(m, Closed(true));
    assert [New(m, false)][0 := New(m, false).(status := Closed(true))] == [New(m, false).(status := Closed(true))];
  }

  /** Labels lost at every opening: one sweep with one free slot opens a proposal for every candidate, and lists
      none of them afterwards. */
  lemma {:induction false} LostLabelsAreFree(paths: seq<string>)
    ensures var s := Sweep([], Revalidating, paths, LosesItsLabel, Some(1));
            && s.budget == Some(1)
            && OpenCount(s.added, Revalidating, All) == |paths| && OpenCount(s.added, Revalidating, Listed) == 0
    decreases |paths|
  {
    if paths != [] {
      var init, m := paths[..|paths| - 1], Marker(Revalidating, paths[|paths| - 1]);
      LostLabelsAreFree(init);
      var before := Sweep([], Revalidating, init, LosesItsLabel, Some(1));
      assert Sweep([], Revalidating, paths, LosesItsLabel, Some(1)) ==
             Swept(before.added + [New(m, false)], before.budget);
      HiddenCounts(before.added, m.path);
    }
  }

  lemma HiddenCounts(w: World, p: string)
    ensures var v := w + [New(Marker(Revalidating, p), false)];
            && OpenCount(v, Revalidating, All) == OpenCount(w, Revalidating, All) + 1
            && OpenCount(v, Revalidating, Listed) == OpenCount(w, Revalidating, Listed)
  {
    var v := w + [New(Marker(Revalidating, p), false)];
    assert v[..|v| - 1] == w;
  }

  /** n different paths. */
  function Paths(n: nat): (paths: seq<string>)
    ensures |paths| == n && forall i :: 0 <= i < n ==> |paths[i]| == i
  {
    seq(n, i requires 0 <= i < n => seq(i, _ => 'a'))
  }

  lemma SweepFromNothing(paths: seq<string>, o: string -> OpenReply)
    requires NoRepeats(paths)
    ensures var s := Sweeps(Revalidating, paths, o, 1);
            Inv([]) && Can([], s) && Next([], s) == Sweep([], Revalidating, paths, o, Some(1)).added
  {
    var added := Sweep([], Revalidating, paths, o, Some(1)).added;
    assert BudgetOf([], Revalidating, 1) == Some(1);
    assert [] + added == added;
  }

  /** So no bound on the open proposals holds without counting the openings that failed. */
  lemma OpenProposalsAreUnbounded(n: nat)
    ensures var s := Sweeps(Revalidating, Paths(n), LosesItsLabel, 1);
            && Inv([]) && Can([], s)
            && OpenCount(Next([], s), Revalidating, All) == n && OpenCount(Next([], s), Revalidating, Listed) == 0
  {
    LostLabelsAreFree(Paths(n));
    SweepFromNothing(Paths(n), LosesItsLabel);
  }

  function FailsOn(p: string): string -> OpenReply { (q: string) => if q == p then OpenFails(Labelled) else Opened }

  lemma TwoTurns(p: string, q: string)
    requires p != q
    ensures Sweep([], Revalidating, [p, q], FailsOn(p), Some(1)).added ==
            [New(Marker(Revalidating, p), true), New(Marker(Revalidating, q), true)]
  {
    assert [p, q][..1] == [p];
    assert [p][..0] == [];
    assert Sweep([], Revalidating, [p], FailsOn(p), Some(1)) == Swept([New(Marker(Revalidating, p), true)], Some(1));
  }

  lemma TwoListed(m: Marker, m': Marker)
    requires m.kind == m'.kind == Revalidating
    ensures OpenCount([New(m, true), New(m', true)], Revalidating, Listed) == 2
  {
    var first, second: World := [New(m, true)], [New(m', true)];
    assert first + second == [New(m, true), New(m', true)];
    assert first[..0] == [] && second[..0] == [];
    OpenCountConcat(first, second, Revalidating, Listed);
  }

  /** An opening that fails after its label is on is not charged either: with a maximum of one, two are open and
      listed after one sweep. */
  lemma LabelledSlipExceeds(p: string, q: string)
    requires p != q
    ensures var s := Sweeps(Revalidating, [p, q], FailsOn(p), 1);
            Inv([]) && Can([], s) && OpenCount(Next([], s), Revalidating, Listed) == 2
  {
    SweepFromNothing([p, q], FailsOn(p));
    TwoTurns(p, q);
    TwoListed(Marker(Revalidating, p), Marker(Revalidating, q));
  }
}
