/**
 The merge gate: an open pull request earns, keeps or loses ready-to-merge from what the
 outcome ledger knows, the threat check on its entry, and human labels.

 One run visits each pull request of two listings at most once, and every call may fail.
 */
module Queueing {
  import opened Common
  import opened Forge
  import R = Refreshing

  /** In the order of risk, riskiest first. */
  datatype Risk = Threat | Contested | Contradicts | SecurityLabel | Conflict | Unverified

  function Rank(r: Risk): nat {
    match r
    case Threat => 0
    case Contested => 1
    case Contradicts => 2
    case SecurityLabel => 3
    case Conflict => 4
    case Unverified => 5
  }

  /** The ledger's view: pull requests with a standing objection, and whether each fingerprint's latest
      observation held. */
  datatype Evidence = Evidence(contested: set<int>, verified: map<string, bool>)

  /** What reading the entry at the head gives: whether a rule hit, an entry that cannot be screened, or a
      failed read. */
  datatype EntryRead = Screened(hit: bool) | Unscreenable | Unread

  /** What the calls about one pull request meet; `resolved` is None when the check fails. */
  datatype Meets = Meets(entry: EntryRead, resolved: Option<bool>, write: Reply)

  // ---- The decision ----------------------------------------------------------------------------

  predicate Held(pr: PR, ev: Evidence) { pr.fp in ev.verified && ev.verified[pr.fp] }

  predicate Failed(pr: PR, ev: Evidence) { pr.fp in ev.verified && !ev.verified[pr.fp] }

  /** What stands against a pull request besides the entry's own text. */
  predicate Objected(pr: PR, ev: Evidence) {
    pr.number in ev.contested || pr.possibleDuplicate || Security in pr.labels
  }

  predicate Applies(r: Risk, pr: PR, ev: Evidence, threat: bool) {
    match r
    case Threat => threat
    case Contested => pr.number in ev.contested
    case Contradicts => pr.possibleDuplicate
    case SecurityLabel => Security in pr.labels
    case Conflict => false
    case Unverified => !Held(pr, ev)
  }

  /** Exactly the risks below a rank that apply, riskiest first and each once. */
  ghost predicate UpTo(risks: seq<Risk>, below: nat, pr: PR, ev: Evidence, threat: bool) {
    && (forall i, j :: 0 <= i < j < |risks| ==> Rank(risks[i]) < Rank(risks[j]))
    && (forall r :: r in risks <==> Rank(r) < below && Applies(r, pr, ev, threat))
  }

  method AddIf(risks: seq<Risk>, applies: bool, r: Risk, ghost pr: PR, ghost ev: Evidence, ghost threat: bool)
    returns (more: seq<Risk>)
    requires UpTo(risks, Rank(r), pr, ev, threat) && applies == Applies(r, pr, ev, threat)
    ensures UpTo(more, Rank(r) + 1, pr, ev, threat)
  {
    if !applies { return risks; }
    assert forall i :: 0 <= i < |risks| ==> risks[i] in risks;
    return risks + [r];
  }

  /** The risks that apply, riskiest first and each once; a conflict is never among them. */
  method Risks(pr: PR, ev: Evidence, threat: bool) returns (risks: seq<Risk>)
    ensures UpTo(risks, 6, pr, ev, threat)
    ensures (exists r :: r in risks && r != Unverified) <==> threat || Objected(pr, ev)
    ensures risks == [] <==> Held(pr, ev) && !threat && !Objected(pr, ev)
  {
    risks := AddIf([], threat, Threat, pr, ev, threat);
    risks := AddIf(risks, pr.number in ev.contested, Contested, pr, ev, threat);
    risks := AddIf(risks, pr.possibleDuplicate, Contradicts, pr, ev, threat);
    risks := AddIf(risks, Security in pr.labels, SecurityLabel, pr, ev, threat);
    risks := AddIf(risks, !Held(pr, ev), Unverified, pr, ev, threat);
    RisksMean(risks, pr, ev, threat);
  }

  lemma RisksMean(risks: seq<Risk>, pr: PR, ev: Evidence, threat: bool)
    requires forall r :: r in risks <==> Applies(r, pr, ev, threat)
    ensures (exists r :: r in risks && r != Unverified) <==> threat || Objected(pr, ev)
    ensures risks == [] <==> Held(pr, ev) && !threat && !Objected(pr, ev)
  {
    assert Threat in risks <==> threat;
    assert Contested in risks <==> pr.number in ev.contested;
    assert Contradicts in risks <==> pr.possibleDuplicate;
    assert SecurityLabel in risks <==> Security in pr.labels;
    assert Unverified in risks <==> !Held(pr, ev);
    if risks != [] { assert risks[0] in risks; }
  }

  datatype Verdict = Grant | Withdraw | Leave

  method EntryThreats(pr: PR, entry: EntryRead) returns (threat: bool, readFails: bool)
    ensures Accepted in pr.labels ==> !threat && !readFails
    ensures Accepted !in pr.labels ==>
              threat == (entry == Screened(true) || entry.Unscreenable?) && readFails == entry.Unread?
  {
    if Accepted in pr.labels { return false, false; }
    match entry
    case Screened(hit) => return hit, false;
    case Unscreenable => return true, false;
    case Unread => return false, true;
  }

  /** The entry's text is known to be a threat. */
  predicate Threatens(pr: PR, m: Meets) {
    Accepted !in pr.labels && (m.entry == Screened(true) || m.entry.Unscreenable?)
  }

  predicate Flagged(pr: PR, ev: Evidence, m: Meets) { Threatens(pr, m) || Objected(pr, ev) }

  /** Merit: what a pull request without the label must have to be given it. */
  predicate Deserves(pr: PR, ev: Evidence, checks: bool, m: Meets) {
    || (Solved in pr.labels && Accepted in pr.labels)
    || (&& !Flagged(pr, ev, m) && !Failed(pr, ev) && (Accepted in pr.labels || !m.entry.Unread?)
        && (Held(pr, ev) || (Solved in pr.labels && checks && m.resolved == Some(true))))
  }

  /** What takes the label away. */
  predicate Forfeits(pr: PR, ev: Evidence, m: Meets) {
    Accepted !in pr.labels && (Flagged(pr, ev, m) || Failed(pr, ev))
  }

  /** The label after one evidence check. */
  function Decided(pr: PR, ev: Evidence, checks: bool, m: Meets): Verdict {
    if IsEntryEdit(pr.labels) then Leave
    else if Ready in pr.labels then (if Forfeits(pr, ev, m) then Withdraw else Leave)
    else if Deserves(pr, ev, checks, m) then Grant
    else Leave
  }

  /** The label is left alone because a call failed whose answer could have moved it: the entry's read while a
      label or a reason for one stands, or the resolution check that was the last hope. */
  predicate Stuck(pr: PR, ev: Evidence, checks: bool, m: Meets) {
    var unread := Accepted !in pr.labels && m.entry.Unread?;
    if IsEntryEdit(pr.labels) then false
    else if Ready in pr.labels then unread
    else
      && !Flagged(pr, ev, m) && !Failed(pr, ev)
      && (Held(pr, ev) || Solved in pr.labels)
      && (unread || (!Held(pr, ev) && checks && m.resolved.None?))
  }

  method ApplyEvidence(w: World, pr: PR, ev: Evidence, checks: bool, m: Meets) returns (v: World, err: bool)
    ensures v == match Decided(pr, ev, checks, m)
                 case Grant => Write(w, pr.number, true, m.write)
                 case Withdraw => Write(w, pr.number, false, m.write)
                 case Leave => w
    ensures err <==> if Decided(pr, ev, checks, m) != Leave then m.write.Fails? else Stuck(pr, ev, checks, m)
  {
    if IsEntryEdit(pr.labels) { return w, false; }
    var held := Held(pr, ev);
    var failed := Failed(pr, ev);
    var accepted, solved, ready := Accepted in pr.labels, Solved in pr.labels, Ready in pr.labels;
    var threat, readFails := false, false;
    if ready || held || solved {
      threat, readFails := EntryThreats(pr, m.entry);
    }
    var risks := Risks(pr, ev, threat);
    var flagged := exists r :: r in risks && r != Unverified;
    if ready {
      if accepted || (!flagged && !failed) { return w, readFails; }
      return Write(w, pr.number, false, m.write), m.write.Fails?;
    }
    if solved && accepted { return Write(w, pr.number, true, m.write), m.write.Fails?; }
    if flagged || failed { return w, false; }
    if readFails { return w, true; }
    if held { return Write(w, pr.number, true, m.write), m.write.Fails?; }
    if solved && checks {
      if m.resolved != Some(true) { return w, m.resolved.None?; }
      return Write(w, pr.number, true, m.write), m.write.Fails?;
    }
    return w, false;
  }

  // ---- One run -----------------------------------------------------------------------------------

  /** A pull request after its visit, whatever its calls met. */
  function Next(pr: PR, ev: Evidence, checks: bool, m: Meets): PR {
    if m.write.Fails? && !m.write.took then pr else
    match Decided(pr, ev, checks, m)
    case Grant => WithReady(pr, true)
    case Withdraw => WithReady(pr, false)
    case Leave => pr
  }

  /** Whatever fails: a label that appears was deserved, and one that goes was forfeited. */
  lemma LabelMovesOnMerit(pr: PR, ev: Evidence, checks: bool, m: Meets)
    ensures var next := Next(pr, ev, checks, m);
            && next == pr.(labels := next.labels) && next.labels - {Ready} == pr.labels - {Ready}
            && (Ready in next.labels && Ready !in pr.labels ==> !IsEntryEdit(pr.labels) && Deserves(pr, ev, checks, m))
            && (Ready !in next.labels && Ready in pr.labels ==> !IsEntryEdit(pr.labels) && Forfeits(pr, ev, m))
  {
  }

  predicate NothingFails(m: Meets) { !m.entry.Unread? && m.resolved.Some? && m.write.Fine? }

  /** With no failure the label afterwards is exactly what the evidence says, and a second check on the same
      evidence changes nothing. */
  lemma EvidenceDecides(pr: PR, ev: Evidence, checks: bool, m: Meets)
    requires NothingFails(m) && !IsEntryEdit(pr.labels)
    ensures var next := Next(pr, ev, checks, m);
            && (Ready in next.labels <==>
                  if Ready in pr.labels then !Forfeits(pr, ev, m) else Deserves(pr, ev, checks, m))
            && (Accepted !in pr.labels && (Flagged(pr, ev, m) || Failed(pr, ev)) ==> Ready !in next.labels)
            && Next(next, ev, checks, m) == next
  {
    var next := Next(pr, ev, checks, m);
    assert forall l :: l != Ready ==> (l in next.labels <==> l in pr.labels);
    assert Ready in next.labels ==> WithReady(next, true) == next;
    assert Ready !in next.labels ==> WithReady(next, false) == next;
  }

  /** Without evidence: a solved pull request is queued when a human accepted it or its incident resolved. */
  predicate Resolves(pr: PR, m: Meets) {
    Ready !in pr.labels && (Accepted in pr.labels || m.resolved == Some(true))
  }

  datatype Gate = ByEvidence(ev: Evidence, checks: bool) | ByResolution

  /** A visited pull request afterwards. */
  function After(g: Gate, pr: PR, m: Meets): PR {
    match g
    case ByEvidence(ev, checks) => Next(pr, ev, checks, m)
    case ByResolution => if Resolves(pr, m) && (m.write.Fine? || m.write.took) then WithReady(pr, true) else pr
  }

  /** Exactly the pull requests in `done` were visited, each once, and nothing else changed. */
  predicate Reflects(g: Gate, o: int -> Meets, start: seq<PR>, now: seq<PR>, done: set<int>) {
    && |now| == |start|
    && forall k :: 0 <= k < |start| ==>
         now[k] == if start[k].number in done then After(g, start[k], o(start[k].number)) else start[k]
  }

  /** The new events spare every pull request in `spared`. */
  predicate Spares(before: seq<Event>, after: seq<Event>, spared: set<int>) {
    before <= after && forall i :: |before| <= i < |after| ==> after[i].number !in spared
  }

  predicate Wrote(g: Gate, o: int -> Meets, w: World, v: World, pr: PR) {
    var to := After(g, pr, o(pr.number));
    || (v.prs == w.prs && to == pr)
    || (v.prs == SetReady(w.prs, pr.number, true) && to == WithReady(pr, true))
    || (v.prs == SetReady(w.prs, pr.number, false) && to == WithReady(pr, false))
  }

  /** Applying the gate's write to one unvisited pull request makes it a visited one. */
  lemma VisitReflects(g: Gate, o: int -> Meets, start: seq<PR>, w: World, v: World, done: set<int>, pr: PR)
    requires Distinct(start) && Reflects(g, o, start, w.prs, done) && pr in start && pr.number !in done
    requires Wrote(g, o, w, v, pr)
    ensures Reflects(g, o, start, v.prs, done + {pr.number})
  {
    forall k | 0 <= k < |start|
      ensures v.prs[k] ==
              if start[k].number in done + {pr.number} then After(g, start[k], o(start[k].number)) else start[k]
    {
      if start[k].number == pr.number {
        var j :| 0 <= j < |start| && start[j] == pr;
        assert j == k;
      }
    }
  }

  predicate Lists(list: seq<PR>, n: int) { exists j :: 0 <= j < |list| && list[j].number == n }

  /** One evidence check within a run. */
  method Visit(
    ev: Evidence, checks: bool, o: int -> Meets, ghost start: seq<PR>, ghost done: set<int>, ghost refused: set<int>,
    w: World, pr: PR)
    returns (v: World)
    requires Distinct(start) && Reflects(ByEvidence(ev, checks), o, start, w.prs, done)
    requires pr in start && pr.number !in done && pr.number !in refused
    ensures Reflects(ByEvidence(ev, checks), o, start, v.prs, done + {pr.number})
    ensures Spares(w.trace, v.trace, refused)
  {
    var err;
    v, err := ApplyEvidence(w, pr, ev, checks, o(pr.number));
    VisitReflects(ByEvidence(ev, checks), o, start, w, v, done, pr);
  }

  /** One listing: every pull request not yet seen is visited. */
  method Scan(
    ev: Evidence, checks: bool, o: int -> Meets, ghost start: seq<PR>, ghost refused: set<int>, ghost before: set<int>,
    w: World, seen: set<int>, want: Label)
    returns (v: World, now: set<int>, ghost done: set<int>)
    requires Distinct(start) && seen == refused + before && Reflects(ByEvidence(ev, checks), o, start, w.prs, before)
    ensures Reflects(ByEvidence(ev, checks), o, start, v.prs, done) && now == refused + done
    ensures forall n :: n in done <==> n in before || (n !in refused && Lists(Listed(w.prs, want), n))
    ensures Spares(w.trace, v.trace, refused)
  {
    ghost var g := ByEvidence(ev, checks);
    var list := Listed(w.prs, want);
    ListedAre(w.prs, want);
    UnseenAsStarted(g, o, start, w.prs, before, list);
    v, now, done := w, seen, before;
    for i := 0 to |list|
      invariant now == refused + done && Reflects(g, o, start, v.prs, done)
      invariant forall n :: n in done <==> n in before || (n !in refused && Lists(list[..i], n))
      invariant Spares(w.trace, v.trace, refused)
    {
      var pr := list[i];
      forall n ensures Lists(list[..i + 1], n) <==> Lists(list[..i], n) || n == pr.number {
        ListsNext(list, i, n);
      }
      if pr.number in now { continue; }
      assert pr in list;
      v := Visit(ev, checks, o, start, done, refused, v, pr);
      now, done := now + {pr.number}, done + {pr.number};
    }
    assert list[..|list|] == list;
  }

  lemma ListsNext(list: seq<PR>, i: nat, n: int)
    requires i < |list|
    ensures Lists(list[..i + 1], n) <==> Lists(list[..i], n) || n == list[i].number
  {
    if Lists(list[..i], n) {
      var j :| 0 <= j < i && list[j].number == n;
      assert list[..i + 1][j].number == n;
    }
    assert list[..i + 1][i] == list[i];
  }

  lemma UnseenAsStarted(g: Gate, o: int -> Meets, start: seq<PR>, now: seq<PR>, seen: set<int>, list: seq<PR>)
    requires Reflects(g, o, start, now, seen) && forall pr :: pr in list ==> pr in now
    ensures forall pr :: pr in list && pr.number !in seen ==> pr in start
  {
    forall pr | pr in list && pr.number !in seen ensures pr in start {
      var k :| 0 <= k < |now| && now[k] == pr;
      assert start[k].number == pr.number;
    }
  }

  // ---- Whole runs --------------------------------------------------------------------------------

  /** The pull requests a run visits: solved ones, and with evidence every runlore one, unless refused. */
  predicate Visits(g: Gate, pr: PR, refused: set<int>) {
    pr.number !in refused && (Solved in pr.labels || (g.ByEvidence? && Runlore in pr.labels))
  }

  /** A run's whole effect: every pull request it visits, exactly once, on the labels it started with. */
  predicate Ran(g: Gate, o: int -> Meets, start: seq<PR>, now: seq<PR>, refused: set<int>) {
    && |now| == |start|
    && forall k :: 0 <= k < |start| ==>
         now[k] == if Visits(g, start[k], refused) then After(g, start[k], o(start[k].number)) else start[k]
  }

  /** What holds even of a run cut short: each pull request is as it was or as one visit leaves it. */
  predicate PartlyRan(g: Gate, o: int -> Meets, start: seq<PR>, now: seq<PR>, refused: set<int>) {
    && |now| == |start|
    && forall k :: 0 <= k < |start| ==>
         now[k] == start[k] || (Visits(g, start[k], refused) && now[k] == After(g, start[k], o(start[k].number)))
  }

  /** Which of the two listings fail. */
  datatype Listings = Listings(solvedFails: bool, runloreFails: bool)

  method RunOnEvidence(w: World, refused: set<int>, ev: Evidence, checks: bool, o: int -> Meets, l: Listings)
    returns (v: World, ok: bool)
    requires Distinct(w.prs)
    ensures ok <==> !l.solvedFails && !l.runloreFails
    ensures ok ==> Ran(ByEvidence(ev, checks), o, w.prs, v.prs, refused)
    ensures l.solvedFails ==> v == w
    ensures Spares(w.trace, v.trace, refused)
    ensures PartlyRan(ByEvidence(ev, checks), o, w.prs, v.prs, refused)
  {
    ghost var g := ByEvidence(ev, checks);
    ghost var start := w.prs;
    assert Reflects(g, o, start, w.prs, {});
    if l.solvedFails { return w, false; }
    var seen := refused;
    ghost var done;
    v, seen, done := Scan(ev, checks, o, start, refused, {}, w, seen, Solved);
    ghost var solvedDone, mid := done, v;
    forall k | 0 <= k < |start|
      ensures start[k].number in done <==> start[k].number !in refused && Solved in start[k].labels
    {
      ListsIff(g, o, start, start, {}, Solved, k);
    }
    if l.runloreFails { return v, false; }
    v, seen, done := Scan(ev, checks, o, start, refused, solvedDone, v, seen, Runlore);
    forall k | 0 <= k < |start| ensures start[k].number in done <==> Visits(g, start[k], refused) {
      ListsIff(g, o, start, mid.prs, solvedDone, Runlore, k);
    }
    return v, true;
  }

  /** The listing by a label other than ready-to-merge names the same pull requests throughout a run. */
  lemma ListsIff(g: Gate, o: int -> Meets, start: seq<PR>, now: seq<PR>, done: set<int>, want: Label, k: nat)
    requires Distinct(start) && Reflects(g, o, start, now, done) && k < |start| && want != Ready
    ensures Lists(Listed(now, want), start[k].number) <==> want in start[k].labels
  {
    ListedAre(now, want);
    ListsNumber(Listed(now, want), now, k);
    forall i | 0 <= i < |now| ensures now[i].number == start[i].number {
    }
    assert want in now[k].labels <==> want in start[k].labels;
  }

  lemma ListsNumber(list: seq<PR>, now: seq<PR>, k: nat)
    requires k < |now| && Distinct(now) && forall pr :: pr in list ==> pr in now
    ensures Lists(list, now[k].number) <==> now[k] in list
  {
    if Lists(list, now[k].number) {
      var j :| 0 <= j < |list| && list[j].number == now[k].number;
      assert list[j] in list;
      var i :| 0 <= i < |now| && now[i] == list[j];
      assert i == k;
    }
  }

  method RunOnResolution(w: World, refused: set<int>, o: int -> Meets, listFails: bool) returns (v: World, ok: bool)
    requires Distinct(w.prs)
    ensures ok <==> !listFails
    ensures if ok then Ran(ByResolution, o, w.prs, v.prs, refused) else v == w
    ensures PartlyRan(ByResolution, o, w.prs, v.prs, refused)
    ensures Spares(w.trace, v.trace, refused)
  {
    if listFails { return w, false; }
    ghost var start := w.prs;
    ghost var done: set<int> := {};
    var list := Listed(w.prs, Solved);
    ListedAre(w.prs, Solved);
    v := w;
    for i := 0 to |list|
      invariant Reflects(ByResolution, o, start, v.prs, done)
      invariant forall n :: n in done <==> n !in refused && Lists(list[..i], n)
      invariant Spares(w.trace, v.trace, refused)
    {
      var pr := list[i];
      forall n ensures Lists(list[..i + 1], n) <==> Lists(list[..i], n) || n == pr.number {
        ListsNext(list, i, n);
      }
      assert pr in list && pr in start;
      if pr.number in refused { continue; }
      assert !Lists(list[..i], pr.number);
      ghost var before := v;
      if Ready !in pr.labels {
        var m := o(pr.number);
        var accepted := Accepted in pr.labels;
        var resolved := !accepted && m.resolved == Some(true);
        if accepted || resolved { v := Write(v, pr.number, true, m.write); }
      }
      VisitReflects(ByResolution, o, start, before, v, done, pr);
      done := done + {pr.number};
    }
    assert list[..|list|] == list;
    forall k | 0 <= k < |start| ensures start[k].number in done <==> Visits(ByResolution, start[k], refused) {
      assert Reflects(ByResolution, o, start, start, {});
      ListsIff(ByResolution, o, start, start, {}, Solved, k);
    }
    return v, true;
  }

  /** A whole run: rebuild first when asked to, then gate. A pull request the rebuild pass refused keeps the
      labels that pass left it, and no later event touches it. */
  method Run(
    prs: seq<PR>, refreshes: bool, refreshLists: bool, ro: int -> R.Meets, promotes: bool, held: map<string, bool>,
    g: Gate, o: int -> Meets, l: Listings)
    returns (mid: World, out: R.Outcome, v: World, ok: bool)
    requires Distinct(prs)
    ensures forall e :: e in mid.trace && e.Push? ==> !e.ready
    ensures Spares(mid.trace, v.trace, out.refused.Keys)
    ensures PartlyRan(g, o, mid.prs, v.prs, out.refused.Keys)
    ensures forall k :: 0 <= k < |mid.prs| && mid.prs[k].number in out.refused ==> v.prs[k] == mid.prs[k]
    ensures ok ==> Ran(g, o, mid.prs, v.prs, out.refused.Keys)
    ensures refreshes && !refreshLists ==> !ok && v == World(prs, [])
  {
    mid, out := World(prs, []), R.Outcome([], map[], false, {});
    if refreshes {
      if !refreshLists { return mid, out, mid, false; }
      mid, out := R.Once(prs, ro, promotes, held);
    }
    match g
    case ByEvidence(ev, checks) => v, ok := RunOnEvidence(mid, out.refused.Keys, ev, checks, o, l);
    case ByResolution => v, ok := RunOnResolution(mid, out.refused.Keys, o, l.solvedFails);
  }

  /** Whatever fails, over a whole run: a label appears only on merit and goes only when forfeited. */
  lemma RunLabelsOnMerit(
    ev: Evidence, checks: bool, o: int -> Meets, start: seq<PR>, now: seq<PR>, refused: set<int>, k: nat)
    requires PartlyRan(ByEvidence(ev, checks), o, start, now, refused) && k < |start|
    ensures Ready in now[k].labels && Ready !in start[k].labels ==>
              && !IsEntryEdit(start[k].labels) && start[k].number !in refused
              && Deserves(start[k], ev, checks, o(start[k].number))
    ensures Ready !in now[k].labels && Ready in start[k].labels ==>
              !IsEntryEdit(start[k].labels) && Forfeits(start[k], ev, o(start[k].number))
  {
    LabelMovesOnMerit(start[k], ev, checks, o(start[k].number));
  }

  ghost predicate AllFine(o: int -> Meets) { forall n :: NothingFails(o(n)) }

  predicate MustLose(ev: Evidence, checks: bool, o: int -> Meets, refused: set<int>, pr: PR) {
    Visits(ByEvidence(ev, checks), pr, refused) && !IsEntryEdit(pr.labels) && Forfeits(pr, ev, o(pr.number))
  }

  /** With no failure, no unaccepted pull request that is flagged or failed keeps the label, and a second run
      on the same evidence changes nothing. */
  lemma SecondRunChangesNothing(
    ev: Evidence, checks: bool, o: int -> Meets, start: seq<PR>, now: seq<PR>, again: seq<PR>, refused: set<int>)
    requires AllFine(o) && Ran(ByEvidence(ev, checks), o, start, now, refused)
    requires Ran(ByEvidence(ev, checks), o, now, again, refused)
    ensures forall k :: 0 <= k < |start| && MustLose(ev, checks, o, refused, start[k]) ==> Ready !in now[k].labels
    ensures again == now
  {
    forall k | 0 <= k < |start|
      ensures again[k] == now[k]
      ensures MustLose(ev, checks, o, refused, start[k]) ==> Ready !in now[k].labels
    {
      var m := o(start[k].number);
      LabelMovesOnMerit(start[k], ev, checks, m);
      if !IsEntryEdit(start[k].labels) { EvidenceDecides(start[k], ev, checks, m); }
    }
  }
}
