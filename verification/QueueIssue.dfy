/**
 The Knowledge queue issue: found by its hidden marker, rewritten when its last rewrite is
 older than the last scheduled instant, or by hand at any time. The marker on the first line
 of the body is the only memory, and it holds whole seconds.
 */
module QueueIssues {
  import opened Common
  import opened Calendar
  import opened Scheduling
  import Rendering

  // ---- The marker -----------------------------------------------------------------------------

  const MARKER_HEAD := "<!-- runlore:knowledge-queue at="
  const MARKER_END := " -->"

  /** The first place at or after i where `pat` occurs. */
  function IndexFrom(s: string, pat: string, i: nat): (r: Option<nat>)
    ensures r.Some? ==> i <= r.value && r.value + |pat| <= |s|
    decreases |s| - i
  {
    if i + |pat| > |s| then None
    else if s[i..i + |pat|] == pat then Some(i)
    else IndexFrom(s, pat, i + 1)
  }

  /** What stands between the first opening and the first ending after it. */
  function Between(head: string, end: string, body: string): Option<string> {
    match IndexFrom(body, head, 0)
    case None => None
    case Some(i) =>
      var rest := body[i + |head|..];
      match IndexFrom(rest, end, 0)
      case None => None
      case Some(j) => Some(rest[..j])
  }

  predicate InRange(now: int) { Fits(now / SECOND) }

  function QueueMarker(now: int): string
    requires InRange(now)
  {
    MARKER_HEAD + Format(ClockOf(now / SECOND)) + MARKER_END
  }

  /** The instant of the first marker of a body, in whole seconds. */
  function ParseQueueMarker(body: string): Option<int> {
    match Between(MARKER_HEAD, MARKER_END, body)
    case None => None
    case Some(text) => Parse(text)
  }

  lemma {:induction false} FindsTheEnd(rest: string, stamp: string, end: string, i: nat)
    requires i <= |stamp| && stamp + end <= rest && |end| > 0 && end[0] !in stamp
    ensures IndexFrom(rest, end, i) == Some(|stamp|)
    decreases |stamp| - i
  {
    assert rest[|stamp|..|stamp| + |end|] == end;
    if i < |stamp| {
      FindsTheEnd(rest, stamp, end, i + 1);
      assert rest[i] == stamp[i];
      assert rest[i..i + |end|][0] == rest[i] != end[0];
    }
  }

  lemma FindsTheText(head: string, stamp: string, end: string, tail: string)
    requires |end| > 0 && end[0] !in stamp
    ensures Between(head, end, head + stamp + end + tail) == Some(stamp)
  {
    var body := head + stamp + end + tail;
    assert body[0..|head|] == head;
    var rest := body[|head|..];
    assert rest == stamp + end + tail;
    assert IndexFrom(body, head, 0) == Some(0);
    FindsTheEnd(rest, stamp, end, 0);
    assert rest[..|stamp|] == stamp;
  }

  /** A body that starts with a marker reads back the rewrite instant, truncated to seconds. */
  lemma MarkerReadsBack(now: int, body: string)
    requires InRange(now) && QueueMarker(now) <= body
    ensures ParseQueueMarker(body) == Some(now / SECOND)
  {
    var stamp := Format(ClockOf(now / SECOND));
    FormatHasNoSpace(ClockOf(now / SECOND));
    TextRoundTrip(now / SECOND);
    StampReadsBack(MARKER_HEAD, MARKER_END, stamp, body);
  }

  lemma StampReadsBack(head: string, end: string, stamp: string, body: string)
    requires |end| > 0 && end[0] !in stamp && head + stamp + end <= body
    ensures Between(head, end, body) == Some(stamp)
  {
    var tail := body[|head + stamp + end|..];
    assert body == head + stamp + end + tail;
    FindsTheText(head, stamp, end, tail);
  }

  // ---- The issue --------------------------------------------------------------------------------

  /** An open issue that carries the queue label. */
  datatype Issue = Issue(number: int, body: string)

  /** How a marker is read from a body: ParseQueueMarker, in the calls at the end. */
  type Reader = string -> Option<int>

  predicate IsMarked(read: Reader, issue: Issue) { read(issue.body).Some? }

  predicate DistinctNumbers(issues: seq<Issue>) {
    forall i, j :: 0 <= i < j < |issues| ==> issues[i].number != issues[j].number
  }

  /** k is the marked issue with the lowest number. */
  predicate IsBest(read: Reader, issues: seq<Issue>, k: nat) {
    && k < |issues| && IsMarked(read, issues[k])
    && forall i :: 0 <= i < |issues| && IsMarked(read, issues[i]) ==> issues[k].number <= issues[i].number
  }

  predicate NoneMarked(read: Reader, issues: seq<Issue>) {
    forall i :: 0 <= i < |issues| ==> !IsMarked(read, issues[i])
  }

  /** The issue to rewrite is at `best`; None when the pass must file one. */
  predicate IsFound(read: Reader, issues: seq<Issue>, best: Option<nat>) {
    if best.Some? then IsBest(read, issues, best.value) else NoneMarked(read, issues)
  }

  method Find(read: Reader, issues: seq<Issue>) returns (best: Option<nat>)
    ensures IsFound(read, issues, best)
  {
    best := None;
    for i := 0 to |issues|
      invariant best.Some? ==> best.value < i
      invariant IsFound(read, issues[..i], best)
    {
      var more := issues[..i + 1];
      assert more == issues[..i] + [issues[i]];
      if IsMarked(read, issues[i]) && (best.None? || issues[i].number < issues[best.value].number) {
        best := Some(i);
      }
    }
    assert issues[..|issues|] == issues;
  }

  /** What a rewrite meets: whether the passes and reads before it succeed, the body they lead to, the number a
      new issue gets, and the write, which may fail with or without taking effect. */
  datatype Attempt = Attempt(prepares: bool, body: string, number: int, write: Reply)

  datatype Reply = Done | Fails(took: bool)

  /** The issues' memory: the marker of the one that would be rewritten. */
  ghost predicate Holds(read: Reader, issues: seq<Issue>, mark: Option<int>) {
    match mark
    case None => NoneMarked(read, issues)
    case Some(m) => exists k: nat :: IsBest(read, issues, k) && read(issues[k].body) == Some(m)
  }

  predicate TakesEffect(a: Attempt) { a.prepares && (a.write.Done? || a.write.took) }

  predicate CanWrite(read: Reader, issues: seq<Issue>, now: int, a: Attempt) {
    && DistinctNumbers(issues) && (forall i :: 0 <= i < |issues| ==> issues[i].number != a.number)
    && read(a.body) == Some(now / SECOND)
  }

  /** Rewriting the issue found, or filing one. No other issue is touched. */
  method Rewrite(read: Reader, issues: seq<Issue>, now: int, best: Option<nat>, a: Attempt)
    returns (after: seq<Issue>, ok: bool)
    requires CanWrite(read, issues, now, a) && IsFound(read, issues, best)
    ensures ok <==> a.prepares && a.write.Done?
    ensures if TakesEffect(a) then Holds(read, after, Some(now / SECOND)) else after == issues
    ensures DistinctNumbers(after)
    ensures |after| == |issues| || (best.None? && |after| == |issues| + 1)
    ensures forall i :: 0 <= i < |issues| && best != Some(i) ==> after[i] == issues[i]
  {
    if !a.prepares { return issues, false; }
    ok := a.write.Done?;
    if !(ok || a.write.took) { return issues, ok; }
    if best.None? {
      after := issues + [Issue(a.number, a.body)];
      assert IsBest(read, after, |issues|);
    } else {
      after := issues[best.value := Issue(issues[best.value].number, a.body)];
      assert IsBest(read, after, best.value);
    }
  }

  /** Whether the last scheduled instant has passed with no rewrite since. */
  predicate Due(slot: Slot, mark: Option<int>, now: int) {
    mark.None? || mark.value * SECOND < Scheduled(slot, now)
  }

  /** A scheduled run reaches the rewrite; `slot` is None when no schedule is set. */
  predicate Reaches(slot: Option<Slot>, listFails: bool, mark: Option<int>, now: int) {
    slot.Some? && !listFails && Due(slot.value, mark, now)
  }

  method Run(
    read: Reader, slot: Option<Slot>, issues: seq<Issue>, now: int, listFails: bool, a: Attempt,
    ghost mark: Option<int>)
    returns (after: seq<Issue>, ok: bool)
    requires CanWrite(read, issues, now, a) && Holds(read, issues, mark)
    ensures if Reaches(slot, listFails, mark, now) && TakesEffect(a) then Holds(read, after, Some(now / SECOND))
            else after == issues
    ensures ok <==>
            slot.None? || (!listFails && (Reaches(slot, listFails, mark, now) ==> a.prepares && a.write.Done?))
    ensures DistinctNumbers(after)
  {
    if slot.None? { return issues, true; }
    if listFails { return issues, false; }
    var best := Find(read, issues);
    FoundIsHeld(read, issues, best, mark);
    if best.Some? {
      var at := read(issues[best.value].body).value;
      if !(at * SECOND < Scheduled(slot.value, now)) { return issues, true; }
    }
    after, ok := Rewrite(read, issues, now, best, a);
  }

  lemma FoundIsHeld(read: Reader, issues: seq<Issue>, best: Option<nat>, mark: Option<int>)
    requires DistinctNumbers(issues) && Holds(read, issues, mark) && IsFound(read, issues, best)
    ensures best.Some? <==> mark.Some?
    ensures best.Some? ==> read(issues[best.value].body) == mark
  {
    if mark.Some? {
      var k: nat :| IsBest(read, issues, k) && read(issues[k].body) == mark;
      assert IsMarked(read, issues[k]);
      if best.Some? { assert k == best.value; }
    }
  }

  /** A run by hand, whatever the schedule. */
  method RunNow(read: Reader, issues: seq<Issue>, now: int, listFails: bool, a: Attempt)
    returns (after: seq<Issue>, ok: bool)
    requires CanWrite(read, issues, now, a)
    ensures if !listFails && TakesEffect(a) then Holds(read, after, Some(now / SECOND)) else after == issues
    ensures ok <==> !listFails && a.prepares && a.write.Done?
    ensures DistinctNumbers(after)
  {
    if listFails { return issues, false; }
    var best := Find(read, issues);
    after, ok := Rewrite(read, issues, now, best, a);
  }

  const MAX_BODY := 65536

  /** The body of a rewrite: the marker first, then the page, within the size limit of an issue. Read back, it
      gives the rewrite instant in whole seconds, however the page was cut. */
  method Compose(now: int, headRest: string, tail: string, lines: seq<string>) returns (body: string, shown: nat)
    requires InRange(now)
    ensures ParseQueueMarker(body) == Some(now / SECOND)
    ensures QueueMarker(now) + headRest <= body
  {
    body, shown := Rendering.RenderLimit(Rendering.QUEUE_WORDING, QueueMarker(now) + headRest, tail, lines, MAX_BODY);
    assert QueueMarker(now) <= QueueMarker(now) + headRest;
    MarkerReadsBack(now, body);
  }

  /** A scheduled run on the text the forge holds. */
  method RunOnForge(
    slot: Option<Slot>, issues: seq<Issue>, now: int, listFails: bool, prepares: bool, headRest: string, tail: string,
    lines: seq<string>, number: int, write: Reply, ghost mark: Option<int>)
    returns (after: seq<Issue>, ok: bool)
    requires InRange(now) && DistinctNumbers(issues) && forall i :: 0 <= i < |issues| ==> issues[i].number != number
    requires Holds(ParseQueueMarker, issues, mark)
    ensures if Reaches(slot, listFails, mark, now) && prepares && (write.Done? || write.took)
            then Holds(ParseQueueMarker, after, Some(now / SECOND)) else after == issues
  {
    var body, shown := Compose(now, headRest, tail, lines);
    after, ok := Run(ParseQueueMarker, slot, issues, now, listFails, Attempt(prepares, body, number, write), mark);
  }

  // ---- Runs -------------------------------------------------------------------------------------

  /** One call: by hand or scheduled, whether the listing fails, and what a rewrite would meet. */
  datatype Call = Call(now: int, byHand: bool, listFails: bool, a: Attempt)

  predicate Tries(slot: Slot, mark: Option<int>, c: Call) { !c.listFails && (c.byHand || Due(slot, mark, c.now)) }

  predicate Wrote(slot: Slot, mark: Option<int>, c: Call) { Tries(slot, mark, c) && TakesEffect(c.a) }

  /** The marker after a call. */
  function After(slot: Slot, mark: Option<int>, c: Call): Option<int> {
    if Wrote(slot, mark, c) then Some(c.now / SECOND) else mark
  }

  /** What a call makes of the open issues, whichever marker they hold. */
  ghost predicate Makes(read: Reader, slot: Slot, issues: seq<Issue>, c: Call, after: seq<Issue>) {
    && CanWrite(read, issues, c.now, c.a) && DistinctNumbers(after)
    && forall mark :: Holds(read, issues, mark) ==>
         Holds(read, after, After(slot, mark, c)) && (!Wrote(slot, mark, c) ==> after == issues)
  }

  /** The two entry points make that of the issues. */
  method CallOn(read: Reader, slot: Slot, issues: seq<Issue>, c: Call, ghost mark: Option<int>)
    returns (after: seq<Issue>, ok: bool)
    requires CanWrite(read, issues, c.now, c.a) && Holds(read, issues, mark)
    ensures Makes(read, slot, issues, c, after) && Holds(read, after, After(slot, mark, c))
  {
    if c.byHand {
      after, ok := RunNow(read, issues, c.now, c.listFails, c.a);
    } else {
      after, ok := Run(read, Some(slot), issues, c.now, c.listFails, c.a, mark);
    }
    forall other | Holds(read, issues, other) ensures other == mark { OneMark(read, issues, other, mark); }
  }

  /** Issues with different numbers hold one marker. */
  lemma OneMark(read: Reader, issues: seq<Issue>, m: Option<int>, n: Option<int>)
    requires DistinctNumbers(issues) && Holds(read, issues, m) && Holds(read, issues, n)
    ensures m == n
  {
    if m.Some? {
      var k: nat :| IsBest(read, issues, k) && read(issues[k].body) == m;
      FoundIsHeld(read, issues, Some(k), n);
    } else {
      FoundIsHeld(read, issues, None, n);
    }
  }

  /** A run of calls at non-decreasing times: the open issues before and after each, and the marker they hold. */
  ghost predicate IsRun(read: Reader, slot: Slot, lists: seq<seq<Issue>>, marks: seq<Option<int>>, calls: seq<Call>) {
    && |lists| == |marks| == |calls| + 1
    && (forall n :: 0 <= n < |lists| ==> Holds(read, lists[n], marks[n]))
    && (forall i :: 0 <= i < |calls| ==> Makes(read, slot, lists[i], calls[i], lists[i + 1]))
    && InTime(calls)
  }

  predicate InTime(calls: seq<Call>) { forall i, j :: 0 <= i < j < |calls| ==> calls[i].now <= calls[j].now }

  lemma MarkMoves(read: Reader, slot: Slot, lists: seq<seq<Issue>>, marks: seq<Option<int>>, calls: seq<Call>, i: nat)
    requires IsRun(read, slot, lists, marks, calls) && i < |calls|
    ensures marks[i + 1] == After(slot, marks[i], calls[i])
  {
    assert Makes(read, slot, lists[i], calls[i], lists[i + 1]) && Holds(read, lists[i], marks[i]);
    assert Holds(read, lists[i + 1], marks[i + 1]);
    OneMark(read, lists[i + 1], marks[i + 1], After(slot, marks[i], calls[i]));
  }

  predicate History(slot: Slot, marks: seq<Option<int>>, calls: seq<Call>) {
    && |marks| == |calls| + 1 && InTime(calls)
    && (forall i :: 0 <= i < |calls| ==> marks[i + 1] == After(slot, marks[i], calls[i]))
  }

  lemma RunIsHistory(
    read: Reader, slot: Slot, lists: seq<seq<Issue>>, marks: seq<Option<int>>, calls: seq<Call>)
    requires IsRun(read, slot, lists, marks, calls)
    ensures History(slot, marks, calls)
  {
    forall i | 0 <= i < |calls| ensures marks[i + 1] == After(slot, marks[i], calls[i]) {
      MarkMoves(read, slot, lists, marks, calls, i);
    }
  }

  /** The marker never falls behind a rewrite that took effect. */
  lemma {:induction false} MarkKeepsUp(slot: Slot, marks: seq<Option<int>>, calls: seq<Call>, i: nat, n: nat)
    requires History(slot, marks, calls) && i < n < |marks| && Wrote(slot, marks[i], calls[i])
    ensures marks[n].Some? && calls[i].now / SECOND <= marks[n].value
    decreases n
  {
    assert marks[n - 1 + 1] == After(slot, marks[n - 1], calls[n - 1]);
    if n > i + 1 {
      MarkKeepsUp(slot, marks, calls, i, n - 1);
      assert calls[i].now <= calls[n - 1].now;
      SecondsGrow(calls[i].now, calls[n - 1].now);
    }
  }

  lemma SecondsGrow(t: int, u: int)
    requires t <= u
    ensures t / SECOND <= u / SECOND
  {
  }

  /** The marker is the initial one or that of a call that wrote. */
  lemma {:induction false} MarkIsFromACall(slot: Slot, marks: seq<Option<int>>, calls: seq<Call>, n: nat)
    requires History(slot, marks, calls) && n < |marks|
    ensures marks[n] == marks[0] ||
            exists i :: 0 <= i < n && Wrote(slot, marks[i], calls[i]) && marks[n] == Some(calls[i].now / SECOND)
  {
    if n > 0 {
      MarkIsFromACall(slot, marks, calls, n - 1);
      assert marks[n - 1 + 1] == After(slot, marks[n - 1], calls[n - 1]);
    }
  }

  /** At most one scheduled rewrite a period: after any rewrite, by hand or not, the next scheduled one comes
      only once a later scheduled instant has passed. */
  lemma OneRewriteAPeriod(
    read: Reader, slot: Slot, lists: seq<seq<Issue>>, marks: seq<Option<int>>, calls: seq<Call>, i: nat, j: nat)
    requires SlotOk(slot) && IsRun(read, slot, lists, marks, calls) && i < j < |calls|
    requires Wrote(slot, marks[i], calls[i]) && Wrote(slot, marks[j], calls[j]) && !calls[j].byHand
    ensures calls[i].now < Scheduled(slot, calls[j].now) <= calls[j].now
  {
    RunIsHistory(read, slot, lists, marks, calls);
    MarkKeepsUp(slot, marks, calls, i, j);
    TruncationIsHarmless(slot, calls[i].now, calls[j].now);
    ScheduledIsLatest(slot, calls[j].now);
  }

  /** No scheduled rewrite is lost: a scheduled call whose listing works tries exactly when nothing was written
      since the last scheduled instant. A failed rewrite is therefore retried by the next call. */
  lemma TriesUntilWritten(
    read: Reader, slot: Slot, lists: seq<seq<Issue>>, marks: seq<Option<int>>, calls: seq<Call>, j: nat)
    requires SlotOk(slot) && IsRun(read, slot, lists, marks, calls) && j < |calls|
    requires !calls[j].byHand && !calls[j].listFails
    requires marks[0].None? || marks[0].value * SECOND < Scheduled(slot, calls[j].now)
    ensures Tries(slot, marks[j], calls[j]) <==>
            forall i :: 0 <= i < j && Wrote(slot, marks[i], calls[i]) ==> calls[i].now < Scheduled(slot, calls[j].now)
  {
    var at := Scheduled(slot, calls[j].now);
    RunIsHistory(read, slot, lists, marks, calls);
    MarkIsFromACall(slot, marks, calls, j);
    forall i | 0 <= i < j && Wrote(slot, marks[i], calls[i])
      ensures marks[j].Some? && calls[i].now / SECOND <= marks[j].value
      ensures calls[i].now / SECOND * SECOND < at <==> calls[i].now < at
    {
      MarkKeepsUp(slot, marks, calls, i, j);
      TruncationIsHarmless(slot, calls[i].now, calls[j].now);
    }
  }
}
