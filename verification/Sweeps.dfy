/**
 The two other passes that close pull requests: the stale sweep, and the suppression of drafts
 a human already rejected. Each closes exactly the pull requests its rule names, and neither
 closes an entry edit that carries no fingerprint marker.
 */
module Sweeping {
  import opened Common
  import opened Forge

  // ---- The stale sweep --------------------------------------------------------------------------

  /** A listed pull request and when it last saw activity; None when that is unknown. */
  datatype Aged = Aged(pr: PR, updated: Option<int>)

  predicate IsStale(a: Aged, now: int, staleAfter: int) {
    && !IsEntryEdit(a.pr.labels) && !IsProtected(a.pr.labels)
    && a.updated.Some? && now - a.updated.value > staleAfter
  }

  predicate IsClosed(a: Aged, now: int, staleAfter: int, o: int -> CloseReplies, n: int) {
    a.pr.number == n && IsStale(a, now, staleAfter) && GoesThrough(o, n)
  }

  predicate Closes(prs: seq<Aged>, now: int, staleAfter: int, o: int -> CloseReplies, n: int) {
    exists i :: 0 <= i < |prs| && IsClosed(prs[i], now, staleAfter, o, n)
  }

  method CloseStale(prs: seq<Aged>, now: int, staleAfter: int, o: int -> CloseReplies) returns (closed: set<int>)
    ensures staleAfter <= 0 ==> closed == {}
    ensures staleAfter > 0 ==> forall n :: n in closed <==> Closes(prs, now, staleAfter, o, n)
  {
    closed := {};
    if staleAfter <= 0 { return; }
    for i := 0 to |prs|
      invariant forall n :: n in closed <==> Closes(prs[..i], now, staleAfter, o, n)
    {
      var a := prs[i];
      forall n ensures Closes(prs[..i + 1], now, staleAfter, o, n) <==>
                         Closes(prs[..i], now, staleAfter, o, n) || IsClosed(a, now, staleAfter, o, n) {
        ClosesNext(prs, i, now, staleAfter, o, n);
      }
      if IsEntryEdit(a.pr.labels) { continue; }
      if IsProtected(a.pr.labels) || a.updated.None? || now - a.updated.value <= staleAfter { continue; }
      if !o(a.pr.number).comments { continue; }
      if !o(a.pr.number).closes { continue; }
      closed := closed + {a.pr.number};
    }
    assert prs[..|prs|] == prs;
  }

  lemma ClosesNext(prs: seq<Aged>, i: nat, now: int, staleAfter: int, o: int -> CloseReplies, n: int)
    requires i < |prs|
    ensures Closes(prs[..i + 1], now, staleAfter, o, n) <==>
            Closes(prs[..i], now, staleAfter, o, n) || IsClosed(prs[i], now, staleAfter, o, n)
  {
    var more, less := prs[..i + 1], prs[..i];
    assert forall j :: 0 <= j < i ==> more[j] == less[j];
    assert more[i] == prs[i];
  }

  // ---- Suppression --------------------------------------------------------------------------------

  /** A close reason: the label it names, or none. */
  datatype Verdict = Revise | Reject(reason: Option<string>)

  function ClassifyClose(labels: set<Label>): Verdict {
    if Other("needs-work") in labels then Revise
    else if Other("wontfix") in labels then Reject(Some("wontfix"))
    else if Other("not-kb-worthy") in labels then Reject(Some("not-kb-worthy"))
    else Reject(None)
  }

  datatype Entry = Entry(number: int, reason: Option<string>)

  predicate Rejects(pr: PR, fp: string) { pr.fp == fp && fp != "" && ClassifyClose(pr.labels).Reject? }

  /** The newest rejection of one fingerprint, or nothing. */
  predicate IsNewest(prs: seq<PR>, fp: string, e: Option<Entry>) {
    if e.None? then forall i :: 0 <= i < |prs| ==> !Rejects(prs[i], fp)
    else
      && (exists i :: 0 <= i < |prs| && Rejects(prs[i], fp) && prs[i].number == e.value.number &&
                      ClassifyClose(prs[i].labels) == Reject(e.value.reason))
      && (forall i :: 0 <= i < |prs| && Rejects(prs[i], fp) ==> prs[i].number <= e.value.number)
  }

  function Get(m: map<string, Entry>, fp: string): Option<Entry> { if fp in m then Some(m[fp]) else None }

  /** The suppression set: each rejected fingerprint with its newest rejection, and no other. */
  method Suppressed(closed: seq<PR>) returns (out: map<string, Entry>)
    ensures forall fp :: IsNewest(closed, fp, Get(out, fp))
  {
    out := map[];
    for i := 0 to |closed|
      invariant forall fp :: IsNewest(closed[..i], fp, Get(out, fp))
    {
      var pr := closed[i];
      var was := out;
      var v := ClassifyClose(pr.labels);
      if pr.fp != "" && v.Reject? && !(pr.fp in out && out[pr.fp].number >= pr.number) {
        out := out[pr.fp := Entry(pr.number, v.reason)];
      }
      forall fp ensures IsNewest(closed[..i + 1], fp, Get(out, fp)) {
        NewestNext(closed, i, fp, Get(was, fp), Get(out, fp));
      }
    }
    assert closed[..|closed|] == closed;
  }

  lemma NewestNext(prs: seq<PR>, i: nat, fp: string, was: Option<Entry>, e: Option<Entry>)
    requires i < |prs| && IsNewest(prs[..i], fp, was)
    requires if Rejects(prs[i], fp) && !(was.Some? && was.value.number >= prs[i].number)
             then e == Some(Entry(prs[i].number, ClassifyClose(prs[i].labels).reason)) else e == was
    ensures IsNewest(prs[..i + 1], fp, e)
  {
    var more, less := prs[..i + 1], prs[..i];
    assert more == less + [prs[i]];
    assert forall j :: 0 <= j < i ==> more[j] == less[j];
    assert more[i] == prs[i];
  }

  predicate IsRedraft(pr: PR, suppressed: map<string, Entry>, o: int -> CloseReplies, n: int) {
    pr.number == n && pr.fp != "" && pr.fp in suppressed && !IsProtected(pr.labels) && GoesThrough(o, n)
  }

  predicate Redrafts(prs: seq<PR>, suppressed: map<string, Entry>, o: int -> CloseReplies, n: int) {
    exists i :: 0 <= i < |prs| && IsRedraft(prs[i], suppressed, o, n)
  }

  method CloseRedrafts(prs: seq<PR>, suppressed: map<string, Entry>, o: int -> CloseReplies) returns (closed: set<int>)
    ensures forall n :: n in closed <==> Redrafts(prs, suppressed, o, n)
  {
    closed := {};
    for i := 0 to |prs|
      invariant forall n :: n in closed <==> Redrafts(prs[..i], suppressed, o, n)
    {
      var pr := prs[i];
      forall n ensures Redrafts(prs[..i + 1], suppressed, o, n) <==>
                         Redrafts(prs[..i], suppressed, o, n) || IsRedraft(pr, suppressed, o, n) {
        RedraftsNext(prs, i, suppressed, o, n);
      }
      if pr.fp == "" || IsProtected(pr.labels) { continue; }
      if pr.fp !in suppressed { continue; }
      if !o(pr.number).comments { continue; }
      if !o(pr.number).closes { continue; }
      closed := closed + {pr.number};
    }
    assert prs[..|prs|] == prs;
  }

  lemma RedraftsNext(prs: seq<PR>, i: nat, suppressed: map<string, Entry>, o: int -> CloseReplies, n: int)
    requires i < |prs|
    ensures Redrafts(prs[..i + 1], suppressed, o, n) <==>
            Redrafts(prs[..i], suppressed, o, n) || IsRedraft(prs[i], suppressed, o, n)
  {
    var more, less := prs[..i + 1], prs[..i];
    assert forall j :: 0 <= j < i ==> more[j] == less[j];
    assert more[i] == prs[i];
  }
}
