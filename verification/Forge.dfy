/**
 What the backlog passes see of the forge: open pull requests with their labels, and calls
 that may fail with or without having taken effect.
 */
module Forge {

  datatype Label =
    | Ready | Solved | Accepted | Investigating | KnowledgeGap | Runlore | Security
    | Retire | Revalidate | Resolve | OperatorNote | Other(name: string)

  /** An open pull request. `fp` is the fingerprint marker in its body, "" when it carries none. */
  datatype PR = PR(number: int, title: string, labels: set<Label>, fp: string, possibleDuplicate: bool)

  /** Entry edits are proposals about a merged entry: retire, revalidate and resolve. */
  predicate IsEntryEdit(labels: set<Label>) { Retire in labels || Revalidate in labels || Resolve in labels }

  predicate IsAutoCloseExempt(labels: set<Label>) { IsEntryEdit(labels) || OperatorNote in labels }

  predicate IsProtected(labels: set<Label>) {
    Solved in labels || Ready in labels || Accepted in labels || Investigating in labels || KnowledgeGap in labels
  }

  predicate Distinct(prs: seq<PR>) { forall i, j :: 0 <= i < j < |prs| ==> prs[i].number != prs[j].number }

  /** What happened on the forge, in order. A push records whether the branch's pull request carried
      ready-to-merge at that moment. */
  datatype Event = Relabel(number: int, on: bool) | Push(number: int, ready: bool)

  datatype World = World(prs: seq<PR>, trace: seq<Event>)

  /** A write's outcome; `took` says whether a write that failed still took effect. */
  datatype Reply = Fine | Fails(limited: bool, took: bool)

  /** Whether the comment and the close of one pull request succeed. */
  datatype CloseReplies = CloseReplies(comments: bool, closes: bool)

  predicate GoesThrough(o: int -> CloseReplies, n: int) { o(n).comments && o(n).closes }

  datatype Error = NoError | Plain | Limited

  function ErrorOf(r: Reply): Error { if r.Fine? then NoError else if r.limited then Limited else Plain }

  function WithReady(pr: PR, on: bool): PR {
    pr.(labels := if on then pr.labels + {Ready} else pr.labels - {Ready})
  }

  function SetReady(prs: seq<PR>, n: int, on: bool): (r: seq<PR>)
    ensures |r| == |prs|
    ensures forall i :: 0 <= i < |prs| ==> r[i] == if prs[i].number == n then WithReady(prs[i], on) else prs[i]
  {
    seq(|prs|, i requires 0 <= i < |prs| => if prs[i].number == n then WithReady(prs[i], on) else prs[i])
  }

  /** The world after a label write. */
  function Write(w: World, n: int, on: bool, r: Reply): World {
    if r.Fine? || r.took then World(SetReady(w.prs, n, on), w.trace + [Relabel(n, on)]) else w
  }

  predicate IsReady(prs: seq<PR>, n: int) { exists i :: 0 <= i < |prs| && prs[i].number == n && Ready in prs[i].labels }

  /** Nothing but the ready-to-merge label of pull request n differs. */
  predicate OnlyReadyOf(before: seq<PR>, after: seq<PR>, n: int) {
    && |before| == |after|
    && forall i :: 0 <= i < |before| ==>
         if before[i].number == n then after[i].number == n && after[i].labels - {Ready} == before[i].labels - {Ready}
         else after[i] == before[i]
  }

  // ---- Listings ------------------------------------------------------------------------------

  /** The pull requests a test accepts, in order. */
  function Pick(prs: seq<PR>, want: PR -> bool): seq<PR>
    decreases |prs|
  {
    if prs == [] then [] else
    var (init, pr) := (prs[..|prs| - 1], prs[|prs| - 1]);
    if want(pr) then Pick(init, want) + [pr] else Pick(init, want)
  }

  lemma {:induction false} Picks(prs: seq<PR>, want: PR -> bool)
    ensures forall pr :: pr in Pick(prs, want) <==> pr in prs && want(pr)
    ensures Distinct(prs) ==> Distinct(Pick(prs, want))
    decreases |prs|
  {
    if prs != [] {
      var init, pr := prs[..|prs| - 1], prs[|prs| - 1];
      Picks(init, want);
      assert prs == init + [pr];
      if Distinct(prs) && want(pr) {
        var p := Pick(init, want);
        forall i | 0 <= i < |p| ensures p[i].number != pr.number { assert p[i] in init; }
      }
    }
  }

  function Listed(prs: seq<PR>, want: Label): seq<PR> { Pick(prs, (pr: PR) => want in pr.labels) }

  lemma ListedAre(prs: seq<PR>, want: Label)
    ensures forall pr :: pr in Listed(prs, want) <==> pr in prs && want in pr.labels
    ensures Distinct(prs) ==> Distinct(Listed(prs, want))
  {
    Picks(prs, (pr: PR) => want in pr.labels);
  }
}
