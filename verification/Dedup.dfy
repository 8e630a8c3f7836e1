/**
 Closing duplicate drafts: open pull requests are clustered in number order around the first
 one each duplicates, and every marked duplicate is commented on and closed.

 The clustering is a star forest, it is maximal, and its contract determines it.
 */
module Deduping {
  import opened Forge

  // ---- Similarity ----------------------------------------------------------------------------

  /** Shared tokens over all tokens, and 0 when either set is empty. */
  function Similarity(a: set<string>, b: set<string>): real {
    if a == {} || b == {} then 0.0 else
    assert a + b != {};
    |a * b| as real / |a + b| as real
  }

  lemma {:induction false} UnionSize(a: set<string>, b: set<string>)
    ensures |a + b| + |a * b| == |a| + |b|
    decreases a
  {
    if x :| x in a {
      UnionSize(a - {x}, b);
      if x in b {
        assert (a - {x}) + b == a + b && a * b == (a - {x}) * b + {x};
      } else {
        assert a + b == ((a - {x}) + b) + {x} && a * b == (a - {x}) * b;
      }
    } else {
      assert a + b == b && a * b == {};
    }
  }

  method Jaccard(a: set<string>, b: set<string>) returns (r: real)
    ensures r == Similarity(a, b)
  {
    if |a| == 0 || |b| == 0 { return 0.0; }
    var inter := CountShared(a, b);
    UnionSize(a, b);
    var union := |a| + |b| - inter;
    return inter as real / union as real;
  }

  method CountShared(a: set<string>, b: set<string>) returns (inter: nat)
    ensures inter == |a * b|
  {
    inter := 0;
    var todo := a;
    while todo != {}
      invariant todo <= a && inter + |todo * b| == |a * b|
      decreases todo
    {
      var k :| k in todo;
      if k in b {
        assert todo * b == (todo - {k}) * b + {k};
        inter := inter + 1;
      } else {
        assert todo * b == (todo - {k}) * b;
      }
      todo := todo - {k};
    }
    assert todo * b == {};
  }

  /** Similarity is symmetric, lies between 0 and 1, and is 1 exactly for equal non-empty sets. */
  lemma SimilarityLaws(a: set<string>, b: set<string>)
    ensures Similarity(a, b) == Similarity(b, a)
    ensures 0.0 <= Similarity(a, b) <= 1.0
    ensures Similarity(a, b) == 1.0 <==> a == b && a != {}
  {
    assert a * b == b * a && a + b == b + a;
    if a != {} && b != {} {
      UnionSize(a, b);
      SubsetSize(a * b, a + b);
      assert a + b != {};
      Proportion(|a * b|, |a + b|);
      assert a * b == a + b <==> a == b;
    }
  }

  lemma Proportion(x: nat, y: nat)
    requires x <= y && y > 0
    ensures 0.0 <= x as real / y as real <= 1.0 && (x as real / y as real == 1.0 <==> x == y)
  {
    var q := x as real / y as real;
    assert q * y as real == x as real;
  }

  lemma SubsetSize(s: set<string>, t: set<string>)
    requires s <= t
    ensures |s| <= |t| && (|s| == |t| <==> s == t)
  {
    assert t == s + (t - s) && s !! (t - s);
    assert |t| == |s| + |t - s|;
  }

  // ---- Clustering -------------------------------------------------------------------------------

  /** `tokens` are a title's words without the noise words; a threshold of 0 means 0.6. */
  datatype Rule = Rule(tokens: string -> set<string>, threshold: real)

  function Threshold(rule: Rule): real { if rule.threshold == 0.0 then 0.6 else rule.threshold }

  predicate IsDuplicate(rule: Rule, a: PR, b: PR) {
    || (a.fp != "" && b.fp != "" && a.fp == b.fp)
    || Similarity(rule.tokens(a.title), rule.tokens(b.title)) >= Threshold(rule)
  }

  lemma DuplicateIsSymmetric(rule: Rule, a: PR, b: PR)
    ensures IsDuplicate(rule, a, b) <==> IsDuplicate(rule, b, a)
  {
    SimilarityLaws(rule.tokens(a.title), rule.tokens(b.title));
  }

  predicate Ordered(s: seq<PR>) { forall i, j :: 0 <= i < j < |s| ==> s[i].number < s[j].number }

  type Pairing = (PR, PR) -> bool

  predicate Marked(canon: map<int, int>, pr: PR) { pr.number in canon }

  /** b hangs off a: a is no duplicate itself, and is the first unmarked one that b duplicates. */
  predicate HangsOff(dup: Pairing, s: seq<PR>, canon: map<int, int>, a: nat, b: nat)
    requires a < b < |s| && Marked(canon, s[b])
  {
    && canon[s[b].number] == s[a].number && !Marked(canon, s[a]) && dup(s[a], s[b])
    && forall c :: 0 <= c < a && !Marked(canon, s[c]) ==> !dup(s[c], s[b])
  }

  predicate HangsBelow(dup: Pairing, s: seq<PR>, canon: map<int, int>, b: nat, upTo: nat)
    requires b < |s| && Marked(canon, s[b])
  {
    exists a :: 0 <= a < b && a < upTo && HangsOff(dup, s, canon, a, b)
  }

  /** Every marked pull request is unprotected and hangs off one canonical pull request before `upTo`. */
  predicate StarForest(dup: Pairing, s: seq<PR>, canon: map<int, int>, upTo: nat) {
    && (forall d :: d in canon ==> exists b :: 0 <= b < |s| && s[b].number == d)
    && (forall b :: 0 <= b < |s| && Marked(canon, s[b]) ==>
          !IsProtected(s[b].labels) && HangsBelow(dup, s, canon, b, upTo))
  }

  /** An unmarked pair is a duplicate one only if the later one is protected; `upTo` bounds the earlier. */
  predicate MaximalTo(dup: Pairing, s: seq<PR>, canon: map<int, int>, upTo: nat) {
    forall a, b :: 0 <= a < upTo && a < b < |s| && !Marked(canon, s[a]) && !Marked(canon, s[b]) ==>
      IsProtected(s[b].labels) || !dup(s[a], s[b])
  }

  predicate Clustered(dup: Pairing, s: seq<PR>, canon: map<int, int>) {
    StarForest(dup, s, canon, |s|) && MaximalTo(dup, s, canon, |s|)
  }

  /** The part of the outer loop's turn i that is done: those before j were compared with s[i]. */
  predicate Compared(dup: Pairing, s: seq<PR>, canon: map<int, int>, i: nat, j: nat)
    requires i < |s|
  {
    && !Marked(canon, s[i])
    && forall b :: i < b < j && b < |s| && !Marked(canon, s[b]) ==> IsProtected(s[b].labels) || !dup(s[i], s[b])
  }

  method Cluster(dup: Pairing, s: seq<PR>) returns (canon: map<int, int>)
    requires Ordered(s)
    ensures Clustered(dup, s, canon)
  {
    canon := map[];
    for i := 0 to |s|
      invariant StarForest(dup, s, canon, i) && MaximalTo(dup, s, canon, i)
    {
      StarWidens(dup, s, canon, i);
      if s[i].number in canon { continue; }
      for j := i + 1 to |s|
        invariant StarForest(dup, s, canon, i + 1) && MaximalTo(dup, s, canon, i) && Compared(dup, s, canon, i, j)
      {
        if s[j].number in canon || IsProtected(s[j].labels) { continue; }
        if dup(s[i], s[j]) {
          MarkKeepsStar(dup, s, canon, i, j);
          canon := canon[s[j].number := s[i].number];
        }
      }
    }
  }

  lemma StarWidens(dup: Pairing, s: seq<PR>, canon: map<int, int>, i: nat)
    requires StarForest(dup, s, canon, i)
    ensures StarForest(dup, s, canon, i + 1)
  {
  }

  lemma MarkKeepsStar(dup: Pairing, s: seq<PR>, canon: map<int, int>, i: nat, j: nat)
    requires Ordered(s) && i < j < |s| && !Marked(canon, s[i]) && !Marked(canon, s[j])
    requires !IsProtected(s[j].labels) && dup(s[i], s[j])
    requires StarForest(dup, s, canon, i + 1) && MaximalTo(dup, s, canon, i)
    ensures StarForest(dup, s, canon[s[j].number := s[i].number], i + 1)
  {
    var more := canon[s[j].number := s[i].number];
    assert HangsOff(dup, s, more, i, j);
    forall b | 0 <= b < |s| && Marked(more, s[b]) && b != j ensures HangsBelow(dup, s, more, b, i + 1) {
      assert Marked(canon, s[b]);
      var a :| 0 <= a < b && a < i + 1 && HangsOff(dup, s, canon, a, b);
      assert HangsOff(dup, s, more, a, b);
    }
  }

  // ---- The contract determines the clustering ---------------------------------------------------

  predicate HasCanonical(dup: Pairing, s: seq<PR>, canon: map<int, int>, b: nat)
    requires b < |s|
  {
    exists a :: 0 <= a < b && !Marked(canon, s[a]) && dup(s[a], s[b])
  }

  lemma MarkedIff(dup: Pairing, s: seq<PR>, canon: map<int, int>, b: nat)
    requires Clustered(dup, s, canon) && b < |s|
    ensures Marked(canon, s[b]) <==> !IsProtected(s[b].labels) && HasCanonical(dup, s, canon, b)
  {
    if Marked(canon, s[b]) {
      assert HangsBelow(dup, s, canon, b, |s|);
    }
  }

  lemma {:induction false} SameMarks(dup: Pairing, s: seq<PR>, c1: map<int, int>, c2: map<int, int>, n: nat)
    requires Clustered(dup, s, c1) && Clustered(dup, s, c2) && n <= |s|
    ensures forall b :: 0 <= b < n ==> (Marked(c1, s[b]) <==> Marked(c2, s[b]))
  {
    if n > 0 {
      SameMarks(dup, s, c1, c2, n - 1);
      MarkedIff(dup, s, c1, n - 1);
      MarkedIff(dup, s, c2, n - 1);
    }
  }

  lemma ClusteringIsUnique(dup: Pairing, s: seq<PR>, c1: map<int, int>, c2: map<int, int>)
    requires Ordered(s) && Clustered(dup, s, c1) && Clustered(dup, s, c2)
    ensures c1 == c2
  {
    SameMarks(dup, s, c1, c2, |s|);
    forall d | d in c1 ensures d in c2 {
      var b :| 0 <= b < |s| && s[b].number == d;
      assert Marked(c1, s[b]);
    }
    forall d | d in c2 ensures d in c1 && c1[d] == c2[d] {
      var b :| 0 <= b < |s| && s[b].number == d;
      assert Marked(c2, s[b]);
      SameCanonical(dup, s, c1, c2, b);
    }
  }

  lemma SameCanonical(dup: Pairing, s: seq<PR>, c1: map<int, int>, c2: map<int, int>, b: nat)
    requires Clustered(dup, s, c1) && Clustered(dup, s, c2) && b < |s| && Marked(c1, s[b]) && Marked(c2, s[b])
    requires forall k :: 0 <= k < |s| ==> (Marked(c1, s[k]) <==> Marked(c2, s[k]))
    ensures c1[s[b].number] == c2[s[b].number]
  {
    assert HangsBelow(dup, s, c1, b, |s|) && HangsBelow(dup, s, c2, b, |s|);
    var a1 :| 0 <= a1 < b && HangsOff(dup, s, c1, a1, b);
    var a2 :| 0 <= a2 < b && HangsOff(dup, s, c2, a2, b);
    assert !(a1 < a2) && !(a2 < a1);
  }

  // ---- The pass -------------------------------------------------------------------------------------

  predicate IsCandidate(pr: PR) { !IsAutoCloseExempt(pr.labels) }

  function Insert(pr: PR, s: seq<PR>): seq<PR>
    decreases |s|
  {
    if s == [] then [pr]
    else if s[|s| - 1].number <= pr.number then s + [pr]
    else Insert(pr, s[..|s| - 1]) + [s[|s| - 1]]
  }

  function SortByNumber(prs: seq<PR>): seq<PR>
    decreases |prs|
  {
    if prs == [] then [] else Insert(prs[|prs| - 1], SortByNumber(prs[..|prs| - 1]))
  }

  lemma {:induction false} InsertKeeps(pr: PR, s: seq<PR>)
    requires Ordered(s) && forall x :: x in s ==> x.number != pr.number
    ensures Ordered(Insert(pr, s)) && forall x :: x in Insert(pr, s) <==> x in s || x == pr
    decreases |s|
  {
    if s != [] && s[|s| - 1].number > pr.number {
      var init, last := s[..|s| - 1], s[|s| - 1];
      assert s == init + [last];
      InsertKeeps(pr, init);
      var t := Insert(pr, init);
      forall i | 0 <= i < |t| ensures t[i].number < last.number { assert t[i] in t; }
    } else if s != [] {
      assert s[|s| - 1] in s;
    }
  }

  lemma {:induction false} SortsByNumber(prs: seq<PR>)
    requires Distinct(prs)
    ensures Ordered(SortByNumber(prs)) && forall x :: x in SortByNumber(prs) <==> x in prs
    decreases |prs|
  {
    if prs != [] {
      var init, last := prs[..|prs| - 1], prs[|prs| - 1];
      assert prs == init + [last];
      SortsByNumber(init);
      InsertKeeps(last, SortByNumber(init));
    }
  }

  /** The pull requests that take part, in number order. */
  function Candidates(prs: seq<PR>): seq<PR> { SortByNumber(Pick(Listed(prs, Runlore), IsCandidate)) }

  lemma CandidatesAre(prs: seq<PR>)
    requires Distinct(prs)
    ensures Ordered(Candidates(prs))
    ensures forall pr :: pr in Candidates(prs) <==> pr in prs && Runlore in pr.labels && IsCandidate(pr)
  {
    ListedAre(prs, Runlore);
    Picks(Listed(prs, Runlore), IsCandidate);
    SortsByNumber(Pick(Listed(prs, Runlore), IsCandidate));
  }

  method Run(prs: seq<PR>, rule: Rule, o: int -> CloseReplies) returns (canon: map<int, int>, closed: set<int>)
    requires Distinct(prs)
    ensures Clustered((a, b) => IsDuplicate(rule, a, b), Candidates(prs), canon)
    ensures forall d :: d in closed <==> d in canon && GoesThrough(o, d)
  {
    CandidatesAre(prs);
    canon := Cluster((a, b) => IsDuplicate(rule, a, b), Candidates(prs));
    closed := CloseAll(canon, o);
  }

  /** Comment on each duplicate, and close it only when the comment went through. */
  method CloseAll(canon: map<int, int>, o: int -> CloseReplies) returns (closed: set<int>)
    ensures forall d :: d in closed <==> d in canon && GoesThrough(o, d)
  {
    closed := {};
    var todo := canon.Items;
    while todo != {}
      invariant todo <= canon.Items
      invariant forall d :: d in closed <==> d in canon && (d, canon[d]) !in todo && GoesThrough(o, d)
      decreases todo
    {
      var item :| item in todo;
      todo := todo - {item};
      if !o(item.0).comments { continue; }
      if !o(item.0).closes { continue; }
      closed := closed + {item.0};
    }
  }

  /** What the clustering means for the listed pull requests: a marked one is an unprotected, non-exempt
      duplicate of a lower-numbered canonical one that is not itself marked. */
  lemma MarkedIsADuplicate(prs: seq<PR>, rule: Rule, canon: map<int, int>, d: int)
    requires Distinct(prs) && Clustered((a, b) => IsDuplicate(rule, a, b), Candidates(prs), canon) && d in canon
    ensures exists pr, c :: pr in prs && c in prs && pr.number == d && IsStar(rule, canon, pr, c)
  {
    CandidatesAre(prs);
    var s := Candidates(prs);
    var dup := (a, b) => IsDuplicate(rule, a, b);
    var b :| 0 <= b < |s| && s[b].number == d;
    assert Marked(canon, s[b]) && HangsBelow(dup, s, canon, b, |s|);
    var a :| 0 <= a < b && HangsOff(dup, s, canon, a, b);
    assert s[a] in s && s[b] in s && IsStar(rule, canon, s[b], s[a]);
  }

  predicate IsStar(rule: Rule, canon: map<int, int>, pr: PR, c: PR) {
    && Marked(canon, pr) && canon[pr.number] == c.number && c.number < pr.number && !Marked(canon, c)
    && IsDuplicate(rule, c, pr) && !IsProtected(pr.labels) && !IsAutoCloseExempt(pr.labels)
  }

  /** Nothing is missed: two unmarked candidates are duplicates, either way round, only if the higher-numbered is
      protected. */
  lemma NothingMissed(prs: seq<PR>, rule: Rule, canon: map<int, int>, p: PR, r: PR)
    requires Distinct(prs) && Clustered((a, b) => IsDuplicate(rule, a, b), Candidates(prs), canon)
    requires p in prs && r in prs && Runlore in p.labels && Runlore in r.labels && IsCandidate(p) && IsCandidate(r)
    requires !Marked(canon, p) && !Marked(canon, r) && p.number < r.number
    requires IsDuplicate(rule, p, r) || IsDuplicate(rule, r, p)
    ensures IsProtected(r.labels)
  {
    DuplicateIsSymmetric(rule, p, r);
    CandidatesAre(prs);
    var s := Candidates(prs);
    var a :| 0 <= a < |s| && s[a] == p;
    var b :| 0 <= b < |s| && s[b] == r;
    assert a < b;
  }
}
