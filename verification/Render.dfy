/**
 The size-bounded body of the queue issue: the fixed parts, the longest prefix of rows that
 fits, and a note that says exactly how many rows are missing. A character of text is one
 Unicode scalar, which is what the size limit counts.
 */
module Rendering {
  /** The wording around the rows. The claims hold of any. */
  datatype Wording = Wording(tableHead: string, nothingWaits: string, noteTail: string)

  const QUEUE_WORDING := Wording(
    "| Risk | Entry | Verdict | Confidence | Evidence |\n|---|---|---|---|---|\n",
    "Nothing waits for a decision.\n",
    " more waiting, riskiest first above: not listed, the issue body is at GitHub's size limit.\n")

  function Decimal(n: nat): (s: string)
    ensures |s| > 0
  {
    if n < 10 then ["0123456789"[n]] else Decimal(n / 10) + ["0123456789"[n % 10]]
  }

  lemma {:induction false} DecimalGrows(m: nat, n: nat)
    requires m <= n
    ensures |Decimal(m)| <= |Decimal(n)|
  {
    if m >= 10 { DecimalGrows(m / 10, n / 10); }
  }

  function OmittedNote(w: Wording, n: nat): string { "\n" + Decimal(n) + w.noteTail }

  function Concat(lines: seq<string>): string
    decreases |lines|
  {
    if lines == [] then "" else Concat(lines[..|lines| - 1]) + lines[|lines| - 1]
  }

  /** The size of the first k rows. */
  function SizeOf(lines: seq<string>, k: nat): nat
    requires k <= |lines|
  {
    |Concat(lines[..k])|
  }

  lemma SizeNext(lines: seq<string>, k: nat)
    requires k < |lines|
    ensures SizeOf(lines, k + 1) == SizeOf(lines, k) + |lines[k]|
    ensures Concat(lines[..k + 1]) == Concat(lines[..k]) + lines[k]
  {
    assert lines[..k + 1][..k] == lines[..k];
  }

  lemma {:induction false} SizeGrows(lines: seq<string>, j: nat, k: nat)
    requires j <= k <= |lines|
    ensures SizeOf(lines, j) <= SizeOf(lines, k)
    decreases k
  {
    if j < k {
      SizeGrows(lines, j, k - 1);
      SizeNext(lines, k - 1);
    }
  }

  function Fixed(w: Wording, head: string, tail: string): nat { |head| + |w.tableHead| + |tail| }

  predicate AllFit(w: Wording, head: string, tail: string, lines: seq<string>, limit: int) {
    Fixed(w, head, tail) + SizeOf(lines, |lines|) <= limit
  }

  /** What is left for rows once the note for the largest count is reserved. */
  function Budget(w: Wording, head: string, tail: string, n: nat, limit: int): int {
    limit - Fixed(w, head, tail) - |OmittedNote(w, n)|
  }

  /** The longest prefix of rows within a budget; none fits a negative one. */
  predicate IsLongest(lines: seq<string>, budget: int, shown: nat) {
    && shown <= |lines|
    && (shown > 0 ==> SizeOf(lines, shown) <= budget)
    && (forall k :: shown < k <= |lines| ==> SizeOf(lines, k) > budget)
  }

  function Body(w: Wording, head: string, tail: string, lines: seq<string>, shown: nat): string
    requires shown <= |lines|
  {
    head + w.tableHead + Concat(lines[..shown])
    + (if shown < |lines| then OmittedNote(w, |lines| - shown) else "") + tail
  }

  /** The body within a limit, and how many rows it shows. */
  method RenderLimit(w: Wording, head: string, tail: string, lines: seq<string>, limit: int)
    returns (out: string, shown: nat)
    ensures lines == [] ==> shown == 0 && out == head + w.nothingWaits + tail
    ensures lines != [] ==> shown <= |lines| && out == Body(w, head, tail, lines, shown)
    ensures AllFit(w, head, tail, lines, limit) ==> shown == |lines|
    ensures lines != [] && !AllFit(w, head, tail, lines, limit) ==>
              shown < |lines| && IsLongest(lines, Budget(w, head, tail, |lines|, limit), shown)
    ensures lines != [] ==>
              (|out| <= limit <==>
               AllFit(w, head, tail, lines, limit) || Fixed(w, head, tail) + |OmittedNote(w, |lines|)| <= limit)
    ensures head <= out
  {
    if |lines| == 0 {
      out, shown := head + w.nothingWaits + tail, 0;
      return;
    }
    var total := 0;
    for i := 0 to |lines|
      invariant total == SizeOf(lines, i)
    {
      SizeNext(lines, i);
      total := total + |lines[i]|;
    }
    shown := |lines|;
    if Fixed(w, head, tail) + total > limit {
      shown := Fit(lines, Budget(w, head, tail, |lines|, limit));
    }
    var table := Take(lines, shown);
    var note := if shown < |lines| then OmittedNote(w, |lines| - shown) else "";
    out := head + w.tableHead + table + note + tail;
    SizeIsRight(w, head, tail, lines, limit, shown);
    BodySize(w, head, tail, lines, shown);
  }

  method Fit(lines: seq<string>, reserved: int) returns (shown: nat)
    ensures IsLongest(lines, reserved, shown)
  {
    var budget := reserved;
    shown := 0;
    for i := 0 to |lines|
      invariant shown == i && budget == reserved - SizeOf(lines, i) && (i > 0 ==> budget >= 0)
    {
      SizeNext(lines, i);
      var n := |lines[i]|;
      if n > budget {
        forall k | i < k <= |lines| ensures SizeOf(lines, k) > reserved {
          SizeGrows(lines, i + 1, k);
        }
        return;
      }
      budget := budget - n;
      shown := shown + 1;
    }
  }

  method Take(lines: seq<string>, shown: nat) returns (table: string)
    requires shown <= |lines|
    ensures table == Concat(lines[..shown])
  {
    table := "";
    for i := 0 to shown
      invariant table == Concat(lines[..i])
    {
      SizeNext(lines, i);
      table := table + lines[i];
    }
  }

  lemma BodySize(w: Wording, head: string, tail: string, lines: seq<string>, shown: nat)
    requires shown <= |lines|
    ensures |Body(w, head, tail, lines, shown)| == Fixed(w, head, tail) + SizeOf(lines, shown) +
                                                  if shown < |lines| then |OmittedNote(w, |lines| - shown)| else 0
    ensures head <= Body(w, head, tail, lines, shown)
  {
  }

  /** The body is within the limit exactly when everything fits or the fixed parts and the largest note do. */
  lemma SizeIsRight(w: Wording, head: string, tail: string, lines: seq<string>, limit: int, shown: nat)
    requires lines != [] && shown <= |lines|
    requires if AllFit(w, head, tail, lines, limit) then shown == |lines|
             else IsLongest(lines, Budget(w, head, tail, |lines|, limit), shown)
    ensures |Body(w, head, tail, lines, shown)| <= limit <==>
            AllFit(w, head, tail, lines, limit) || Fixed(w, head, tail) + |OmittedNote(w, |lines|)| <= limit
    ensures !AllFit(w, head, tail, lines, limit) ==> shown < |lines|
  {
    BodySize(w, head, tail, lines, shown);
    if shown < |lines| {
      NoteGrows(w, |lines| - shown, |lines|);
      assert SizeOf(lines, 0) == 0;
      SizeGrows(lines, 0, shown);
    }
  }

  lemma NoteGrows(w: Wording, m: nat, n: nat)
    requires m <= n
    ensures |OmittedNote(w, m)| <= |OmittedNote(w, n)|
  {
    DecimalGrows(m, n);
  }
}
