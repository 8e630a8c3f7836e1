/**
 The identity of an incident: a pinned value, or the hash of a preimage built from the
 resource and either the trigger key or the significant words of the cause.

 The hash is taken as injective, so the claims are about preimages. Letters, spaces and lower
 case come with the alphabet; only what the claims need of them is assumed.
 */
module Fingerprints {
  datatype Alphabet = Alphabet(isWord: char -> bool, isSpace: char -> bool, lower: char -> char, stops: set<string>)

  predicate SpaceOk(a: Alphabet, c: char) { a.isSpace(c) ==> !a.isWord(c) && a.lower(c) == c }

  ghost predicate Sane(a: Alphabet) {
    && (forall c :: SpaceOk(a, c))
    && !a.isWord(' ') && !a.isWord(':') && !a.isWord('|') && "trigger" !in a.stops
    && (forall c :: c in "trigger" ==> a.isWord(c))
  }

  // ---- Fields ---------------------------------------------------------------------------------

  datatype Scan = Scan(fields: seq<string>, run: string)

  function Flush(sc: Scan): seq<string> { if sc.run != "" then sc.fields + [sc.run] else sc.fields }

  /** The words closed so far and the one still open. */
  function ScanOf(a: Alphabet, s: string): Scan
    decreases |s|
  {
    if s == "" then Scan([], "") else
    var (sc, c) := (ScanOf(a, s[..|s| - 1]), s[|s| - 1]);
    if a.isWord(c) then Scan(sc.fields, sc.run + [c]) else Scan(Flush(sc), "")
  }

  /** The maximal runs of word characters, in order. */
  function Fields(a: Alphabet, s: string): seq<string> { Flush(ScanOf(a, s)) }

  predicate Blank(a: Alphabet, s: string) { forall i :: 0 <= i < |s| ==> !a.isWord(s[i]) }

  predicate IsWord(a: Alphabet, s: string) { s != "" && forall i :: 0 <= i < |s| ==> a.isWord(s[i]) }

  function Continue(a: Alphabet, sc: Scan, s: string): Scan
    decreases |s|
  {
    if s == "" then sc else
    var (before, c) := (Continue(a, sc, s[..|s| - 1]), s[|s| - 1]);
    if a.isWord(c) then Scan(before.fields, before.run + [c]) else Scan(Flush(before), "")
  }

  lemma {:induction false} ScanConcat(a: Alphabet, s: string, t: string)
    ensures ScanOf(a, s + t) == Continue(a, ScanOf(a, s), t)
    decreases |t|
  {
    if t == "" {
      assert s + t == s;
    } else {
      assert (s + t)[..|s + t| - 1] == s + t[..|t| - 1];
      ScanConcat(a, s, t[..|t| - 1]);
    }
  }

  lemma {:induction false} ContinueBlank(a: Alphabet, sc: Scan, s: string)
    requires Blank(a, s) && s != ""
    ensures Continue(a, sc, s) == Scan(Flush(sc), "")
    decreases |s|
  {
    if |s| > 1 { ContinueBlank(a, sc, s[..|s| - 1]); } else { assert s[..0] == ""; }
  }

  lemma {:induction false} ContinueWord(a: Alphabet, sc: Scan, s: string)
    requires forall i :: 0 <= i < |s| ==> a.isWord(s[i])
    ensures Continue(a, sc, s) == Scan(sc.fields, sc.run + s)
    decreases |s|
  {
    if s == "" {
      assert sc.run + s == sc.run;
    } else {
      ContinueWord(a, sc, s[..|s| - 1]);
      assert sc.run + s[..|s| - 1] + [s[|s| - 1]] == sc.run + s;
    }
  }

  /** Continuing never drops a closed word, and starting with others only puts them in front. */
  lemma {:induction false} ContinueShifts(a: Alphabet, fields: seq<string>, s: string)
    ensures Continue(a, Scan(fields, ""), s) == Scan(fields + ScanOf(a, s).fields, ScanOf(a, s).run)
    decreases |s|
  {
    if s == "" {
      assert fields + [] == fields;
    } else {
      ContinueShifts(a, fields, s[..|s| - 1]);
    }
  }

  /** Blanks around a text change nothing. */
  lemma FieldsOfPadded(a: Alphabet, lead: string, s: string, trail: string)
    requires Blank(a, lead) && Blank(a, trail)
    ensures Fields(a, lead + s + trail) == Fields(a, s)
  {
    var sc := ScanOf(a, lead);
    ScanConcat(a, "", lead);
    assert "" + lead == lead;
    if lead != "" { ContinueBlank(a, Scan([], ""), lead); }
    assert sc == Scan([], "");
    ScanConcat(a, lead, s);
    ContinueShifts(a, [], s);
    assert [] + ScanOf(a, s).fields == ScanOf(a, s).fields;
    ScanConcat(a, lead + s, trail);
    if trail != "" { ContinueBlank(a, ScanOf(a, lead + s), trail); }
  }

  lemma ScanOfWord(a: Alphabet, word: string)
    requires IsWord(a, word)
    ensures ScanOf(a, word) == Scan([], word)
  {
    ScanConcat(a, "", word);
    assert "" + word == word;
    ContinueWord(a, Scan([], ""), word);
  }

  lemma ScanOfClosed(a: Alphabet, word: string, sep: char)
    requires IsWord(a, word) && !a.isWord(sep)
    ensures ScanOf(a, word + [sep]) == Scan([word], "")
  {
    ScanOfWord(a, word);
    assert (word + [sep])[..|word|] == word;
  }

  /** A word followed by a separator is the first field. */
  lemma WordComesFirst(a: Alphabet, word: string, sep: char, rest: string)
    requires IsWord(a, word) && !a.isWord(sep)
    ensures Fields(a, word + [sep] + rest) == [word] + Fields(a, rest)
  {
    ScanOfClosed(a, word, sep);
    ScanConcat(a, word + [sep], rest);
    ContinueShifts(a, [word], rest);
    var sc := ScanOf(a, rest);
    assert [word] + sc.fields + [sc.run] == [word] + (sc.fields + [sc.run]);
  }

  lemma OneWord(a: Alphabet, word: string)
    requires IsWord(a, word)
    ensures Fields(a, word) == [word]
  {
    ScanOfWord(a, word);
  }

  // ---- Sorted words -----------------------------------------------------------------------------

  /** The order of text: by the first character that differs. */
  predicate Before(s: string, t: string)
    decreases |s|
  {
    if t == "" then false
    else if s == "" then true
    else s[0] < t[0] || (s[0] == t[0] && Before(s[1..], t[1..]))
  }

  lemma {:induction false} BeforeIsTotal(s: string, t: string)
    ensures Before(s, t) || s == t || Before(t, s)
    ensures !(Before(s, t) && Before(t, s)) && !Before(s, s)
    decreases |s|
  {
    if s != "" {
      BeforeIsTotal(s[1..], s[1..]);
      if t != "" {
        BeforeIsTotal(s[1..], t[1..]);
        if s[0] == t[0] && s[1..] == t[1..] { assert s == [s[0]] + s[1..] && t == [t[0]] + t[1..]; }
      }
    }
  }

  lemma {:induction false} BeforeIsTransitive(s: string, t: string, u: string)
    requires Before(s, t) && Before(t, u)
    ensures Before(s, u)
    decreases |s|
  {
    if s != "" && s[0] == t[0] == u[0] { BeforeIsTransitive(s[1..], t[1..], u[1..]); }
  }

  predicate Sorted(ws: seq<string>) { forall i, j :: 0 <= i < j < |ws| ==> Before(ws[i], ws[j]) }

  function Insert(w: string, ws: seq<string>): seq<string>
    decreases |ws|
  {
    if ws == [] then [w]
    else if Before(w, ws[|ws| - 1]) then Insert(w, ws[..|ws| - 1]) + [ws[|ws| - 1]]
    else ws + [w]
  }

  function SortWords(ws: seq<string>): seq<string>
    decreases |ws|
  {
    if ws == [] then [] else Insert(ws[|ws| - 1], SortWords(ws[..|ws| - 1]))
  }

  lemma {:induction false} InsertSorts(w: string, ws: seq<string>)
    requires Sorted(ws) && w !in ws
    ensures Sorted(Insert(w, ws)) && forall x :: x in Insert(w, ws) <==> x in ws || x == w
    decreases |ws|
  {
    if ws != [] {
      var init, last := ws[..|ws| - 1], ws[|ws| - 1];
      assert ws == init + [last];
      BeforeIsTotal(w, last);
      if Before(w, last) {
        InsertSorts(w, init);
        var t := Insert(w, init);
        forall i | 0 <= i < |t| ensures Before(t[i], last) { assert t[i] in t; }
      } else {
        forall i | 0 <= i < |init| ensures Before(init[i], w) { BeforeIsTransitive(ws[i], last, w); }
      }
    }
  }

  predicate NoRepeats(ws: seq<string>) { forall i, j :: 0 <= i < j < |ws| ==> ws[i] != ws[j] }

  lemma {:induction false} SortWordsSorts(ws: seq<string>)
    requires NoRepeats(ws)
    ensures Sorted(SortWords(ws)) && forall x :: x in SortWords(ws) <==> x in ws
    decreases |ws|
  {
    if ws != [] {
      var init, last := ws[..|ws| - 1], ws[|ws| - 1];
      assert ws == init + [last];
      SortWordsSorts(init);
      InsertSorts(last, SortWords(init));
    }
  }

  /** A sorted list is determined by its members. */
  lemma {:induction false} SortedIsUnique(x: seq<string>, y: seq<string>)
    requires Sorted(x) && Sorted(y) && forall w :: w in x <==> w in y
    ensures x == y
    decreases |x|
  {
    assert |y| > 0 ==> y[0] in y;
    if x != [] {
      assert x[0] in x;
      LeastIsFirst(x, y);
      forall w ensures w in x[1..] <==> w in y[1..] {
        RestOf(x, w);
        RestOf(y, w);
      }
      SortedIsUnique(x[1..], y[1..]);
    }
  }

  lemma LeastIsFirst(x: seq<string>, y: seq<string>)
    requires Sorted(x) && Sorted(y) && x != [] && y != [] && forall w :: w in x <==> w in y
    ensures x[0] == y[0]
  {
    assert x[0] in x && y[0] in y;
    var i :| 0 <= i < |y| && y[i] == x[0];
    var j :| 0 <= j < |x| && x[j] == y[0];
    BeforeIsTotal(x[0], y[0]);
  }

  lemma RestOf(x: seq<string>, w: string)
    requires Sorted(x) && x != []
    ensures w in x[1..] <==> w in x && w != x[0]
  {
    assert x == [x[0]] + x[1..];
    BeforeIsTotal(x[0], x[0]);
    forall i | 1 <= i < |x| ensures x[i] != x[0] {
      assert Before(x[0], x[i]);
    }
  }

  // ---- The token set --------------------------------------------------------------------------------

  /** The bytes of a character's UTF-8 form. */
  function Bytes(c: char): nat {
    if c as int < 0x80 then 1 else if c as int < 0x800 then 2 else if c as int < 0x10000 then 3 else 4
  }

  function ByteLength(s: string): nat { if s == "" then 0 else Bytes(s[0]) + ByteLength(s[1..]) }

  predicate IsSignificant(a: Alphabet, w: string) { ByteLength(w) >= 3 && w !in a.stops }

  /** The significant words, each at its first occurrence. */
  function Collect(a: Alphabet, fields: seq<string>): seq<string>
    decreases |fields|
  {
    if fields == [] then [] else
    var (init, f) := (Collect(a, fields[..|fields| - 1]), fields[|fields| - 1]);
    if IsSignificant(a, f) && f !in init then init + [f] else init
  }

  function Lower(a: Alphabet, s: string): (r: string)
    ensures |r| == |s| && forall i :: 0 <= i < |s| ==> r[i] == a.lower(s[i])
  {
    seq(|s|, i requires 0 <= i < |s| => a.lower(s[i]))
  }

  function Words(a: Alphabet, text: string): seq<string> { Fields(a, Lower(a, text)) }

  function Tokens(a: Alphabet, text: string): seq<string> { SortWords(Collect(a, Words(a, text))) }

  method TokenSet(a: Alphabet, text: string) returns (out: seq<string>)
    ensures out == Tokens(a, text)
  {
    var fields := Fields(a, Lower(a, text));
    var seen: set<string> := {};
    out := [];
    for i := 0 to |fields|
      invariant out == Collect(a, fields[..i]) && forall w :: w in seen <==> w in out
    {
      var f := fields[i];
      assert fields[..i + 1][..i] == fields[..i];
      if ByteLength(f) < 3 { continue; }
      if f in a.stops { continue; }
      if f in seen { continue; }
      seen := seen + {f};
      out := out + [f];
    }
    assert fields[..|fields|] == fields;
    out := SortWords(out);
  }

  lemma {:induction false} CollectIs(a: Alphabet, fields: seq<string>)
    ensures NoRepeats(Collect(a, fields))
    ensures forall w :: w in Collect(a, fields) <==> w in fields && IsSignificant(a, w)
    decreases |fields|
  {
    if fields != [] {
      assert fields == fields[..|fields| - 1] + [fields[|fields| - 1]];
      CollectIs(a, fields[..|fields| - 1]);
    }
  }

  lemma TokensAre(a: Alphabet, text: string)
    ensures Sorted(Tokens(a, text))
    ensures forall w :: w in Tokens(a, text) <==> w in Words(a, text) && IsSignificant(a, w)
  {
    CollectIs(a, Words(a, text));
    SortWordsSorts(Collect(a, Words(a, text)));
  }

  predicate Mentions(a: Alphabet, text: string, w: string) { w in Words(a, text) && IsSignificant(a, w) }

  /** Two texts have the same token list exactly when the same significant words occur in them, in whatever
      order and number. */
  lemma TokensAreCanonical(a: Alphabet, x: string, y: string)
    ensures Tokens(a, x) == Tokens(a, y) <==> forall w :: Mentions(a, x, w) <==> Mentions(a, y, w)
  {
    TokensAre(a, x);
    TokensAre(a, y);
    if Tokens(a, x) == Tokens(a, y) {
      forall w ensures Mentions(a, x, w) <==> Mentions(a, y, w) {
        assert Mentions(a, x, w) <==> w in Tokens(a, x);
        assert Mentions(a, y, w) <==> w in Tokens(a, y);
      }
    }
    if forall w :: Mentions(a, x, w) <==> Mentions(a, y, w) {
      forall w ensures w in Tokens(a, x) <==> w in Tokens(a, y) {
        assert Mentions(a, x, w) <==> Mentions(a, y, w);
      }
      SortedIsUnique(Tokens(a, x), Tokens(a, y));
    }
  }

  // ---- The preimage -----------------------------------------------------------------------------------

  function TrimLeft(a: Alphabet, s: string): string { if s != "" && a.isSpace(s[0]) then TrimLeft(a, s[1..]) else s }

  function TrimRight(a: Alphabet, s: string): string
    decreases |s|
  {
    if s != "" && a.isSpace(s[|s| - 1]) then TrimRight(a, s[..|s| - 1]) else s
  }

  function Trim(a: Alphabet, s: string): string { TrimRight(a, TrimLeft(a, s)) }

  predicate Spaces(a: Alphabet, s: string) { forall i :: 0 <= i < |s| ==> a.isSpace(s[i]) }

  lemma {:induction false} TrimLeftSplits(a: Alphabet, s: string) returns (lead: string)
    ensures s == lead + TrimLeft(a, s) && Spaces(a, lead)
    decreases |s|
  {
    lead := "";
    if s != "" && a.isSpace(s[0]) {
      lead := TrimLeftSplits(a, s[1..]);
      lead := [s[0]] + lead;
    }
  }

  lemma {:induction false} TrimRightSplits(a: Alphabet, s: string) returns (trail: string)
    ensures s == TrimRight(a, s) + trail && Spaces(a, trail)
    decreases |s|
  {
    trail := "";
    if s != "" && a.isSpace(s[|s| - 1]) {
      trail := TrimRightSplits(a, s[..|s| - 1]);
      trail := trail + [s[|s| - 1]];
    }
  }

  function Join(ws: seq<string>): string
    decreases |ws|
  {
    if ws == [] then "" else if |ws| == 1 then ws[0] else ws[0] + [' '] + Join(ws[1..])
  }

  /** What a finding is identified by. `ref` is the normalised lower-case resource, `cause` the normalised top
      root cause, "" when there is none. */
  datatype Finding = Finding(pinned: string, ref: string, account: string, trigger: string, cause: string)

  datatype Identity = Pinned(value: string) | Nothing | Hash(preimage: string)

  function RefKey(a: Alphabet, f: Finding): string {
    var account := Trim(a, f.account);
    if account != "" && f.ref != "" then f.ref + "@" + Lower(a, account) else f.ref
  }

  function TriggerKey(a: Alphabet, f: Finding): string { Lower(a, Trim(a, f.trigger)) }

  function RawCause(a: Alphabet, f: Finding): string { Lower(a, Trim(a, f.cause)) }

  /** The significant words of the cause, or the raw text when it has none. */
  function CauseKey(a: Alphabet, f: Finding): string {
    if Tokens(a, f.cause) == [] then RawCause(a, f) else Join(Tokens(a, f.cause))
  }

  function DupFingerprint(a: Alphabet, f: Finding): Identity {
    if f.pinned != "" then Pinned(f.pinned)
    else if TriggerKey(a, f) != "" then Hash(RefKey(a, f) + "|" + ("trigger:" + TriggerKey(a, f)))
    else if RefKey(a, f) == "" && CauseKey(a, f) == "" then Nothing
    else Hash(RefKey(a, f) + "|" + CauseKey(a, f))
  }

  predicate ByTrigger(a: Alphabet, f: Finding) { f.pinned == "" && TriggerKey(a, f) != "" }

  predicate ByCause(a: Alphabet, f: Finding) { f.pinned == "" && TriggerKey(a, f) == "" && DupFingerprint(a, f).Hash? }

  /** r + sep + k and q + sep + l are one text because q spells r, a separator and the rest of r's key. */
  predicate SpellsOut(r: string, k: string, q: string, l: string, sep: string) {
    r + sep <= q && k == q[|r| + |sep|..] + sep + l
  }

  /** Two keyed texts are equal exactly when their parts are, or one ref spells out the other. */
  lemma BarSplit(r: string, k: string, q: string, l: string)
    ensures r + "|" + k == q + "|" + l <==>
            (r == q && k == l) || SpellsOut(r, k, q, l, "|") || SpellsOut(q, l, r, k, "|")
  {
    if r + "|" + k == q + "|" + l {
      if |r| < |q| { Spells(r, k, q, l, "|"); }
      if |q| < |r| { Spells(q, l, r, k, "|"); }
      if |r| == |q| { SameParts(r, k, q, l, "|"); }
    }
    if SpellsOut(r, k, q, l, "|") { SpellsBack(r, k, q, l, "|"); }
    if SpellsOut(q, l, r, k, "|") { SpellsBack(q, l, r, k, "|"); }
  }

  lemma SameParts(r: string, k: string, q: string, l: string, sep: string)
    requires r + sep + k == q + sep + l && |r| == |q|
    ensures r == q && k == l
  {
    var x := r + sep + k;
    assert x[..|r|] == r && (q + sep + l)[..|q|] == q;
    assert x[|r| + |sep|..] == k && (q + sep + l)[|q| + |sep|..] == l;
  }

  /** A shorter ref is spelled out whenever the separators do not overlap. */
  lemma Spells(r: string, k: string, q: string, l: string, sep: string)
    requires r + sep + k == q + sep + l && |r| + |sep| <= |q|
    ensures SpellsOut(r, k, q, l, sep)
  {
    var x, n := r + sep + k, |r| + |sep|;
    assert x == q + sep + l;
    assert x[..n] == r + sep && x[..n] == q[..n];
    assert x[n..] == k && x[n..] == q[n..] + sep + l;
  }

  lemma SpellsBack(r: string, k: string, q: string, l: string, sep: string)
    requires SpellsOut(r, k, q, l, sep)
    ensures r + sep + k == q + sep + l
  {
    assert q == (r + sep) + q[|r| + |sep|..];
  }

  const TRIGGER_SEP := "|trigger:"

  /** The same for trigger keys: the separator cannot overlap itself, as it has one bar and begins with it. */
  lemma TriggerSplit(r: string, t: string, q: string, u: string)
    ensures r + TRIGGER_SEP + t == q + TRIGGER_SEP + u <==>
            (r == q && t == u) || SpellsOut(r, t, q, u, TRIGGER_SEP) || SpellsOut(q, u, r, t, TRIGGER_SEP)
  {
    if r + TRIGGER_SEP + t == q + TRIGGER_SEP + u {
      if |r| < |q| { NoOverlap(r, t, q, u); Spells(r, t, q, u, TRIGGER_SEP); }
      if |q| < |r| { NoOverlap(q, u, r, t); Spells(q, u, r, t, TRIGGER_SEP); }
      if |r| == |q| { SameParts(r, t, q, u, TRIGGER_SEP); }
    }
    if SpellsOut(r, t, q, u, TRIGGER_SEP) { SpellsBack(r, t, q, u, TRIGGER_SEP); }
    if SpellsOut(q, u, r, t, TRIGGER_SEP) { SpellsBack(q, u, r, t, TRIGGER_SEP); }
  }

  lemma NoOverlap(r: string, t: string, q: string, rest: string)
    requires |r| < |q| && r + TRIGGER_SEP + t == q + TRIGGER_SEP + rest
    ensures |r| + 9 <= |q|
  {
    BarInSeparator(r, t, q, "trigger:" + rest);
    assert q + "|" + ("trigger:" + rest) == q + TRIGGER_SEP + rest;
  }

  lemma BarInSeparator(r: string, t: string, q: string, l: string)
    requires |r| < |q| && r + TRIGGER_SEP + t == q + "|" + l
    ensures |r| + 9 <= |q|
  {
    var x, i := r + TRIGGER_SEP + t, |q| - |r|;
    assert x[|q|] == (q + "|" + l)[|q|] == '|';
    assert forall j :: 1 <= j < 9 ==> x[|r| + j] == TRIGGER_SEP[j] != '|';
  }

  /** For which refs a collision of triggers is possible at all: exactly when one begins with the other and a
      separator. */
  lemma RefsCollideIff(r: string, q: string)
    requires r != q
    ensures (exists t, u :: r + TRIGGER_SEP + t == q + TRIGGER_SEP + u) <==>
            r + TRIGGER_SEP <= q || q + TRIGGER_SEP <= r
  {
    if t, u :| r + TRIGGER_SEP + t == q + TRIGGER_SEP + u { TriggerSplit(r, t, q, u); }
    if r + TRIGGER_SEP <= q {
      var t := q[|r| + 9..] + TRIGGER_SEP;
      assert SpellsOut(r, t, q, "", TRIGGER_SEP) by { assert t + "" == t; }
      SpellsBack(r, t, q, "", TRIGGER_SEP);
    }
    if q + TRIGGER_SEP <= r {
      var u := r[|q| + 9..] + TRIGGER_SEP;
      assert SpellsOut(q, u, r, "", TRIGGER_SEP) by { assert u + "" == u; }
      SpellsBack(q, u, r, "", TRIGGER_SEP);
    }
  }

  /** g's ref spells out f's ref and the start of f's trigger. */
  predicate Imitates(a: Alphabet, f: Finding, g: Finding) {
    SpellsOut(RefKey(a, f), TriggerKey(a, f), RefKey(a, g), TriggerKey(a, g), TRIGGER_SEP)
  }

  lemma TriggerPreimage(a: Alphabet, f: Finding)
    requires ByTrigger(a, f)
    ensures DupFingerprint(a, f) == Hash(RefKey(a, f) + TRIGGER_SEP + TriggerKey(a, f))
  {
    assert RefKey(a, f) + "|" + ("trigger:" + TriggerKey(a, f)) == RefKey(a, f) + TRIGGER_SEP + TriggerKey(a, f);
  }

  /** Trigger-keyed findings share a fingerprint exactly when ref and trigger agree or one ref spells the other out;
      refs free of bars never do. */
  lemma TriggerIdentity(a: Alphabet, f: Finding, g: Finding)
    requires ByTrigger(a, f) && ByTrigger(a, g)
    ensures DupFingerprint(a, f) == DupFingerprint(a, g) <==>
            || (RefKey(a, f) == RefKey(a, g) && TriggerKey(a, f) == TriggerKey(a, g))
            || Imitates(a, f, g) || Imitates(a, g, f)
    ensures '|' !in RefKey(a, f) ==> !Imitates(a, g, f)
  {
    TriggerPreimage(a, f);
    TriggerPreimage(a, g);
    TriggerSplit(RefKey(a, f), TriggerKey(a, f), RefKey(a, g), TriggerKey(a, g));
    if Imitates(a, g, f) { assert RefKey(a, f)[|RefKey(a, g)|] == TRIGGER_SEP[0]; }
  }

  lemma LowerConcat(a: Alphabet, s: string, t: string)
    ensures Lower(a, s + t) == Lower(a, s) + Lower(a, t)
  {
  }

  lemma LowerSpaces(a: Alphabet, s: string)
    requires Sane(a) && Spaces(a, s)
    ensures Lower(a, s) == s && Blank(a, s)
  {
    forall i | 0 <= i < |s| ensures Lower(a, s)[i] == s[i] && !a.isWord(s[i]) { assert SpaceOk(a, s[i]); }
  }

  /** The raw key has the words of the cause. */
  lemma RawKeepsWords(a: Alphabet, f: Finding)
    requires Sane(a)
    ensures Words(a, f.cause) == Fields(a, RawCause(a, f))
  {
    var lead := TrimLeftSplits(a, f.cause);
    var trail := TrimRightSplits(a, TrimLeft(a, f.cause));
    PaddedWords(a, lead, Trim(a, f.cause), trail);
    assert f.cause == lead + (Trim(a, f.cause) + trail);
  }

  lemma PaddedWords(a: Alphabet, lead: string, mid: string, trail: string)
    requires Sane(a) && Spaces(a, lead) && Spaces(a, trail)
    ensures Words(a, lead + (mid + trail)) == Fields(a, Lower(a, mid))
  {
    LowerConcat(a, lead, mid + trail);
    LowerConcat(a, mid, trail);
    LowerSpaces(a, lead);
    LowerSpaces(a, trail);
    assert lead + (Lower(a, mid) + trail) == lead + Lower(a, mid) + trail;
    FieldsOfPadded(a, lead, Lower(a, mid), trail);
  }

  lemma {:induction false} FieldsAreWords(a: Alphabet, s: string)
    ensures forall i :: 0 <= i < |ScanOf(a, s).run| ==> a.isWord(ScanOf(a, s).run[i])
    ensures forall w :: w in ScanOf(a, s).fields ==> IsWord(a, w)
    decreases |s|
  {
    if s != "" { FieldsAreWords(a, s[..|s| - 1]); }
  }

  lemma TokensAreWords(a: Alphabet, text: string)
    ensures forall w :: w in Tokens(a, text) ==> IsWord(a, w)
  {
    TokensAre(a, text);
    FieldsAreWords(a, Lower(a, text));
  }

  lemma {:induction false} FieldsOfJoin(a: Alphabet, ws: seq<string>)
    requires Sane(a) && forall w :: w in ws ==> IsWord(a, w)
    ensures Fields(a, Join(ws)) == ws
    decreases |ws|
  {
    if |ws| == 1 {
      OneWord(a, ws[0]);
      assert ws == [ws[0]];
    } else if |ws| > 1 {
      FieldsOfJoin(a, ws[1..]);
      WordComesFirst(a, ws[0], ' ', Join(ws[1..]));
      assert ws == [ws[0]] + ws[1..];
    }
  }

  /** A cause key has exactly the tokens of the cause among its significant words. */
  lemma CauseKeyWords(a: Alphabet, f: Finding)
    requires Sane(a)
    ensures forall w :: w in Fields(a, CauseKey(a, f)) && IsSignificant(a, w) <==> w in Tokens(a, f.cause)
    ensures Tokens(a, f.cause) != [] ==> Fields(a, CauseKey(a, f)) == Tokens(a, f.cause)
  {
    TokensAre(a, f.cause);
    if Tokens(a, f.cause) == [] {
      RawKeepsWords(a, f);
    } else {
      TokensAreWords(a, f.cause);
      FieldsOfJoin(a, Tokens(a, f.cause));
    }
  }

  lemma TriggerIsSignificant(a: Alphabet)
    requires Sane(a)
    ensures IsSignificant(a, "trigger") && IsWord(a, "trigger")
  {
    var w := "trigger";
    assert ByteLength(w) == 1 + ByteLength(w[1..]) && ByteLength(w[1..]) == 1 + ByteLength(w[1..][1..]);
    assert w[1..][1..][0] == 'i';
    assert ByteLength(w[1..][1..]) >= 1;
    forall i | 0 <= i < |w| ensures a.isWord(w[i]) { assert w[i] in w; }
  }

  /** A cause key never starts like a trigger key, not even as raw text. */
  lemma CauseKeyIsNoTrigger(a: Alphabet, f: Finding, rest: string)
    requires Sane(a)
    ensures CauseKey(a, f) != "trigger:" + rest
  {
    if CauseKey(a, f) == "trigger:" + rest {
      var w := "trigger";
      TriggerIsSignificant(a);
      assert "trigger:" + rest == w + [':'] + rest;
      WordComesFirst(a, w, ':', rest);
      CauseKeyWords(a, f);
      assert w in Fields(a, CauseKey(a, f));
      ColonInNoJoin(a, f, rest);
    }
  }

  lemma ColonInNoJoin(a: Alphabet, f: Finding, rest: string)
    requires Sane(a) && Tokens(a, f.cause) != []
    ensures CauseKey(a, f) != "trigger:" + rest
  {
    TokensAreWords(a, f.cause);
    JoinHasNo(a, Tokens(a, f.cause), ':');
    assert ("trigger:" + rest)[7] == ':';
  }

  lemma {:induction false} JoinHasNo(a: Alphabet, ws: seq<string>, c: char)
    requires !a.isWord(c) && c != ' ' && forall w :: w in ws ==> IsWord(a, w)
    ensures c !in Join(ws)
    decreases |ws|
  {
    if ws != [] {
      assert ws[0] in ws && c !in ws[0];
      if |ws| > 1 { JoinHasNo(a, ws[1..], c); }
    }
  }

  /** Nor does it hold a bar and the word trigger further on: raw text with that word has a token. */
  lemma CauseKeyHasNoSeparator(a: Alphabet, f: Finding, before: string, after: string)
    requires Sane(a)
    ensures CauseKey(a, f) != before + TRIGGER_SEP + after
  {
    if CauseKey(a, f) == before + TRIGGER_SEP + after {
      var w, rest := "trigger", after;
      TriggerIsSignificant(a);
      assert before + TRIGGER_SEP + after == before + ['|'] + (w + [':'] + rest);
      WordComesFirst(a, w, ':', rest);
      FieldsAfter(a, before, '|', w + [':'] + rest, w);
      CauseKeyWords(a, f);
      assert w in Tokens(a, f.cause);
      assert (before + TRIGGER_SEP + after)[|before|] == '|';
      TokensAreWords(a, f.cause);
      JoinHasNo(a, Tokens(a, f.cause), '|');
    }
  }

  /** The fields after a separator are among the fields of the whole. */
  lemma FieldsAfter(a: Alphabet, before: string, sep: char, rest: string, w: string)
    requires !a.isWord(sep) && w in Fields(a, rest)
    ensures w in Fields(a, before + [sep] + rest)
  {
    ScanConcat(a, before, [sep]);
    ContinueBlank(a, ScanOf(a, before), [sep]);
    ScanConcat(a, before + [sep], rest);
    ContinueShifts(a, Flush(ScanOf(a, before)), rest);
  }

  /** g's ref spells out f's ref and the start of f's trigger, and its cause the rest. */
  predicate CauseImitates(a: Alphabet, f: Finding, g: Finding) {
    && RefKey(a, f) + TRIGGER_SEP <= RefKey(a, g)
    && TriggerKey(a, f) == RefKey(a, g)[|RefKey(a, f)| + 9..] + "|" + CauseKey(a, g)
  }

  /** A trigger-keyed preimage equals a cause-keyed one exactly when the cause side's ref extends the trigger side's
      with a separator and the trigger goes on like it; refs free of bars never do. */
  lemma TriggerIsNotCause(a: Alphabet, f: Finding, g: Finding)
    requires Sane(a) && ByTrigger(a, f) && ByCause(a, g)
    ensures DupFingerprint(a, f) == DupFingerprint(a, g) <==> CauseImitates(a, f, g)
    ensures '|' !in RefKey(a, g) ==> !CauseImitates(a, f, g)
  {
    var (r, t, q, k) := (RefKey(a, f), TriggerKey(a, f), RefKey(a, g), CauseKey(a, g));
    TriggerPreimage(a, f);
    if r + TRIGGER_SEP + t == q + "|" + k { MixedSplit(a, g, r, t, q); }
    if CauseImitates(a, f, g) { MixedBack(r, q, t, k); }
  }

  lemma MixedBack(r: string, q: string, t: string, k: string)
    requires r + TRIGGER_SEP <= q && t == q[|r| + 9..] + "|" + k
    ensures r + TRIGGER_SEP + t == q + "|" + k && '|' in q
  {
    assert q == (r + TRIGGER_SEP) + q[|r| + 9..];
    assert q[|r|] == TRIGGER_SEP[0];
  }

  lemma MixedSplit(a: Alphabet, g: Finding, r: string, t: string, q: string)
    requires Sane(a) && r + TRIGGER_SEP + t == q + "|" + CauseKey(a, g)
    ensures r + TRIGGER_SEP <= q && t == q[|r| + 9..] + "|" + CauseKey(a, g)
  {
    var k := CauseKey(a, g);
    var x := r + TRIGGER_SEP + t;
    assert x == r + "|" + ("trigger:" + t);
    if |r| == |q| {
      SameParts(r, "trigger:" + t, q, k, "|");
      CauseKeyIsNoTrigger(a, g, t);
    } else if |q| < |r| {
      Spells(q, k, r, "trigger:" + t, "|");
      var before := r[|q| + 1..];
      assert before + "|" + ("trigger:" + t) == before + TRIGGER_SEP + t;
      CauseKeyHasNoSeparator(a, g, before, t);
    } else {
      BarInSeparator(r, t, q, k);
      var n := |r| + 9;
      assert x[..n] == r + TRIGGER_SEP && x[..n] == q[..n];
      assert x[n..] == t && x[n..] == q[n..] + "|" + k;
    }
  }

  /** Two causes count as one: the same significant words, or none on either side and the same text. */
  ghost predicate SameCause(a: Alphabet, f: Finding, g: Finding) {
    && (forall w :: Mentions(a, f.cause, w) <==> Mentions(a, g.cause, w))
    && (Tokens(a, f.cause) == [] ==> RawCause(a, f) == RawCause(a, g))
  }

  /** g's ref spells out f's ref and the start of f's cause key. */
  predicate CauseSpells(a: Alphabet, f: Finding, g: Finding) {
    SpellsOut(RefKey(a, f), CauseKey(a, f), RefKey(a, g), CauseKey(a, g), "|")
  }

  /** Cause-keyed findings are one incident exactly when ref and cause agree or one ref spells the other out; refs
      free of bars never do. */
  lemma CauseIdentity(a: Alphabet, f: Finding, g: Finding)
    requires Sane(a) && ByCause(a, f) && ByCause(a, g)
    ensures DupFingerprint(a, f) == DupFingerprint(a, g) <==>
            || (RefKey(a, f) == RefKey(a, g) && SameCause(a, f, g))
            || CauseSpells(a, f, g) || CauseSpells(a, g, f)
    ensures '|' !in RefKey(a, f) ==> !CauseSpells(a, g, f)
  {
    BarSplit(RefKey(a, f), CauseKey(a, f), RefKey(a, g), CauseKey(a, g));
    CauseKeysAgree(a, f, g);
    if CauseSpells(a, g, f) { assert RefKey(a, f)[|RefKey(a, g)|] == '|'; }
  }

  lemma CauseKeysAgree(a: Alphabet, f: Finding, g: Finding)
    requires Sane(a)
    ensures CauseKey(a, f) == CauseKey(a, g) <==> SameCause(a, f, g)
  {
    TokensAreCanonical(a, f.cause, g.cause);
    CauseKeyWords(a, f);
    CauseKeyWords(a, g);
    if CauseKey(a, f) == CauseKey(a, g) {
      TokensAre(a, f.cause);
      TokensAre(a, g.cause);
      SortedIsUnique(Tokens(a, f.cause), Tokens(a, g.cause));
    }
  }

  // ---- Collisions ---------------------------------------------------------------------------------------

  predicate IsAscii(c: char) { 'a' <= c <= 'z' || '0' <= c <= '9' }

  /** Lower-case ASCII words, the space, no stop words. */
  function Ascii(): Alphabet { Alphabet(IsAscii, (c: char) => c == ' ', (c: char) => c, {}) }

  lemma AsciiIsSane()
    ensures Sane(Ascii())
  {
  }

  lemma PlainKeys(s: string)
    requires s != "" && s[0] != ' ' && s[|s| - 1] != ' '
    ensures Lower(Ascii(), Trim(Ascii(), s)) == s
  {
    assert Lower(Ascii(), s) == s;
  }

  lemma NoKeys()
    ensures Lower(Ascii(), Trim(Ascii(), "")) == "" && Trim(Ascii(), "") == ""
  {
  }

  const LONG_TRIGGER := Finding("", "ns/x", "", "a|trigger:b", "")
  const LONG_REF := Finding("", "ns/x|trigger:a", "", "b", "")

  lemma LongTriggerKeys()
    ensures ByTrigger(Ascii(), LONG_TRIGGER) && RefKey(Ascii(), LONG_TRIGGER) == "ns/x"
    ensures TriggerKey(Ascii(), LONG_TRIGGER) == "a" + TRIGGER_SEP + "b"
  {
    NoKeys();
    PlainKeys("a|trigger:b");
    assert "a|trigger:b" == "a" + TRIGGER_SEP + "b";
  }

  lemma LongRefKeys()
    ensures ByTrigger(Ascii(), LONG_REF) && RefKey(Ascii(), LONG_REF) == "ns/x" + TRIGGER_SEP + "a"
    ensures TriggerKey(Ascii(), LONG_REF) == "b"
  {
    NoKeys();
    PlainKeys("b");
    assert "ns/x|trigger:a" == "ns/x" + TRIGGER_SEP + "a";
  }

  /** Two incidents whose triggers collide: the resource of the second holds a bar. */
  lemma TriggersCollide()
    ensures ByTrigger(Ascii(), LONG_TRIGGER) && ByTrigger(Ascii(), LONG_REF)
    ensures RefKey(Ascii(), LONG_TRIGGER) != RefKey(Ascii(), LONG_REF)
    ensures DupFingerprint(Ascii(), LONG_TRIGGER) == DupFingerprint(Ascii(), LONG_REF)
  {
    LongTriggerKeys();
    LongRefKeys();
    assert Imitates(Ascii(), LONG_TRIGGER, LONG_REF);
    TriggerIdentity(Ascii(), LONG_TRIGGER, LONG_REF);
  }

  const NODE_TRIGGER := Finding("", "ns/x", "", "a|node", "")
  const NODE_CAUSE := Finding("", "ns/x|trigger:a", "", "", "node")

  lemma NodeTriggerKeys()
    ensures ByTrigger(Ascii(), NODE_TRIGGER) && RefKey(Ascii(), NODE_TRIGGER) == "ns/x"
    ensures TriggerKey(Ascii(), NODE_TRIGGER) == "a" + "|" + "node"
  {
    NoKeys();
    PlainKeys("a|node");
    assert "a|node" == "a" + "|" + "node";
  }

  lemma NodeCauseRef()
    ensures RefKey(Ascii(), NODE_CAUSE) == "ns/x" + TRIGGER_SEP + "a" && TriggerKey(Ascii(), NODE_CAUSE) == ""
  {
    NoKeys();
    assert "ns/x|trigger:a" == "ns/x" + TRIGGER_SEP + "a";
  }

  lemma NodeCauseKey()
    ensures CauseKey(Ascii(), NODE_CAUSE) == "node"
  {
    NodeIsAToken();
  }

  lemma KeyedByCause(a: Alphabet, f: Finding)
    requires f.pinned == "" && TriggerKey(a, f) == "" && CauseKey(a, f) != ""
    ensures ByCause(a, f)
  {
  }

  /** And a trigger that collides with a cause in prose. */
  lemma TriggerCollidesWithCause()
    ensures ByTrigger(Ascii(), NODE_TRIGGER) && ByCause(Ascii(), NODE_CAUSE)
    ensures DupFingerprint(Ascii(), NODE_TRIGGER) == DupFingerprint(Ascii(), NODE_CAUSE)
  {
    AsciiIsSane();
    NodeTriggerKeys();
    NodeCauseRef();
    NodeCauseKey();
    KeyedByCause(Ascii(), NODE_CAUSE);
    assert CauseImitates(Ascii(), NODE_TRIGGER, NODE_CAUSE);
    TriggerIsNotCause(Ascii(), NODE_TRIGGER, NODE_CAUSE);
  }

  lemma NodeIsAToken()
    ensures Tokens(Ascii(), "node") == ["node"]
  {
    var w := "node";
    assert Lower(Ascii(), w) == w;
    OneWord(Ascii(), w);
    assert ByteLength(w) == 1 + ByteLength(w[1..]) && ByteLength(w[1..]) == 1 + ByteLength(w[1..][1..]);
    assert w[1..][1..][0] == 'd' && ByteLength(w[1..][1..]) >= 1;
    var none: seq<string> := [];
    assert [w][..0] == none;
    assert Collect(Ascii(), [w]) == [w] && SortWords([w]) == [w];
  }
}
