/**
 The hash-chained audit log: append, reopen and verify over the text of the file.

 The hash is any injective function that is never empty, and the JSON codec any pair of
 functions; `Faithful` says when one record's line reads back as itself. Lines are those of
 a line scanner with a one-mebibyte buffer.
 */
module Audit {
  import opened Common

  datatype Decision = Executed | DryRun | Skipped | Denied | Failed

  datatype Body = Body(time: int, actor: string, op: string, target: string, decision: Decision, reason: string)

  datatype Record = Record(body: Body, prevHash: string, hash: string)

  datatype Codec = Codec(
    digest: (Body, string) -> string,
    encode: Record -> string,
    decode: string -> Option<Record>)

  const MAX_LINE := 1024 * 1024

  predicate Collides(c: Codec, b: Body, p: string, b': Body, p': string) { c.digest(b, p) == c.digest(b', p') }

  predicate Blank(c: Codec, b: Body, p: string) { c.digest(b, p) == "" }

  /** The hash is injective and never empty. */
  ghost predicate Ideal(c: Codec) {
    && (forall b, p :: !Blank(c, b, p))
    && (forall b, p, b', p' :: Collides(c, b, p, b', p') ==> b == b' && p == p')
  }

  // ---- Lines -------------------------------------------------------------------------

  function LineEnd(t: string): (i: nat)
    ensures i <= |t| && (forall j :: 0 <= j < i ==> t[j] != '\n') && (i < |t| ==> t[i] == '\n')
  {
    if t == "" || t[0] == '\n' then 0 else 1 + LineEnd(t[1..])
  }

  /** The scanner's lines: split at newlines, with no empty line after the last one. */
  function Lines(t: string): seq<string>
    decreases |t|
  {
    if t == "" then [] else
    var i := LineEnd(t);
    if i == |t| then [t] else [t[..i]] + Lines(t[i + 1..])
  }

  predicate Terminated(t: string) { t == "" || t[|t| - 1] == '\n' }

  function Token(line: string): string {
    if line != "" && line[|line| - 1] == '\r' then line[..|line| - 1] else line
  }

  /** A line as it is written. */
  function Ended(line: string): string { line + "\n" }

  lemma {:induction false} LineEndIs(t: string, i: nat)
    requires i < |t| && t[i] == '\n' && forall j :: 0 <= j < i ==> t[j] != '\n'
    ensures LineEnd(t) == i
  {
    if i > 0 {
      LineEndIs(t[1..], i - 1);
    }
  }

  lemma {:induction false} LinesAppend(t: string, line: string)
    requires Terminated(t) && '\n' !in line
    ensures Lines(t + Ended(line)) == Lines(t) + [line]
    decreases |t|
  {
    if t == "" {
      FirstLine(Ended(line), |line|);
      assert t + Ended(line) == Ended(line);
    } else {
      var i := LineEnd(t);
      LinesAppend(t[i + 1..], line);
      SameFirstLine(t, Ended(line), i);
    }
  }

  lemma SameFirstLine(t: string, more: string, i: nat)
    requires i < |t| && t[i] == '\n' && forall j :: 0 <= j < i ==> t[j] != '\n'
    ensures Lines(t) == [t[..i]] + Lines(t[i + 1..])
    ensures Lines(t + more) == [t[..i]] + Lines(t[i + 1..] + more)
  {
    FirstLine(t, i);
    FirstLine(t + more, i);
    Slices(t, more, i);
  }

  lemma Slices(t: string, more: string, i: nat)
    requires i < |t|
    ensures (t + more)[..i] == t[..i] && (t + more)[i + 1..] == t[i + 1..] + more
  {
  }

  lemma FirstLine(t: string, i: nat)
    requires i < |t| && t[i] == '\n' && forall j :: 0 <= j < i ==> t[j] != '\n'
    ensures Lines(t) == [t[..i]] + Lines(t[i + 1..])
  {
    LineEndIs(t, i);
  }

  lemma {:induction false} LinesOpen(t: string, rest: string)
    requires Terminated(t) && '\n' !in rest && rest != ""
    ensures Lines(t + rest) == Lines(t) + [rest]
    decreases |t|
  {
    if t == "" {
      assert t + rest == rest;
      NoLineEnd(rest);
    } else {
      var i := LineEnd(t);
      assert i < |t|;
      LinesOpen(t[i + 1..], rest);
      SameFirstLine(t, rest, i);
    }
  }

  lemma {:induction false} NoLineEnd(t: string)
    requires '\n' !in t
    ensures LineEnd(t) == |t|
    decreases |t|
  {
    if t != "" {
      assert t[0] in t && forall i :: 0 <= i < |t| - 1 ==> t[1..][i] == t[i + 1];
      NoLineEnd(t[1..]);
    }
  }

  /** What stands after the last newline. */
  function LastLine(t: string): string { if Terminated(t) then "" else LastLine(t[..|t| - 1]) + [t[|t| - 1]] }

  lemma {:induction false} LastLineSplits(t: string) returns (head: string)
    ensures Terminated(head) && t == head + LastLine(t) && '\n' !in LastLine(t)
  {
    if Terminated(t) {
      head := t;
    } else {
      head := LastLineSplits(t[..|t| - 1]);
    }
  }

  lemma {:induction false} LastLineAfter(t: string, rest: string)
    requires Terminated(t) && '\n' !in rest
    ensures LastLine(t + rest) == rest
    decreases |rest|
  {
    var all, n := t + rest, |rest| - 1;
    if rest == "" {
      assert all == t;
    } else {
      assert '\n' !in rest[..n];
      LastLineAfter(t, rest[..n]);
      assert all[|all| - 1] == rest[n] && rest[n] in rest;
      assert all[..|all| - 1] == t + rest[..n];
      assert LastLine(all) == LastLine(all[..|all| - 1]) + [rest[n]];
    }
  }

  // ---- Verify and seed ------------------------------------------------------------------

  function Walk(c: Codec, lines: seq<string>, prev: string): Result<string>
    decreases |lines|
  {
    if lines == [] then Ok(prev)
    else if |lines[0]| >= MAX_LINE then Err("token too long")
    else if Token(lines[0]) == "" then Walk(c, lines[1..], prev)
    else match c.decode(Token(lines[0]))
      case None => Err("not a record")
      case Some(r) =>
        if r.prevHash != prev then Err("prev_hash mismatch")
        else if c.digest(r.body, r.prevHash) != r.hash then Err("hash mismatch")
        else Walk(c, lines[1..], r.hash)
  }

  function VerifyText(c: Codec, text: string): Result<string> { Walk(c, Lines(text), "") }

  function Seed(c: Codec, lines: seq<string>, last: string): Result<string>
    decreases |lines|
  {
    if lines == [] then Ok(last)
    else if |lines[0]| >= MAX_LINE then Err("token too long")
    else match c.decode(Token(lines[0]))
      case Some(r) => Seed(c, lines[1..], if Token(lines[0]) != "" && r.hash != "" then r.hash else last)
      case None => Seed(c, lines[1..], last)
  }

  /** The records a file holds, blank lines and unreadable ones aside. */
  function Records(c: Codec, lines: seq<string>): seq<Record>
    decreases |lines|
  {
    if lines == [] then []
    else if Token(lines[0]) == "" then Records(c, lines[1..])
    else match c.decode(Token(lines[0]))
      case None => Records(c, lines[1..])
      case Some(r) => [r] + Records(c, lines[1..])
  }

  predicate Readable(c: Codec, line: string) {
    |line| < MAX_LINE && (Token(line) == "" || c.decode(Token(line)).Some?)
  }

  predicate AllReadable(c: Codec, lines: seq<string>)
    decreases |lines|
  {
    lines == [] || (Readable(c, lines[0]) && AllReadable(c, lines[1..]))
  }

  function Tail(rs: seq<Record>, genesis: string): string { if rs == [] then genesis else rs[|rs| - 1].hash }

  predicate Linked(c: Codec, r: Record, before: string) {
    r.prevHash == before && r.hash == c.digest(r.body, before)
  }

  /** A hash chain from genesis: every record carries its own digest and its predecessor's hash. */
  predicate Chain(c: Codec, rs: seq<Record>, genesis: string)
    decreases |rs|
  {
    if rs == [] then true else
    var (init, r) := (rs[..|rs| - 1], rs[|rs| - 1]);
    Chain(c, init, genesis) && Linked(c, r, Tail(init, genesis))
  }

  /** Verification succeeds exactly on readable files whose records form a chain, and yields their tail. */
  lemma {:induction false} WalkIffChain(c: Codec, lines: seq<string>, prev: string)
    ensures Walk(c, lines, prev).Ok? <==> AllReadable(c, lines) && Chain(c, Records(c, lines), prev)
    ensures Walk(c, lines, prev).Ok? ==> Walk(c, lines, prev).value == Tail(Records(c, lines), prev)
    decreases |lines|
  {
    if lines != [] {
      var rest := lines[1..];
      if Token(lines[0]) == "" {
        WalkIffChain(c, rest, prev);
      } else if c.decode(Token(lines[0])).Some? {
        var r := c.decode(Token(lines[0])).value;
        WalkIffChain(c, rest, r.hash);
        ChainCons(c, r, Records(c, rest), prev);
      }
    }
  }

  lemma {:induction false} ChainCons(c: Codec, r: Record, rs: seq<Record>, genesis: string)
    ensures Chain(c, [r] + rs, genesis) <==> Linked(c, r, genesis) && Chain(c, rs, r.hash)
    decreases |rs|
  {
    var all := [r] + rs;
    if rs == [] {
      assert all[..0] == [];
    } else {
      var init := rs[..|rs| - 1];
      assert all[..|all| - 1] == [r] + init;
      ChainCons(c, r, init, genesis);
    }
  }

  // ---- Tamper evidence ----------------------------------------------------------------------

  /** Two chains that end in the same hash are the same chain, whatever their lengths. */
  lemma {:induction false} SameTailSameChain(c: Codec, rs: seq<Record>, ss: seq<Record>)
    requires Ideal(c) && Chain(c, rs, "") && Chain(c, ss, "") && Tail(rs, "") == Tail(ss, "")
    ensures rs == ss
    decreases |rs|
  {
    if rs != [] && ss != [] {
      var m, n := |rs| - 1, |ss| - 1;
      assert Collides(c, rs[m].body, rs[m].prevHash, ss[n].body, ss[n].prevHash);
      SameTailSameChain(c, rs[..m], ss[..n]);
      assert rs == rs[..m] + [rs[m]] && ss == ss[..n] + [ss[n]];
    } else if rs != [] || ss != [] {
      var r := if rs != [] then rs[|rs| - 1] else ss[|ss| - 1];
      assert Blank(c, r.body, r.prevHash);
      assert false;
    }
  }

  /** Two files that verify and seed the same hash hold the same records: no insertion, deletion or edit
      of a past record survives verification unless the tail changes with it. */
  lemma TamperEvident(c: Codec, text: string, other: string)
    requires Ideal(c) && VerifyText(c, text).Ok? && VerifyText(c, other).Ok?
    requires VerifyText(c, text).value == VerifyText(c, other).value
    ensures Records(c, Lines(text)) == Records(c, Lines(other))
  {
    WalkIffChain(c, Lines(text), "");
    WalkIffChain(c, Lines(other), "");
    SameTailSameChain(c, Records(c, Lines(text)), Records(c, Lines(other)));
  }

  /** The other side of tamper evidence: cutting lines off the end is not detected. */
  lemma {:induction false} PrefixVerifies(c: Codec, lines: seq<string>, n: nat, prev: string)
    requires n <= |lines| && Walk(c, lines, prev).Ok?
    ensures Walk(c, lines[..n], prev).Ok?
    decreases |lines|
  {
    if n > 0 {
      assert lines[..n][1..] == lines[1..][..n - 1] && lines[..n][0] == lines[0];
      if Token(lines[0]) == "" {
        PrefixVerifies(c, lines[1..], n - 1, prev);
      } else {
        PrefixVerifies(c, lines[1..], n - 1, c.decode(Token(lines[0])).value.hash);
      }
    }
  }

  /** Open's scan and OpenVerified's walk seed the same hash from any file that verifies. */
  lemma {:induction false} OpenAgreesWithOpenVerified(c: Codec, lines: seq<string>, prev: string)
    requires Ideal(c) && Walk(c, lines, prev).Ok?
    ensures Seed(c, lines, prev) == Walk(c, lines, prev)
    decreases |lines|
  {
    if lines != [] {
      if Token(lines[0]) == "" {
        OpenAgreesWithOpenVerified(c, lines[1..], prev);
      } else {
        var r := c.decode(Token(lines[0])).value;
        assert !Blank(c, r.body, r.prevHash);
        OpenAgreesWithOpenVerified(c, lines[1..], r.hash);
      }
    }
  }

  // ---- Append ---------------------------------------------------------------------------------

  function Sealed(c: Codec, body: Body, last: string): Record {
    Record(body, last, c.digest(body, last))
  }

  /** The line a record is written as reads back as that record. */
  predicate Faithful(c: Codec, r: Record) {
    && '\n' !in c.encode(r) && c.encode(r) != "" && Token(c.encode(r)) == c.encode(r)
    && c.decode(c.encode(r)) == Some(r)
  }

  lemma {:induction false} WalkAppend(c: Codec, lines: seq<string>, line: string, prev: string)
    requires Walk(c, lines, prev).Ok?
    ensures Walk(c, lines + [line], prev) == Walk(c, [line], Walk(c, lines, prev).value)
    ensures Records(c, lines + [line]) == Records(c, lines) + Records(c, [line])
    decreases |lines|
  {
    if lines == [] {
      assert lines + [line] == [line];
    } else {
      assert (lines + [line])[1..] == lines[1..] + [line] && (lines + [line])[0] == lines[0];
      if Token(lines[0]) == "" {
        WalkAppend(c, lines[1..], line, prev);
      } else {
        WalkAppend(c, lines[1..], line, c.decode(Token(lines[0])).value.hash);
      }
    }
  }

  /** Appending to a verified file keeps it verified exactly when the file ends in a newline, the record chains
      from the file's tail, and its line is shorter than the scanner's buffer. Of a file without that newline it is
      asked only that its last line joined with the record does not parse; AppendJoinsIff says what if it does. */
  lemma AppendVerifiesIff(c: Codec, text: string, body: Body, last: string)
    requires VerifyText(c, text).Ok? && Faithful(c, Sealed(c, body, last))
    requires !Terminated(text) ==> c.decode(LastLine(text) + c.encode(Sealed(c, body, last))).None?
    ensures var r := Sealed(c, body, last);
            var grown := text + Ended(c.encode(r));
            && (VerifyText(c, grown).Ok? <==>
                Terminated(text) && last == VerifyText(c, text).value && |c.encode(r)| < MAX_LINE)
            && (VerifyText(c, grown).Ok? ==> VerifyText(c, grown).value == r.hash)
            && (Terminated(text) ==> Records(c, Lines(grown)) == Records(c, Lines(text)) + [r])
  {
    if Terminated(text) {
      AppendAfterNewline(c, text, body, last);
    } else {
      AppendJoinsIff(c, text, c.encode(Sealed(c, body, last)));
    }
  }

  lemma AppendAfterNewline(c: Codec, text: string, body: Body, last: string)
    requires Terminated(text) && VerifyText(c, text).Ok? && Faithful(c, Sealed(c, body, last))
    ensures var r := Sealed(c, body, last);
            var grown := text + Ended(c.encode(r));
            && (VerifyText(c, grown).Ok? <==> last == VerifyText(c, text).value && |c.encode(r)| < MAX_LINE)
            && (VerifyText(c, grown).Ok? ==> VerifyText(c, grown).value == r.hash)
            && Records(c, Lines(grown)) == Records(c, Lines(text)) + [r]
  {
    var r := Sealed(c, body, last);
    LinesAppend(text, c.encode(r));
    WalkAppend(c, Lines(text), c.encode(r), "");
    assert [c.encode(r)][1..] == [];
  }

  /** The line is a record that a log ending in this hash takes. */
  predicate Accepts(c: Codec, line: string, before: string) {
    |line| < MAX_LINE && c.decode(line).Some? && Linked(c, c.decode(line).value, before)
  }

  /** The hash that a verified log with this last line and this tail ended in before that line. */
  function BeforeLast(c: Codec, line: string, tail: string): string {
    match c.decode(Token(line))
    case Some(r) => if Token(line) == "" then tail else r.prevHash
    case None => tail
  }

  /** A record written after an unfinished line joins it: the log stays verified exactly when the two together are
      themselves a record, one that chains from where the unfinished line did. */
  lemma AppendJoinsIff(c: Codec, text: string, enc: string)
    requires VerifyText(c, text).Ok? && !Terminated(text)
    requires '\n' !in enc && enc != "" && Token(enc) == enc
    ensures VerifyText(c, text + Ended(enc)).Ok? <==>
            Accepts(c, LastLine(text) + enc, BeforeLast(c, LastLine(text), VerifyText(c, text).value))
  {
    var head := LastLineSplits(text);
    JoinsIff(c, head, LastLine(text), enc);
  }

  lemma JoinsIff(c: Codec, head: string, line: string, enc: string)
    requires Terminated(head) && '\n' !in line && line != "" && VerifyText(c, head + line).Ok?
    requires '\n' !in enc && enc != "" && Token(enc) == enc
    ensures VerifyText(c, head + line + Ended(enc)).Ok? <==>
            Accepts(c, line + enc, BeforeLast(c, line, VerifyText(c, head + line).value))
  {
    TokenOfJoined(line, enc);
    ReplacesIff(c, head, line, line + enc);
    Regroup(head, line, enc);
  }

  lemma Regroup(head: string, line: string, enc: string)
    ensures head + line + Ended(enc) == head + Ended(line + enc)
  {
  }

  lemma TokenOfJoined(line: string, enc: string)
    requires enc != "" && Token(enc) == enc
    ensures Token(line + enc) == line + enc
  {
    assert (line + enc)[|line + enc| - 1] == enc[|enc| - 1];
  }

  lemma ReplacesIff(c: Codec, head: string, line: string, joined: string)
    requires Terminated(head) && '\n' !in line && line != "" && VerifyText(c, head + line).Ok?
    requires '\n' !in joined && joined != "" && Token(joined) == joined
    ensures VerifyText(c, head + Ended(joined)).Ok? <==>
            Accepts(c, joined, BeforeLast(c, line, VerifyText(c, head + line).value))
  {
    LinesOpen(head, line);
    LastLineOff(c, Lines(head), line);
    LinesAppend(head, joined);
    TakesIff(c, Lines(head), joined);
  }

  lemma TakesIff(c: Codec, lines: seq<string>, line: string)
    requires Walk(c, lines, "").Ok? && line != "" && Token(line) == line
    ensures Walk(c, lines + [line], "").Ok? <==> Accepts(c, line, Walk(c, lines, "").value)
  {
    WalkAppend(c, lines, line, "");
    assert [line][1..] == [];
  }

  lemma LastLineOff(c: Codec, lines: seq<string>, line: string)
    requires Walk(c, lines + [line], "").Ok?
    ensures Walk(c, lines, "") == Ok(BeforeLast(c, line, Walk(c, lines + [line], "").value))
  {
    assert (lines + [line])[..|lines|] == lines;
    PrefixVerifies(c, lines + [line], |lines|, "");
    WalkAppend(c, lines, line, "");
    assert [line][1..] == [];
  }

  // ---- Runs ------------------------------------------------------------------------------------

  datatype Fault = NoFault | NothingWritten | Torn(bytes: nat) | SyncFailed

  /** The file and the hash the logger chains from. */
  datatype LogState = LogState(text: string, last: string)

  function Append(c: Codec, s: LogState, body: Body, fault: Fault): LogState {
    var r := Sealed(c, body, s.last);
    var line := Ended(c.encode(r));
    match fault
    case NoFault => LogState(s.text + line, r.hash)
    case NothingWritten => s
    case Torn(n) => s.(text := s.text + if n <= |line| then line[..n] else line)
    case SyncFailed => s.(text := s.text + line)
  }

  datatype Event = Logged(body: Body, fault: Fault) | Reopened(verified: bool)

  function Reopen(c: Codec, s: LogState, verified: bool): Result<LogState> {
    match (if verified then VerifyText(c, s.text) else Seed(c, Lines(s.text), ""))
    case Ok(last) => Ok(LogState(s.text, last))
    case Err(e) => Err(e)
  }

  /** One step; a refused reopen leaves no logger, which ends the run. */
  function Step(c: Codec, s: LogState, e: Event): Result<LogState> {
    match e
    case Logged(body, fault) => Ok(Append(c, s, body, fault))
    case Reopened(verified) => Reopen(c, s, verified)
  }

  /** Each append is fully done, or not written, and its line is faithful and short enough to be scanned. */
  predicate Clean(c: Codec, s: LogState, e: Event) {
    e.Logged? ==>
      && (e.fault == NoFault || e.fault == NothingWritten)
      && Faithful(c, Sealed(c, e.body, s.last)) && |c.encode(Sealed(c, e.body, s.last))| < MAX_LINE
  }

  ghost predicate Good(c: Codec, s: LogState) {
    Terminated(s.text) && VerifyText(c, s.text) == Ok(s.last)
  }

  /** What one step adds to the records. */
  function Added(c: Codec, s: LogState, e: Event): seq<Record> {
    if e.Logged? && e.fault == NoFault then [Sealed(c, e.body, s.last)] else []
  }

  lemma AppendKeepsGood(c: Codec, s: LogState, body: Body)
    requires Good(c, s) && Clean(c, s, Logged(body, NoFault))
    ensures var n := Append(c, s, body, NoFault);
            && Good(c, n)
            && Records(c, Lines(n.text)) == Records(c, Lines(s.text)) + [Sealed(c, body, s.last)]
  {
    AppendVerifiesIff(c, s.text, body, s.last);
  }

  lemma StepKeepsGood(c: Codec, s: LogState, e: Event)
    requires Ideal(c) && Good(c, s) && Clean(c, s, e)
    ensures Step(c, s, e).Ok? && Good(c, Step(c, s, e).value)
    ensures Records(c, Lines(Step(c, s, e).value.text)) == Records(c, Lines(s.text)) + Added(c, s, e)
  {
    if e.Reopened? {
      OpenAgreesWithOpenVerified(c, Lines(s.text), "");
    } else if e.fault == NoFault {
      AppendKeepsGood(c, s, e.body);
    }
  }

  /** The states of a run whose every append is clean; each step leads to the next state. */
  predicate CleanRun(c: Codec, states: seq<LogState>, events: seq<Event>) {
    && |states| == |events| + 1
    && forall i :: 0 <= i < |events| ==> IsStep(c, states[i], events[i], states[i + 1])
  }

  predicate IsStep(c: Codec, s: LogState, e: Event, n: LogState) { Clean(c, s, e) && Step(c, s, e) == Ok(n) }

  function BodyOf(e: Event): seq<Body> { if e.Logged? && e.fault == NoFault then [e.body] else [] }

  /** The bodies whose append succeeded among the first n events. */
  function LoggedBodies(events: seq<Event>, n: nat): seq<Body>
    requires n <= |events|
  {
    if n == 0 then [] else
    LoggedBodies(events, n - 1) + BodyOf(events[n - 1])
  }

  function Bodies(rs: seq<Record>): (bs: seq<Body>)
    ensures |bs| == |rs| && forall i :: 0 <= i < |rs| ==> bs[i] == rs[i].body
  {
    seq(|rs|, i requires 0 <= i < |rs| => rs[i].body)
  }

  /** The bodies a file holds, in order. */
  function Held(c: Codec, s: LogState): seq<Body> { Bodies(Records(c, Lines(s.text))) }

  /** The file verifies and holds exactly these bodies, and the logger chains from its tail. */
  ghost predicate HoldsExactly(c: Codec, s: LogState, bodies: seq<Body>) { Good(c, s) && Held(c, s) == bodies }

  lemma StepHolds(c: Codec, s: LogState, e: Event, n: LogState, bodies: seq<Body>)
    requires Ideal(c) && HoldsExactly(c, s, bodies) && IsStep(c, s, e, n)
    ensures HoldsExactly(c, n, bodies + BodyOf(e))
  {
    StepKeepsGood(c, s, e);
  }

  /** After every step of every run of appends and reopenings the file verifies, holds exactly the bodies
      whose append succeeded, in order, and the logger chains from its tail. */
  lemma {:induction false} RunsStayVerifiable(c: Codec, states: seq<LogState>, events: seq<Event>, n: nat)
    requires Ideal(c) && CleanRun(c, states, events) && n <= |events|
    requires states[0] == LogState("", "")
    ensures HoldsExactly(c, states[n], LoggedBodies(events, n))
  {
    if n == 0 {
      EmptyIsGood(c);
    } else {
      RunsStayVerifiable(c, states, events, n - 1);
      StepHolds(c, states[n - 1], events[n - 1], states[n - 1 + 1], LoggedBodies(events, n - 1));
    }
  }

  lemma EmptyIsGood(c: Codec)
    ensures HoldsExactly(c, LogState("", ""), [])
  {
  }

  // ---- The fsync fault ----------------------------------------------------------------------------

  /** No append leads back to a hash the log has already ended in. */
  lemma TailMoves(c: Codec, s: LogState, b: Body)
    requires Ideal(c) && Good(c, s) && Clean(c, s, Logged(b, NoFault))
    ensures Append(c, s, b, NoFault).last != s.last
  {
    AppendKeepsGood(c, s, b);
    if s.last == Append(c, s, b, NoFault).last {
      TamperEvident(c, s.text, Append(c, s, b, NoFault).text);
      assert false;
    }
  }

  /** An fsync that fails after the write leaves the logger one record behind: the file still verifies, a
      reopen heals the logger, and without one the next append breaks the chain. */
  lemma SyncFaultBreaksNextAppend(c: Codec, s: LogState, b: Body, b': Body)
    requires Ideal(c) && Good(c, s)
    requires Clean(c, s, Logged(b, NoFault)) && Faithful(c, Sealed(c, b', s.last))
    ensures var behind := Append(c, s, b, SyncFailed);
            && VerifyText(c, behind.text).Ok? && behind.last != VerifyText(c, behind.text).value
            && Reopen(c, behind, true) == Ok(Append(c, s, b, NoFault)) && Good(c, Append(c, s, b, NoFault))
            && VerifyText(c, Append(c, behind, b', NoFault).text).Err?
  {
    var done, behind := Append(c, s, b, NoFault), Append(c, s, b, SyncFailed);
    AppendKeepsGood(c, s, b);
    TailMoves(c, s, b);
    BehindBreaks(c, behind, done, b');
  }

  lemma BehindBreaks(c: Codec, behind: LogState, done: LogState, b: Body)
    requires Good(c, done) && behind.text == done.text && behind.last != done.last
    requires Faithful(c, Sealed(c, b, behind.last))
    ensures VerifyText(c, Append(c, behind, b, NoFault).text).Err?
  {
    AppendVerifiesIff(c, done.text, b, behind.last);
  }

  // ---- The torn write ------------------------------------------------------------------------------

  lemma {:induction false} SeedAppend(c: Codec, lines: seq<string>, line: string, last: string)
    requires Seed(c, lines, last).Ok?
    ensures Seed(c, lines + [line], last) == Seed(c, [line], Seed(c, lines, last).value)
    decreases |lines|
  {
    if lines == [] {
      assert lines + [line] == [line];
    } else {
      assert (lines + [line])[1..] == lines[1..] + [line] && (lines + [line])[0] == lines[0];
      match c.decode(Token(lines[0]))
      case Some(r) => SeedAppend(c, lines[1..], line, if Token(lines[0]) != "" && r.hash != "" then r.hash else last);
      case None => SeedAppend(c, lines[1..], line, last);
    }
  }

  /** A line that is not blank, is short enough to be scanned, and does not parse. */
  predicate IsJunk(c: Codec, line: string) {
    line != "" && '\n' !in line && Token(line) != "" && |line| < MAX_LINE && c.decode(Token(line)).None?
  }

  /** Nothing appended mends a log that does not verify. */
  lemma BrokenStaysBroken(c: Codec, lines: seq<string>, more: seq<string>)
    requires Walk(c, lines, "").Err?
    ensures Walk(c, lines + more, "").Err?
  {
    assert (lines + more)[..|lines|] == lines;
    if Walk(c, lines + more, "").Ok? { PrefixVerifies(c, lines + more, |lines|, ""); }
  }

  /** A junk line at the end makes verification fail and leaves the seed alone. */
  lemma JunkEnds(c: Codec, lines: seq<string>, line: string)
    requires Ideal(c) && Walk(c, lines, "").Ok? && IsJunk(c, line)
    ensures Walk(c, lines + [line], "").Err? && Seed(c, lines + [line], "") == Walk(c, lines, "")
  {
    WalkAppend(c, lines, line, "");
    assert [line][1..] == [];
    OpenAgreesWithOpenVerified(c, lines, "");
    SeedAppend(c, lines, line, "");
  }

  /** What a write torn after n characters of the record leaves. */
  function Fragment(c: Codec, s: LogState, b: Body, n: nat): string
    requires n <= |c.encode(Sealed(c, b, s.last))|
  {
    c.encode(Sealed(c, b, s.last))[..n]
  }

  /** A write torn inside the record leaves a fragment at the end of the file: OpenVerified refuses the file, while
      Open seeds the hash the log had, as if nothing were there. */
  lemma TornWriteIsRefused(c: Codec, s: LogState, b: Body, n: nat)
    requires Ideal(c) && Good(c, s) && n <= |c.encode(Sealed(c, b, s.last))| && IsJunk(c, Fragment(c, s, b, n))
    ensures var torn := Append(c, s, b, Torn(n));
            && torn == LogState(s.text + Fragment(c, s, b, n), s.last)
            && Reopen(c, torn, true).Err? && Reopen(c, torn, false) == Ok(torn)
  {
    assert Ended(c.encode(Sealed(c, b, s.last)))[..n] == Fragment(c, s, b, n);
    LinesOpen(s.text, Fragment(c, s, b, n));
    JunkEnds(c, Lines(s.text), Fragment(c, s, b, n));
  }

  /** The next append then joins the fragment on one line. If that does not parse either, the log does
      not verify, and by BrokenStaysBroken never will. */
  lemma TornWriteJoinsTheNext(c: Codec, s: LogState, fragment: string, b: Body)
    requires Ideal(c) && Good(c, s) && IsJunk(c, fragment)
    requires IsJunk(c, fragment + c.encode(Sealed(c, b, s.last)))
    ensures var next := Append(c, LogState(s.text + fragment, s.last), b, NoFault);
            && Lines(next.text) == Lines(s.text) + [fragment + c.encode(Sealed(c, b, s.last))]
            && VerifyText(c, next.text).Err?
  {
    var enc := c.encode(Sealed(c, b, s.last));
    Regroup(s.text, fragment, enc);
    LinesAppend(s.text, fragment + enc);
    JunkEnds(c, Lines(s.text), fragment + enc);
  }

  /** A write torn just before its newline leaves a file that verifies, and both ways of opening it go on from the
      new record as if nothing had happened. The next append, clean by itself, joins that record's line, and if the
      two do not parse the log never verifies again. */
  lemma TornAtTheNewline(c: Codec, s: LogState, b: Body, b': Body)
    requires Ideal(c) && Good(c, s) && Clean(c, s, Logged(b, NoFault))
    requires Clean(c, LogState(s.text, Sealed(c, b, s.last).hash), Logged(b', NoFault))
    requires c.decode(c.encode(Sealed(c, b, s.last)) + c.encode(Sealed(c, b', Sealed(c, b, s.last).hash))).None?
    ensures var r := Sealed(c, b, s.last);
            var torn := Append(c, s, b, Torn(|c.encode(r)|));
            var reopened := LogState(torn.text, r.hash);
            && VerifyText(c, torn.text) == Ok(r.hash) && !Terminated(torn.text)
            && Reopen(c, torn, true) == Reopen(c, torn, false) == Ok(reopened)
            && Clean(c, reopened, Logged(b', NoFault))
            && VerifyText(c, Append(c, reopened, b', NoFault).text).Err?
  {
    var r := Sealed(c, b, s.last);
    var enc := c.encode(r);
    assert Ended(enc)[..|enc|] == enc;
    LinesOpen(s.text, enc);
    WalkAppend(c, Lines(s.text), enc, "");
    assert [enc][1..] == [];
    OpenAgreesWithOpenVerified(c, Lines(s.text + enc), "");
    LastLineAfter(s.text, enc);
    AppendVerifiesIff(c, s.text + enc, b', r.hash);
  }

  // ---- The logger -------------------------------------------------------------------------------------

  method VerifyChain(c: Codec, text: string) returns (res: Result<string>)
    ensures res.Ok? <==> VerifyText(c, text).Ok?
    ensures res.Ok? ==> res == VerifyText(c, text) && res.value == Tail(Records(c, Lines(text)), "")
    ensures res.Ok? <==> AllReadable(c, Lines(text)) && Chain(c, Records(c, Lines(text)), "")
  {
    var lines := Lines(text);
    WalkIffChain(c, lines, "");
    var prev := "";
    var i := 0;
    while i < |lines|
      invariant 0 <= i <= |lines|
      invariant Walk(c, lines, "") == Walk(c, lines[i..], prev)
    {
      var line := Token(lines[i]);
      assert lines[i..][1..] == lines[i + 1..] && lines[i..][0] == lines[i];
      if |lines[i]| >= MAX_LINE { return Err("token too long"); }
      if line != "" {
        var rec := c.decode(line);
        if rec.None? { return Err("not a record"); }
        if rec.value.prevHash != prev { return Err("prev_hash mismatch"); }
        if c.digest(rec.value.body, rec.value.prevHash) != rec.value.hash { return Err("hash mismatch"); }
        prev := rec.value.hash;
      }
      i := i + 1;
    }
    return Ok(prev);
  }

  method LastHash(c: Codec, text: string) returns (res: Result<string>)
    ensures res.Ok? <==> Seed(c, Lines(text), "").Ok?
    ensures res.Ok? ==> res == Seed(c, Lines(text), "")
  {
    var lines := Lines(text);
    var last := "";
    var i := 0;
    while i < |lines|
      invariant 0 <= i <= |lines|
      invariant Seed(c, lines, "") == Seed(c, lines[i..], last)
    {
      assert lines[i..][1..] == lines[i + 1..] && lines[i..][0] == lines[i];
      if |lines[i]| >= MAX_LINE { return Err("token too long"); }
      var rec := c.decode(Token(lines[i]));
      if Token(lines[i]) != "" && rec.Some? && rec.value.hash != "" {
        last := rec.value.hash;
      }
      i := i + 1;
    }
    return Ok(last);
  }

  class Logger {
    const codec: Codec
    var text: string
    var lastHash: string

    function State(): LogState
      reads this
    {
      LogState(text, lastHash)
    }

    /** Open over an existing file; the caller has scanned or verified it for the seed. */
    constructor (codec: Codec, text: string, seed: string)
      ensures this.codec == codec && State() == LogState(text, seed)
    {
      this.codec, this.text, lastHash := codec, text, seed;
    }

    method Log(body: Body, now: int, fault: Fault) returns (ok: bool)
      modifies this
      ensures var b := if body.time == 0 then body.(time := now) else body;
              State() == Append(codec, old(State()), b, fault)
      ensures ok <==> fault == NoFault
    {
      var b := if body.time == 0 then body.(time := now) else body;
      var hash := codec.digest(b, lastHash);
      var line := Ended(codec.encode(Record(b, lastHash, hash)));
      match fault
      case NothingWritten => return false;
      case Torn(n) =>
        text := text + if n <= |line| then line[..n] else line;
        return false;
      case SyncFailed =>
        text := text + line;
        return false;
      case NoFault =>
        text := text + line;
        lastHash := hash;
        return true;
    }
  }
}
