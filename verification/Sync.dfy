/**
 The git syncer: each tick syncs the mirror, and when the head moved asks the catalog to
 reload, by the diff from the last revision where one is known. `lastRev` rolls back when
 the reload fails.

 The properties compare the live index, path by path, with the documents of the tree at
 `lastRev`, over every pattern of upstream moves, sync failures and reload failures.
 */
module Syncing {
  import opened Common
  import opened Catalogs
  import opened Reloading

  type Rev = string

  datatype State = State(lastRev: Option<Rev>, cat: Cat)

  /** What one tick meets: a sync that fails, or the head it finds, whether the diff from `lastRev` can be
      computed, and the faults of the reload and of the full reload it may fall back to. */
  datatype Tick =
    | SyncFails
    | Head(rev: Rev, diffable: bool, f: Faults, g: Faults)

  /** The mirror: how trees parse and embed, the tree at each revision, and the changes between two. */
  datatype Mirror = Mirror(env: Env, repo: Rev -> Tree, diff: (Rev, Rev) -> seq<Change>)

  ghost predicate TreeOk(m: Mirror, r: Rev) { DistinctPaths(m.repo(r)) }

  ghost predicate DiffOk(m: Mirror, r: Rev, q: Rev) { TrueDiff(m.repo(r), m.repo(q), m.diff(r, q)) }

  ghost predicate MirrorOk(m: Mirror) {
    Sane(m.env) && (forall r :: TreeOk(m, r)) && (forall r, q :: DiffOk(m, r, q))
  }

  // ---- One tick ---------------------------------------------------------------------------

  function DeltaFor(m: Mirror, s: State, t: Tick): Option<Delta>
    requires t.Head?
  {
    if s.lastRev.Some? && t.diffable then Some(DeltaOf(m.diff(s.lastRev.value, t.rev))) else None
  }

  predicate Moves(s: State, t: Tick) { t.Head? && s.lastRev != Some(t.rev) }

  predicate Fails(m: Mirror, s: State, t: Tick)
    requires t.Head?
  {
    ReloadFails(m.env, s.cat, m.repo(t.rev), DeltaFor(m, s, t), t.f, t.g)
  }

  function DoTick(m: Mirror, s: State, t: Tick): State {
    if !Moves(s, t) then s else
    var cat := DeltaReload(m.env, s.cat, m.repo(t.rev), DeltaFor(m, s, t), t.f, t.g);
    State(if Fails(m, s, t) then s.lastRev else Some(t.rev), cat)
  }

  class Syncer {
    const mirror: Mirror
    const catalog: Catalog
    var lastRev: Option<Rev>

    constructor (mirror: Mirror, catalog: Catalog)
      ensures this.mirror == mirror && this.catalog == catalog && lastRev == None
    {
      this.mirror, this.catalog, lastRev := mirror, catalog, None;
    }

    ghost function Snapshot(): State
      reads this, catalog
    {
      State(lastRev, catalog.State())
    }

    /** Sync reports whether the head moved and advances `lastRev` before anything is reloaded. */
    method Sync(t: Tick) returns (r: Option<(bool, Option<Delta>)>)
      modifies this
      ensures t.SyncFails? ==> r == None && lastRev == old(lastRev)
      ensures t.Head? ==>
                && r == Some((old(lastRev) != Some(t.rev),
                              if Moves(old(Snapshot()), t) then DeltaFor(mirror, old(Snapshot()), t) else None))
                && lastRev == Some(t.rev)
    {
      if t.SyncFails? { return None; }
      var changed := lastRev != Some(t.rev);
      var delta: Option<Delta> := None;
      if changed && lastRev.Some? && t.diffable {
        var d := DiffPaths(mirror.diff(lastRev.value, t.rev));
        delta := Some(d);
      }
      lastRev := Some(t.rev);
      return Some((changed, delta));
    }

    /** One step of Run. */
    method Do(t: Tick)
      requires catalog.env == mirror.env
      modifies this, catalog
      ensures Snapshot() == DoTick(mirror, old(Snapshot()), t)
    {
      var prev := lastRev;
      var synced := Sync(t);
      if synced.None? || !synced.value.0 { return; }
      var ok := catalog.ReloadDelta(mirror.repo(t.rev), synced.value.1, t.f, t.g);
      if !ok { lastRev := prev; }
    }
  }

  // ---- What a tick does to the index ---------------------------------------------------------

  /** The live index disagrees at p with the tree at `lastRev`. */
  predicate Wrong(m: Mirror, s: State, p: Path) {
    s.lastRev.Some? && Get(s.cat.index, p) != DocAt(m.env, m.repo(s.lastRev.value), p)
  }

  /** Entries and path index always belong to `lastRev`; before the first one nothing is ready. */
  predicate InStep(m: Mirror, s: State) {
    && (s.lastRev.Some? <==> s.cat.ready)
    && (s.lastRev.Some? ==> s.cat.entries == Load(m.env, m.repo(s.lastRev.value)))
    && (s.lastRev.Some? ==> s.cat.pathIdx == PathIndexOf(s.cat.entries))
  }

  lemma TickKeepsStep(m: Mirror, s: State, t: Tick)
    requires InStep(m, s)
    ensures InStep(m, DoTick(m, s, t))
  {
  }

  /** The tick mutates the live index, stops after f.indexAt operations, and the full reload fails as well. */
  predicate TornTick(m: Mirror, s: State, t: Tick) {
    && Moves(s, t) && Incremental(s.cat, DeltaFor(m, s, t)) && !t.f.load
    && CutShort(DeltaFor(m, s, t).value, t.f) && FullFails(m.env, m.repo(t.rev), t.g)
  }

  /** The tick ends in an index that was mutated by a delta, not rebuilt. */
  predicate Mutated(m: Mirror, s: State, t: Tick) {
    Moves(s, t) && Incremental(s.cat, DeltaFor(m, s, t)) && !t.f.load && !CutShort(DeltaFor(m, s, t).value, t.f)
  }

  predicate Named(d: Delta, p: Path) { p in d.removed || p in d.changed }

  /** Whether p is wrong after a tick, from whether it was wrong before: the whole story of one tick. */
  predicate WrongAfter(m: Mirror, s: State, t: Tick, p: Path) {
    if TornTick(m, s, t) then
      var d, k := DeltaFor(m, s, t).value, t.f.indexAt;
      if p in Touched(d, k) then DocAt(m.env, m.repo(s.lastRev.value), p) != Landed(m.env, m.repo(t.rev), d, k, p)
      else Wrong(m, s, p)
    else if Mutated(m, s, t) then Wrong(m, s, p) && !Named(DeltaFor(m, s, t).value, p)
    else if Moves(s, t) && !Fails(m, s, t) then false
    else Wrong(m, s, p)
  }

  lemma TickAt(m: Mirror, s: State, t: Tick, p: Path)
    requires MirrorOk(m) && InStep(m, s)
    ensures Wrong(m, DoTick(m, s, t), p) <==> WrongAfter(m, s, t, p)
  {
    if Moves(s, t) {
      assert TreeOk(m, t.rev);
      IndexIsDocs(m.env, m.repo(t.rev), p);
      if TornTick(m, s, t) {
        AppliedAt(m.env, s.cat.index, m.repo(t.rev), DeltaFor(m, s, t).value, t.f.indexAt, p);
      } else if Mutated(m, s, t) {
        MutatedAt(m, s, t, p);
      }
    }
  }

  lemma MutatedAt(m: Mirror, s: State, t: Tick, p: Path)
    requires MirrorOk(m) && InStep(m, s) && Mutated(m, s, t)
    ensures Wrong(m, DoTick(m, s, t), p) <==> Wrong(m, s, p) && !Named(DeltaFor(m, s, t).value, p)
  {
    var from, to, d := m.repo(s.lastRev.value), m.repo(t.rev), DeltaFor(m, s, t).value;
    assert TreeOk(m, t.rev) && DiffOk(m, s.lastRev.value, t.rev);
    TrueDiffCovers(from, to, m.diff(s.lastRev.value, t.rev));
    AppliedInFull(m.env, s.cat.index, from, to, d, p);
  }

  // ---- Whole runs ------------------------------------------------------------------------------

  /** The live catalog is what a full rebuild of the tree at `lastRev` would give. */
  ghost predicate Good(m: Mirror, s: State) {
    InStep(m, s) && (s.lastRev.Some? ==> s.cat.index == Rebuilt(m.env, m.repo(s.lastRev.value)))
  }

  lemma GoodIffNothingWrong(m: Mirror, s: State)
    requires MirrorOk(m) && InStep(m, s)
    ensures Good(m, s) <==> forall p :: !Wrong(m, s, p)
  {
    if s.lastRev.Some? {
      var tree := m.repo(s.lastRev.value);
      assert TreeOk(m, s.lastRev.value);
      forall p ensures Get(Rebuilt(m.env, tree), p) == DocAt(m.env, tree, p) { IndexIsDocs(m.env, tree, p); }
      if forall p :: !Wrong(m, s, p) {
        forall p ensures Get(s.cat.index, p) == Get(Rebuilt(m.env, tree), p) { assert !Wrong(m, s, p); }
        SameMap(s.cat.index, Rebuilt(m.env, tree));
      }
    }
  }

  /** The torn tick reached p and left something else there than the old document. */
  predicate LosesAt(m: Mirror, s: State, t: Tick, p: Path)
    requires TornTick(m, s, t)
  {
    var d, k := DeltaFor(m, s, t).value, t.f.indexAt;
    p in Touched(d, k) && DocAt(m.env, m.repo(s.lastRev.value), p) != Landed(m.env, m.repo(t.rev), d, k, p)
  }

  /** The only way to lose agreement: a torn tick that reached a path whose document it changed. */
  ghost predicate Loses(m: Mirror, s: State, t: Tick) {
    TornTick(m, s, t) && exists p :: LosesAt(m, s, t, p)
  }

  lemma TickKeepsGoodIff(m: Mirror, s: State, t: Tick)
    requires MirrorOk(m) && Good(m, s)
    ensures Good(m, DoTick(m, s, t)) <==> !Loses(m, s, t)
  {
    GoodIffNothingWrong(m, s);
    GoodIffNothingWrong(m, DoTick(m, s, t));
    forall p ensures Wrong(m, DoTick(m, s, t), p) <==> WrongAfter(m, s, t, p) { TickAt(m, s, t, p); }
    if Loses(m, s, t) {
      var p :| LosesAt(m, s, t, p);
      assert WrongAfter(m, s, t, p);
    } else {
      forall p ensures !WrongAfter(m, s, t, p) {
        assert !Wrong(m, s, p) && (TornTick(m, s, t) ==> !LosesAt(m, s, t, p));
      }
    }
  }

  ghost predicate Run(m: Mirror, states: seq<State>, ticks: seq<Tick>) {
    && |states| == |ticks| + 1
    && (forall i :: 0 <= i < |ticks| ==> states[i + 1] == DoTick(m, states[i], ticks[i]))
  }

  ghost predicate Fresh(m: Mirror, s: State) {
    s.lastRev == None && !s.cat.ready && s.cat.vectors == None && CacheSound(m.env, s.cat.cache)
  }

  lemma {:induction false} RunInStep(m: Mirror, states: seq<State>, ticks: seq<Tick>, n: nat)
    requires Sane(m.env) && Run(m, states, ticks) && InStep(m, states[0]) && n < |states|
    requires VectorsRight(m.env, states[0].cat)
    ensures InStep(m, states[n]) && VectorsRight(m.env, states[n].cat)
  {
    if n > 0 {
      RunInStep(m, states, ticks, n - 1);
      var s, t := states[n - 1], ticks[n - 1];
      assert states[n - 1 + 1] == DoTick(m, s, t);
      TickKeepsStep(m, s, t);
      if Moves(s, t) {
        ReloadKeepsVectors(m.env, s.cat, m.repo(t.rev), DeltaFor(m, s, t), t.f, t.g);
      }
    }
  }

  /** Over every run of upstream moves, sync failures and reload failures, with no tick that tears the index,
      the catalog is at every point a full rebuild of the tree at `lastRev`, vectors included. */
  lemma {:induction false} IndexFollowsLastRev(m: Mirror, states: seq<State>, ticks: seq<Tick>, n: nat)
    requires MirrorOk(m) && Run(m, states, ticks) && Fresh(m, states[0]) && n < |states|
    requires forall i :: 0 <= i < |ticks| ==> !TornTick(m, states[i], ticks[i])
    ensures Good(m, states[n]) && VectorsRight(m.env, states[n].cat)
  {
    RunInStep(m, states, ticks, n);
    if n > 0 {
      IndexFollowsLastRev(m, states, ticks, n - 1);
      assert states[n - 1 + 1] == DoTick(m, states[n - 1], ticks[n - 1]);
      TickKeepsGoodIff(m, states[n - 1], ticks[n - 1]);
    }
  }

  predicate Towards(t: Tick, rev: Rev) { t.Head? ==> t.rev == rev }

  /** While upstream rests at one revision nothing is lost for good: even after torn ticks, once `lastRev`
      names that revision the index is exactly its rebuild. */
  lemma RetryHeals(m: Mirror, states: seq<State>, ticks: seq<Tick>, rev: Rev, n: nat)
    requires MirrorOk(m) && Run(m, states, ticks) && Good(m, states[0]) && VectorsRight(m.env, states[0].cat)
    requires n < |states| && forall i :: 0 <= i < |ticks| ==> Towards(ticks[i], rev)
    ensures states[n].lastRev == Some(rev) ==> Good(m, states[n])
  {
    RunInStep(m, states, ticks, n);
    GoodIffNothingWrong(m, states[n]);
    forall p | states[n].lastRev == Some(rev) ensures !Wrong(m, states[n], p) {
      GoodIffNothingWrong(m, states[0]);
      WrongStaysNamed(m, states, ticks, rev, n, p);
    }
  }

  lemma {:induction false} WrongStaysNamed(m: Mirror, states: seq<State>, ticks: seq<Tick>, rev: Rev, n: nat, p: Path)
    requires MirrorOk(m) && Run(m, states, ticks) && InStep(m, states[0]) && !Wrong(m, states[0], p)
    requires VectorsRight(m.env, states[0].cat)
    requires n < |states| && forall i :: 0 <= i < |ticks| ==> Towards(ticks[i], rev)
    ensures states[n].lastRev == Some(rev) || states[n].lastRev == states[0].lastRev
    ensures Wrong(m, states[n], p) ==>
              states[n].lastRev != Some(rev) && Named(DeltaOf(m.diff(states[n].lastRev.value, rev)), p)
  {
    if n > 0 {
      WrongStaysNamed(m, states, ticks, rev, n - 1, p);
      RunInStep(m, states, ticks, n - 1);
      var s, t := states[n - 1], ticks[n - 1];
      assert states[n - 1 + 1] == DoTick(m, s, t) && Towards(t, rev);
      TickAt(m, s, t, p);
      if TornTick(m, s, t) && p in Touched(DeltaFor(m, s, t).value, t.f.indexAt) {
        assert Named(DeltaFor(m, s, t).value, p);
      }
    }
  }

  /** What the rollback cannot repair: a torn tick followed by upstream going back to `lastRev`. No later sync
      at that revision reloads anything, so the index stays wrong. */
  lemma ReturnDoesNotHeal(m: Mirror, s: State, t: Tick, back: Tick)
    requires MirrorOk(m) && Good(m, s) && TornTick(m, s, t) && Loses(m, s, t)
    requires back.Head? && Some(back.rev) == s.lastRev
    ensures var torn := DoTick(m, s, t); DoTick(m, torn, back) == torn && !Good(m, torn)
  {
    TickKeepsGoodIff(m, s, t);
  }

  // ---- A lost change, concretely -------------------------------------------------------------

  const OLD_TREE: Tree := [File("p.md", "p")]
  const NEW_TREE: Tree := [File("q.md", "q")]

  const NOTHING_LOADED := Cat(map[], [], map[], None, map[], false)

  /** Revision "a" holds p.md, every other revision holds q.md instead. */
  function SmallMirror(): Mirror {
    Mirror(Env((f: File) => Some(Entry(f.path, "", f.blob)), false, (t: string) => [], (t: string) => t),
           (r: Rev) => if r == "a" then OLD_TREE else NEW_TREE,
           (r: Rev, q: Rev) =>
             if (r == "a") == (q == "a") then []
             else if r == "a" then [Change(Some("p.md"), None), Change(None, Some("q.md"))]
             else [Change(Some("q.md"), None), Change(None, Some("p.md"))])
  }

  lemma SmallMirrorOk()
    ensures MirrorOk(SmallMirror())
  {
    var m := SmallMirror();
    forall r, q ensures DiffOk(m, r, q) {
      if r == "a" && q != "a" { SwapDiff("p.md", "p", "q.md", "q"); }
      if r != "a" && q == "a" { SwapDiff("q.md", "q", "p.md", "p"); }
    }
  }

  lemma SwapDiff(p: Path, x: string, q: Path, y: string)
    requires p != q
    ensures TrueDiff([File(p, x)], [File(q, y)], [Change(Some(p), None), Change(None, Some(q))])
  {
    var changes := [Change(Some(p), None), Change(None, Some(q))];
    assert changes[0].from == Some(p) && changes[1].to == Some(q);
    assert forall r :: FileAt([], r) == None;
    forall r ensures FileAt([File(p, x)], r) == (if r == p then Some(File(p, x)) else None) {
      assert [File(p, x)][..0] == [];
    }
    forall r ensures FileAt([File(q, y)], r) == (if r == q then Some(File(q, y)) else None) {
      assert [File(q, y)][..0] == [];
    }
  }

  /** The unrestricted claim is false: p.md is removed from the live index, the next operation and the
      fallback rebuild both fail, and the head goes back to "a". The index stays empty while "a" holds p.md. */
  lemma LossHappens()
    ensures var m := SmallMirror();
            var s := State(Some("a"), FullReload(m.env, NOTHING_LOADED, OLD_TREE, Faults(false, 9, false)));
            var t := Head("b", true, Faults(false, 1, false), Faults(true, 0, false));
            MirrorOk(m) && Good(m, s) && TornTick(m, s, t) && Loses(m, s, t)
  {
    SmallMirrorOk();
    var m := SmallMirror();
    var s := State(Some("a"), FullReload(m.env, NOTHING_LOADED, OLD_TREE, Faults(false, 9, false)));
    var t := Head("b", true, Faults(false, 1, false), Faults(true, 0, false));
    assert OLD_TREE[..0] == [];
    assert Load(m.env, OLD_TREE) == [Entry("p.md", "", "p")];
    var changes := m.diff("a", "b");
    assert changes[..1] == [Change(Some("p.md"), None)] && changes[..1][..0] == [];
    assert DeltaOf(changes[..1]) == Delta([], ["p.md"]);
    var d := DeltaFor(m, s, t).value;
    assert d == DeltaOf(changes);
    assert d == Delta(["q.md"], ["p.md"]);
    assert Touched(d, 1) == ["p.md"];
    assert DocAt(m.env, OLD_TREE, "p.md") == Some(Doc("", "p"));
    assert "p.md" in Touched(d, 1) && Landed(m.env, NEW_TREE, d, 1, "p.md") == None;
    assert LosesAt(m, s, t, "p.md");
  }
}
