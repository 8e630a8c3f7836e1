/**
 Reloading the catalog: the embedding pass with its cache, the full reload and the
 incremental one, on the fields the catalog swaps and the index it mutates.
 */
module Reloading {
  import opened Common
  import opened Catalogs

  /** Which call fails in one reload: the walk, the index operation of that number, the embedder. */
  datatype Faults = Faults(load: bool, indexAt: nat, embed: bool)

  /** The catalog's fields. */
  datatype Cat = Cat(
    index: map<Path, Doc>, entries: seq<Entry>, pathIdx: map<Path, nat>,
    vectors: Option<seq<Vec>>, cache: map<string, Vec>, ready: bool)

  /** What an embedding pass returns, and the texts it sent to the embedder. */
  datatype Pass = Pass(vectors: Option<seq<Vec>>, cache: map<string, Vec>, sent: seq<string>)

  // ---- The embedding pass ----------------------------------------------------------------

  function VecFor(env: Env, prev: map<string, Vec>, text: string): Vec {
    if env.sha(text) in prev then prev[env.sha(text)] else env.embed(text)
  }

  function VectorsOf(env: Env, prev: map<string, Vec>, entries: seq<Entry>): (vs: seq<Vec>)
    ensures |vs| == |entries| && forall i :: 0 <= i < |entries| ==> vs[i] == VecFor(env, prev, entries[i].text)
  {
    seq(|entries|, i requires 0 <= i < |entries| => VecFor(env, prev, entries[i].text))
  }

  function Misses(env: Env, prev: map<string, Vec>, entries: seq<Entry>): seq<string>
    decreases |entries|
  {
    if entries == [] then [] else
    var (init, e) := (entries[..|entries| - 1], entries[|entries| - 1]);
    if env.sha(e.text) in prev then Misses(env, prev, init) else Misses(env, prev, init) + [e.text]
  }

  function CacheOf(env: Env, prev: map<string, Vec>, entries: seq<Entry>): map<string, Vec>
    decreases |entries|
  {
    if entries == [] then map[] else
    var (init, e) := (entries[..|entries| - 1], entries[|entries| - 1]);
    CacheOf(env, prev, init)[env.sha(e.text) := VecFor(env, prev, e.text)]
  }

  function EmbedPass(env: Env, prev: map<string, Vec>, entries: seq<Entry>, fails: bool): Pass {
    if !env.hasEmbedder || entries == [] then Pass(None, prev, [])
    else if Misses(env, prev, entries) != [] && fails then Pass(None, prev, Misses(env, prev, entries))
    else Pass(Some(VectorsOf(env, prev, entries)), CacheOf(env, prev, entries), Misses(env, prev, entries))
  }

  predicate Stale(env: Env, cache: map<string, Vec>, text: string) {
    env.sha(text) in cache && cache[env.sha(text)] != env.embed(text)
  }

  /** Every cached vector is the embedding of the text it is filed under. */
  ghost predicate CacheSound(env: Env, cache: map<string, Vec>) { forall t :: !Stale(env, cache, t) }

  lemma {:induction false} CacheOfSound(env: Env, prev: map<string, Vec>, entries: seq<Entry>)
    requires Sane(env) && CacheSound(env, prev)
    ensures CacheSound(env, CacheOf(env, prev, entries))
    ensures CacheOf(env, prev, entries).Keys == set i | 0 <= i < |entries| :: env.sha(entries[i].text)
    decreases |entries|
  {
    if entries != [] {
      var init, e := entries[..|entries| - 1], entries[|entries| - 1];
      CacheOfSound(env, prev, init);
      assert !Stale(env, prev, e.text);
      forall t ensures !Stale(env, CacheOf(env, prev, entries), t) {
        assert !Stale(env, CacheOf(env, prev, init), t);
        assert env.sha(t) == env.sha(e.text) ==> SameSha(env, t, e.text);
      }
      assert forall i :: 0 <= i < |init| ==> init[i] == entries[i];
    }
  }

  lemma {:induction false} MissesAre(env: Env, prev: map<string, Vec>, entries: seq<Entry>, t: string)
    ensures t in Misses(env, prev, entries) <==>
            env.sha(t) !in prev && exists i :: 0 <= i < |entries| && entries[i].text == t
    decreases |entries|
  {
    if entries != [] {
      var init, e := entries[..|entries| - 1], entries[|entries| - 1];
      MissesAre(env, prev, init, t);
      assert forall i :: 0 <= i < |init| ==> init[i] == entries[i];
      if i :| 0 <= i < |entries| && entries[i].text == t && t != e.text {
        assert init[i].text == t;
      }
    }
  }

  /** The cached pass agrees with embedding everything afresh: a vector set is complete and right or absent,
      only texts the cache lacked are sent, a completed pass caches exactly the corpus, and a failed one or
      an empty corpus leaves the cache alone. */
  lemma EmbedPassIsFresh(env: Env, prev: map<string, Vec>, entries: seq<Entry>, fails: bool)
    requires Sane(env) && CacheSound(env, prev)
    ensures var pass := EmbedPass(env, prev, entries, fails);
            && CacheSound(env, pass.cache)
            && (pass.vectors.Some? ==>
                  && |pass.vectors.value| == |entries|
                  && (forall i :: 0 <= i < |entries| ==> pass.vectors.value[i] == env.embed(entries[i].text))
                  && pass.cache.Keys == set i | 0 <= i < |entries| :: env.sha(entries[i].text))
            && (pass.vectors.None? ==> pass.cache == prev)
            && (pass.vectors.Some? <==> env.hasEmbedder && entries != [] && !(fails && pass.sent != []))
    ensures forall t :: t in EmbedPass(env, prev, entries, fails).sent ==>
              env.sha(t) !in prev && exists i :: 0 <= i < |entries| && entries[i].text == t
  {
    CacheOfSound(env, prev, entries);
    forall t ensures t in Misses(env, prev, entries) ==>
                       env.sha(t) !in prev && exists i :: 0 <= i < |entries| && entries[i].text == t {
      MissesAre(env, prev, entries, t);
    }
    forall i | 0 <= i < |entries| ensures VecFor(env, prev, entries[i].text) == env.embed(entries[i].text) {
      assert !Stale(env, prev, entries[i].text);
    }
  }

  method EmbedWithCache(env: Env, prev: map<string, Vec>, entries: seq<Entry>, fails: bool) returns (pass: Pass)
    ensures pass == EmbedPass(env, prev, entries, fails)
  {
    if !env.hasEmbedder || |entries| == 0 { return Pass(None, prev, []); }
    var keys, vectors, missTexts, missIdx := LookUp(env, prev, entries);
    if |missTexts| > 0 {
      if fails { return Pass(None, prev, missTexts); }
      var vecs := seq(|missTexts|, i requires 0 <= i < |missTexts| => env.embed(missTexts[i]));
      vectors := FillMisses(env, prev, entries, vectors, missIdx, vecs);
    }
    assert vectors == VectorsOf(env, prev, entries);
    var cache := FillCache(env, prev, entries, keys, vectors);
    return Pass(Some(vectors), cache, missTexts);
  }

  /** The first loop: every entry's key, the vectors the cache has, and where each missing text belongs. */
  method LookUp(env: Env, prev: map<string, Vec>, entries: seq<Entry>)
    returns (keys: seq<string>, vectors: seq<Vec>, missTexts: seq<string>, missIdx: seq<nat>)
    ensures |keys| == |vectors| == |entries| && |missIdx| == |missTexts| && missTexts == Misses(env, prev, entries)
    ensures forall j :: 0 <= j < |entries| ==> keys[j] == env.sha(entries[j].text)
    ensures forall j :: 0 <= j < |entries| ==>
              if env.sha(entries[j].text) in prev then vectors[j] == prev[env.sha(entries[j].text)] else j in missIdx
    ensures forall x :: 0 <= x < |missIdx| ==> missIdx[x] < |entries| && missTexts[x] == entries[missIdx[x]].text
    ensures forall x :: 0 <= x < |missIdx| ==> env.sha(missTexts[x]) !in prev
  {
    keys, vectors, missTexts, missIdx := [], [], [], [];
    for i := 0 to |entries|
      invariant |keys| == |vectors| == i && |missIdx| == |missTexts| && missTexts == Misses(env, prev, entries[..i])
      invariant forall j :: 0 <= j < i ==> keys[j] == env.sha(entries[j].text)
      invariant forall j :: 0 <= j < i ==>
                  if env.sha(entries[j].text) in prev then vectors[j] == prev[env.sha(entries[j].text)]
                  else j in missIdx
      invariant forall x :: 0 <= x < |missIdx| ==> missIdx[x] < i && missTexts[x] == entries[missIdx[x]].text
      invariant forall x :: 0 <= x < |missIdx| ==> env.sha(missTexts[x]) !in prev
    {
      var text := entries[i].text;
      var key := env.sha(text);
      assert entries[..i + 1][..i] == entries[..i];
      keys := keys + [key];
      if key in prev {
        vectors := vectors + [prev[key]];
      } else {
        vectors := vectors + [[]];
        missTexts, missIdx := missTexts + [text], missIdx + [i];
      }
    }
    assert entries[..|entries|] == entries;
  }

  /** The second loop: each fresh vector goes to the entry whose text it embeds. */
  method FillMisses(
    env: Env, prev: map<string, Vec>, entries: seq<Entry>, found: seq<Vec>, missIdx: seq<nat>, vecs: seq<Vec>)
    returns (vectors: seq<Vec>)
    requires |found| == |entries| && |missIdx| == |vecs|
    requires forall x :: 0 <= x < |missIdx| ==>
               missIdx[x] < |entries| && vecs[x] == VecFor(env, prev, entries[missIdx[x]].text)
    requires forall j :: 0 <= j < |entries| ==> found[j] == VecFor(env, prev, entries[j].text) || j in missIdx
    ensures vectors == VectorsOf(env, prev, entries)
  {
    vectors := found;
    for x := 0 to |vecs|
      invariant |vectors| == |entries|
      invariant forall j :: 0 <= j < |entries| ==>
                  vectors[j] == VecFor(env, prev, entries[j].text) || j in missIdx[x..]
    {
      assert missIdx[x..] == [missIdx[x]] + missIdx[x + 1..];
      vectors := vectors[missIdx[x] := vecs[x]];
    }
  }

  method FillCache(env: Env, prev: map<string, Vec>, entries: seq<Entry>, keys: seq<string>, vectors: seq<Vec>)
    returns (cache: map<string, Vec>)
    requires |keys| == |entries| && forall i :: 0 <= i < |keys| ==> keys[i] == env.sha(entries[i].text)
    requires vectors == VectorsOf(env, prev, entries)
    ensures cache == CacheOf(env, prev, entries)
  {
    cache := map[];
    for i := 0 to |keys|
      invariant cache == CacheOf(env, prev, entries[..i])
    {
      assert entries[..i + 1][..i] == entries[..i];
      cache := cache[keys[i] := vectors[i]];
    }
    assert entries[..|entries|] == entries;
  }

  // ---- Reloads on values -------------------------------------------------------------------

  predicate FullFails(env: Env, tree: Tree, f: Faults) { f.load || f.indexAt < |Load(env, tree)| }

  function Swapped(env: Env, c: Cat, index: map<Path, Doc>, entries: seq<Entry>, fails: bool): Cat {
    var pass := EmbedPass(env, c.cache, entries, fails);
    Cat(index, entries, PathIndexOf(entries), pass.vectors, pass.cache, true)
  }

  function FullReload(env: Env, c: Cat, tree: Tree, f: Faults): Cat {
    if FullFails(env, tree, f) then c
    else Swapped(env, c, IndexOf(Load(env, tree)), Load(env, tree), f.embed)
  }

  predicate Incremental(c: Cat, delta: Option<Delta>) { delta.Some? && c.ready }

  predicate CutShort(delta: Delta, f: Faults) { f.indexAt < Size(delta) }

  /** A reload by delta; `g` are the faults of the full reload it may fall back to. */
  function DeltaReload(env: Env, c: Cat, tree: Tree, delta: Option<Delta>, f: Faults, g: Faults): Cat {
    if !Incremental(c, delta) then FullReload(env, c, tree, f)
    else if f.load then c
    else
      var entries := Load(env, tree);
      if CutShort(delta.value, f) then
        FullReload(env, c.(index := Applied(c.index, IndexOf(entries), delta.value, f.indexAt)), tree, g)
      else Swapped(env, c, Applied(c.index, IndexOf(entries), delta.value, Size(delta.value)), entries, f.embed)
  }

  predicate ReloadFails(env: Env, c: Cat, tree: Tree, delta: Option<Delta>, f: Faults, g: Faults) {
    if !Incremental(c, delta) then FullFails(env, tree, f)
    else f.load || (CutShort(delta.value, f) && FullFails(env, tree, g))
  }

  /** Whatever fails, vectors stay right: whenever there is one per entry, each is its own entry's embedding. */
  ghost predicate VectorsRight(env: Env, c: Cat) {
    && CacheSound(env, c.cache)
    && (HasVectors(c) ==> forall i :: 0 <= i < |c.entries| ==> c.vectors.value[i] == env.embed(c.entries[i].text))
  }

  predicate HasVectors(c: Cat) {
    c.vectors.Some? && |c.vectors.value| > 0 && |c.vectors.value| == |c.entries|
  }

  lemma SwapKeepsVectors(env: Env, c: Cat, index: map<Path, Doc>, entries: seq<Entry>, fails: bool)
    requires Sane(env) && VectorsRight(env, c)
    ensures VectorsRight(env, Swapped(env, c, index, entries, fails))
  {
    EmbedPassIsFresh(env, c.cache, entries, fails);
  }

  lemma FullKeepsVectors(env: Env, c: Cat, tree: Tree, f: Faults)
    requires Sane(env) && VectorsRight(env, c)
    ensures VectorsRight(env, FullReload(env, c, tree, f))
  {
    SwapKeepsVectors(env, c, Rebuilt(env, tree), Load(env, tree), f.embed);
  }

  lemma ReloadKeepsVectors(env: Env, c: Cat, tree: Tree, delta: Option<Delta>, f: Faults, g: Faults)
    requires Sane(env) && VectorsRight(env, c)
    ensures VectorsRight(env, DeltaReload(env, c, tree, delta, f, g))
  {
    if !Incremental(c, delta) {
      FullKeepsVectors(env, c, tree, f);
    } else if !f.load {
      var goal := Rebuilt(env, tree);
      if CutShort(delta.value, f) {
        FullKeepsVectors(env, c.(index := Applied(c.index, goal, delta.value, f.indexAt)), tree, g);
      } else {
        SwapKeepsVectors(env, c, Applied(c.index, goal, delta.value, Size(delta.value)), Load(env, tree), f.embed);
      }
    }
  }

  // ---- Search hits --------------------------------------------------------------------------

  lemma {:induction false} PathIndexResolves(entries: seq<Entry>, p: Path)
    ensures p in PathIndexOf(entries) <==> p in IndexOf(entries)
    ensures p in PathIndexOf(entries) ==>
              var i := PathIndexOf(entries)[p];
              i < |entries| && entries[i].path == p && IndexOf(entries)[p] == DocFor(entries[i])
    decreases |entries|
  {
    if entries != [] {
      PathIndexResolves(entries[..|entries| - 1], p);
    }
  }

  /** The entry a path stands for, nothing when the path index does not know it. */
  function EntryOf(c: Cat, p: Path): seq<Entry> {
    if p in c.pathIdx && c.pathIdx[p] < |c.entries| then [c.entries[c.pathIdx[p]]] else []
  }

  /** The entries the known hits stand for, in the order of the hits. */
  function Known(c: Cat, hits: seq<Path>): seq<Entry>
    decreases |hits|
  {
    if hits == [] then [] else Known(c, hits[..|hits| - 1]) + EntryOf(c, hits[|hits| - 1])
  }

  lemma {:induction false} KnownResolves(c: Cat, hits: seq<Path>)
    requires c.pathIdx == PathIndexOf(c.entries)
    ensures forall e :: e in Known(c, hits) ==> e.path in hits && e in c.entries
    ensures (forall i :: 0 <= i < |hits| ==> hits[i] in IndexOf(c.entries)) ==>
              |Known(c, hits)| == |hits| && forall i :: 0 <= i < |hits| ==> Known(c, hits)[i].path == hits[i]
    decreases |hits|
  {
    if hits != [] {
      var init, p := hits[..|hits| - 1], hits[|hits| - 1];
      assert hits == init + [p];
      KnownResolves(c, init);
      PathIndexResolves(c.entries, p);
      assert forall i :: 0 <= i < |init| ==> hits[i] == init[i];
    }
  }

  /** Hits by rank resolve to entries at their own paths: in order, unknown ones skipped, none dropped when the
      index and the entries match. */
  method Resolve(c: Cat, hits: seq<Path>) returns (found: seq<Entry>)
    requires c.pathIdx == PathIndexOf(c.entries)
    ensures found == Known(c, hits)
    ensures (forall i :: 0 <= i < |hits| ==> hits[i] in IndexOf(c.entries)) ==>
              |found| == |hits| && forall i :: 0 <= i < |hits| ==> found[i].path == hits[i]
    ensures forall e :: e in found ==> e.path in hits && e in c.entries
  {
    found := [];
    for i := 0 to |hits|
      invariant found == Known(c, hits[..i])
    {
      assert hits[..i + 1][..i] == hits[..i];
      PathIndexResolves(c.entries, hits[i]);
      if hits[i] in c.pathIdx {
        found := found + [c.entries[c.pathIdx[hits[i]]]];
      }
    }
    assert hits[..|hits|] == hits;
    KnownResolves(c, hits);
  }

  // ---- The catalog ----------------------------------------------------------------------------

  class Catalog {
    const env: Env
    var index: map<Path, Doc>
    var entries: seq<Entry>
    var pathIdx: map<Path, nat>
    var vectors: Option<seq<Vec>>
    var vecCache: map<string, Vec>
    var ready: bool

    function State(): Cat
      reads this
    {
      Cat(index, entries, pathIdx, vectors, vecCache, ready)
    }

    constructor (env: Env, warm: map<string, Vec>)
      ensures this.env == env && State() == Cat(map[], [], map[], None, warm, false)
    {
      this.env := env;
      index, entries, pathIdx, vectors, vecCache, ready := map[], [], map[], None, warm, false;
    }

    static method BuildIndex(entries: seq<Entry>, failAt: nat) returns (idx: Option<map<Path, Doc>>)
      ensures idx == if failAt < |entries| then None else Some(IndexOf(entries))
    {
      var built: map<Path, Doc> := map[];
      for i := 0 to |entries|
        invariant i <= failAt && built == IndexOf(entries[..i])
      {
        if i == failAt { return None; }
        assert entries[..i + 1][..i] == entries[..i];
        built := built[entries[i].path := DocFor(entries[i])];
      }
      assert entries[..|entries|] == entries;
      return Some(built);
    }

    static method PathIndex(entries: seq<Entry>) returns (m: map<Path, nat>)
      ensures m == PathIndexOf(entries)
    {
      m := map[];
      for i := 0 to |entries|
        invariant m == PathIndexOf(entries[..i])
      {
        assert entries[..i + 1][..i] == entries[..i];
        m := m[entries[i].path := i];
      }
      assert entries[..|entries|] == entries;
    }

    method ReloadContext(tree: Tree, f: Faults) returns (ok: bool)
      modifies this
      ensures ok <==> !FullFails(env, tree, f)
      ensures State() == FullReload(env, old(State()), tree, f)
    {
      if f.load { return false; }
      var loaded := Load(env, tree);
      var idx := BuildIndex(loaded, f.indexAt);
      if idx.None? { return false; }
      var pass := EmbedWithCache(env, vecCache, loaded, f.embed);
      index, entries, vectors, vecCache, ready := idx.value, loaded, pass.vectors, pass.cache, true;
      pathIdx := PathIndex(loaded);
      return true;
    }

    method ReloadDelta(tree: Tree, delta: Option<Delta>, f: Faults, g: Faults) returns (ok: bool)
      modifies this
      ensures ok <==> !ReloadFails(env, old(State()), tree, delta, f, g)
      ensures State() == DeltaReload(env, old(State()), tree, delta, f, g)
    {
      if delta.None? || !ready {
        ok := ReloadContext(tree, f);
        return;
      }
      if f.load { return false; }
      var loadedEntries := Load(env, tree);
      var pass := EmbedWithCache(env, vecCache, loadedEntries, f.embed);
      var loaded := PathIndex(loadedEntries);
      var done := Mutate(delta.value, loaded, loadedEntries, f.indexAt);
      if !done {
        ok := ReloadContext(tree, g);
        return;
      }
      entries, vectors, pathIdx, vecCache := loadedEntries, pass.vectors, loaded, pass.cache;
      return true;
    }

    /** Mutate the live index: the removals, then the changed paths. */
    method Mutate(delta: Delta, loaded: map<Path, nat>, es: seq<Entry>, failAt: nat) returns (done: bool)
      requires loaded == PathIndexOf(es)
      modifies this`index
      ensures done <==> failAt >= Size(delta)
      ensures index == Applied(old(index), IndexOf(es), delta, if done then Size(delta) else failAt)
    {
      var n := |delta.removed|;
      for i := 0 to n
        invariant i <= failAt && index == RemoveAll(old(index), delta.removed[..i])
      {
        if i == failAt { return false; }
        assert delta.removed[..i + 1][..i] == delta.removed[..i];
        index := index - {delta.removed[i]};
      }
      assert delta.removed[..n] == delta.removed;
      ghost var base := index;
      for i := 0 to |delta.changed|
        invariant n + i <= failAt && index == ChangeAll(base, IndexOf(es), delta.changed[..i])
      {
        if n + i == failAt {
          assert i == 0 ==> delta.changed[..0] == [];
          return false;
        }
        var p := delta.changed[i];
        assert delta.changed[..i + 1][..i] == delta.changed[..i];
        PathIndexResolves(es, p);
        if p in loaded {
          index := index[p := DocFor(es[loaded[p]])];
        } else {
          index := index - {p};
        }
      }
      assert delta.changed[..|delta.changed|] == delta.changed;
      return true;
    }
  }
}
