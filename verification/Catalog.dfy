/**
 The knowledge catalog: entries loaded from a tree of files, an index keyed by path, one
 vector per entry, and a content-addressed embedding cache carried across reloads.

 A full reload builds a new index; an incremental one mutates the live index for the paths
 a delta names. The index is a map from path to document, loading a tree is a function
 applied file by file, and the embedder is a function that may fail.
 */
module Catalogs {
  import opened Common

  type Path = string
  type Vec = seq<real>

  datatype File = File(path: Path, blob: string)

  /** A tree's files in walk order. */
  type Tree = seq<File>

  /** `text` is the corpus text, used for the document and for the embedding. */
  datatype Entry = Entry(path: Path, title: string, text: string)

  datatype Doc = Doc(title: string, text: string)

  /** `parse` gives None for a file that is no entry or does not parse. */
  datatype Env = Env(
    parse: File -> Option<Entry>,
    hasEmbedder: bool, embed: string -> Vec, sha: string -> string)

  predicate SameSha(env: Env, t: string, u: string) { env.sha(t) == env.sha(u) }

  predicate Misfiled(env: Env, f: File) { env.parse(f).Some? && env.parse(f).value.path != f.path }

  /** An entry carries its own path, and the content hash is injective. */
  ghost predicate Sane(env: Env) {
    && (forall f :: !Misfiled(env, f))
    && (forall t, u :: SameSha(env, t, u) ==> t == u)
  }

  predicate DistinctPaths(tree: Tree) { forall i, j :: 0 <= i < j < |tree| ==> tree[i].path != tree[j].path }

  // ---- Loading and indexing ------------------------------------------------------------

  function Load(env: Env, tree: Tree): seq<Entry>
    decreases |tree|
  {
    if tree == [] then [] else
    var (init, f) := (tree[..|tree| - 1], tree[|tree| - 1]);
    if env.parse(f).Some? then Load(env, init) + [env.parse(f).value] else Load(env, init)
  }

  function DocFor(e: Entry): Doc { Doc(e.title, e.text) }

  function IndexOf(entries: seq<Entry>): map<Path, Doc>
    decreases |entries|
  {
    if entries == [] then map[] else
    var (init, e) := (entries[..|entries| - 1], entries[|entries| - 1]);
    IndexOf(init)[e.path := DocFor(e)]
  }

  function PathIndexOf(entries: seq<Entry>): map<Path, nat>
    decreases |entries|
  {
    if entries == [] then map[] else
    PathIndexOf(entries[..|entries| - 1])[entries[|entries| - 1].path := |entries| - 1]
  }

  function Get<V>(m: map<Path, V>, p: Path): Option<V> { if p in m then Some(m[p]) else None }

  function FileAt(tree: Tree, p: Path): Option<File>
    decreases |tree|
  {
    if tree == [] then None
    else if tree[|tree| - 1].path == p then Some(tree[|tree| - 1])
    else FileAt(tree[..|tree| - 1], p)
  }

  /** The document a tree's file at p stands for, if any. */
  function DocAt(env: Env, tree: Tree, p: Path): Option<Doc> {
    match FileAt(tree, p)
    case None => None
    case Some(f) => if env.parse(f).Some? then Some(DocFor(env.parse(f).value)) else None
  }

  lemma {:induction false} FileAtPath(tree: Tree, p: Path)
    ensures FileAt(tree, p).Some? ==> FileAt(tree, p).value.path == p && FileAt(tree, p).value in tree
    decreases |tree|
  {
    if tree != [] && tree[|tree| - 1].path != p {
      FileAtPath(tree[..|tree| - 1], p);
    }
  }

  /** Indexing a loaded tree gives each path exactly the document its file stands for. */
  lemma {:induction false} IndexIsDocs(env: Env, tree: Tree, p: Path)
    requires Sane(env) && DistinctPaths(tree)
    ensures Get(IndexOf(Load(env, tree)), p) == DocAt(env, tree, p)
    decreases |tree|
  {
    if tree != [] {
      var init, f := tree[..|tree| - 1], tree[|tree| - 1];
      IndexIsDocs(env, init, p);
      assert !Misfiled(env, f);
      if env.parse(f).Some? {
        var entries := Load(env, tree);
        assert entries[..|entries| - 1] == Load(env, init);
      } else if f.path == p {
        NotInPrefix(tree, p);
      }
    }
  }

  lemma NotInPrefix(tree: Tree, p: Path)
    requires tree != [] && DistinctPaths(tree) && tree[|tree| - 1].path == p
    ensures FileAt(tree[..|tree| - 1], p) == None
  {
    FileAtPath(tree[..|tree| - 1], p);
  }

  // ---- The delta --------------------------------------------------------------------------

  datatype Change = Change(from: Option<Path>, to: Option<Path>)

  datatype Delta = Delta(changed: seq<Path>, removed: seq<Path>)

  function RemoveAll(idx: map<Path, Doc>, ps: seq<Path>): map<Path, Doc>
    decreases |ps|
  {
    if ps == [] then idx else RemoveAll(idx, ps[..|ps| - 1]) - {ps[|ps| - 1]}
  }

  /** Each changed path becomes its document in `goal`, or nothing when it no longer loads. */
  function ChangeAll(idx: map<Path, Doc>, goal: map<Path, Doc>, ps: seq<Path>): map<Path, Doc>
    decreases |ps|
  {
    if ps == [] then idx else
    var (done, p) := (ChangeAll(idx, goal, ps[..|ps| - 1]), ps[|ps| - 1]);
    if p in goal then done[p := goal[p]] else done - {p}
  }

  function Size(delta: Delta): nat { |delta.removed| + |delta.changed| }

  /** The index after the first k operations: the removals come before the changes. */
  function Applied(idx: map<Path, Doc>, goal: map<Path, Doc>, delta: Delta, k: nat): map<Path, Doc>
    requires k <= Size(delta)
  {
    if k <= |delta.removed| then RemoveAll(idx, delta.removed[..k])
    else ChangeAll(RemoveAll(idx, delta.removed), goal, delta.changed[..k - |delta.removed|])
  }

  /** What a diff of two trees must name for an incremental update to be enough. */
  ghost predicate Covers(from: Tree, to: Tree, delta: Delta) {
    && (forall p :: FileAt(from, p) != FileAt(to, p) ==> p in delta.changed || p in delta.removed)
    && (forall p :: p in delta.removed && p !in delta.changed ==> FileAt(to, p) == None)
  }

  ghost predicate NamesTo(changes: seq<Change>, p: Path) { exists i :: 0 <= i < |changes| && changes[i].to == Some(p) }

  ghost predicate NamesFrom(changes: seq<Change>, p: Path) {
    exists i :: 0 <= i < |changes| && changes[i].from == Some(p) && changes[i].to != Some(p)
  }

  /** The changes between two trees: every differing path is named, and a path named only as a source is
      gone. A rename names its source and its destination. */
  ghost predicate TrueDiff(from: Tree, to: Tree, changes: seq<Change>) {
    && (forall p :: FileAt(from, p) != FileAt(to, p) ==> NamesTo(changes, p) || NamesFrom(changes, p))
    && (forall p :: NamesFrom(changes, p) && !NamesTo(changes, p) ==> FileAt(to, p) == None)
  }

  method DiffPaths(changes: seq<Change>) returns (d: Delta)
    ensures forall p :: p in d.changed <==> NamesTo(changes, p)
    ensures forall p :: p in d.removed <==> NamesFrom(changes, p)
    ensures d == DeltaOf(changes)
  {
    d := Delta([], []);
    for i := 0 to |changes|
      invariant d == DeltaOf(changes[..i])
    {
      var ch := changes[i];
      assert changes[..i + 1][..i] == changes[..i];
      if ch.to.Some? { d := d.(changed := d.changed + [ch.to.value]); }
      if ch.from.Some? && ch.from != ch.to { d := d.(removed := d.removed + [ch.from.value]); }
    }
    assert changes[..|changes|] == changes;
    forall p ensures (p in d.changed <==> NamesTo(changes, p)) && (p in d.removed <==> NamesFrom(changes, p)) {
      DeltaNames(changes, p);
    }
  }

  function DeltaOf(changes: seq<Change>): Delta
    decreases |changes|
  {
    if changes == [] then Delta([], []) else
    var (d, ch) := (DeltaOf(changes[..|changes| - 1]), changes[|changes| - 1]);
    Delta(if ch.to.Some? then d.changed + [ch.to.value] else d.changed,
          if ch.from.Some? && ch.from != ch.to then d.removed + [ch.from.value] else d.removed)
  }

  lemma {:induction false} DeltaNames(changes: seq<Change>, p: Path)
    ensures p in DeltaOf(changes).changed <==> NamesTo(changes, p)
    ensures p in DeltaOf(changes).removed <==> NamesFrom(changes, p)
    decreases |changes|
  {
    if changes != [] {
      var init, ch := changes[..|changes| - 1], changes[|changes| - 1];
      DeltaNames(init, p);
      assert forall i :: 0 <= i < |init| ==> init[i] == changes[i];
      if NamesTo(changes, p) && ch.to != Some(p) {
        var i :| 0 <= i < |changes| && changes[i].to == Some(p);
        assert init[i].to == Some(p);
      }
      if NamesFrom(changes, p) && !(ch.from == Some(p) && ch.to != Some(p)) {
        var i :| 0 <= i < |changes| && changes[i].from == Some(p) && changes[i].to != Some(p);
        assert init[i].from == Some(p);
      }
    }
  }

  lemma TrueDiffCovers(from: Tree, to: Tree, changes: seq<Change>)
    requires TrueDiff(from, to, changes)
    ensures Covers(from, to, DeltaOf(changes))
  {
    forall p
      ensures p in DeltaOf(changes).changed <==> NamesTo(changes, p)
      ensures p in DeltaOf(changes).removed <==> NamesFrom(changes, p)
    {
      DeltaNames(changes, p);
    }
  }

  // ---- Incremental update refines a rebuild ---------------------------------------------------

  lemma {:induction false} RemoveAllAt(idx: map<Path, Doc>, ps: seq<Path>, p: Path)
    ensures Get(RemoveAll(idx, ps), p) == if p in ps then None else Get(idx, p)
    decreases |ps|
  {
    if ps != [] {
      assert ps == ps[..|ps| - 1] + [ps[|ps| - 1]];
      RemoveAllAt(idx, ps[..|ps| - 1], p);
    }
  }

  lemma {:induction false} ChangeAllAt(idx: map<Path, Doc>, goal: map<Path, Doc>, ps: seq<Path>, p: Path)
    ensures Get(ChangeAll(idx, goal, ps), p) == if p in ps then Get(goal, p) else Get(idx, p)
    decreases |ps|
  {
    if ps != [] {
      assert ps == ps[..|ps| - 1] + [ps[|ps| - 1]];
      ChangeAllAt(idx, goal, ps[..|ps| - 1], p);
    }
  }

  lemma SameMap(m: map<Path, Doc>, n: map<Path, Doc>)
    requires forall p :: Get(m, p) == Get(n, p)
    ensures m == n
  {
    forall p ensures (p in m <==> p in n) && (p in m && p in n ==> m[p] == n[p]) {
      assert Get(m, p) == Get(n, p);
    }
  }

  function Rebuilt(env: Env, tree: Tree): map<Path, Doc> { IndexOf(Load(env, tree)) }

  /** The paths the first k operations name. */
  function Touched(delta: Delta, k: nat): seq<Path>
    requires k <= Size(delta)
  {
    if k <= |delta.removed| then delta.removed[..k]
    else delta.removed + delta.changed[..k - |delta.removed|]
  }

  /** What the first k operations leave at a path they name: its new document once its change was reached,
      nothing while only its removal was. */
  function Landed(env: Env, to: Tree, delta: Delta, k: nat, p: Path): Option<Doc>
    requires k <= Size(delta)
  {
    if k > |delta.removed| && p in delta.changed[..k - |delta.removed|] then DocAt(env, to, p) else None
  }

  /** The index after k operations, path by path, whatever the index was before. */
  lemma AppliedAt(env: Env, idx: map<Path, Doc>, to: Tree, delta: Delta, k: nat, p: Path)
    requires Sane(env) && DistinctPaths(to) && k <= Size(delta)
    ensures Get(Applied(idx, Rebuilt(env, to), delta, k), p) ==
            if p in Touched(delta, k) then Landed(env, to, delta, k, p) else Get(idx, p)
  {
    var goal, n := Rebuilt(env, to), |delta.removed|;
    if k <= n {
      RemoveAllAt(idx, delta.removed[..k], p);
    } else {
      RemoveAllAt(idx, delta.removed, p);
      ChangeAllAt(RemoveAll(idx, delta.removed), goal, delta.changed[..k - n], p);
      IndexIsDocs(env, to, p);
    }
  }

  /** All operations applied: every named path is right, every other path is untouched. */
  lemma AppliedInFull(env: Env, idx: map<Path, Doc>, from: Tree, to: Tree, delta: Delta, p: Path)
    requires Sane(env) && DistinctPaths(to) && Covers(from, to, delta)
    ensures Get(Applied(idx, Rebuilt(env, to), delta, Size(delta)), p) ==
            if p in delta.removed || p in delta.changed then DocAt(env, to, p) else Get(idx, p)
  {
    AppliedAt(env, idx, to, delta, Size(delta), p);
    assert delta.removed[..|delta.removed|] == delta.removed && delta.changed[..|delta.changed|] == delta.changed;
  }

  /** The heart of the incremental reload: mutating the index of one tree by a delta that covers the
      differences gives exactly the index a full rebuild of the other tree gives. */
  lemma DeltaRefinesRebuild(env: Env, from: Tree, to: Tree, delta: Delta)
    requires Sane(env) && DistinctPaths(from) && DistinctPaths(to) && Covers(from, to, delta)
    ensures Applied(Rebuilt(env, from), Rebuilt(env, to), delta, Size(delta)) == Rebuilt(env, to)
  {
    var idx, goal := Rebuilt(env, from), Rebuilt(env, to);
    forall p ensures Get(Applied(idx, goal, delta, Size(delta)), p) == Get(goal, p) {
      AppliedInFull(env, idx, from, to, delta, p);
      IndexIsDocs(env, from, p);
      IndexIsDocs(env, to, p);
    }
    SameMap(Applied(idx, goal, delta, Size(delta)), goal);
  }

  /** A mutation cut short after k operations leaves the index of the old tree exactly when each path it
      reached still holds its old document. */
  lemma PartialKeepsIff(env: Env, from: Tree, to: Tree, delta: Delta, k: nat)
    requires Sane(env) && DistinctPaths(from) && DistinctPaths(to) && k <= Size(delta)
    ensures Applied(Rebuilt(env, from), Rebuilt(env, to), delta, k) == Rebuilt(env, from) <==>
            forall p :: p in Touched(delta, k) ==> DocAt(env, from, p) == Landed(env, to, delta, k, p)
  {
    var idx, goal := Rebuilt(env, from), Rebuilt(env, to);
    var got := Applied(idx, goal, delta, k);
    forall p ensures Get(got, p) == if p in Touched(delta, k) then Landed(env, to, delta, k, p) else Get(idx, p)
             ensures Get(idx, p) == DocAt(env, from, p)
    {
      AppliedAt(env, idx, to, delta, k, p);
      IndexIsDocs(env, from, p);
    }
    if forall p :: p in Touched(delta, k) ==> DocAt(env, from, p) == Landed(env, to, delta, k, p) {
      SameMap(got, idx);
    }
  }
}
