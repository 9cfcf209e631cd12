/**
  Replaying managed edits (execution-candidate.js): a candidate is accepted exactly when the source
  tree, changed by the recorded edits one after the other, is the candidate's tree.
*/
module Replay {
  import opened Wrappers

  type Bytes = seq<nat>
  type Path = string

  /** Digests are taken as injective, so an object name and a content hash both stand for the bytes they name. */
  datatype Digest = Blob(bytes: Bytes) | Sha256(bytes: Bytes)

  datatype Listing = Listing(path: Path, mode: string, size: nat, oid: Digest)
  datatype Change = Change(path: Path, expectedHash: Option<Digest>, content: Option<Bytes>)

  /** A tree of files, as a plain map. */
  datatype File = File(mode: string, bytes: Bytes)
  type Tree = map<Path, File>

  const DEFAULT_MODE := "100644"

  function Apply(t: Tree, c: Change, valid: Path -> bool): Option<Tree> {
    var before := if c.path in t then Some(Sha256(t[c.path].bytes)) else None;
    if !valid(c.path) || before != c.expectedHash then None
    else if c.content.None? then Some(t - {c.path})
    else Some(t[c.path := File(if c.path in t then t[c.path].mode else DEFAULT_MODE, c.content.value)])
  }

  function ApplyAll(t: Tree, changes: seq<Change>, valid: Path -> bool): Option<Tree>
    decreases |changes|
  {
    if changes == [] then Some(t)
    else
      var t' := Apply(t, changes[0], valid);
      if t'.None? then None else ApplyAll(t'.value, changes[1..], valid)
  }

  function Flatten(edits: seq<seq<Change>>): seq<Change> {
    if edits == [] then [] else edits[0] + Flatten(edits[1..])
  }

  lemma {:induction false} ApplyInTurn(t: Tree, a: seq<Change>, b: seq<Change>, valid: Path -> bool)
    ensures ApplyAll(t, a + b, valid) == if ApplyAll(t, a, valid).None? then None else ApplyAll(ApplyAll(t, a, valid).value, b, valid)
    decreases |a|
  {
    if a == [] {
      assert a + b == b;
    } else {
      assert (a + b)[1..] == a[1..] + b;
      var t' := Apply(t, a[0], valid);
      if t'.Some? { ApplyInTurn(t'.value, a[1..], b, valid); }
    }
  }

  // ---------- Listings of Git trees ----------

  /** What Git lists: every path once, with the size of its blob. */
  predicate Honest(files: seq<Listing>) {
    && (forall i :: 0 <= i < |files| ==> ListingOk(files[i]))
    && forall i, j :: 0 <= i < j < |files| ==> files[i].path != files[j].path
  }

  predicate ListingOk(f: Listing) {
    f.oid.Blob? && f.size == |f.oid.bytes|
  }

  predicate ListedAs(files: seq<Listing>, expected: map<Path, Listing>) {
    && (forall i :: 0 <= i < |files| ==> files[i].path in expected && expected[files[i].path] == files[i])
    && forall p :: p in expected ==> exists i :: 0 <= i < |files| && files[i].path == p
  }

  /** The tree that a listing by path stands for. */
  function TreeOf(listed: map<Path, Listing>): Tree {
    map p | p in listed :: File(listed[p].mode, listed[p].oid.bytes)
  }

  function ByPath(files: seq<Listing>): map<Path, Listing> {
    if files == [] then map[] else ByPath(files[..|files| - 1])[files[|files| - 1].path := files[|files| - 1]]
  }

  lemma {:induction false} ByPathLists(files: seq<Listing>)
    requires Honest(files)
    ensures ListedAs(files, ByPath(files))
    decreases |files|
  {
    if files != [] {
      var n := |files| - 1;
      var front := files[..n];
      ByPathLists(front);
      forall i | 0 <= i < |files| ensures files[i].path in ByPath(files) && ByPath(files)[files[i].path] == files[i] {
        if i < n { assert front[i] == files[i]; }
      }
      forall p | p in ByPath(files) ensures exists i :: 0 <= i < |files| && files[i].path == p {
        if p in ByPath(front) {
          var i :| 0 <= i < |front| && front[i].path == p;
          assert files[i].path == p;
        } else {
          assert files[n].path == p;
        }
      }
    }
  }

  // ---------- The check as the program makes it ----------

  /** `expected` with the bytes written by edits; a path without such bytes still has its source content. */
  ghost predicate Refines(source: map<Path, Listing>, expected: map<Path, Listing>, written: map<Path, Bytes>) {
    && (forall p :: p in expected ==> expected[p].path == p && ListingOk(expected[p]))
    && (forall p :: p in written ==> p in expected && expected[p].oid == Blob(written[p]))
    && (forall p :: p in expected && p !in written ==> p in source && source[p] == expected[p])
  }

  lemma Removed(source: map<Path, Listing>, expected: map<Path, Listing>, written: map<Path, Bytes>, path: Path)
    requires Refines(source, expected, written)
    ensures Refines(source, expected - {path}, written - {path}) && TreeOf(expected - {path}) == TreeOf(expected) - {path}
  {
  }

  lemma Replaced(source: map<Path, Listing>, expected: map<Path, Listing>, written: map<Path, Bytes>, path: Path, mode: string, bytes: Bytes)
    requires Refines(source, expected, written)
    ensures var listing := Listing(path, mode, |bytes|, Blob(bytes));
            Refines(source, expected[path := listing], written[path := bytes])
            && TreeOf(expected[path := listing]) == TreeOf(expected)[path := File(mode, bytes)]
  {
  }

  class Replayer {
    const source: map<Path, Listing>
    const valid: Path -> bool
    var expected: map<Path, Listing>
    var written: map<Path, Bytes>

    constructor (files: seq<Listing>, valid: Path -> bool)
      requires Honest(files)
      ensures Valid() && TreeOf(expected) == TreeOf(ByPath(files)) && this.valid == valid
    {
      this.valid := valid;
      source, expected, written := ByPath(files), ByPath(files), map[];
      new;
      ByPathLists(files);
      assert forall p :: p in expected ==> expected[p].path == p && ListingOk(expected[p]);
    }

    ghost predicate Valid()
      reads this
    {
      Refines(source, expected, written)
    }

    /** Reads a file of the source tree; Git returns the bytes that its object names. */
    function ReadSource(path: Path): Bytes
      requires path in source
    {
      source[path].oid.bytes
    }

    method Replay(change: Change) returns (ok: bool)
      requires Valid()
      modifies this
      ensures ok <==> Apply(old(TreeOf(expected)), change, valid).Some?
      ensures ok ==> Valid() && TreeOf(expected) == Apply(old(TreeOf(expected)), change, valid).value
    {
      if !valid(change.path) { return false; }
      var hash := None;
      if change.path in expected {
        var before := if change.path in written then written[change.path] else ReadSource(change.path);
        hash := Some(Sha256(before));
      }
      if hash != change.expectedHash { return false; }
      if change.content.None? {
        Removed(source, expected, written, change.path);
        expected, written := expected - {change.path}, written - {change.path};
      } else {
        var bytes := change.content.value;
        var mode := if change.path in expected then expected[change.path].mode else DEFAULT_MODE;
        Replaced(source, expected, written, change.path, mode, bytes);
        expected := expected[change.path := Listing(change.path, mode, |bytes|, Blob(bytes))];
        written := written[change.path := bytes];
      }
      return true;
    }

    method ReplayAll(edits: seq<seq<Change>>) returns (ok: bool)
      requires Valid()
      modifies this
      ensures ok <==> ApplyAll(old(TreeOf(expected)), Flatten(edits), valid).Some?
      ensures ok ==> Valid() && TreeOf(expected) == ApplyAll(old(TreeOf(expected)), Flatten(edits), valid).value
    {
      hide Apply, TreeOf;
      var i := 0;
      ghost var start := TreeOf(expected);
      while i < |edits|
        invariant 0 <= i <= |edits| && Valid()
        invariant ApplyAll(start, Flatten(edits), valid) == ApplyAll(TreeOf(expected), Flatten(edits[i..]), valid)
      {
        var edit, j := edits[i], 0;
        assert edits[i..][0] == edit && edits[i..][1..] == edits[i + 1..];
        while j < |edit|
          invariant 0 <= j <= |edit| && Valid()
          invariant ApplyAll(start, Flatten(edits), valid) == ApplyAll(TreeOf(expected), edit[j..] + Flatten(edits[i + 1..]), valid)
        {
          ghost var rest := edit[j..] + Flatten(edits[i + 1..]);
          assert rest[0] == edit[j] && rest[1..] == edit[j + 1..] + Flatten(edits[i + 1..]);
          ok := Replay(edit[j]);
          if !ok { return; }
          j := j + 1;
        }
        assert edit[j..] + Flatten(edits[i + 1..]) == Flatten(edits[i + 1..]);
        i := i + 1;
      }
      return true;
    }

    /** The final comparison: as many files, and each of them as expected. */
    method Matches(snapshot: seq<Listing>) returns (ok: bool)
      requires Valid() && Honest(snapshot)
      ensures ok <==> TreeOf(expected) == TreeOf(ByPath(snapshot))
    {
      var i := 0;
      while i < |snapshot|
        invariant 0 <= i <= |snapshot|
        invariant forall k :: 0 <= k < i ==> snapshot[k].path in expected && expected[snapshot[k].path] == snapshot[k]
      {
        var file := snapshot[i];
        if file.path !in expected || file != expected[file.path] {
          OneDiffers(snapshot, expected, i);
          return false;
        }
        i := i + 1;
      }
      ok := |snapshot| == |expected|;
      SameSize(snapshot, expected);
    }
  }

  lemma OneDiffers(snapshot: seq<Listing>, expected: map<Path, Listing>, i: nat)
    requires Honest(snapshot) && i < |snapshot| && forall p :: p in expected ==> expected[p].path == p && ListingOk(expected[p])
    requires snapshot[i].path !in expected || expected[snapshot[i].path] != snapshot[i]
    ensures TreeOf(expected) != TreeOf(ByPath(snapshot))
  {
    ByPathLists(snapshot);
    var p := snapshot[i].path;
    assert p in TreeOf(ByPath(snapshot)) && TreeOf(ByPath(snapshot))[p] == File(snapshot[i].mode, snapshot[i].oid.bytes);
    if p in expected { assert TreeOf(expected)[p] == File(expected[p].mode, expected[p].oid.bytes); }
  }

  function Paths(files: seq<Listing>): set<Path> {
    if files == [] then {} else Paths(files[..|files| - 1]) + {files[|files| - 1].path}
  }

  lemma {:induction false} PathIsListed(files: seq<Listing>, p: Path)
    ensures p in Paths(files) ==> exists i :: 0 <= i < |files| && files[i].path == p
    ensures p in Paths(files) <==> p in ByPath(files)
    decreases |files|
  {
    if files != [] {
      var front := files[..|files| - 1];
      PathIsListed(front, p);
      if p in Paths(front) {
        var i :| 0 <= i < |front| && front[i].path == p;
        assert files[i].path == p;
      } else {
        assert p in Paths(files) ==> files[|files| - 1].path == p;
      }
    }
  }

  lemma {:induction false} PathsCount(files: seq<Listing>)
    requires forall i, j :: 0 <= i < j < |files| ==> files[i].path != files[j].path
    ensures |Paths(files)| == |files|
    decreases |files|
  {
    if files != [] {
      var n := |files| - 1;
      var front := files[..n];
      PathsCount(front);
      PathIsListed(front, files[n].path);
      assert forall i :: 0 <= i < n ==> front[i].path == files[i].path;
      assert files[n].path !in Paths(front);
    }
  }

  lemma ListedPaths(files: seq<Listing>)
    requires Honest(files)
    ensures Paths(files) == ByPath(files).Keys && |Paths(files)| == |files|
  {
    PathsCount(files);
    forall p ensures p in Paths(files) <==> p in ByPath(files) { PathIsListed(files, p); }
  }

  /** Every listed file is as expected, so the trees are equal exactly when there are equally many files. */
  lemma SameSize(snapshot: seq<Listing>, expected: map<Path, Listing>)
    requires Honest(snapshot) && forall p :: p in expected ==> expected[p].path == p && ListingOk(expected[p])
    requires forall k :: 0 <= k < |snapshot| ==> snapshot[k].path in expected && expected[snapshot[k].path] == snapshot[k]
    ensures |snapshot| == |expected| <==> TreeOf(expected) == TreeOf(ByPath(snapshot))
  {
    var listed := ByPath(snapshot);
    ListedPaths(snapshot);
    ListedIsExpected(snapshot, expected);
    assert TreeOf(expected).Keys == expected.Keys && TreeOf(listed).Keys == listed.Keys;
    assert |expected| == |expected.Keys|;
    if |snapshot| == |expected| {
      SubsetOfSameSize(listed.Keys, expected.Keys);
      assert listed == expected;
    }
  }

  lemma ListedIsExpected(snapshot: seq<Listing>, expected: map<Path, Listing>)
    requires Honest(snapshot)
    requires forall k :: 0 <= k < |snapshot| ==> snapshot[k].path in expected && expected[snapshot[k].path] == snapshot[k]
    ensures forall p :: p in ByPath(snapshot) ==> p in expected && ByPath(snapshot)[p] == expected[p]
  {
    ByPathLists(snapshot);
    forall p | p in ByPath(snapshot) ensures p in expected && ByPath(snapshot)[p] == expected[p] {
      var i :| 0 <= i < |snapshot| && snapshot[i].path == p;
    }
  }

  lemma SubsetOfSameSize<T>(a: set<T>, b: set<T>)
    requires a <= b && |a| == |b|
    ensures a == b
  {
    assert |b - a| == |b| - |a|;
  }

  /** Success means exactly that the edits lead from the source tree to the candidate's tree. */
  method AssertManagedEdits(source: seq<Listing>, snapshot: seq<Listing>, edits: seq<seq<Change>>, valid: Path -> bool) returns (ok: bool)
    requires Honest(source) && Honest(snapshot)
    ensures ok <==> ApplyAll(TreeOf(ByPath(source)), Flatten(edits), valid) == Some(TreeOf(ByPath(snapshot)))
  {
    var replayer := new Replayer(source, valid);
    ok := replayer.ReplayAll(edits);
    if ok { ok := replayer.Matches(snapshot); }
  }
}
