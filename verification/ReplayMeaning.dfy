/** What a replayed history of edits leaves of each file: its last edit decides, and every edit was made on what the one before left. */
module ReplayMeaning {
  import opened Wrappers
  import opened Replay

  /** The last of the changes that names the path. */
  predicate LastOf(changes: seq<Change>, p: Path, k: nat) {
    k < |changes| && changes[k].path == p && forall j :: k < j < |changes| ==> changes[j].path != p
  }

  predicate Names(changes: seq<Change>, p: Path) {
    exists k :: 0 <= k < |changes| && changes[k].path == p
  }

  predicate Deletes(changes: seq<Change>, p: Path) {
    exists k :: 0 <= k < |changes| && changes[k].path == p && changes[k].content.None?
  }

  /** The bytes of a file after the changes: those of its last edit, else those of the source. */
  ghost predicate Content(t: Tree, changes: seq<Change>, p: Path, bytes: Option<Bytes>) {
    if Names(changes, p) then exists k: nat :: LastOf(changes, p, k) && changes[k].content == bytes
    else bytes == if p in t then Some(t[p].bytes) else None
  }

  /** A file keeps the mode of the source as long as it is not deleted. */
  ghost predicate LeftAs(t: Tree, changes: seq<Change>, u: Tree, p: Path) {
    && Content(t, changes, p, if p in u then Some(u[p].bytes) else None)
    && (p in u ==> u[p].mode == if p in t && !Deletes(changes, p) then t[p].mode else DEFAULT_MODE)
  }

  /** The change was allowed, and expected what the changes before it had left. */
  ghost predicate Expected(t: Tree, changes: seq<Change>, valid: Path -> bool, k: nat)
    requires k < |changes|
  {
    valid(changes[k].path)
    && Content(t, changes[..k], changes[k].path, match changes[k].expectedHash case Some(Sha256(bytes)) => Some(bytes) case _ => None)
    && (changes[k].expectedHash.Some? ==> changes[k].expectedHash.value.Sha256?)
  }

  lemma NamedHasLast(changes: seq<Change>, p: Path) returns (k: nat)
    requires Names(changes, p)
    ensures LastOf(changes, p, k)
    decreases |changes|
  {
    var n := |changes| - 1;
    if changes[n].path == p {
      k := n;
    } else {
      var i :| 0 <= i < |changes| && changes[i].path == p;
      assert changes[..n][i].path == p;
      k := NamedHasLast(changes[..n], p);
      forall j | k < j < |changes| ensures changes[j].path != p { assert j < n ==> changes[..n][j] == changes[j]; }
    }
  }

  lemma OneMoreEdit(t: Tree, front: seq<Change>, last: Change, v: Tree, u: Tree, valid: Path -> bool, p: Path)
    requires LeftAs(t, front, v, p) && Apply(v, last, valid) == Some(u)
    ensures LeftAs(t, front + [last], u, p)
  {
    var changes, n := front + [last], |front|;
    assert forall k :: 0 <= k < n ==> changes[k] == front[k];
    if last.path == p {
      assert changes[n] == last && LastOf(changes, p, n) && Names(changes, p);
      assert Deletes(changes, p) <==> last.content.None? || Deletes(front, p);
      assert p in v ==> Deletes(front, p) || p !in t || v[p].mode == t[p].mode;
    } else {
      assert Names(changes, p) <==> Names(front, p);
      assert Deletes(changes, p) <==> Deletes(front, p);
      if Names(front, p) {
        var k: nat :| LastOf(front, p, k) && front[k].content == if p in v then Some(v[p].bytes) else None;
        assert LastOf(changes, p, k);
      }
    }
  }

  lemma NoEdits(t: Tree, p: Path)
    ensures LeftAs(t, [], t, p)
  {
  }

  /** After a replay each file holds what its last edit wrote, or is gone if that deleted it, or is as in the source. */
  lemma {:induction false} LastEditDecides(t: Tree, changes: seq<Change>, valid: Path -> bool, p: Path)
    requires ApplyAll(t, changes, valid).Some?
    ensures LeftAs(t, changes, ApplyAll(t, changes, valid).value, p)
    decreases |changes|
  {
    if changes == [] {
      NoEdits(t, p);
    } else {
      var front, last := changes[..|changes| - 1], changes[|changes| - 1];
      assert changes == front + [last];
      ApplyInTurn(t, front, [last], valid);
      LastEditDecides(t, front, valid, p);
      var v := ApplyAll(t, front, valid).value;
      LastOne(v, last, valid);
      hide ApplyAll, LeftAs;
      OneMoreEdit(t, front, last, v, ApplyAll(t, changes, valid).value, valid, p);
    }
  }

  lemma LastOne(v: Tree, last: Change, valid: Path -> bool)
    ensures ApplyAll(v, [last], valid) == Apply(v, last, valid)
  {
    assert [last][1..] == [];
  }

  lemma LastExpected(t: Tree, front: seq<Change>, last: Change, v: Tree, valid: Path -> bool)
    requires LeftAs(t, front, v, last.path)
    ensures Apply(v, last, valid).Some? <==> Expected(t, front + [last], valid, |front|)
  {
    var changes := front + [last];
    assert changes[..|front|] == front && changes[|front|] == last;
    var held := if last.path in v then Some(v[last.path].bytes) else None;
    forall bytes | Content(t, front, last.path, bytes) ensures bytes == held { OneContent(t, front, last.path, bytes, held); }
    hide Content;
  }

  lemma OneContent(t: Tree, changes: seq<Change>, p: Path, a: Option<Bytes>, b: Option<Bytes>)
    requires Content(t, changes, p, a) && Content(t, changes, p, b)
    ensures a == b
  {
    if Names(changes, p) {
      var i: nat :| LastOf(changes, p, i) && changes[i].content == a;
      var j: nat :| LastOf(changes, p, j) && changes[j].content == b;
      assert i == j;
    }
  }

  /** A history of edits replays exactly when each of them was allowed and expected what the ones before it had left. */
  lemma {:induction false} ReplaysExactly(t: Tree, changes: seq<Change>, valid: Path -> bool)
    ensures ApplyAll(t, changes, valid).Some? <==> forall k :: 0 <= k < |changes| ==> Expected(t, changes, valid, k)
    decreases |changes|
  {
    if changes != [] {
      var n := |changes| - 1;
      var front, last := changes[..n], changes[n];
      assert changes == front + [last];
      ReplaysExactly(t, front, valid);
      ApplyInTurn(t, front, [last], valid);
      forall k | 0 <= k < n ensures Expected(t, changes, valid, k) <==> Expected(t, front, valid, k) {
        assert changes[..k] == front[..k] && changes[k] == front[k];
      }
      if ApplyAll(t, front, valid).Some? {
        LastEditDecides(t, front, valid, last.path);
        LastExpected(t, front, last, ApplyAll(t, front, valid).value, valid);
        LastOne(ApplyAll(t, front, valid).value, last, valid);
      }
      hide ApplyAll, Expected, Apply, LeftAs;
    }
  }
}
