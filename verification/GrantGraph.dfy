/** Delegation as a graph over a grant list, and what the two cascade loops compute on it. */
module GrantGraph {
  import opened Types
  import opened RunPolicies

  /** `child` names a grant delegated from `parent`; with `unrevokedOnly` the child must
      still be unrevoked, which is how the operator's revocation walks. */
  ghost predicate ChildOf(gs: seq<Grant>, unrevokedOnly: bool, parent: Id, child: Id) {
    exists k | 0 <= k < |gs| ::
      gs[k].id == child && gs[k].parent == Some(parent) && (unrevokedOnly ==> gs[k].Unrevoked())
  }

  ghost predicate IsPath(gs: seq<Grant>, unrevokedOnly: bool, path: seq<Id>) {
    |path| > 0 && forall i | 0 <= i < |path| - 1 :: ChildOf(gs, unrevokedOnly, path[i], path[i + 1])
  }

  /** Reflexive-transitive reachability. */
  ghost predicate Descends(gs: seq<Grant>, unrevokedOnly: bool, root: Id, id: Id) {
    exists path: seq<Id> :: IsPath(gs, unrevokedOnly, path) && path[0] == root && path[|path| - 1] == id
  }

  ghost predicate DescendsFromAny(gs: seq<Grant>, roots: set<Id>, id: Id) {
    exists root | root in roots :: Descends(gs, false, root, id)
  }

  lemma RootDescends(gs: seq<Grant>, unrevokedOnly: bool, root: Id)
    ensures Descends(gs, unrevokedOnly, root, root)
  {
    assert IsPath(gs, unrevokedOnly, [root]);
  }

  lemma ChildDescends(gs: seq<Grant>, unrevokedOnly: bool, root: Id, parent: Id, child: Id)
    requires Descends(gs, unrevokedOnly, root, parent)
    requires ChildOf(gs, unrevokedOnly, parent, child)
    ensures Descends(gs, unrevokedOnly, root, child)
  {
    var path :| IsPath(gs, unrevokedOnly, path) && path[0] == root && path[|path| - 1] == parent;
    assert IsPath(gs, unrevokedOnly, path + [child]);
  }

  ghost predicate ClosedUnder(gs: seq<Grant>, unrevokedOnly: bool, ids: set<Id>) {
    forall k | 0 <= k < |gs| ::
      gs[k].parent.Some? && gs[k].parent.value in ids && (unrevokedOnly ==> gs[k].Unrevoked()) ==> gs[k].id in ids
  }

  /** A closed set holding the root holds everything reachable from it. */
  lemma {:induction false} ClosedHoldsPath(gs: seq<Grant>, unrevokedOnly: bool, ids: set<Id>, path: seq<Id>)
    requires ClosedUnder(gs, unrevokedOnly, ids) && IsPath(gs, unrevokedOnly, path) && path[0] in ids
    ensures path[|path| - 1] in ids
  {
    if |path| > 1 {
      assert ChildOf(gs, unrevokedOnly, path[0], path[1]);
      assert path[1] in ids;
      forall i | 0 <= i < |path[1..]| - 1
        ensures ChildOf(gs, unrevokedOnly, path[1..][i], path[1..][i + 1])
      {
        assert ChildOf(gs, unrevokedOnly, path[i + 1], path[i + 2]);
      }
      ClosedHoldsPath(gs, unrevokedOnly, ids, path[1..]);
    }
  }

  lemma ClosedSetIsReachability(gs: seq<Grant>, unrevokedOnly: bool, root: Id, ids: set<Id>)
    requires root in ids && ClosedUnder(gs, unrevokedOnly, ids)
    requires forall id | id in ids :: Descends(gs, unrevokedOnly, root, id)
    ensures forall id :: id in ids <==> Descends(gs, unrevokedOnly, root, id)
  {
    forall id | Descends(gs, unrevokedOnly, root, id)
      ensures id in ids
    {
      var path :| IsPath(gs, unrevokedOnly, path) && path[0] == root && path[|path| - 1] == id;
      ClosedHoldsPath(gs, unrevokedOnly, ids, path);
    }
  }

  // --- Stamping ----------------------------------------------------------

  /** Revokes one grant unless an earlier revocation already stamped it. */
  function Stamp(g: Grant, at: Time, actor: Option<Id>): Grant {
    if g.Unrevoked() then g.(revokedAt := Some(at), revokedBy := actor) else g
  }

  function StampIf(g: Grant, ids: set<Id>, at: Time, actor: Option<Id>): Grant {
    if g.id in ids then Stamp(g, at, actor) else g
  }

  function StampAll(gs: seq<Grant>, ids: set<Id>, at: Time, actor: Option<Id>): (r: seq<Grant>)
    ensures |r| == |gs|
  {
    seq(|gs|, i requires 0 <= i < |gs| => StampIf(gs[i], ids, at, actor))
  }

  /** The grants a stamping pass changes, as they are afterwards, in list order. */
  function NewlyStamped(gs: seq<Grant>, ids: set<Id>, at: Time, actor: Option<Id>): (r: seq<Grant>)
    ensures forall g :: g in r ==> exists h :: h in gs && h.id in ids && h.Unrevoked() && g == Stamp(h, at, actor)
    ensures forall h :: h in gs && h.id in ids && h.Unrevoked() ==> Stamp(h, at, actor) in r
  {
    if gs == [] then []
    else
      var rest := NewlyStamped(gs[1..], ids, at, actor);
      if gs[0].id in ids && gs[0].Unrevoked() then [Stamp(gs[0], at, actor)] + rest else rest
  }

  ghost predicate UniqueIds(gs: seq<Grant>) {
    forall i, j | 0 <= i < j < |gs| :: gs[i].id != gs[j].id
  }

  ghost predicate NoDuplicates<T>(s: seq<T>) {
    forall i, j | 0 <= i < j < |s| :: s[i] != s[j]
  }

  function GrantIds(gs: seq<Grant>): (r: seq<Id>)
    ensures |r| == |gs|
    ensures forall i | 0 <= i < |gs| :: r[i] == gs[i].id
  {
    seq(|gs|, i requires 0 <= i < |gs| => gs[i].id)
  }

  lemma {:induction false} NewlyStampedUnique(gs: seq<Grant>, ids: set<Id>, at: Time, actor: Option<Id>)
    requires UniqueIds(gs)
    ensures UniqueIds(NewlyStamped(gs, ids, at, actor))
  {
    if gs != [] {
      NewlyStampedUnique(gs[1..], ids, at, actor);
      var rest := NewlyStamped(gs[1..], ids, at, actor);
      forall g | g in rest
        ensures g.id != gs[0].id
      {
        var h :| h in gs[1..] && g == Stamp(h, at, actor);
        var j :| 0 <= j < |gs[1..]| && gs[1..][j] == h;
        assert gs[j + 1] == h;
      }
    }
  }

  lemma {:induction false} NewlyStampedSnoc(gs: seq<Grant>, g: Grant, ids: set<Id>, at: Time, actor: Option<Id>)
    ensures NewlyStamped(gs + [g], ids, at, actor) ==
            NewlyStamped(gs, ids, at, actor) + (if g.id in ids && g.Unrevoked() then [Stamp(g, at, actor)] else [])
  {
    if gs == [] {
      assert gs + [g] == [g];
    } else {
      assert (gs + [g])[1..] == gs[1..] + [g];
      NewlyStampedSnoc(gs[1..], g, ids, at, actor);
    }
  }

  /** Reachability over all grants depends on identities and parent links alone, which
      stamping does not touch. */
  lemma SameLinksSamePaths(gs: seq<Grant>, hs: seq<Grant>, root: Id, id: Id)
    requires |gs| == |hs|
    requires forall k | 0 <= k < |gs| :: gs[k].id == hs[k].id && gs[k].parent == hs[k].parent
    ensures Descends(gs, false, root, id) ==> Descends(hs, false, root, id)
  {
    if Descends(gs, false, root, id) {
      var path :| IsPath(gs, false, path) && path[0] == root && path[|path| - 1] == id;
      forall i | 0 <= i < |path| - 1
        ensures ChildOf(hs, false, path[i], path[i + 1])
      {
        assert ChildOf(gs, false, path[i], path[i + 1]);
        var k :| 0 <= k < |gs| && gs[k].id == path[i + 1] && gs[k].parent == Some(path[i]);
        assert hs[k].id == path[i + 1];
      }
      assert IsPath(hs, false, path);
    }
  }

  // --- The two cascades agree --------------------------------------------

  /** A revoked grant has only revoked children. */
  ghost predicate RevokedDownward(gs: seq<Grant>) {
    forall i, j | 0 <= i < |gs| && 0 <= j < |gs| ::
      gs[i].parent == Some(gs[j].id) && gs[j].revokedAt.Some? ==> gs[i].revokedAt.Some?
  }

  /** Walking back from an unrevoked grant never meets a revoked one. */
  lemma {:induction false} UnrevokedPath(gs: seq<Grant>, path: seq<Id>, i: nat)
    requires UniqueIds(gs) && RevokedDownward(gs)
    requires IsPath(gs, false, path) && i < |gs| && gs[i].id == path[|path| - 1] && gs[i].Unrevoked()
    ensures IsPath(gs, true, path)
  {
    var n := |path|;
    if n > 1 {
      assert ChildOf(gs, false, path[n - 2], path[n - 1]);
      var k :| 0 <= k < |gs| && gs[k].id == path[n - 1] && gs[k].parent == Some(path[n - 2]);
      assert k == i;
      assert ChildOf(gs, true, path[n - 2], path[n - 1]);
      var front := path[..n - 1];
      if n > 2 {
        assert ChildOf(gs, false, path[n - 3], path[n - 2]);
        var j :| 0 <= j < |gs| && gs[j].id == path[n - 2];
        assert gs[j].Unrevoked();
        assert IsPath(gs, false, front);
        UnrevokedPath(gs, front, j);
        forall m | 0 <= m < n - 1
          ensures ChildOf(gs, true, path[m], path[m + 1])
        {
          if m < n - 2 {
            assert ChildOf(gs, true, front[m], front[m + 1]);
          }
        }
      }
    }
  }

  /** In a store where revocation is already closed downward, the walk over unrevoked grants
      and the walk over all grants reach the same unrevoked grants. */
  lemma CascadesAgree(gs: seq<Grant>, root: Id, i: nat)
    requires UniqueIds(gs) && RevokedDownward(gs) && i < |gs| && gs[i].Unrevoked()
    ensures Descends(gs, true, root, gs[i].id) <==> Descends(gs, false, root, gs[i].id)
  {
    if Descends(gs, false, root, gs[i].id) {
      var path :| IsPath(gs, false, path) && path[0] == root && path[|path| - 1] == gs[i].id;
      UnrevokedPath(gs, path, i);
    }
    if Descends(gs, true, root, gs[i].id) {
      var path :| IsPath(gs, true, path) && path[0] == root && path[|path| - 1] == gs[i].id;
      forall m | 0 <= m < |path| - 1
        ensures ChildOf(gs, false, path[m], path[m + 1])
      {
        assert ChildOf(gs, true, path[m], path[m + 1]);
      }
      assert IsPath(gs, false, path);
    }
  }

  /** Without that closure they differ: below a grant revoked on its own, only the cascade
      over all grants still reaches the orphan. */
  lemma CascadesDisagreeUnclosed()
    ensures exists gs: seq<Grant> ::
              && UniqueIds(gs) && !RevokedDownward(gs) && |gs| == 3 && gs[2].Unrevoked()
              && Descends(gs, false, 0, 2) && !Descends(gs, true, 0, 2)
  {
    var s := Shape(ResourceRead, "res-a", None);
    var g0 := Grant(0, 10, 1, s, 0, None, None, None);
    var g1 := Grant(1, 11, 10, s, 0, Some(5), None, Some(0));
    var g2 := Grant(2, 12, 11, s, 0, None, None, Some(1));
    var gs := [g0, g1, g2];
    assert gs[1].id == 1 && gs[2].id == 2;
    assert ChildOf(gs, false, 0, 1) && ChildOf(gs, false, 1, 2);
    var path: seq<Id> := [0, 1, 2];
    assert IsPath(gs, false, path);
    assert path[0] == 0 && path[|path| - 1] == 2;
    if Descends(gs, true, 0, 2) {
      var p :| IsPath(gs, true, p) && p[0] == 0 && p[|p| - 1] == 2;
      ClosedHoldsPath(gs, true, {0}, p);
      assert false;
    }
    assert gs[2].parent == Some(gs[1].id);
  }
}
