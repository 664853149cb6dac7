/**
 * The roster of a run as a function of its roots and of the admissions in force, in order:
 * whose ids are told apart, how children are counted, and how deep they stand.
 */
module Rosters {
  import opened Wrappers
  import opened Sums
  import opened Participants
  import opened Receipts
  import opened Controller

  function RosterOf(roots: map<Id, Participant>, adm: seq<Admission>): map<Id, Participant> {
    if adm == [] then roots
    else RosterOf(roots, adm[..|adm| - 1])[adm[|adm| - 1].child.id := adm[|adm| - 1].child]
  }

  function Contexts(roots: map<Id, Participant>, adm: seq<Admission>): map<Id, seq<string>> {
    if adm == [] then map p | p in roots :: []
    else Contexts(roots, adm[..|adm| - 1])[adm[|adm| - 1].child.id := adm[|adm| - 1].context]
  }

  /** A root has no context and no grant of its own. */
  function RootSnapshot(p: Participant): Snapshot { Snapshot(p, [], 0) }

  function Snapshots(roots: map<Id, Participant>, adm: seq<Admission>): map<Id, Snapshot> {
    if adm == [] then map p | p in roots :: RootSnapshot(roots[p])
    else
      var a := adm[|adm| - 1];
      Snapshots(roots, adm[..|adm| - 1])[a.child.id := Snapshot(a.child, a.context, a.budget)]
  }

  function Granted(adm: seq<Admission>): nat {
    if adm == [] then 0 else Granted(adm[..|adm| - 1]) + adm[|adm| - 1].budget
  }

  function OfParent(parent: Id): Admission -> bool { (a: Admission) => a.child.parent == Some(parent) }

  ghost predicate RootsSound(roots: map<Id, Participant>) {
    forall p :: p in roots ==> roots[p].id == p && roots[p].parent.None? && SlashFree(p)
  }

  /** The i-th admission is the next child of its parent. */
  ghost predicate Genuine(adm: seq<Admission>, i: nat)
    requires i < |adm|
  {
    var a := adm[i];
    && a.child.parent.Some? && SlashFree(a.role)
    && a.child.id == ChildId(a.child.parent.value, a.role, a.ordinal)
    && a.ordinal == Count(OfParent(a.child.parent.value), adm[..i]) + 1
  }

  ghost predicate AllGenuine(adm: seq<Admission>) {
    forall i :: 0 <= i < |adm| ==> Genuine(adm, i)
  }

  predicate Admits(adm: seq<Admission>, id: Id) { exists i :: 0 <= i < |adm| && adm[i].child.id == id }

  lemma {:induction false} RosterKeys(roots: map<Id, Participant>, adm: seq<Admission>, id: Id)
    ensures id in RosterOf(roots, adm) <==> id in roots || Admits(adm, id)
    ensures Contexts(roots, adm).Keys == RosterOf(roots, adm).Keys
    ensures id !in RosterOf(roots, adm) ==> !Admits(adm, id)
  {
    if adm != [] {
      var front := adm[..|adm| - 1];
      RosterKeys(roots, front, id);
      if Admits(front, id) {
        var i :| 0 <= i < |front| && front[i].child.id == id;
        assert adm[i].child.id == id;
      }
    }
  }

  lemma GenuinePrefix(adm: seq<Admission>, n: nat)
    requires AllGenuine(adm) && n <= |adm|
    ensures AllGenuine(adm[..n])
  {
    forall i | 0 <= i < n ensures Genuine(adm[..n], i) {
      assert Genuine(adm, i);
      assert adm[..n][..i] == adm[..i];
    }
  }

  lemma ChildHasSlash(parent: Id, role: Id, ordinal: nat)
    ensures !SlashFree(ChildId(parent, role, ordinal))
  {
    assert ChildId(parent, role, ordinal)[|parent|] == '/';
  }

  /** An admission's id is not the one the next child of any parent will get. */
  lemma {:induction false} NextIdUnused(adm: seq<Admission>, parent: Id, role: Id, j: nat)
    requires AllGenuine(adm) && SlashFree(role) && j < |adm|
    ensures adm[j].child.id != ChildId(parent, role, Count(OfParent(parent), adm) + 1)
  {
    var a, n := adm[j], Count(OfParent(parent), adm) + 1;
    assert Genuine(adm, j);
    if a.child.id == ChildId(parent, role, n) {
      ChildIdInjective(a.child.parent.value, a.role, a.ordinal, parent, role, n);
      assert adm == adm[..j] + adm[j..];
      CountConcat(OfParent(parent), adm[..j], adm[j..]);
      assert false;
    }
  }

  /** No admission takes an id that is already there. */
  lemma {:induction false} FreshId(roots: map<Id, Participant>, adm: seq<Admission>, parent: Id, role: Id)
    requires RootsSound(roots) && AllGenuine(adm) && SlashFree(role)
    ensures ChildId(parent, role, Count(OfParent(parent), adm) + 1) !in RosterOf(roots, adm)
  {
    var n := Count(OfParent(parent), adm) + 1;
    RosterKeys(roots, adm, ChildId(parent, role, n));
    ChildHasSlash(parent, role, n);
    forall j | 0 <= j < |adm| ensures adm[j].child.id != ChildId(parent, role, n) {
      NextIdUnused(adm, parent, role, j);
    }
  }

  /** The last admission's id was new. */
  lemma LastIsFresh(roots: map<Id, Participant>, adm: seq<Admission>)
    requires RootsSound(roots) && AllGenuine(adm) && adm != []
    ensures adm[|adm| - 1].child.id !in RosterOf(roots, adm[..|adm| - 1])
    ensures AllGenuine(adm[..|adm| - 1])
  {
    var a := adm[|adm| - 1];
    assert Genuine(adm, |adm| - 1);
    GenuinePrefix(adm, |adm| - 1);
    FreshId(roots, adm[..|adm| - 1], a.child.parent.value, a.role);
  }

  // ---- Children counted in the roster and in the admissions ---------------------------

  lemma {:induction false} RosterCounts(roots: map<Id, Participant>, adm: seq<Admission>, q: Id)
    requires RootsSound(roots) && AllGenuine(adm)
    ensures |ChildrenOf(RosterOf(roots, adm), q)| == Count(OfParent(q), adm)
    ensures |Dynamic(RosterOf(roots, adm))| == |adm|
    ensures |RosterOf(roots, adm)| == |roots| + |adm|
  {
    if adm == [] {
      assert ChildrenOf(roots, q) == {} && Dynamic(roots) == {};
    } else {
      var front, a := adm[..|adm| - 1], adm[|adm| - 1];
      assert Genuine(adm, |adm| - 1);
      LastIsFresh(roots, adm);
      RosterCounts(roots, front, q);
      ChildrenOneMore(RosterOf(roots, front), a.child.id, a.child, q);
      DynamicOneMore(RosterOf(roots, front), a.child.id, a.child);
      CountAppend(OfParent(q), front, a);
      assert adm == front + [a];
    }
  }

  /** Every entry stands under its own id, one level below its parent, whether that is there or not. */
  lemma {:induction false} RosterLevels(roots: map<Id, Participant>, adm: seq<Admission>)
    requires RootsSound(roots) && AllGenuine(adm)
    ensures Descending(RosterOf(roots, adm)) && Levelled(RosterOf(roots, adm))
  {
    if adm == [] {
      forall p | p in roots ensures Placed(roots, p) && LevelAt(roots, p) { NoSlashes(p); }
    } else {
      var front, a := adm[..|adm| - 1], adm[|adm| - 1];
      GenuinePrefix(adm, |adm| - 1);
      RosterLevels(roots, front);
      assert Genuine(adm, |adm| - 1);
      ChildSlashes(a.child.parent.value, a.role, a.ordinal);
      var before, after := RosterOf(roots, front), RosterOf(roots, adm);
      forall p | p in after ensures Placed(after, p) && LevelAt(after, p) {
        if p != a.child.id { assert Placed(before, p) && LevelAt(before, p); }
      }
    }
  }

  /** An admitted child stands in the roster as it was admitted. */
  lemma {:induction false} AdmittedEntry(roots: map<Id, Participant>, adm: seq<Admission>, i: nat)
    requires RootsSound(roots) && AllGenuine(adm) && i < |adm|
    ensures adm[i].child.id in RosterOf(roots, adm) && RosterOf(roots, adm)[adm[i].child.id] == adm[i].child
  {
    if i < |adm| - 1 {
      LastIsFresh(roots, adm);
      AdmittedEntry(roots, adm[..|adm| - 1], i);
    }
  }

  /** Whoever has a parent was admitted. */
  lemma {:induction false} ParentedIsAdmitted(roots: map<Id, Participant>, adm: seq<Admission>, p: Id) returns (i: nat)
    requires RootsSound(roots) && p in RosterOf(roots, adm) && RosterOf(roots, adm)[p].parent.Some?
    ensures i < |adm| && adm[i].child == RosterOf(roots, adm)[p]
  {
    if adm != [] && adm[|adm| - 1].child.id == p {
      i := |adm| - 1;
    } else {
      i := ParentedIsAdmitted(roots, adm[..|adm| - 1], p);
    }
  }

  /** The parent of the i-th admission is a root, or admitted itself. */
  predicate ParentThere(roots: map<Id, Participant>, adm: seq<Admission>, i: nat)
    requires i < |adm|
  {
    adm[i].child.parent.Some? ==>
      adm[i].child.parent.value in roots || Admits(adm, adm[i].child.parent.value)
  }

  /** Nobody's parent is missing exactly when every admission's parent is a root or admitted. */
  lemma RosterRooted(roots: map<Id, Participant>, adm: seq<Admission>)
    requires RootsSound(roots) && AllGenuine(adm)
    ensures Rooted(RosterOf(roots, adm)) <==> forall i :: 0 <= i < |adm| ==> ParentThere(roots, adm, i)
  {
    var roster := RosterOf(roots, adm);
    forall i | 0 <= i < |adm| && Rooted(roster) ensures ParentThere(roots, adm, i) {
      AdmittedEntry(roots, adm, i);
      if adm[i].child.parent.Some? { RosterKeys(roots, adm, adm[i].child.parent.value); }
    }
    if forall i :: 0 <= i < |adm| ==> ParentThere(roots, adm, i) {
      forall p | p in roster && roster[p].parent.Some? ensures roster[p].parent.value in roster {
        var i := ParentedIsAdmitted(roots, adm, p);
        assert ParentThere(roots, adm, i);
        RosterKeys(roots, adm, roster[p].parent.value);
      }
    }
  }

  // ---- Growing and cutting back --------------------------------------------------------

  lemma {:induction false} RosterGrows(a: map<Id, Participant>, b: map<Id, Participant>, adm: seq<Admission>)
    requires Within(a, b)
    ensures Within(RosterOf(a, adm), RosterOf(b, adm))
  {
    if adm != [] { RosterGrows(a, b, adm[..|adm| - 1]); }
  }

  lemma {:induction false} PrefixWithin(roots: map<Id, Participant>, adm: seq<Admission>, n: nat)
    requires RootsSound(roots) && AllGenuine(adm) && n <= |adm|
    ensures Within(RosterOf(roots, adm[..n]), RosterOf(roots, adm))
    ensures Granted(adm[..n]) <= Granted(adm)
  {
    if n == |adm| {
      assert adm[..n] == adm;
    } else {
      LastIsFresh(roots, adm);
      PrefixWithin(roots, adm[..|adm| - 1], n);
      assert adm[..|adm| - 1][..n] == adm[..n];
    }
  }

  lemma {:induction false} SnapshotsJoin(roots: map<Id, Participant>, adm: seq<Admission>, p: Participant)
    requires AllGenuine(adm) && SlashFree(p.id)
    ensures Snapshots(roots[p.id := p], adm) == Snapshots(roots, adm)[p.id := Snapshot(p, [], 0)]
  {
    if adm != [] {
      GenuinePrefix(adm, |adm| - 1);
      SnapshotsJoin(roots, adm[..|adm| - 1], p);
      var a := adm[|adm| - 1];
      assert Genuine(adm, |adm| - 1);
      ChildHasSlash(a.child.parent.value, a.role, a.ordinal);
    }
  }

  lemma {:induction false} SnapshotsAre(roots: map<Id, Participant>, adm: seq<Admission>)
    ensures Snapshots(roots, adm).Keys == RosterOf(roots, adm).Keys == Contexts(roots, adm).Keys
    ensures forall p :: p in Snapshots(roots, adm) ==>
              Snapshots(roots, adm)[p].participant == RosterOf(roots, adm)[p]
              && Snapshots(roots, adm)[p].context == Contexts(roots, adm)[p]
  {
    if adm != [] { SnapshotsAre(roots, adm[..|adm| - 1]); }
  }

  lemma {:induction false} ContextsPrefix(roots: map<Id, Participant>, adm: seq<Admission>, n: nat, p: Id)
    requires RootsSound(roots) && AllGenuine(adm) && n <= |adm| && p in RosterOf(roots, adm[..n])
    ensures p in Contexts(roots, adm[..n]) && p in Contexts(roots, adm)
    ensures Contexts(roots, adm)[p] == Contexts(roots, adm[..n])[p]
  {
    RosterKeys(roots, adm[..n], p);
    if n == |adm| {
      assert adm[..n] == adm;
    } else {
      LastIsFresh(roots, adm);
      assert adm[..|adm| - 1][..n] == adm[..n];
      ContextsPrefix(roots, adm[..|adm| - 1], n, p);
      PrefixWithin(roots, adm[..|adm| - 1], n);
    }
  }

  lemma {:induction false} ContextsGrow(a: map<Id, Participant>, b: map<Id, Participant>, adm: seq<Admission>, p: Id)
    requires Within(a, b) && p in Contexts(a, adm)
    ensures p in Contexts(b, adm) && Contexts(b, adm)[p] == Contexts(a, adm)[p]
  {
    if adm != [] && p != adm[|adm| - 1].child.id { ContextsGrow(a, b, adm[..|adm| - 1], p); }
  }

  lemma {:induction false} GrantedSplits(adm: seq<Admission>, n: nat)
    requires n <= |adm|
    ensures Granted(adm) == Granted(adm[..n]) + Granted(adm[n..])
  {
    if n == |adm| {
      assert adm[..n] == adm;
    } else {
      assert adm[..|adm| - 1][..n] == adm[..n];
      assert adm[..|adm| - 1][n..] == adm[n..][..|adm[n..]| - 1];
      GrantedSplits(adm[..|adm| - 1], n);
    }
  }

  lemma AdmittedHasSlash(adm: seq<Admission>, p: Id)
    requires AllGenuine(adm) && Admits(adm, p)
    ensures !SlashFree(p)
  {
    var i :| 0 <= i < |adm| && adm[i].child.id == p;
    assert Genuine(adm, i);
    ChildHasSlash(adm[i].child.parent.value, adm[i].role, adm[i].ordinal);
  }

  /** An id admitted among the first n is not admitted again. */
  lemma AdmittedOnce(roots: map<Id, Participant>, adm: seq<Admission>, n: nat, i: nat)
    requires RootsSound(roots) && AllGenuine(adm) && n <= i < |adm|
    ensures adm[i].child.id !in RosterOf(roots, adm[..n])
  {
    GenuinePrefix(adm, i + 1);
    assert adm[..i + 1][..i] == adm[..i];
    LastIsFresh(roots, adm[..i + 1]);
    PrefixWithin(roots, adm[..i], n);
    assert adm[..i][..n] == adm[..n];
  }

  lemma SmallerRoster(a: map<Id, Participant>, b: map<Id, Participant>)
    requires Within(a, b)
    ensures |a| <= |b|
  {
    SubsetSize(a.Keys, b.Keys);
  }

  lemma {:induction false} SubsetSize(a: set<Id>, b: set<Id>)
    requires a <= b
    ensures |a| <= |b|
  {
    if a != {} {
      var x :| x in a;
      SubsetSize(a - {x}, b - {x});
    }
  }
}
