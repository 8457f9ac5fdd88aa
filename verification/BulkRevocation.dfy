/** Bulk revocations by session and by capsule, in any number and order. */
module BulkRevocation {
  import opened LeaseTable
  import opened LeaseStores

  /** A revocation and the time at which it runs. */
  datatype Order = Order(target: Target, at: int)

  /** The table after the revocations, one after the other. */
  function After(rows: seq<Lease>, os: seq<Order>): seq<Lease>
    decreases |os|
  {
    if os == [] then rows else After(RevokeMany(rows, os[0].target, os[0].at), os[1..])
  }

  /** The sum of the counts they return. */
  ghost function Total(rows: seq<Lease>, os: seq<Order>): nat
    decreases |os|
  {
    if os == [] then 0
    else |Hits(rows, os[0].target)| + Total(RevokeMany(rows, os[0].target, os[0].at), os[1..])
  }

  /** Some target is the row's session or the row's capsule. */
  predicate CoveredBy(r: Lease, os: seq<Order>) {
    exists i :: 0 <= i < |os| && (os[i].target == OfSession(r.sess) || os[i].target == OfCapsule(r.capsule))
  }

  /** Positions of the rows ACTIVE at the start and covered by some revocation. */
  ghost function Struck(rows: seq<Lease>, os: seq<Order>): set<int> {
    set k | 0 <= k < |rows| && rows[k].status == ACTIVE && CoveredBy(rows[k], os)
  }

  lemma CoveredTail(r: Lease, os: seq<Order>)
    requires os != []
    ensures CoveredBy(r, os) <==> Covers(os[0].target, r) || CoveredBy(r, os[1..])
  {
    if CoveredBy(r, os) && !Covers(os[0].target, r) {
      var i :| 0 <= i < |os| && (os[i].target == OfSession(r.sess) || os[i].target == OfCapsule(r.capsule));
      assert os[1..][i - 1] == os[i];
    }
    if CoveredBy(r, os[1..]) {
      var i :| 0 <= i < |os[1..]|
               && (os[1..][i].target == OfSession(r.sess) || os[1..][i].target == OfCapsule(r.capsule));
      assert os[i + 1] == os[1..][i];
    }
  }

  /** Struck rows end REVOKED, all others are untouched: the final statuses depend on the set of
      targets only, not on their order. */
  lemma {:induction false} FinalRows(rows: seq<Lease>, os: seq<Order>, k: nat)
    requires k < |rows|
    ensures |After(rows, os)| == |rows|
    ensures k in Struck(rows, os) ==> After(rows, os)[k].status == REVOKED && SameBinding(rows[k], After(rows, os)[k])
    ensures k !in Struck(rows, os) ==> After(rows, os)[k] == rows[k]
    decreases |os|
  {
    if os != [] {
      var next := RevokeMany(rows, os[0].target, os[0].at);
      FinalRows(next, os[1..], k);
      CoveredTail(rows[k], os);
    }
  }

  /** The returned counts add up to the number of rows struck. */
  lemma {:induction false} CountsAddUp(rows: seq<Lease>, os: seq<Order>)
    ensures Total(rows, os) == |Struck(rows, os)|
    decreases |os|
  {
    if os == [] {
      assert Struck(rows, os) == {};
    } else {
      var next := RevokeMany(rows, os[0].target, os[0].at);
      CountsAddUp(next, os[1..]);
      var first, rest := Hits(rows, os[0].target), Struck(next, os[1..]);
      forall k ensures k in Struck(rows, os) <==> k in first + rest {
        if 0 <= k < |rows| { CoveredTail(rows[k], os); CoveredSame(rows[k], next[k], os[1..]); }
      }
      assert Struck(rows, os) == first + rest && first * rest == {};
    }
  }

  lemma CoveredSame(a: Lease, b: Lease, os: seq<Order>)
    requires SameBinding(a, b)
    ensures CoveredBy(a, os) <==> CoveredBy(b, os)
  {
  }

  predicate SameTargets(os: seq<Order>, ps: seq<Order>) {
    && (forall i :: 0 <= i < |os| ==> exists j :: 0 <= j < |ps| && ps[j].target == os[i].target)
    && (forall j :: 0 <= j < |ps| ==> exists i :: 0 <= i < |os| && os[i].target == ps[j].target)
  }

  lemma StruckAlike(rows: seq<Lease>, os: seq<Order>, ps: seq<Order>)
    requires SameTargets(os, ps)
    ensures Struck(rows, os) == Struck(rows, ps)
  {
    forall k | 0 <= k < |rows| ensures CoveredBy(rows[k], os) <==> CoveredBy(rows[k], ps) {}
  }

  /** Any two sequences with the same targets, in any order and with any repetitions, revoke the
      same rows and return the same total. */
  lemma OrderIrrelevant(rows: seq<Lease>, os: seq<Order>, ps: seq<Order>)
    requires SameTargets(os, ps)
    ensures Total(rows, os) == Total(rows, ps)
    ensures |After(rows, os)| == |After(rows, ps)| == |rows|
    ensures forall k :: 0 <= k < |rows| ==> After(rows, os)[k].status == After(rows, ps)[k].status
  {
    CountsAddUp(rows, os);
    CountsAddUp(rows, ps);
    StruckAlike(rows, os, ps);
    AfterLength(rows, os);
    AfterLength(rows, ps);
    forall k | 0 <= k < |rows| ensures After(rows, os)[k].status == After(rows, ps)[k].status {
      FinalRows(rows, os, k);
      FinalRows(rows, ps, k);
    }
  }

  lemma {:induction false} AfterLength(rows: seq<Lease>, os: seq<Order>)
    ensures |After(rows, os)| == |rows|
    decreases |os|
  {
    if os != [] { AfterLength(RevokeMany(rows, os[0].target, os[0].at), os[1..]); }
  }

  /** Running the same revocations again changes nothing and returns 0. */
  lemma RepeatsReturnZero(rows: seq<Lease>, os: seq<Order>, again: seq<Order>)
    requires forall i :: 0 <= i < |again| ==> exists j :: 0 <= j < |os| && os[j].target == again[i].target
    ensures Total(After(rows, os), again) == 0
    ensures After(After(rows, os), again) == After(rows, os)
  {
    var done := After(rows, os);
    AfterLength(rows, os);
    CountsAddUp(done, again);
    AfterLength(done, again);
    forall k | 0 <= k < |done| ensures k !in Struck(done, again) && After(done, again)[k] == done[k] {
      FinalRows(rows, os, k);
      FinalRows(done, again, k);
    }
    assert Struck(done, again) == {};
  }
}
