/** The lease store, statement by statement. */
module LeaseStores {
  import opened Options
  import opened LeaseTable

  /** Positions of the rows a bulk revocation changes. */
  ghost function Hits(rows: seq<Lease>, t: Target): set<int> {
    set i | 0 <= i < |rows| && Hit(t, rows[i])
  }

  lemma RevokeKeepsWellFormed(rows: seq<Lease>, t: Target, at: int)
    requires WellFormed(rows)
    ensures WellFormed(RevokeMany(rows, t, at))
  {
  }

  lemma NewestFacts(rows: seq<Lease>, q: Query)
    requires WellFormed(rows)
    ensures forall i :: 0 <= i < |rows| && Selects(q, rows[i]) ==>
              Newest(rows, q).Some? && rows[i].issuedAt <= Newest(rows, q).value.issuedAt
  {
    forall i | 0 <= i < |rows| && Selects(q, rows[i])
      ensures Newest(rows, q).Some? && rows[i].issuedAt <= Newest(rows, q).value.issuedAt
    {
      NewestIsLatestIssued(rows, q, i);
    }
  }

  class LeaseStore {
    var rows: seq<Lease>

    ghost predicate Valid()
      reads this
    {
      WellFormed(rows)
    }

    constructor ()
      ensures Valid() && rows == []
    {
      rows := [];
    }

    /** INSERT: refused by the primary key if the identifier is taken. */
    method Insert(lease: Lease) returns (ok: bool)
      requires Valid() && ValidResource(lease.resource)
      requires forall i :: 0 <= i < |rows| ==> rows[i].issuedAt < lease.issuedAt
      modifies this
      ensures Valid()
      ensures ok <==> forall i :: 0 <= i < |old(rows)| ==> old(rows)[i].id != lease.id
      ensures rows == if ok then old(rows) + [lease] else old(rows)
    {
      var i := 0;
      while i < |rows|
        invariant 0 <= i <= |rows| && rows == old(rows)
        invariant forall j :: 0 <= j < i ==> rows[j].id != lease.id
      {
        if rows[i].id == lease.id { return false; }
        i := i + 1;
      }
      rows := rows + [lease];
      ok := true;
    }

    /** SELECT ... WHERE id = ?: the identifier is a primary key, so it picks at most one row. */
    method Get(id: string) returns (r: Option<Lease>)
      requires Valid()
      ensures r.None? <==> forall i :: 0 <= i < |rows| ==> rows[i].id != id
      ensures r.Some? ==> r.value in rows && r.value.id == id
      ensures forall i :: 0 <= i < |rows| && rows[i].id == id ==> r == Some(rows[i])
    {
      r := None;
      var i := 0;
      while i < |rows|
        invariant 0 <= i <= |rows|
        invariant r.None? ==> forall j :: 0 <= j < i ==> rows[j].id != id
        invariant r.Some? ==> exists j :: 0 <= j < i && rows[j] == r.value && r.value.id == id
      {
        if rows[i].id == id { r := Some(rows[i]); }
        i := i + 1;
      }
    }

    /** SELECT ... ORDER BY issued_at DESC LIMIT 1: keep the latest-issued selected row. */
    method SelectNewest(q: Query) returns (r: Option<Lease>)
      requires Valid()
      ensures r == Newest(rows, q)
    {
      r := None;
      ghost var at := -1;
      var i := 0;
      while i < |rows|
        invariant 0 <= i <= |rows| && -1 <= at < i
        invariant r.None? <==> at == -1
        invariant at >= 0 ==> r == Some(rows[at]) && Selects(q, rows[at])
        invariant forall j :: at < j < i ==> !Selects(q, rows[j])
      {
        if Selects(q, rows[i]) && (r.None? || rows[i].issuedAt > r.value.issuedAt) {
          r := Some(rows[i]);
          at := i;
        }
        i := i + 1;
      }
    }

    method FindMatching(inst: string, sess: string, provider: string, resource: string) returns (r: Option<Lease>)
      requires Valid()
      ensures r == Newest(rows, ByKey(inst, sess, provider, resource))
      ensures r.Some? ==>
                && r.value in rows && r.value.inst == inst && r.value.sess == sess
                && r.value.provider == provider && r.value.resource == resource
      ensures forall i :: 0 <= i < |rows| && rows[i].inst == inst && rows[i].sess == sess
                          && rows[i].provider == provider && rows[i].resource == resource ==>
                r.Some? && rows[i].issuedAt <= r.value.issuedAt
    {
      r := SelectNewest(ByKey(inst, sess, provider, resource));
      NewestFacts(rows, ByKey(inst, sess, provider, resource));
    }

    method FindForResource(provider: string, resource: string) returns (r: Option<Lease>)
      requires Valid()
      ensures r == Newest(rows, ByResource(provider, resource))
      ensures r.Some? ==> r.value in rows && r.value.provider == provider && r.value.resource == resource
      ensures forall i :: 0 <= i < |rows| && rows[i].provider == provider && rows[i].resource == resource ==>
                r.Some? && rows[i].issuedAt <= r.value.issuedAt
    {
      r := SelectNewest(ByResource(provider, resource));
      NewestFacts(rows, ByResource(provider, resource));
    }

    /** UPDATE ... WHERE id = ?. */
    method SetStatus(id: string, st: Status, at: int, why: string)
      requires Valid()
      modifies this
      ensures Valid() && rows == UpdateStatus(old(rows), id, st, at, why)
      ensures |rows| == |old(rows)|
      ensures forall i :: 0 <= i < |rows| ==>
                rows[i] == if old(rows)[i].id != id then old(rows)[i]
                           else old(rows)[i].(status := st, revokedAt := Some(at), reason := Some(why))
    {
      var i := 0;
      while i < |rows|
        invariant 0 <= i <= |rows| == |old(rows)|
        invariant forall j :: 0 <= j < i ==> rows[j] == UpdateStatus(old(rows), id, st, at, why)[j]
        invariant forall j :: i <= j < |rows| ==> rows[j] == old(rows)[j]
      {
        if rows[i].id == id { rows := rows[i := Stamp(rows[i], st, at, why)]; }
        i := i + 1;
      }
    }

    /** UPDATE ... WHERE ... AND status = 'ACTIVE', returning the row count. */
    method RevokeWhere(t: Target, at: int) returns (count: nat)
      requires Valid()
      modifies this
      ensures Valid() && rows == RevokeMany(old(rows), t, at)
      ensures count == |Hits(old(rows), t)|
    {
      count := 0;
      ghost var before, after := rows, RevokeMany(rows, t, at);
      ghost var done: set<int> := {};
      var i := 0;
      while i < |rows|
        invariant 0 <= i <= |rows| == |before|
        invariant forall j :: j in done <==> 0 <= j < i && Hit(t, before[j])
        invariant count == |done|
        invariant forall j :: 0 <= j < |rows| ==> rows[j] == if j < i then after[j] else before[j]
      {
        if Hit(t, rows[i]) {
          rows := rows[i := Stamp(rows[i], REVOKED, at, Why(t))];
          done := done + {i};
          count := count + 1;
        }
        i := i + 1;
      }
      assert rows == after && done == Hits(before, t);
      RevokeKeepsWellFormed(before, t, at);
    }

    method RevokeBySession(sess: string, at: int) returns (count: nat)
      requires Valid()
      modifies this
      ensures Valid() && rows == RevokeMany(old(rows), OfSession(sess), at)
      ensures |rows| == |old(rows)|
      ensures forall i :: 0 <= i < |rows| ==>
                rows[i] == if old(rows)[i].status == ACTIVE && old(rows)[i].sess == sess
                          then old(rows)[i].(status := REVOKED, revokedAt := Some(at),
                                                    reason := Some("session revoked"))
                          else old(rows)[i]
      ensures count == |set i | 0 <= i < |old(rows)| && old(rows)[i].status == ACTIVE
                                && old(rows)[i].sess == sess|
    {
      count := RevokeWhere(OfSession(sess), at);
      ghost var before := old(rows);
      assert Hits(before, OfSession(sess))
             == set i | 0 <= i < |before| && before[i].status == ACTIVE && before[i].sess == sess;
    }

    method RevokeByCapsule(capsule: string, at: int) returns (count: nat)
      requires Valid()
      modifies this
      ensures Valid() && rows == RevokeMany(old(rows), OfCapsule(capsule), at)
      ensures |rows| == |old(rows)|
      ensures forall i :: 0 <= i < |rows| ==>
                rows[i] == if old(rows)[i].status == ACTIVE && old(rows)[i].capsule == capsule
                          then old(rows)[i].(status := REVOKED, revokedAt := Some(at),
                                                    reason := Some("capsule revoked"))
                          else old(rows)[i]
      ensures count == |set i | 0 <= i < |old(rows)| && old(rows)[i].status == ACTIVE
                                && old(rows)[i].capsule == capsule|
    {
      count := RevokeWhere(OfCapsule(capsule), at);
      ghost var before := old(rows);
      assert Hits(before, OfCapsule(capsule))
             == set i | 0 <= i < |before| && before[i].status == ACTIVE && before[i].capsule == capsule;
    }
  }
}
