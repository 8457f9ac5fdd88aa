/** The lease table: its rows, the two "newest row" queries and the UPDATE statements.

  Rows are kept in insertion order and are never removed.  `runtime/dsh_capsule/storage/db.py`
  orders by issue time; the class `LeaseStore` does the same and is proved against `NewestIx`.
 */
module LeaseTable {
  import opened Options

  datatype Status = ACTIVE | REVOKED | EXPIRED

  datatype Lease = Lease(
    id: string, capsule: string, inst: string, sess: string,
    provider: string, resource: string, actions: set<string>,
    issuedAt: int, expiresAt: int,
    status: Status, revokedAt: Option<int>, reason: Option<string>)

  /** The resource-format rule of the lease model. */
  predicate ValidResource(resource: string) {
    ':' in resource
  }

  // ---------- The two SELECT ... ORDER BY issued_at DESC LIMIT 1 queries ----------

  datatype Query =
    | ByKey(inst: string, sess: string, provider: string, resource: string)
    | ByResource(provider: string, resource: string)

  predicate Selects(q: Query, r: Lease) {
    && r.provider == q.provider
    && r.resource == q.resource
    && (q.ByKey? ==> r.inst == q.inst && r.sess == q.sess)
  }

  function KeyOf(r: Lease): Query {
    ByKey(r.inst, r.sess, r.provider, r.resource)
  }

  function ResourceOf(r: Lease): Query {
    ByResource(r.provider, r.resource)
  }

  /** Position of the newest selected row, or -1. */
  function NewestIx(rows: seq<Lease>, q: Query): (n: int)
    ensures -1 <= n < |rows|
    ensures n >= 0 ==> Selects(q, rows[n])
    ensures forall i :: n < i < |rows| ==> !Selects(q, rows[i])
  {
    if rows == [] then -1
    else if Selects(q, rows[|rows| - 1]) then |rows| - 1
    else NewestIx(rows[..|rows| - 1], q)
  }

  function Newest(rows: seq<Lease>, q: Query): (r: Option<Lease>)
    ensures r.Some? ==> r.value in rows && Selects(q, r.value)
    ensures r.None? ==> forall i :: 0 <= i < |rows| ==> !Selects(q, rows[i])
  {
    var n := NewestIx(rows, q);
    if n < 0 then None else Some(rows[n])
  }

  /** Issue times grow with insertion and identifiers are a primary key. */
  ghost predicate WellFormed(rows: seq<Lease>) {
    && (forall i, j :: 0 <= i < j < |rows| ==> rows[i].issuedAt < rows[j].issuedAt)
    && (forall i, j :: 0 <= i < j < |rows| ==> rows[i].id != rows[j].id)
    && (forall i :: 0 <= i < |rows| ==> ValidResource(rows[i].resource))
  }

  predicate FreshId(rows: seq<Lease>, id: string) {
    forall i :: 0 <= i < |rows| ==> rows[i].id != id
  }

  // ---------- The UPDATE statements ----------

  function Stamp(r: Lease, st: Status, at: int, why: string): Lease {
    r.(status := st, revokedAt := Some(at), reason := Some(why))
  }

  function UpdateStatus(rows: seq<Lease>, id: string, st: Status, at: int, why: string): (out: seq<Lease>)
    ensures |out| == |rows|
    ensures forall i :: 0 <= i < |rows| ==>
              out[i] == if rows[i].id == id then Stamp(rows[i], st, at, why) else rows[i]
  {
    seq(|rows|, i requires 0 <= i < |rows| => if rows[i].id == id then Stamp(rows[i], st, at, why) else rows[i])
  }

  datatype Target = OfSession(sess: string) | OfCapsule(capsule: string)

  predicate Covers(t: Target, r: Lease) {
    match t
    case OfSession(s) => r.sess == s
    case OfCapsule(c) => r.capsule == c
  }

  function Why(t: Target): string {
    match t
    case OfSession(_) => "session revoked"
    case OfCapsule(_) => "capsule revoked"
  }

  predicate Hit(t: Target, r: Lease) {
    r.status == ACTIVE && Covers(t, r)
  }

  function RevokeMany(rows: seq<Lease>, t: Target, at: int): (out: seq<Lease>)
    ensures |out| == |rows|
    ensures forall i :: 0 <= i < |rows| ==>
              out[i] == if Hit(t, rows[i]) then Stamp(rows[i], REVOKED, at, Why(t)) else rows[i]
  {
    seq(|rows|, i requires 0 <= i < |rows| => if Hit(t, rows[i]) then Stamp(rows[i], REVOKED, at, Why(t)) else rows[i])
  }

  // ---------- What every statement keeps ----------

  /** Everything but the status columns. */
  predicate SameBinding(a: Lease, b: Lease) {
    b == a.(status := b.status, revokedAt := b.revokedAt, reason := b.reason)
  }

  /** A row may only leave ACTIVE, never return to it, and is untouched while ACTIVE. */
  predicate RowEvolves(a: Lease, b: Lease) {
    SameBinding(a, b) && (b.status == ACTIVE ==> a == b)
  }

  ghost predicate Evolves(a: seq<Lease>, b: seq<Lease>) {
    |a| <= |b| && forall i {:trigger b[i]} :: 0 <= i < |a| ==> RowEvolves(a[i], b[i])
  }

  /** A row the reuse lookup can return: ACTIVE, unexpired and the newest of its key. */
  predicate Usable(rows: seq<Lease>, now: int, k: int) {
    && 0 <= k < |rows|
    && rows[k].status == ACTIVE
    && now < rows[k].expiresAt
    && NewestIx(rows, KeyOf(rows[k])) == k
  }

  lemma NewestFramed(a: seq<Lease>, b: seq<Lease>, q: Query)
    requires Evolves(a, b) && |a| == |b|
    ensures NewestIx(a, q) == NewestIx(b, q)
  {
    assert forall i :: 0 <= i < |b| ==> RowEvolves(a[i], b[i]);
  }

  lemma NewestAppended(rows: seq<Lease>, r: Lease, q: Query)
    ensures NewestIx(rows + [r], q) == if Selects(q, r) then |rows| else NewestIx(rows, q)
  {
    var b := rows + [r];
    assert b[|rows|] == r && forall i :: 0 <= i < |rows| ==> b[i] == rows[i];
  }

  lemma EvolvesTransitive(a: seq<Lease>, b: seq<Lease>, c: seq<Lease>)
    requires Evolves(a, b) && Evolves(b, c)
    ensures Evolves(a, c)
  {
    forall i | 0 <= i < |a| ensures RowEvolves(a[i], c[i]) {
      assert RowEvolves(a[i], b[i]) && RowEvolves(b[i], c[i]);
    }
  }

  /** Once a row is not usable it stays unusable, however the table grows and time advances. */
  lemma UnusableForever(a: seq<Lease>, b: seq<Lease>, t: int, u: int, k: int)
    requires Evolves(a, b) && t <= u
    requires 0 <= k < |a| && !Usable(a, t, k)
    ensures !Usable(b, u, k)
  {
    if Usable(b, u, k) {
      assert RowEvolves(a[k], b[k]);
      var n := NewestIx(a, KeyOf(a[k]));
      assert RowEvolves(a[n], b[n]);
      assert Selects(KeyOf(b[k]), b[n]);
    }
  }

  /** The position chosen by insertion order is the one ORDER BY issued_at DESC puts first. */
  lemma NewestIsLatestIssued(rows: seq<Lease>, q: Query, i: int)
    requires WellFormed(rows) && 0 <= i < |rows| && Selects(q, rows[i])
    ensures 0 <= i <= NewestIx(rows, q)
    ensures i != NewestIx(rows, q) ==> rows[i].issuedAt < rows[NewestIx(rows, q)].issuedAt
  {
  }
}
