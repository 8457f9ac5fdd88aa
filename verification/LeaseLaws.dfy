/** The gateway's decision told by the columns of the rows and by numbers, apart from the functions
  that compute it. */
module LeaseLaws {
  import opened Options
  import opened LeaseTable
  import opened LeaseRules

  /** What the host is shown. */
  datatype Approval = Approval(
    capsule: string, provider: string, resource: string, action: string, ttl: int, tool: Option<string>)

  /** Row k is the newest one of the caller's instance, session, provider and resource. */
  predicate KeyRow(rows: seq<Lease>, k: int, a: Args) {
    && 0 <= k < |rows| && rows[k].inst == a.inst && rows[k].sess == a.sess
    && rows[k].provider == a.provider && rows[k].resource == a.resource
    && forall j :: k < j < |rows| ==>
         !(rows[j].inst == a.inst && rows[j].sess == a.sess
           && rows[j].provider == a.provider && rows[j].resource == a.resource)
  }

  /** Row k is the newest one of the provider and resource. */
  predicate ResourceRow(rows: seq<Lease>, k: int, a: Args) {
    && 0 <= k < |rows| && rows[k].provider == a.provider && rows[k].resource == a.resource
    && forall j :: k < j < |rows| ==> !(rows[j].provider == a.provider && rows[j].resource == a.resource)
  }

  predicate LegalSeconds(ttl: int) {
    1 <= ttl <= 1800
  }

  /** The row lets its holder act at this time. */
  predicate InForce(r: Lease, now: int) {
    r.status == ACTIVE && now < r.expiresAt
  }

  lemma RowsAreQueried(rows: seq<Lease>, k: int, a: Args)
    ensures KeyRow(rows, k, a) <==> 0 <= k == NewestIx(rows, KeyQuery(a))
    ensures ResourceRow(rows, k, a) <==> 0 <= k == NewestIx(rows, ResourceQuery(a))
  {
  }

  /** The lifetime is refused exactly outside 1 to 1800 seconds. */
  lemma LifetimeLaw(rows: seq<Lease>, a: Args, now: int)
    ensures Decide(rows, a, now) == Refuses(LEASE_REJECTED) <==> a.ttl <= 0 || a.ttl > 1800
    ensures rows == [] && LegalSeconds(a.ttl) ==> Decide(rows, a, now).Asks?
  {
  }

  /** A lease is reused exactly if the newest one of the key is in force and has the action. */
  lemma ReuseLaw(rows: seq<Lease>, a: Args, now: int, k: int)
    requires LegalSeconds(a.ttl) && KeyRow(rows, k, a)
    ensures if InForce(rows[k], now) && a.action in rows[k].actions
            then Decide(rows, a, now) == Grants(rows[k]) else !Decide(rows, a, now).Grants?
  {
    RowsAreQueried(rows, k, a);
  }

  lemma NoReuseLaw(rows: seq<Lease>, a: Args, now: int)
    requires forall k :: !KeyRow(rows, k, a)
    ensures !Decide(rows, a, now).Grants?
  {
    RowsAreQueried(rows, NewestIx(rows, KeyQuery(a)), a);
  }

  /** The lookup marks a lease EXPIRED exactly if it is the newest of the key, ACTIVE and past its
      time. */
  lemma ExpiryLaw(rows: seq<Lease>, a: Args, now: int, i: nat)
    requires WellFormed(rows) && i < |rows|
    ensures |LazilyExpired(rows, a, now)| == |rows|
    ensures LazilyExpired(rows, a, now)[i]
            == if LegalSeconds(a.ttl) && KeyRow(rows, i, a) && rows[i].status == ACTIVE && rows[i].expiresAt <= now
               then rows[i].(status := EXPIRED, revokedAt := Some(now), reason := Some("expired on lookup"))
               else rows[i]
  {
    RowsAreQueried(rows, i, a);
    var hit := NewestIx(rows, KeyQuery(a));
    if hit >= 0 && rows[hit].id == rows[i].id { assert hit == i; }
  }

  /** Without reuse, the newest row of the resource decides, code by code. */
  lemma BlockingLaw(rows: seq<Lease>, a: Args, now: int, n: int)
    requires WellFormed(rows) && LegalSeconds(a.ttl) && ResourceRow(rows, n, a) && !Decide(rows, a, now).Grants?
    ensures var d, l := Decide(rows, a, now), rows[n];
            && (d == Refuses(LEASE_REVOKED) <==> l.status == REVOKED && l.sess == a.sess)
            && (d == Refuses(LEASE_SESSION_MISMATCH) <==> InForce(l, now) && l.sess != a.sess)
            && (d == Refuses(LEASE_CAPSULE_MISMATCH) <==> InForce(l, now) && l.sess == a.sess && l.inst != a.inst)
            && (d.Refuses? ==> d.code in {LEASE_REVOKED, LEASE_SESSION_MISMATCH, LEASE_CAPSULE_MISMATCH})
  {
    RowsAreQueried(rows, n, a);
    NewestAfterLookup(rows, a, now, n);
  }

  lemma NewestAfterLookup(rows: seq<Lease>, a: Args, now: int, n: int)
    requires WellFormed(rows) && LegalSeconds(a.ttl) && 0 <= n == NewestIx(rows, ResourceQuery(a))
    ensures var out := LazilyExpired(rows, a, now);
            && NewestIx(out, ResourceQuery(a)) == n < |out|
            && (out[n] == rows[n] || (out[n].status == EXPIRED && rows[n].status == ACTIVE && rows[n].expiresAt <= now))
  {
    var out := LazilyExpired(rows, a, now);
    forall i | 0 <= i < |rows| ensures RowEvolves(rows[i], out[i]) { ExpiryLaw(rows, a, now, i); }
    NewestFramed(rows, out, ResourceQuery(a));
    ExpiryLaw(rows, a, now, n);
  }

  /** With no row of the resource the host is asked. */
  lemma FirstLaw(rows: seq<Lease>, a: Args, now: int)
    requires WellFormed(rows) && LegalSeconds(a.ttl) && forall n :: !ResourceRow(rows, n, a)
    ensures Decide(rows, a, now).Asks?
  {
    RowsAreQueried(rows, NewestIx(rows, ResourceQuery(a)), a);
  }
}
