/** The lease service and the lease gateway, each run without interruption.

  The clock and fresh identifiers are parameters; the host's answer to an approval is one too.
 */
module LeaseServices {
  import opened Options
  import opened LeaseTable
  import opened LeaseRules
  import opened LeaseStores
  import opened LeaseLaws

  datatype Outcome = Leased(lease: Lease) | Denied(code: Code)

  class LeaseService {
    const store: LeaseStore

    constructor (store: LeaseStore)
      ensures this.store == store
    {
      this.store := store;
    }

    /** Builds the lease, refusing an ill-formed resource, and inserts it. */
    method Issue(a: Args, id: string, now: int) returns (r: Outcome)
      requires store.Valid() && FreshId(store.rows, id)
      requires forall i :: 0 <= i < |store.rows| ==> store.rows[i].issuedAt < now
      modifies store
      ensures store.Valid()
      ensures ':' !in a.resource ==> r == Denied(INVALID_RESOURCE) && store.rows == old(store.rows)
      ensures ':' in a.resource ==>
                && r == Leased(Lease(id, a.capsule, a.inst, a.sess, a.provider, a.resource, {a.action},
                                     now, now + a.ttl * 1000000, ACTIVE, None, None))
                && store.rows == old(store.rows) + [r.lease]
      ensures r.Leased? ==> BoundTo(r.lease, a) && r.lease == NewLease(a, id, now)
    {
      if !ValidResource(a.resource) { return Denied(INVALID_RESOURCE); }
      var lease := NewLease(a, id, now);
      var ok := store.Insert(lease);
      r := Leased(lease);
    }

    /** Returns exactly the usable lease of the key, if there is one; a lease found past its time
        is marked EXPIRED on the way. */
    method FindMatchingLease(a: Args, now: int) returns (r: Option<Lease>)
      requires store.Valid()
      modifies store
      ensures store.Valid()
      ensures r.Some? <==> exists k :: Usable(old(store.rows), now, k) && KeyOf(old(store.rows)[k]) == KeyQuery(a)
      ensures forall k :: Usable(old(store.rows), now, k) && KeyOf(old(store.rows)[k]) == KeyQuery(a) ==>
                r == Some(old(store.rows)[k])
      ensures r.Some? ==>
                && r.value in old(store.rows) && r.value.inst == a.inst && r.value.sess == a.sess
                && r.value.provider == a.provider && r.value.resource == a.resource
                && r.value.status == ACTIVE && now < r.value.expiresAt
      ensures forall k :: KeyRow(old(store.rows), k, a) ==>
                (r.Some? <==> old(store.rows)[k].status == ACTIVE && now < old(store.rows)[k].expiresAt)
      ensures forall i :: 0 <= i < |store.rows| && i < |old(store.rows)| ==>
                store.rows[i]
                == if KeyRow(old(store.rows), i, a) && old(store.rows)[i].status == ACTIVE
                      && old(store.rows)[i].expiresAt <= now
                   then old(store.rows)[i].(status := EXPIRED, revokedAt := Some(now),
                                            reason := Some("expired on lookup"))
                   else old(store.rows)[i]
      ensures store.rows == (
                var hit := Newest(old(store.rows), KeyQuery(a));
                if hit.Some? && hit.value.status == ACTIVE && now >= hit.value.expiresAt
                then UpdateStatus(old(store.rows), hit.value.id, EXPIRED, now, "expired on lookup")
                else old(store.rows))
    {
      r := store.FindMatching(a.inst, a.sess, a.provider, a.resource);
      forall i ensures KeyRow(store.rows, i, a) <==> 0 <= i == NewestIx(store.rows, KeyQuery(a)) {
        RowsAreQueried(store.rows, i, a);
      }
      ghost var k := NewestIx(store.rows, KeyQuery(a));
      assert k >= 0 ==> KeyOf(store.rows[k]) == KeyQuery(a);
      if r.None? || r.value.status != ACTIVE { return None; }
      if now >= r.value.expiresAt {
        store.SetStatus(r.value.id, EXPIRED, now, "expired on lookup");
        return None;
      }
      assert Usable(store.rows, now, k);
    }

    method FindLatestForResource(a: Args) returns (r: Option<Lease>)
      requires store.Valid()
      ensures r == Newest(store.rows, ResourceQuery(a))
      ensures r.Some? ==> r.value in store.rows && r.value.provider == a.provider && r.value.resource == a.resource
      ensures forall i :: 0 <= i < |store.rows| && store.rows[i].provider == a.provider
                          && store.rows[i].resource == a.resource ==>
                r.Some? && store.rows[i].issuedAt <= r.value.issuedAt
    {
      r := store.FindForResource(a.provider, a.resource);
    }

    /** The validator: its verdict, and the lazy expiry of the row it found past its time. */
    method CheckLease(a: Args, now: int) returns (v: Verdict)
      requires store.Valid()
      modifies store
      ensures store.Valid() && v == Validate(old(store.rows), a, now)
      ensures v == Deny(LEASE_REQUIRED) <==>
                forall i :: 0 <= i < |old(store.rows)| ==>
                  !(old(store.rows)[i].provider == a.provider && old(store.rows)[i].resource == a.resource)
      ensures var n := NewestIx(old(store.rows), ResourceQuery(a));
              n >= 0 ==>
                var l := old(store.rows)[n];
                && (v == Deny(LEASE_REVOKED) <==> l.status == REVOKED)
                && (v == Deny(LEASE_EXPIRED) <==> l.status != REVOKED && l.expiresAt <= now)
                && (l.status != REVOKED && now < l.expiresAt ==>
                      && (v == Deny(LEASE_CAPSULE_MISMATCH) <==> l.inst != a.inst)
                      && (v == Deny(LEASE_SESSION_MISMATCH) <==> l.inst == a.inst && l.sess != a.sess)
                      && (v == Deny(CAPABILITY_DENIED) <==>
                            l.inst == a.inst && l.sess == a.sess && a.action !in l.actions)
                      && (v == Pass(l) <==> l.inst == a.inst && l.sess == a.sess && a.action in l.actions))
      ensures v.Pass? ==> BoundTo(v.lease, a) && now < v.lease.expiresAt
      ensures v != Deny(LEASE_EXPIRED) ==> store.rows == old(store.rows)
      ensures v == Deny(LEASE_EXPIRED) ==>
                var n := NewestIx(old(store.rows), ResourceQuery(a));
                && n >= 0
                && store.rows
                   == UpdateStatus(old(store.rows), old(store.rows)[n].id, EXPIRED, now, "expired on validate")
    {
      var latest := store.FindForResource(a.provider, a.resource);
      if latest.None? { return Deny(LEASE_REQUIRED); }
      var l := latest.value;
      if l.status == REVOKED { return Deny(LEASE_REVOKED); }
      if now >= l.expiresAt {
        store.SetStatus(l.id, EXPIRED, now, "expired on validate");
        return Deny(LEASE_EXPIRED);
      }
      if l.inst != a.inst { return Deny(LEASE_CAPSULE_MISMATCH); }
      if l.sess != a.sess { return Deny(LEASE_SESSION_MISMATCH); }
      if a.action !in l.actions { return Deny(CAPABILITY_DENIED); }
      v := Pass(l);
    }

    method Revoke(id: string, now: int) returns (failure: Option<Code>)
      requires store.Valid()
      modifies store
      ensures store.Valid()
      ensures failure == if exists i :: 0 <= i < |old(store.rows)| && old(store.rows)[i].id == id then None
                         else Some(LEASE_NOT_FOUND)
      ensures store.rows == UpdateStatus(old(store.rows), id, REVOKED, now, "manual revoke")
      ensures |store.rows| == |old(store.rows)|
      ensures forall i :: 0 <= i < |store.rows| ==>
                store.rows[i] == if old(store.rows)[i].id != id then old(store.rows)[i]
                                 else old(store.rows)[i].(status := REVOKED, revokedAt := Some(now),
                                                          reason := Some("manual revoke"))
    {
      var lease := store.Get(id);
      if lease.None? {
        assert UpdateStatus(store.rows, id, REVOKED, now, "manual revoke") == store.rows;
        return Some(LEASE_NOT_FOUND);
      }
      store.SetStatus(id, REVOKED, now, "manual revoke");
      failure := None;
    }

    method RevokeSession(sess: string, now: int) returns (count: nat)
      requires store.Valid()
      modifies store
      ensures store.Valid() && store.rows == RevokeMany(old(store.rows), OfSession(sess), now)
      ensures |store.rows| == |old(store.rows)|
      ensures forall i :: 0 <= i < |store.rows| ==>
                store.rows[i] == if old(store.rows)[i].status == ACTIVE && old(store.rows)[i].sess == sess
                                then old(store.rows)[i].(status := REVOKED, revokedAt := Some(now),
                                                          reason := Some("session revoked"))
                                else old(store.rows)[i]
      ensures count == |set i | 0 <= i < |old(store.rows)| && old(store.rows)[i].status == ACTIVE
                                && old(store.rows)[i].sess == sess|
    {
      count := store.RevokeBySession(sess, now);
    }

    method RevokeCapsule(capsule: string, now: int) returns (count: nat)
      requires store.Valid()
      modifies store
      ensures store.Valid() && store.rows == RevokeMany(old(store.rows), OfCapsule(capsule), now)
      ensures |store.rows| == |old(store.rows)|
      ensures forall i :: 0 <= i < |store.rows| ==>
                store.rows[i] == if old(store.rows)[i].status == ACTIVE && old(store.rows)[i].capsule == capsule
                                then old(store.rows)[i].(status := REVOKED, revokedAt := Some(now),
                                                          reason := Some("capsule revoked"))
                                else old(store.rows)[i]
      ensures count == |set i | 0 <= i < |old(store.rows)| && old(store.rows)[i].status == ACTIVE
                                && old(store.rows)[i].capsule == capsule|
    {
      count := store.RevokeByCapsule(capsule, now);
    }
  }

  class LeaseGateway {
    const service: LeaseService

    constructor (service: LeaseService)
      ensures this.service == service
    {
      this.service := service;
    }

    /** One whole request: decided at `now`, and issued at `later` if the host grants it. */
    method Request(a: Args, now: int, later: int, granted: bool, id: string)
      returns (r: Outcome, shown: Option<Approval>)
      requires service.store.Valid() && FreshId(service.store.rows, id) && now <= later
      requires forall i :: 0 <= i < |service.store.rows| ==> service.store.rows[i].issuedAt < later
      modifies service.store
      ensures service.store.Valid()
      ensures shown.Some? <==> Decide(old(service.store.rows), a, now).Asks?
      ensures service.store.rows == RowsAfter(old(service.store.rows), a, now, later, granted, id)
      ensures var refusal := Refusal(old(service.store.rows), a, now, granted);
              r == if refusal.Some? then Denied(refusal.value)
                   else Leased(LeaseFor(old(service.store.rows), a, now, later, id))
      ensures a.ttl <= 0 || a.ttl > 1800 ==>
                r == Denied(LEASE_REJECTED) && shown == None && service.store.rows == old(service.store.rows)
      ensures 1 <= a.ttl <= 1800 && old(service.store.rows) == [] ==> shown.Some?
      ensures shown.Some? ==> shown.value == Approval(a.capsule, a.provider, a.resource, a.action, a.ttl, a.tool)
      ensures shown.Some? && !granted ==> r == Denied(LEASE_REJECTED)
      ensures shown.Some? && granted && ':' !in a.resource ==> r == Denied(INVALID_RESOURCE)
      ensures shown.Some? && granted && ':' in a.resource ==>
                r == Leased(Lease(id, a.capsule, a.inst, a.sess, a.provider, a.resource, {a.action},
                                  later, later + a.ttl * 1000000, ACTIVE, None, None))
    {
      RequestCases(service.store.rows, a, now, later, granted, id);
      var d := Consult(a, now);
      shown := None;
      match d {
        case Grants(lease) => r := Leased(lease);
        case Refuses(code) => r := Denied(code);
        case Asks =>
          var approval;
          r, approval := AskThenIssue(a, later, granted, id);
          shown := Some(approval);
      }
    }

    /** The lifetime check, the reuse path and the blocking checks. */
    method Consult(a: Args, now: int) returns (d: Decision)
      requires service.store.Valid()
      modifies service.store
      ensures service.store.Valid() && d == Decide(old(service.store.rows), a, now)
      ensures service.store.rows == LazilyExpired(old(service.store.rows), a, now)
      ensures d.Grants? ==> service.store.rows == old(service.store.rows)
      ensures d == Refuses(LEASE_REJECTED) <==> a.ttl <= 0 || a.ttl > 1800
      ensures a.ttl <= 0 || a.ttl > 1800 ==> service.store.rows == old(service.store.rows)
      ensures 1 <= a.ttl <= 1800 && old(service.store.rows) == [] ==> d == Asks
      ensures 1 <= a.ttl <= 1800 && (forall k :: !ResourceRow(old(service.store.rows), k, a)) ==> d == Asks
      ensures (forall k :: !KeyRow(old(service.store.rows), k, a)) ==> !d.Grants?
      ensures forall k :: 1 <= a.ttl <= 1800 && KeyRow(old(service.store.rows), k, a) ==>
                var l := old(service.store.rows)[k];
                if l.status == ACTIVE && now < l.expiresAt && a.action in l.actions then d == Grants(l) else !d.Grants?
      ensures forall n :: 1 <= a.ttl <= 1800 && ResourceRow(old(service.store.rows), n, a) && !d.Grants? ==>
                var l := old(service.store.rows)[n];
                && (d == Refuses(LEASE_REVOKED) <==> l.status == REVOKED && l.sess == a.sess)
                && (d == Refuses(LEASE_SESSION_MISMATCH) <==>
                      l.status == ACTIVE && now < l.expiresAt && l.sess != a.sess)
                && (d == Refuses(LEASE_CAPSULE_MISMATCH) <==>
                      l.status == ACTIVE && now < l.expiresAt && l.sess == a.sess && l.inst != a.inst)
                && (d.Refuses? ==> d.code in {LEASE_REVOKED, LEASE_SESSION_MISMATCH, LEASE_CAPSULE_MISMATCH})
    {
      ConsultLaws(service.store.rows, a, now);
      if a.ttl <= 0 || a.ttl > MAX_TTL_SECONDS { return Refuses(LEASE_REJECTED); }
      var lease := Reusable(a, now);
      if lease.Some? { return Grants(lease.value); }
      var block := CheckBlocked(a, now);
      d := if block.Some? then Refuses(block.value) else Asks;
    }

    /** The host is asked, and the lease issued if it grants. */
    method AskThenIssue(a: Args, later: int, granted: bool, id: string) returns (r: Outcome, shown: Approval)
      requires service.store.Valid() && FreshId(service.store.rows, id)
      requires forall i :: 0 <= i < |service.store.rows| ==> service.store.rows[i].issuedAt < later
      modifies service.store
      ensures service.store.Valid()
      ensures if !granted then r == Denied(LEASE_REJECTED)
              else if !ValidResource(a.resource) then r == Denied(INVALID_RESOURCE)
              else r == Leased(NewLease(a, id, later))
      ensures service.store.rows == old(service.store.rows) + if r.Leased? then [NewLease(a, id, later)] else []
      ensures shown == Approval(a.capsule, a.provider, a.resource, a.action, a.ttl, a.tool)
      ensures r.Leased? ==>
                r.lease == Lease(id, a.capsule, a.inst, a.sess, a.provider, a.resource, {a.action},
                                 later, later + a.ttl * 1000000, ACTIVE, None, None)
      ensures granted && ':' !in a.resource ==> r == Denied(INVALID_RESOURCE)
    {
      shown := Approval(a.capsule, a.provider, a.resource, a.action, a.ttl, a.tool);
      if !granted { return Denied(LEASE_REJECTED), shown; }
      r := service.Issue(a, id, later);
    }

    /** The reuse path: the usable lease of the key, if it covers the action. */
    method Reusable(a: Args, now: int) returns (r: Option<Lease>)
      requires service.store.Valid() && LegalTtl(a.ttl)
      modifies service.store
      ensures service.store.Valid() && service.store.rows == LazilyExpired(old(service.store.rows), a, now)
      ensures r.Some? <==> Decide(old(service.store.rows), a, now).Grants?
      ensures r.Some? ==>
                && Decide(old(service.store.rows), a, now) == Grants(r.value)
                && service.store.rows == old(service.store.rows)
    {
      LookupFacts(service.store.rows, a, now);
      r := service.FindMatchingLease(a, now);
      if r.Some? && a.action !in r.value.actions { r := None; }
    }

    /** The blocking checks on the newest lease of the resource. */
    method CheckBlocked(a: Args, now: int) returns (code: Option<Code>)
      requires service.store.Valid()
      ensures code == Blocks(Newest(service.store.rows, ResourceQuery(a)), a, now)
    {
      var latest := service.FindLatestForResource(a);
      if latest.Some? && latest.value.status == REVOKED && latest.value.sess == a.sess { return Some(LEASE_REVOKED); }
      if latest.Some? && latest.value.status == ACTIVE && now < latest.value.expiresAt {
        if latest.value.sess != a.sess { return Some(LEASE_SESSION_MISMATCH); }
        if latest.value.inst != a.inst { return Some(LEASE_CAPSULE_MISMATCH); }
      }
      code := None;
    }
  }

  /** The laws of the decision, together. */
  lemma ConsultLaws(rows: seq<Lease>, a: Args, now: int)
    requires WellFormed(rows)
    ensures var d := Decide(rows, a, now);
            && (d == Refuses(LEASE_REJECTED) <==> a.ttl <= 0 || a.ttl > 1800)
            && (1 <= a.ttl <= 1800 && rows == [] ==> d == Asks)
            && (1 <= a.ttl <= 1800 && (forall k :: !ResourceRow(rows, k, a)) ==> d == Asks)
            && ((forall k :: !KeyRow(rows, k, a)) ==> !d.Grants?)
    ensures forall k :: 1 <= a.ttl <= 1800 && KeyRow(rows, k, a) ==>
              if InForce(rows[k], now) && a.action in rows[k].actions
              then Decide(rows, a, now) == Grants(rows[k]) else !Decide(rows, a, now).Grants?
    ensures forall n :: 1 <= a.ttl <= 1800 && ResourceRow(rows, n, a) && !Decide(rows, a, now).Grants? ==>
              var d, l := Decide(rows, a, now), rows[n];
              && (d == Refuses(LEASE_REVOKED) <==> l.status == REVOKED && l.sess == a.sess)
              && (d == Refuses(LEASE_SESSION_MISMATCH) <==> InForce(l, now) && l.sess != a.sess)
              && (d == Refuses(LEASE_CAPSULE_MISMATCH) <==> InForce(l, now) && l.sess == a.sess && l.inst != a.inst)
              && (d.Refuses? ==> d.code in {LEASE_REVOKED, LEASE_SESSION_MISMATCH, LEASE_CAPSULE_MISMATCH})
    ensures a.ttl <= 0 || a.ttl > 1800 ==> LazilyExpired(rows, a, now) == rows
  {
    LifetimeLaw(rows, a, now);
    if forall k :: !KeyRow(rows, k, a) { NoReuseLaw(rows, a, now); }
    if LegalSeconds(a.ttl) && forall k :: !ResourceRow(rows, k, a) { FirstLaw(rows, a, now); }
    forall k | LegalSeconds(a.ttl) && KeyRow(rows, k, a)
      ensures if InForce(rows[k], now) && a.action in rows[k].actions
              then Decide(rows, a, now) == Grants(rows[k]) else !Decide(rows, a, now).Grants?
    {
      ReuseLaw(rows, a, now, k);
    }
    forall n | LegalSeconds(a.ttl) && ResourceRow(rows, n, a) && !Decide(rows, a, now).Grants?
      ensures var d, l := Decide(rows, a, now), rows[n];
              && (d == Refuses(LEASE_REVOKED) <==> l.status == REVOKED && l.sess == a.sess)
              && (d == Refuses(LEASE_SESSION_MISMATCH) <==> InForce(l, now) && l.sess != a.sess)
              && (d == Refuses(LEASE_CAPSULE_MISMATCH) <==> InForce(l, now) && l.sess == a.sess && l.inst != a.inst)
              && (d.Refuses? ==> d.code in {LEASE_REVOKED, LEASE_SESSION_MISMATCH, LEASE_CAPSULE_MISMATCH})
    {
      BlockingLaw(rows, a, now, n);
    }
  }

  /** A lease handed out for reuse is a row of the table, bound to the caller, and unexpired. */
  lemma GrantedIsBound(rows: seq<Lease>, a: Args, now: int)
    requires Decide(rows, a, now).Grants?
    ensures var l := Decide(rows, a, now).lease;
            BoundTo(l, a) && l in rows && l.status == ACTIVE && now < l.expiresAt
  {
    LookupFacts(rows, a, now);
  }

  /** What the reuse lookup finds, in terms of the decision. */
  lemma LookupFacts(rows: seq<Lease>, a: Args, now: int)
    requires LegalTtl(a.ttl)
    ensures var n := NewestIx(rows, KeyQuery(a));
            && (n >= 0 ==> KeyOf(rows[n]) == KeyQuery(a))
            && (forall k :: Usable(rows, now, k) && KeyOf(rows[k]) == KeyQuery(a) ==> k == n)
            && (Decide(rows, a, now).Grants? <==> Usable(rows, now, n) && a.action in rows[n].actions)
            && (Usable(rows, now, n) ==> LazilyExpired(rows, a, now) == rows)
            && (Usable(rows, now, n) && a.action in rows[n].actions ==> Decide(rows, a, now) == Grants(rows[n]))
  {
  }
}
