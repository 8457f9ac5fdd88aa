/** The decisions of the lease gateway and the lease service, shared by the classes that run
  them in one go and by the machine that interleaves them. */
module LeaseRules {
  import opened Options
  import opened LeaseTable

  const MAX_TTL_SECONDS: int := 1800

  /** The clock counts microseconds. */
  const SECOND: int := 1000000

  datatype Code =
    | LEASE_REQUIRED | LEASE_REVOKED | LEASE_EXPIRED | LEASE_REJECTED
    | LEASE_SESSION_MISMATCH | LEASE_CAPSULE_MISMATCH | CAPABILITY_DENIED
    | LEASE_NOT_FOUND | INVALID_RESOURCE

  datatype Args = Args(
    capsule: string, inst: string, sess: string,
    provider: string, resource: string, action: string, ttl: int, tool: Option<string>)

  function KeyQuery(a: Args): Query {
    ByKey(a.inst, a.sess, a.provider, a.resource)
  }

  function ResourceQuery(a: Args): Query {
    ByResource(a.provider, a.resource)
  }

  predicate LegalTtl(ttl: int) {
    0 < ttl <= MAX_TTL_SECONDS
  }

  /** What `find_matching_lease` and the reuse test make of the row the lookup returned. */
  datatype Lookup = Reuse(lease: Lease) | LazyExpire(id: string) | Miss

  function AfterLookup(hit: Option<Lease>, action: string, now: int): Lookup {
    if hit.None? || hit.value.status != ACTIVE then Miss
    else if now >= hit.value.expiresAt then LazyExpire(hit.value.id)
    else if action in hit.value.actions then Reuse(hit.value)
    else Miss
  }

  /** The blocking checks on the newest row of the resource. */
  function Blocks(latest: Option<Lease>, a: Args, now: int): Option<Code> {
    if latest.None? then None
    else if latest.value.status == REVOKED && latest.value.sess == a.sess then Some(LEASE_REVOKED)
    else if latest.value.status == ACTIVE && now < latest.value.expiresAt then
      if latest.value.sess != a.sess then Some(LEASE_SESSION_MISMATCH)
      else if latest.value.inst != a.inst then Some(LEASE_CAPSULE_MISMATCH)
      else None
    else None
  }

  function NewLease(a: Args, id: string, now: int): Lease {
    Lease(id, a.capsule, a.inst, a.sess, a.provider, a.resource, {a.action},
          now, now + a.ttl * SECOND, ACTIVE, None, None)
  }

  /** The lease is for this caller and covers this action. */
  predicate BoundTo(l: Lease, a: Args) {
    && Selects(KeyQuery(a), l)
    && a.action in l.actions
  }

  datatype Verdict = Pass(lease: Lease) | Deny(code: Code)

  /** The ordered checks of `validate` on the newest row of the resource. */
  function Validate(rows: seq<Lease>, a: Args, now: int): Verdict {
    var latest := Newest(rows, ResourceQuery(a));
    if latest.None? then Deny(LEASE_REQUIRED)
    else if latest.value.status == REVOKED then Deny(LEASE_REVOKED)
    else if now >= latest.value.expiresAt then Deny(LEASE_EXPIRED)
    else if latest.value.inst != a.inst then Deny(LEASE_CAPSULE_MISMATCH)
    else if latest.value.sess != a.sess then Deny(LEASE_SESSION_MISMATCH)
    else if a.action !in latest.value.actions then Deny(CAPABILITY_DENIED)
    else Pass(latest.value)
  }

  datatype Decision = Grants(lease: Lease) | Refuses(code: Code) | Asks

  /** The table after the lookup's lazy expiry. */
  function LazilyExpired(rows: seq<Lease>, a: Args, now: int): (out: seq<Lease>) {
    var step := AfterLookup(Newest(rows, KeyQuery(a)), a.action, now);
    if LegalTtl(a.ttl) && step.LazyExpire? then UpdateStatus(rows, step.id, EXPIRED, now, "expired on lookup") else rows
  }

  /** The gateway's decision when nothing else runs between its lookups. */
  function Decide(rows: seq<Lease>, a: Args, now: int): Decision {
    if !LegalTtl(a.ttl) then Refuses(LEASE_REJECTED)
    else
      var step := AfterLookup(Newest(rows, KeyQuery(a)), a.action, now);
      if step.Reuse? then Grants(step.lease)
      else
        var block := Blocks(Newest(LazilyExpired(rows, a, now), ResourceQuery(a)), a, now);
        if block.Some? then Refuses(block.value) else Asks
  }

  /** Why a whole request fails, if it does; `granted` is the host's answer if it is asked. */
  function Refusal(rows: seq<Lease>, a: Args, now: int, granted: bool): Option<Code> {
    match Decide(rows, a, now)
    case Grants(_) => None
    case Refuses(code) => Some(code)
    case Asks =>
      if !granted then Some(LEASE_REJECTED) else if !ValidResource(a.resource) then Some(INVALID_RESOURCE) else None
  }

  /** The lease it returns otherwise. */
  function LeaseFor(rows: seq<Lease>, a: Args, now: int, later: int, id: string): Lease {
    match Decide(rows, a, now)
    case Grants(l) => l
    case _ => NewLease(a, id, later)
  }

  /** The table after the request: at most one lazy expiry and one new row. */
  function RowsAfter(rows: seq<Lease>, a: Args, now: int, later: int, granted: bool, id: string): seq<Lease> {
    LazilyExpired(rows, a, now)
    + if Decide(rows, a, now).Asks? && Refusal(rows, a, now, granted).None? then [NewLease(a, id, later)] else []
  }

  /** The whole request, by its decision. */
  lemma RequestCases(rows: seq<Lease>, a: Args, now: int, later: int, granted: bool, id: string)
    ensures var d, out := Decide(rows, a, now), RowsAfter(rows, a, now, later, granted, id);
            var refusal := Refusal(rows, a, now, granted);
            && (!d.Asks? ==> out == LazilyExpired(rows, a, now))
            && (d.Asks? ==> out == LazilyExpired(rows, a, now) + if refusal.None? then [NewLease(a, id, later)] else [])
            && (d.Grants? ==> refusal.None? && LeaseFor(rows, a, now, later, id) == d.lease)
            && (d.Refuses? ==> refusal == Some(d.code))
            && (d.Asks? && refusal.None? ==>
                  granted && ValidResource(a.resource) && LeaseFor(rows, a, now, later, id) == NewLease(a, id, later))
  {
  }
}
