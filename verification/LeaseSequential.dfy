/** Runs in which two requests for the same provider and resource never overlap.

  The clock, revocations and requests for other resources may still move between any two
  segments of a request.
 */
module LeaseSequential {
  import opened Options
  import opened LeaseTable
  import opened LeaseRules
  import opened LeaseMachine

  /** No request for this resource is in flight. */
  ghost predicate Quiet(s: State, q: Query) {
    forall c :: InFlight(s, c) ==> ResourceQuery(s.calls[c].args) != q
  }

  ghost predicate Sequential(s: State, e: Event) {
    e.Begin? && LegalTtl(e.args.ttl) ==> Quiet(s, ResourceQuery(e.args))
  }

  ghost predicate SeqTrace(ss: seq<State>, es: seq<Event>) {
    Trace(ss, es) && forall i {:trigger es[i]} :: 0 <= i < |es| ==> Sequential(ss[i], es[i])
  }

  /** Nobody else can be using the resource. */
  predicate Free(rows: seq<Lease>, now: int, a: Args) {
    var n := NewestIx(rows, ResourceQuery(a));
    n < 0 || rows[n].status != ACTIVE || rows[n].expiresAt <= now || Selects(KeyQuery(a), rows[n])
  }

  /** A usable lease is the newest row of its whole resource. */
  ghost predicate Exclusive(rows: seq<Lease>, now: int) {
    forall k :: Usable(rows, now, k) ==> NewestIx(rows, ResourceOf(rows[k])) == k
  }

  lemma ExclusiveEvolves(a: seq<Lease>, b: seq<Lease>, t: int, u: int)
    requires Evolves(a, b) && |a| == |b| && t <= u && Exclusive(a, t)
    ensures Exclusive(b, u)
  {
    forall k | Usable(b, u, k) ensures NewestIx(b, ResourceOf(b[k])) == k {
      if !Usable(a, t, k) { UnusableForever(a, b, t, u, k); }
      assert RowEvolves(a[k], b[k]);
      NewestFramed(a, b, ResourceOf(b[k]));
    }
  }

  /** One insert keeps exclusivity if and only if the resource is free to its caller at that moment. */
  lemma ExclusiveInsert(rows: seq<Lease>, now: int, a: Args, id: string)
    requires Exclusive(rows, now) && LegalTtl(a.ttl)
    ensures Exclusive(rows + [NewLease(a, id, now)], now) <==> Free(rows, now, a)
  {
    var l := NewLease(a, id, now);
    var b := rows + [l];
    forall k | Free(rows, now, a) && Usable(b, now, k) ensures NewestIx(b, ResourceOf(b[k])) == k {
      NewestAppended(rows, l, KeyOf(b[k]));
      NewestAppended(rows, l, ResourceOf(b[k]));
      if k < |rows| {
        assert b[k] == rows[k] && Usable(rows, now, k);
      }
    }
    if !Free(rows, now, a) { InsertShares(rows, now, a, id); }
  }

  lemma InsertShares(rows: seq<Lease>, now: int, a: Args, id: string)
    requires !Free(rows, now, a)
    ensures !Exclusive(rows + [NewLease(a, id, now)], now)
  {
    var l, n := NewLease(a, id, now), NewestIx(rows, ResourceQuery(a));
    var b := rows + [l];
    NewestAppended(rows, l, KeyOf(rows[n]));
    NewestAppended(rows, l, ResourceOf(rows[n]));
    assert b[n] == rows[n] && Usable(b, now, n);
  }

  lemma OnlyIssueInserts(s: State, e: Event, t: State)
    requires Next(s, e) == Some(t) && |t.rows| != |s.rows|
    ensures e.Issue? && InFlight(s, e.c) && s.calls[e.c].pc.Approved?
    ensures ValidResource(s.calls[e.c].args.resource)
    ensures t.rows == s.rows + [NewLease(s.calls[e.c].args, e.id, s.now)] && t.now == s.now
  {
  }

  // ---------- The gateway and the validator agree ----------

  /** The validator's answers for which the gateway asks the host. */
  predicate AsksOn(v: Verdict, rows: seq<Lease>, a: Args) {
    && v.Deny?
    && var n := NewestIx(rows, ResourceQuery(a));
    && (|| v.code == LEASE_REQUIRED || v.code == LEASE_EXPIRED || v.code == CAPABILITY_DENIED
        || (v.code == LEASE_REVOKED && n >= 0 && rows[n].sess != a.sess))
  }

  /** The decision and the verdict settle each other.  The gateway looks at the session first, the
      validator at the instance: a caller wrong in both is told one by each. */
  predicate Agree(d: Decision, v: Verdict, rows: seq<Lease>, a: Args) {
    var n := NewestIx(rows, ResourceQuery(a));
    && (d.Grants? <==> v.Pass?)
    && (d.Grants? ==> d.lease == v.lease)
    && (d.Asks? <==> AsksOn(v, rows, a))
    && (d == Refuses(LEASE_REVOKED) ==> v == Deny(LEASE_REVOKED))
    && (d == Refuses(LEASE_CAPSULE_MISMATCH) ==> v == Deny(LEASE_CAPSULE_MISMATCH))
    && (d == Refuses(LEASE_SESSION_MISMATCH) ==>
          n >= 0 && v == Deny(if rows[n].inst != a.inst then LEASE_CAPSULE_MISMATCH else LEASE_SESSION_MISMATCH))
  }

  lemma LazyExpiryKeepsNewest(rows: seq<Lease>, a: Args, now: int)
    requires WellFormed(rows)
    ensures var q := ResourceQuery(a);
            var n := NewestIx(rows, q);
            var out := LazilyExpired(rows, a, now);
            && Evolves(rows, out) && |out| == |rows| && NewestIx(out, q) == n
            && (n >= 0 ==>
                  || out[n] == rows[n]
                  || (out[n].status == EXPIRED && rows[n].status == ACTIVE && rows[n].expiresAt <= now
                      && SameBinding(rows[n], out[n])))
  {
    var out := LazilyExpired(rows, a, now);
    var hit := NewestIx(rows, KeyQuery(a));
    assert forall i :: 0 <= i < |rows| && out[i] != rows[i] ==> i == hit;
    NewestFramed(rows, out, ResourceQuery(a));
  }

  /** On a table in which usable leases are exclusive and EXPIRED rows are past their time, the
      gateway's decision is settled by the validator's verdict, and the other way round. */
  lemma DecidersAgreeOn(rows: seq<Lease>, now: int, a: Args)
    requires WellFormed(rows) && Exclusive(rows, now) && LegalTtl(a.ttl)
    requires forall i :: 0 <= i < |rows| && rows[i].status == EXPIRED ==> rows[i].expiresAt <= now
    ensures Agree(Decide(rows, a, now), Validate(rows, a, now), rows, a)
  {
    UsableIsNewest(rows, now, a);
    BlocksIgnoreLazyExpiry(rows, a, now);
    PlainlyAgree(rows, now, a);
  }

  /** The decision, with the blocking checks made on the table as it was. */
  function DecidePlainly(rows: seq<Lease>, a: Args, now: int): Decision {
    var step := AfterLookup(Newest(rows, KeyQuery(a)), a.action, now);
    var block := Blocks(Newest(rows, ResourceQuery(a)), a, now);
    if step.Reuse? then Grants(step.lease) else if block.Some? then Refuses(block.value) else Asks
  }

  lemma PlainlyAgree(rows: seq<Lease>, now: int, a: Args)
    requires Exclusive(rows, now)
    requires forall i :: 0 <= i < |rows| && rows[i].status == EXPIRED ==> rows[i].expiresAt <= now
    ensures Agree(DecidePlainly(rows, a, now), Validate(rows, a, now), rows, a)
  {
    UsableIsNewest(rows, now, a);
  }

  /** The lazy expiry of the lookup does not change what the blocking checks say. */
  lemma BlocksIgnoreLazyExpiry(rows: seq<Lease>, a: Args, now: int)
    requires WellFormed(rows)
    ensures LegalTtl(a.ttl) ==> Decide(rows, a, now) == DecidePlainly(rows, a, now)
  {
    LazyExpiryKeepsNewest(rows, a, now);
    var n, out := NewestIx(rows, ResourceQuery(a)), LazilyExpired(rows, a, now);
    assert n >= 0 ==> Blocks(Some(out[n]), a, now) == Blocks(Some(rows[n]), a, now);
  }

  /** A usable row of the key is the newest of the resource; the newest of the resource is the
      newest of the key if it belongs to it. */
  lemma UsableIsNewest(rows: seq<Lease>, now: int, a: Args)
    requires Exclusive(rows, now)
    ensures var n, k := NewestIx(rows, ResourceQuery(a)), NewestIx(rows, KeyQuery(a));
            && (k >= 0 && rows[k].status == ACTIVE && now < rows[k].expiresAt ==> n == k)
            && (n >= 0 && Selects(KeyQuery(a), rows[n]) ==> n == k)
  {
    var k := NewestIx(rows, KeyQuery(a));
    if k >= 0 && rows[k].status == ACTIVE && now < rows[k].expiresAt {
      assert KeyOf(rows[k]) == KeyQuery(a) && ResourceOf(rows[k]) == ResourceQuery(a);
      assert Usable(rows, now, k);
    }
  }

}
