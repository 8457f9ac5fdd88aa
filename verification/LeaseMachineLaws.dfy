/** What each event of the lease machine does, told by columns and numbers. */
module LeaseMachineLaws {
  import opened Options
  import opened LeaseTable
  import opened LeaseRules
  import opened LeaseLaws
  import opened LeaseMachine

  lemma KeyRowIsNewest(rows: seq<Lease>, a: Args)
    ensures forall k :: KeyRow(rows, k, a) ==> Newest(rows, KeyQuery(a)) == Some(rows[k])
    ensures (forall k :: !KeyRow(rows, k, a)) ==> Newest(rows, KeyQuery(a)) == None
  {
    forall k | KeyRow(rows, k, a) ensures Newest(rows, KeyQuery(a)) == Some(rows[k]) { RowsAreQueried(rows, k, a); }
    RowsAreQueried(rows, NewestIx(rows, KeyQuery(a)), a);
  }

  lemma ResourceRowIsNewest(rows: seq<Lease>, a: Args)
    ensures forall k :: ResourceRow(rows, k, a) ==> Newest(rows, ResourceQuery(a)) == Some(rows[k])
    ensures (forall k :: !ResourceRow(rows, k, a)) ==> Newest(rows, ResourceQuery(a)) == None
  {
    forall k | ResourceRow(rows, k, a) ensures Newest(rows, ResourceQuery(a)) == Some(rows[k]) {
      RowsAreQueried(rows, k, a);
    }
    RowsAreQueried(rows, NewestIx(rows, ResourceQuery(a)), a);
  }

  /** A request is turned away at once exactly if its lifetime is outside 1 to 1800 seconds; else it
      reads the newest row of its instance, session, provider and resource. */
  lemma BeginLaw(s: State, c: nat, a: Args, t: State)
    requires Next(s, Begin(c, a)) == Some(t)
    ensures c in t.calls && t == s.(calls := s.calls[c := t.calls[c]]) && t.calls[c].args == a
    ensures t.calls[c].pc == Failed(LEASE_REJECTED) <==> a.ttl <= 0 || a.ttl > 1800
    ensures 1 <= a.ttl <= 1800 ==> t.calls[c].pc.Looked?
    ensures forall k :: 1 <= a.ttl <= 1800 && KeyRow(s.rows, k, a) ==> t.calls[c].pc == Looked(Some(s.rows[k]))
    ensures 1 <= a.ttl <= 1800 && (forall k :: !KeyRow(s.rows, k, a)) ==> t.calls[c].pc == Looked(None)
  {
    KeyRowIsNewest(s.rows, a);
  }

  /** A request that has read its lookup row reuses it, marks it, or reads the newest row of the
      resource. */
  lemma LookupLaw(s: State, c: nat, t: State)
    requires Next(s, Resume(c)) == Some(t) && c in s.calls && s.calls[c].pc.Looked?
    ensures c in t.calls && t.calls == s.calls[c := Call(s.calls[c].args, t.calls[c].pc)] && t.now == s.now
    ensures var a, hit := s.calls[c].args, s.calls[c].pc.hit;
            if hit.Some? && hit.value.status == ACTIVE && hit.value.expiresAt <= s.now then
              && t.calls[c].pc == Marked && |t.rows| == |s.rows|
              && (forall i :: 0 <= i < |s.rows| ==>
                    t.rows[i] == if s.rows[i].id != hit.value.id then s.rows[i]
                                 else s.rows[i].(status := EXPIRED, revokedAt := Some(s.now),
                                                 reason := Some("expired on lookup")))
            else if hit.Some? && hit.value.status == ACTIVE && a.action in hit.value.actions then
              t.calls[c].pc == Returned(hit.value, true) && t.rows == s.rows
            else
              t.calls[c].pc.Checking? && t.rows == s.rows
  {
  }

  /** Before its blocking checks a request reads the newest row of its provider and resource. */
  lemma RereadLaw(s: State, c: nat, t: State)
    requires Next(s, Resume(c)) == Some(t) && c in s.calls && c in t.calls && t.calls[c].pc.Checking?
    ensures t.rows == s.rows
    ensures forall n :: ResourceRow(s.rows, n, s.calls[c].args) ==> t.calls[c].pc.latest == Some(s.rows[n])
    ensures (forall n :: !ResourceRow(s.rows, n, s.calls[c].args)) ==> t.calls[c].pc.latest == None
  {
    ResourceRowIsNewest(s.rows, s.calls[c].args);
  }

  /** The blocking checks, code by code. */
  lemma BlockLaw(s: State, c: nat, t: State)
    requires Next(s, Resume(c)) == Some(t) && c in s.calls && s.calls[c].pc.Checking?
    ensures c in t.calls && t == s.(calls := s.calls[c := Call(s.calls[c].args, t.calls[c].pc)])
    ensures var a, latest, pc := s.calls[c].args, s.calls[c].pc.latest, t.calls[c].pc;
            if latest.None? then pc == Awaiting
            else
              var l := latest.value;
              && (pc == Failed(LEASE_REVOKED) <==> l.status == REVOKED && l.sess == a.sess)
              && (pc == Failed(LEASE_SESSION_MISMATCH) <==>
                    l.status == ACTIVE && s.now < l.expiresAt && l.sess != a.sess)
              && (pc == Failed(LEASE_CAPSULE_MISMATCH) <==>
                    l.status == ACTIVE && s.now < l.expiresAt && l.sess == a.sess && l.inst != a.inst)
              && (pc != Awaiting ==>
                    pc.Failed? && pc.code in {LEASE_REVOKED, LEASE_SESSION_MISMATCH, LEASE_CAPSULE_MISMATCH})
  {
  }

  /** The host's answer, with what it was shown. */
  lemma AnswerLaw(s: State, c: nat, allowed: bool, t: State)
    requires Next(s, if allowed then Allow(c) else Reject(c)) == Some(t)
    ensures c in s.calls && c in t.calls && t.rows == s.rows && t.now == s.now
    ensures var a := s.calls[c].args;
            if allowed then
              && t.calls[c] == Call(a, Approved(|s.grants|))
              && t.grants == s.grants + [Grant(c, a.capsule, a.provider, a.resource, a.action, a.ttl, a.tool)]
            else t.calls[c] == Call(a, Failed(LEASE_REJECTED)) && t.grants == s.grants
  {
  }

  /** The row an approved request adds. */
  lemma IssueLaw(s: State, c: nat, id: string, t: State)
    requires Next(s, Issue(c, id)) == Some(t)
    ensures c in s.calls && c in t.calls && t.now == s.now && t.grants == s.grants
    ensures var a := s.calls[c].args;
            if ':' in a.resource then
              var l := Lease(id, a.capsule, a.inst, a.sess, a.provider, a.resource, {a.action},
                             s.now, s.now + a.ttl * 1000000, ACTIVE, None, None);
              t.rows == s.rows + [l] && t.calls[c] == Call(a, Returned(l, false))
            else t.rows == s.rows && t.calls[c] == Call(a, Failed(INVALID_RESOURCE))
  {
  }

  /** A single revocation. */
  lemma RevokeLaw(s: State, id: string, t: State)
    requires Next(s, Revoke(id)) == Some(t)
    ensures t == s.(rows := t.rows) && |t.rows| == |s.rows|
    ensures forall i :: 0 <= i < |s.rows| ==>
              t.rows[i] == if s.rows[i].id != id then s.rows[i]
                           else s.rows[i].(status := REVOKED, revokedAt := Some(s.now), reason := Some("manual revoke"))
  {
  }

  /** A bulk revocation. */
  lemma RevokeAllLaw(s: State, target: Target, t: State)
    requires Next(s, RevokeAll(target)) == Some(t)
    ensures t == s.(rows := t.rows) && |t.rows| == |s.rows|
    ensures forall i :: 0 <= i < |s.rows| ==>
              t.rows[i]
              == if s.rows[i].status == ACTIVE
                    && (target == OfSession(s.rows[i].sess) || target == OfCapsule(s.rows[i].capsule))
                 then s.rows[i].(status := REVOKED, revokedAt := Some(s.now),
                                 reason := Some(if target.OfSession? then "session revoked" else "capsule revoked"))
                 else s.rows[i]
  {
  }
}
