/** When a revocation stays in force, and when the code undoes it.

  Once the newest lease of a resource is REVOKED, its session is meant to stay locked out until
  another session is issued a lease there.  The code keeps that promise exactly when no request
  already in flight still acts on what it read before the revocation.
 */
module LeaseRevocation {
  import opened Options
  import opened LeaseTable
  import opened LeaseRules
  import opened LeaseMachine
  import opened LeaseInvariant
  import opened LeaseSequential
  import opened LeasePaths
  import opened LeaseExclusivity

  /** Row k is the newest of its resource and is revoked. */
  predicate LockedOut(s: State, k: nat) {
    k < |s.rows| && s.rows[k].status == REVOKED && NewestIx(s.rows, ResourceOf(s.rows[k])) == k
  }

  /** The first lease issued on the resource after row k belongs to another session. */
  ghost predicate Superseded(s: State, k: nat) {
    k < |s.rows| &&
    exists j :: k < j < |s.rows| && Selects(ResourceOf(s.rows[k]), s.rows[j]) && s.rows[j].sess != s.rows[k].sess
                && forall i :: k < i < j ==> !Selects(ResourceOf(s.rows[k]), s.rows[i])
  }

  ghost predicate StillInForce(s: State, k: nat) {
    LockedOut(s, k) || Superseded(s, k)
  }

  /** The call acts on something it read, or was granted, before row k was revoked: it may mark
      row k EXPIRED, or go on to insert a lease for row k's session. */
  predicate Stale(s: State, k: nat, call: Call)
    requires k < |s.rows|
  {
    var r := s.rows[k];
    match call.pc
    case Looked(hit) => hit.Some? && hit.value.status == ACTIVE && hit.value.id == r.id
    case Checking(latest) =>
      ResourceQuery(call.args) == ResourceOf(r) && call.args.sess == r.sess
      && !(latest.Some? && latest.value.status == REVOKED && latest.value.sess == r.sess)
    case Awaiting => ResourceQuery(call.args) == ResourceOf(r) && call.args.sess == r.sess
    case Approved(_) => ResourceQuery(call.args) == ResourceOf(r) && call.args.sess == r.sess
    case _ => false
  }

  ghost predicate NoStaleCall(s: State, k: nat)
    requires k < |s.rows|
  {
    forall c :: c in s.calls ==> !Stale(s, k, s.calls[c])
  }

  // ---------- No stale call: the revocation stays in force ----------

  ghost predicate Firm(s: State, k: nat) {
    k < |s.rows| && (Superseded(s, k) || (LockedOut(s, k) && NoStaleCall(s, k)))
  }

  lemma SupersededStep(s: State, e: Event, t: State, k: nat)
    requires Next(s, e) == Some(t) && Superseded(s, k)
    ensures Superseded(t, k)
  {
    StepShape(s, e, t);
    assert forall i :: 0 <= i < |s.rows| ==> RowEvolves(s.rows[i], t.rows[i]);
    var j :| k < j < |s.rows| && Selects(ResourceOf(s.rows[k]), s.rows[j]) && s.rows[j].sess != s.rows[k].sess
             && forall i :: k < i < j ==> !Selects(ResourceOf(s.rows[k]), s.rows[i]);
    assert Selects(ResourceOf(t.rows[k]), t.rows[j]);
  }

  lemma InsertSupersedes(s: State, c: nat, id: string, k: nat)
    requires c in s.calls && s.calls[c].pc.Approved? && ValidResource(s.calls[c].args.resource)
    requires LockedOut(s, k) && NoStaleCall(s, k)
    requires ResourceQuery(s.calls[c].args) == ResourceOf(s.rows[k])
    ensures Superseded(NextIssue(s, c, id), k)
  {
    var t := NextIssue(s, c, id);
    assert !Stale(s, k, s.calls[c]);
    var j := |s.rows|;
    assert forall i :: 0 <= i < j ==> t.rows[i] == s.rows[i];
    assert Selects(ResourceOf(t.rows[k]), t.rows[j]) && t.rows[j].sess != t.rows[k].sess;
  }

  lemma RowStaysRevoked(s: State, e: Event, t: State, k: nat)
    requires Next(s, e) == Some(t) && |t.rows| == |s.rows|
    requires LockedOut(s, k) && NoStaleCall(s, k)
    ensures t.rows[k].status == REVOKED
  {
    if e.Resume? { assert !Stale(s, k, s.calls[e.c]); }
  }

  lemma CallStaysFresh(s: State, e: Event, t: State, k: nat, c: nat)
    requires Next(s, e) == Some(t) && |t.rows| == |s.rows| && c in t.calls
    requires LockedOut(s, k) && NoStaleCall(s, k) && WellFormed(s.rows)
    ensures !Stale(t, k, t.calls[c])
  {
    StepShape(s, e, t);
    assert RowEvolves(s.rows[k], t.rows[k]);
    assert c in s.calls ==> !Stale(s, k, s.calls[c]);
    if e.Begin? && e.c == c {
      BeginStaysFresh(s, k, c, e.args);
    } else if e == Resume(c) {
      ResumeStaysFresh(s, t, k, c);
    } else {
      OtherStaysFresh(s, e, t, k, c);
    }
  }

  lemma OtherStaysFresh(s: State, e: Event, t: State, k: nat, c: nat)
    requires Next(s, e) == Some(t) && c in t.calls && !(e.Begin? && e.c == c) && e != Resume(c)
    requires k < |s.rows| && k < |t.rows| && RowEvolves(s.rows[k], t.rows[k])
    requires c in s.calls ==> !Stale(s, k, s.calls[c])
    ensures !Stale(t, k, t.calls[c])
  {
  }

  lemma BeginStaysFresh(s: State, k: nat, c: nat, a: Args)
    requires LockedOut(s, k) && WellFormed(s.rows)
    ensures !Stale(NextBegin(s, c, a), k, NextBegin(s, c, a).calls[c])
  {
    var n := NewestIx(s.rows, KeyQuery(a));
    if n >= 0 && s.rows[n].id == s.rows[k].id { assert n == k; }
  }

  lemma ResumeStaysFresh(s: State, t: State, k: nat, c: nat)
    requires c in s.calls && Next(s, Resume(c)) == Some(t)
    requires LockedOut(s, k) && !Stale(s, k, s.calls[c])
    ensures |t.rows| == |s.rows| && t.rows[k] == s.rows[k]
    ensures !Stale(t, k, t.calls[c])
  {
    var a := s.calls[c].args;
    if t.calls[c].pc.Checking? && ResourceQuery(a) == ResourceOf(s.rows[k]) {
      assert t.calls[c].pc.latest == Some(s.rows[k]);
    }
  }

  lemma FirmStep(s: State, e: Event, t: State, k: nat)
    requires Inv(s) && Next(s, e) == Some(t) && Firm(s, k)
    ensures Firm(t, k)
  {
    StepShape(s, e, t);
    if Superseded(s, k) {
      SupersededStep(s, e, t, k);
    } else if |t.rows| == |s.rows| {
      RowStaysRevoked(s, e, t, k);
      assert RowEvolves(s.rows[k], t.rows[k]);
      NewestFramed(s.rows, t.rows, ResourceOf(s.rows[k]));
      forall c | c in t.calls ensures !Stale(t, k, t.calls[c]) { CallStaysFresh(s, e, t, k, c); }
    } else {
      FirmInsert(s, e, t, k);
    }
  }

  lemma FirmInsert(s: State, e: Event, t: State, k: nat)
    requires Next(s, e) == Some(t) && |t.rows| != |s.rows|
    requires LockedOut(s, k) && NoStaleCall(s, k)
    ensures Firm(t, k)
  {
    OnlyIssueInserts(s, e, t);
    var a := s.calls[e.c].args;
    if ResourceQuery(a) == ResourceOf(s.rows[k]) {
      InsertSupersedes(s, e.c, e.id, k);
    } else {
      NewestAppended(s.rows, NewLease(a, e.id, s.now), ResourceOf(s.rows[k]));
      forall c | c in t.calls ensures !Stale(t, k, t.calls[c]) {
        assert c in s.calls ==> !Stale(s, k, s.calls[c]);
      }
    }
  }

  /** However the run goes on, with requests overlapping or not, the revocation stays in force. */
  lemma {:induction false} FirmStaysFirm(ss: seq<State>, es: seq<Event>, i: nat, j: nat, k: nat)
    requires Trace(ss, es) && i <= j <= |es| && Inv(ss[i]) && Firm(ss[i], k)
    ensures Inv(ss[j]) && Firm(ss[j], k)
    decreases j
  {
    if i < j {
      FirmStaysFirm(ss, es, i, j - 1, k);
      assert Next(ss[j - 1], es[j - 1]) == Some(ss[j]);
      InvStep(ss[j - 1], es[j - 1], ss[j]);
      FirmStep(ss[j - 1], es[j - 1], ss[j], k);
    }
  }

  // ---------- ... and the session's later requests fail ----------

  /** Where a request by the locked-out session can be: never waiting for or holding an approval,
      never returning a lease, and failed only with LEASE_REVOKED. */
  predicate Rebuffed(s: State, c: nat, r: Lease) {
    && c in s.calls && ResourceQuery(s.calls[c].args) == ResourceOf(r) && s.calls[c].args.sess == r.sess
    && LegalTtl(s.calls[c].args.ttl)
    ==>
      match s.calls[c].pc
      case Looked(hit) => hit.Some? ==> hit.value.status != ACTIVE || hit.value.expiresAt <= s.now
      case Marked => true
      case Checking(latest) => latest.Some? && latest.value.status == REVOKED && latest.value.sess == r.sess
      case Failed(code) => code == LEASE_REVOKED
      case _ => false
  }

  lemma RebuffedStep(s: State, e: Event, t: State, c: nat, k: nat)
    requires Next(s, e) == Some(t) && ExclusiveNow(s)
    requires LockedOut(s, k) && k < |t.rows| && SameBinding(s.rows[k], t.rows[k])
    requires Rebuffed(s, c, s.rows[k])
    ensures Rebuffed(t, c, t.rows[k])
  {
    if e.Begin? && e.c == c {
      RebuffedBegin(s, c, e.args, k);
    } else if e == Resume(c) {
      RebuffedResume(s, t, c, k);
    } else {
      RebuffedKept(s, e, t, c, s.rows[k]);
    }
  }

  lemma RebuffedKept(s: State, e: Event, t: State, c: nat, r: Lease)
    requires Next(s, e) == Some(t) && Rebuffed(s, c, r)
    requires !(e.Begin? && e.c == c) && e != Resume(c)
    ensures Rebuffed(t, c, r)
  {
  }

  /** A usable lease would be the newest of the resource, and that one is revoked. */
  lemma RebuffedBegin(s: State, c: nat, a: Args, k: nat)
    requires ExclusiveNow(s) && LockedOut(s, k)
    ensures Rebuffed(NextBegin(s, c, a), c, s.rows[k])
  {
    if ResourceQuery(a) == ResourceOf(s.rows[k]) { UsableIsNewest(s.rows, s.now, a); }
  }

  lemma RebuffedResume(s: State, t: State, c: nat, k: nat)
    requires c in s.calls && Next(s, Resume(c)) == Some(t)
    requires LockedOut(s, k) && Rebuffed(s, c, s.rows[k])
    ensures Rebuffed(t, c, s.rows[k])
  {
    var a := s.calls[c].args;
    if t.calls[c].pc.Checking? && ResourceQuery(a) == ResourceOf(s.rows[k]) {
      assert t.calls[c].pc.latest == Some(s.rows[k]);
    }
  }

  lemma SupersededBackwards(ss: seq<State>, es: seq<Event>, i: nat, j: nat, k: nat)
    requires Trace(ss, es) && i <= j <= |es| && !Superseded(ss[j], k)
    ensures !Superseded(ss[i], k)
    decreases j
  {
    if i < j {
      assert Next(ss[j - 1], es[j - 1]) == Some(ss[j]);
      if Superseded(ss[j - 1], k) { SupersededStep(ss[j - 1], es[j - 1], ss[j], k); }
      SupersededBackwards(ss, es, i, j - 1, k);
    }
  }

  /** In a sequential run, once the revocation is firm, every request the session begins on the
      resource, from any instance and after any delay, is rebuffed until it is superseded. */
  lemma {:induction false} LaterRequestsRebuffed(ss: seq<State>, es: seq<Event>, i: nat, j: nat, k: nat, c: nat)
    requires SeqTrace(ss, es) && Init(ss[0]) && i <= j <= |es|
    requires LockedOut(ss[i], k) && NoStaleCall(ss[i], k) && c !in ss[i].calls
    requires !Superseded(ss[j], k)
    ensures LockedOut(ss[j], k) && Rebuffed(ss[j], c, ss[j].rows[k])
    decreases j
  {
    LockedOutAlong(ss, es, i, j, k);
    if i < j {
      SupersededBackwards(ss, es, j - 1, j, k);
      LaterRequestsRebuffed(ss, es, i, j - 1, k, c);
      RebuffedAlong(ss, es, j, k, c);
    }
  }

  lemma LockedOutAlong(ss: seq<State>, es: seq<Event>, i: nat, j: nat, k: nat)
    requires SeqTrace(ss, es) && Init(ss[0]) && i <= j <= |es|
    requires LockedOut(ss[i], k) && NoStaleCall(ss[i], k) && !Superseded(ss[j], k)
    ensures LockedOut(ss[j], k)
  {
    InvAlways(ss, es, i);
    FirmStaysFirm(ss, es, i, j, k);
  }

  lemma RebuffedAlong(ss: seq<State>, es: seq<Event>, j: nat, k: nat, c: nat)
    requires SeqTrace(ss, es) && Init(ss[0]) && 0 < j <= |es|
    requires LockedOut(ss[j - 1], k) && Rebuffed(ss[j - 1], c, ss[j - 1].rows[k])
    ensures k < |ss[j].rows| && Rebuffed(ss[j], c, ss[j].rows[k])
  {
    SeqInvAlways(ss, es, j - 1);
    assert Next(ss[j - 1], es[j - 1]) == Some(ss[j]);
    StepShape(ss[j - 1], es[j - 1], ss[j]);
    assert RowEvolves(ss[j - 1].rows[k], ss[j].rows[k]);
    RebuffedStep(ss[j - 1], es[j - 1], ss[j], c, k);
  }

  /** A rebuffed request was granted no approval and inserted nothing; if it is over, it failed
      with LEASE_REVOKED. */
  lemma RebuffedRequestDoesNothing(ss: seq<State>, es: seq<Event>, i: nat, j: nat, k: nat, c: nat)
    requires SeqTrace(ss, es) && Init(ss[0]) && i <= j <= |es|
    requires LockedOut(ss[i], k) && NoStaleCall(ss[i], k) && !Superseded(ss[j], k)
    requires c !in ss[i].calls && c in ss[j].calls && LegalTtl(ss[j].calls[c].args.ttl)
    requires ResourceQuery(ss[j].calls[c].args) == ResourceOf(ss[i].rows[k])
    requires ss[j].calls[c].args.sess == ss[i].rows[k].sess
    ensures forall g :: 0 <= g < |ss[j].grants| ==> ss[j].grants[g].call != c
    ensures Finished(ss[j].calls[c].pc) ==> ss[j].calls[c].pc == Failed(LEASE_REVOKED)
  {
    LaterRequestsRebuffed(ss, es, i, j, k, c);
    RunShape(ss, es, i, j);
    assert RowEvolves(ss[i].rows[k], ss[j].rows[k]);
    InvAlways(ss, es, j);
  }

  // ---------- A stale call: some continuation undoes the revocation ----------

  /** Some request of the session that row r had locked out is not refused any more. */
  ghost predicate Readmits(s: State, r: Lease) {
    exists a: Args ::
      ResourceQuery(a) == ResourceOf(r) && a.sess == r.sess && LegalTtl(a.ttl) && !Decide(s.rows, a, s.now).Refuses?
  }

  /** Without any new request, the calls in flight can end with the revocation undone. */
  ghost predicate CanBeUndone(s: State, k: nat)
    requires k < |s.rows|
  {
    exists t :: Path(s, t, s.calls.Keys) && !StillInForce(t, k) && Readmits(t, s.rows[k])
  }

  /** The counterpart: while it is in force and usable leases are exclusive, every one is refused. */
  lemma LockedOutRefuses(s: State, k: nat, a: Args)
    requires RowsOk(s) && ExclusiveNow(s) && LockedOut(s, k)
    requires ResourceQuery(a) == ResourceOf(s.rows[k]) && a.sess == s.rows[k].sess && LegalTtl(a.ttl)
    ensures Decide(s.rows, a, s.now) == Refuses(LEASE_REVOKED)
  {
    UsableIsNewest(s.rows, s.now, a);
    BlocksIgnoreLazyExpiry(s.rows, a, s.now);
  }

  /** A call that goes on to its insert: the newest lease is its own. */
  lemma UndoneByInsert(s: State, k: nat, c: nat)
    requires Inv(s) && LockedOut(s, k) && c in s.calls && !s.calls[c].pc.Looked? && Stale(s, k, s.calls[c])
    ensures CanBeUndone(s, k)
  {
    var cs := s.calls.Keys;
    PathHere(s, cs);
    assert Alive(s.calls[c]);
    var t := ToApproval(s, s, cs, c);
    var rows := t.rows;
    assert NewestIx(rows, ResourceOf(s.rows[k])) == k by { NewestFramed(s.rows, rows, ResourceOf(s.rows[k])); }
    assert RowEvolves(s.rows[k], rows[k]);
    PathKeepsInv(s, t, cs);
    assert LegalTtl(t.calls[c].args.ttl);
    t := ToInsert(s, t, cs, c);
    OwnInsert(rows, s.calls[c].args, UnusedId(rows), t.now, k);
    assert !Superseded(t, k);
  }

  lemma OwnInsert(rows: seq<Lease>, a: Args, id: string, now: int, k: nat)
    requires k < |rows| && NewestIx(rows, ResourceQuery(a)) == k && ResourceOf(rows[k]) == ResourceQuery(a)
    requires LegalTtl(a.ttl)
    ensures var b := rows + [NewLease(a, id, now)];
            && NewestIx(b, ResourceQuery(a)) == |rows| && Decide(b, a, now).Grants?
            && forall i :: k < i < |rows| ==> !Selects(ResourceQuery(a), b[i])
  {
    var l := NewLease(a, id, now);
    NewestAppended(rows, l, ResourceQuery(a));
    NewestAppended(rows, l, KeyQuery(a));
    OwnGrants(rows + [l], a, id, now);
  }

  lemma OwnGrants(rows: seq<Lease>, a: Args, id: string, now: int)
    requires Newest(rows, KeyQuery(a)) == Some(NewLease(a, id, now)) && LegalTtl(a.ttl)
    ensures Decide(rows, a, now).Grants?
  {
    assert AfterLookup(Newest(rows, KeyQuery(a)), a.action, now) == Reuse(NewLease(a, id, now));
  }

  lemma ExpiredAdmits(rows: seq<Lease>, a: Args, now: int)
    requires WellFormed(rows) && LegalTtl(a.ttl)
    requires var n := NewestIx(rows, ResourceQuery(a)); n >= 0 && rows[n].status == EXPIRED
    ensures !Decide(rows, a, now).Refuses?
  {
    BlocksIgnoreLazyExpiry(rows, a, now);
  }

  lemma NotInForce(t: State, k: nat)
    requires k < |t.rows| && t.rows[k].status == EXPIRED && NewestIx(t.rows, ResourceOf(t.rows[k])) == k
    ensures !StillInForce(t, k)
  {
  }

  lemma ExpiredReadmits(t: State, r: Lease)
    requires WellFormed(t.rows)
    requires var n := NewestIx(t.rows, ResourceOf(r)); n >= 0 && t.rows[n].status == EXPIRED
    ensures Readmits(t, r)
  {
    var a := Args(r.capsule, r.inst, r.sess, r.provider, r.resource, "", 1, None);
    ExpiredAdmits(t.rows, a, t.now);
    assert ResourceQuery(a) == ResourceOf(r) && LegalTtl(a.ttl);
  }

  lemma PathKeepsWellFormed(s: State, t: State, cs: set<nat>)
    requires Path(s, t, cs) && Inv(s)
    ensures WellFormed(t.rows)
  {
    PathKeepsInv(s, t, cs);
  }

  /** A call that saw row k ACTIVE marks it EXPIRED, over the revocation. */
  lemma UndoneByExpiry(s: State, k: nat, c: nat)
    requires Inv(s) && LockedOut(s, k) && c in s.calls && s.calls[c].pc.Looked? && Stale(s, k, s.calls[c])
    ensures CanBeUndone(s, k)
  {
    var cs, q := s.calls.Keys, ResourceOf(s.rows[k]);
    PathHere(s, cs);
    var t := Soften(s, s, cs, c, q);
    PathKeepsWellFormed(s, t, cs);
    ExpiredReadmits(t, s.rows[k]);
    assert RowEvolves(s.rows[k], t.rows[k]);
    NotInForce(t, k);
  }

  /** The exact condition: in every state of every run, a revocation of the newest lease stays in
      force in every sequential continuation if and only if no call in flight is stale; and if one
      is, some continuation lets the locked-out session in again. */
  lemma RevocationHoldsExactly(s: State, k: nat)
    requires Inv(s) && LockedOut(s, k)
    ensures NoStaleCall(s, k) <==>
            (forall ss, es :: SeqTrace(ss, es) && ss[0] == s ==> StillInForce(ss[|es|], k))
    ensures !NoStaleCall(s, k) ==>
            exists ss, es ::
              SeqTrace(ss, es) && ss[0] == s && Readmits(ss[|es|], s.rows[k]) && !StillInForce(ss[|es|], k)
  {
    if NoStaleCall(s, k) {
      forall ss, es | SeqTrace(ss, es) && ss[0] == s ensures StillInForce(ss[|es|], k) {
        FirmStaysFirm(ss, es, 0, |es|, k);
      }
    } else {
      var c :| c in s.calls && Stale(s, k, s.calls[c]);
      if s.calls[c].pc.Looked? { UndoneByExpiry(s, k, c); } else { UndoneByInsert(s, k, c); }
      var t :| Path(s, t, s.calls.Keys) && !StillInForce(t, k) && Readmits(t, s.rows[k]);
      var ss, es := PathIsSequential(s, t);
    }
  }
}
