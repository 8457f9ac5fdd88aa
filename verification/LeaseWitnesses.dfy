/** Concrete runs showing that the conditions of the sequential results are needed. */
module LeaseWitnesses {
  import opened Options
  import opened LeaseTable
  import opened LeaseRules
  import opened LeaseMachine
  import opened LeaseSequential
  import opened LeaseRevocation

  const START: State := State(0, [], map[], [], [], {})

  /** A run and the state it ends in. */
  ghost predicate Reaches(ss: seq<State>, es: seq<Event>, t: State) {
    Trace(ss, es) && Init(ss[0]) && ss[|es|] == t
  }

  lemma Extend(ss: seq<State>, es: seq<Event>, s: State, e: Event, t: State) returns (ss': seq<State>, es': seq<Event>)
    requires Reaches(ss, es, s) && Next(s, e) == Some(t)
    ensures ss' == ss + [t] && es' == es + [e] && Reaches(ss', es', t)
    ensures SeqTrace(ss, es) && Sequential(s, e) ==> SeqTrace(ss', es')
  {
    ss', es' := ss + [t], es + [e];
    TraceExtends(ss, es, e, t);
    if SeqTrace(ss, es) && Sequential(s, e) {
      forall i | 0 <= i < |es'| ensures Sequential(ss'[i], es'[i]) {
        if i < |es| { assert es'[i] == es[i] && ss'[i] == ss[i]; }
      }
    }
  }

  /** One call starts while nothing is stored, and gets as far as its approval. */
  lemma ToApproval(ss: seq<State>, es: seq<Event>, s: State, c: nat, a: Args)
    returns (ss': seq<State>, es': seq<Event>, t: State)
    requires Reaches(ss, es, s) && s.rows == [] && c !in s.calls && LegalTtl(a.ttl)
    ensures Reaches(ss', es', t)
    ensures t.rows == [] && t.now == s.now && t.calls == s.calls[c := Call(a, Approved(|s.grants|))]
    ensures |t.grants| == |s.grants| + 1
    ensures SeqTrace(ss, es) && Quiet(s, ResourceQuery(a)) ==> SeqTrace(ss', es')
  {
    var u;
    ss', es', u := ToQuestion(ss, es, s, c, a);
    t := NextAllow(u, c);
    ss', es' := Extend(ss', es', u, Allow(c), t);
    assert t.calls == s.calls[c := Call(a, Approved(|s.grants|))];
  }

  lemma ToQuestion(ss: seq<State>, es: seq<Event>, s: State, c: nat, a: Args)
    returns (ss': seq<State>, es': seq<Event>, t: State)
    requires Reaches(ss, es, s) && s.rows == [] && c !in s.calls && LegalTtl(a.ttl)
    ensures Reaches(ss', es', t) && t == s.(calls := s.calls[c := Call(a, Awaiting)])
    ensures SeqTrace(ss, es) && Quiet(s, ResourceQuery(a)) ==> SeqTrace(ss', es')
  {
    var s1 := s.(calls := s.calls[c := Call(a, Looked(None))]);
    var s2 := s.(calls := s.calls[c := Call(a, Checking(None))]);
    t := s.(calls := s.calls[c := Call(a, Awaiting)]);
    ss', es' := Extend(ss, es, s, Begin(c, a), s1);
    assert Moved(s1, c, Checking(None)) == s2;
    ss', es' := Extend(ss', es', s1, Resume(c), s2);
    assert Moved(s2, c, Awaiting) == t;
    ss', es' := Extend(ss', es', s2, Resume(c), t);
  }

  lemma ToIssue(ss: seq<State>, es: seq<Event>, s: State, c: nat, id: string)
    returns (ss': seq<State>, es': seq<Event>, t: State)
    requires Reaches(ss, es, s) && c in s.calls && s.calls[c].pc.Approved? && CanInsert(s, id)
    requires ValidResource(s.calls[c].args.resource)
    ensures Reaches(ss', es', t) && (SeqTrace(ss, es) ==> SeqTrace(ss', es'))
    ensures var l := NewLease(s.calls[c].args, id, s.now);
            && t.now == s.now && t.rows == s.rows + [l]
            && t.calls == s.calls[c := Call(s.calls[c].args, Returned(l, false))]
  {
    t := NextIssue(s, c, id);
    ss', es' := Extend(ss, es, s, Issue(c, id), t);
  }

  lemma ToTime(ss: seq<State>, es: seq<Event>, s: State, to: int)
    returns (ss': seq<State>, es': seq<Event>, t: State)
    requires Reaches(ss, es, s) && s.now <= to
    ensures Reaches(ss', es', t) && (SeqTrace(ss, es) ==> SeqTrace(ss', es'))
    ensures t == s.(now := to)
  {
    t := s.(now := to);
    ss', es' := Extend(ss, es, s, Tick(to), t);
  }

  lemma TwoUsable(l: Lease, m: Lease, now: int)
    requires l.status == ACTIVE && m.status == ACTIVE && now < l.expiresAt && now < m.expiresAt && KeyOf(l) != KeyOf(m)
    ensures Usable([l, m], now, 0) && Usable([l, m], now, 1)
  {
    assert [l, m] == [l] + [m];
    NewestAppended([l], m, KeyOf(l));
    NewestAppended([l], m, KeyOf(m));
  }

  /** Any two requests of different holders for one resource that overlap across the approval wait
      can leave each of them with a usable lease on it. */
  lemma OverlapBreaksExclusivity(a: Args, b: Args) returns (ss: seq<State>, es: seq<Event>, t: State)
    requires LegalTtl(a.ttl) && LegalTtl(b.ttl) && ValidResource(a.resource)
    requires ResourceQuery(a) == ResourceQuery(b) && KeyQuery(a) != KeyQuery(b)
    ensures Reaches(ss, es, t)
    ensures Usable(t.rows, t.now, 0) && Usable(t.rows, t.now, 1)
    ensures ResourceOf(t.rows[0]) == ResourceOf(t.rows[1]) && KeyOf(t.rows[0]) != KeyOf(t.rows[1])
  {
    ss, es := [START], [];
    t := START;
    ss, es, t := ToApproval(ss, es, t, 0, a);
    ss, es, t := ToApproval(ss, es, t, 1, b);
    ss, es, t := ToIssue(ss, es, t, 0, "L");
    ss, es, t := ToTime(ss, es, t, 1);
    ss, es, t := ToIssue(ss, es, t, 1, "LL");
    TwoUsable(NewLease(a, "L", 0), NewLease(b, "LL", 1), 1);
    assert t.rows == [NewLease(a, "L", 0), NewLease(b, "LL", 1)];
  }

  lemma ToLookup(ss: seq<State>, es: seq<Event>, s: State, c: nat, a: Args)
    returns (ss': seq<State>, es': seq<Event>, t: State)
    requires Reaches(ss, es, s) && c !in s.calls && LegalTtl(a.ttl) && Quiet(s, ResourceQuery(a))
    ensures Reaches(ss', es', t) && (SeqTrace(ss, es) ==> SeqTrace(ss', es'))
    ensures t == s.(calls := s.calls[c := Call(a, Looked(Newest(s.rows, KeyQuery(a))))])
  {
    t := NextBegin(s, c, a);
    ss', es' := Extend(ss, es, s, Begin(c, a), t);
  }

  /** A sequential run, for any caller: a request reads its own expired lease, the lease is revoked,
      and the request then marks it EXPIRED, so that the session is no longer locked out. */
  lemma LazyExpiryUndoesRevocation(a: Args) returns (ss: seq<State>, es: seq<Event>, s: State, t: State)
    requires LegalTtl(a.ttl) && ValidResource(a.resource)
    ensures Reaches(ss, es, t) && SeqTrace(ss, es) && |es| > 0
    ensures ss[|es| - 1] == s && LockedOut(s, 0) && !NoStaleCall(s, 0)
    ensures !StillInForce(t, 0)
  {
    ss, es, s := ExpiredLookup(a);
    var r := s.(rows := UpdateStatus(s.rows, "L", REVOKED, s.now, "manual revoke"));
    ss, es := Extend(ss, es, s, Revoke("L"), r);
    s := r;
    assert Stale(s, 0, s.calls[1]);
    t := Moved(s.(rows := UpdateStatus(s.rows, "L", EXPIRED, s.now, "expired on lookup")), 1, Marked);
    ss, es := Extend(ss, es, s, Resume(1), t);
  }

  /** Call 0 is issued a lease; call 1 looks it up when it has expired. */
  lemma ExpiredLookup(a: Args) returns (ss: seq<State>, es: seq<Event>, s: State)
    requires LegalTtl(a.ttl) && ValidResource(a.resource)
    ensures Reaches(ss, es, s) && SeqTrace(ss, es)
    ensures s.rows == [NewLease(a, "L", 0)] && s.now == a.ttl * SECOND
    ensures 0 in s.calls && s.calls[0].pc.Returned? && 1 in s.calls && s.calls[1] == Call(a, Looked(Some(s.rows[0])))
  {
    ss, es := [START], [];
    s := START;
    ss, es, s := ToApproval(ss, es, s, 0, a);
    ss, es, s := ToIssue(ss, es, s, 0, "L");
    assert s.rows == [NewLease(a, "L", 0)] && NewestIx(s.rows, KeyQuery(a)) == 0;
    ss, es, s := ToTime(ss, es, s, a.ttl * SECOND);
    ss, es, s := ToLookup(ss, es, s, 1, a);
  }
}
