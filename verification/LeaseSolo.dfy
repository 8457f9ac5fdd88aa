/** An uninterrupted request: the machine's segments, run back to back, do what the gateway does.

  The class `LeaseGateway` is proved against `Decide`, `Refusal` and `RowsAfter`; this ties them to
  the interleaved machine.
 */
module LeaseSolo {
  import opened Options
  import opened LeaseTable
  import opened LeaseRules
  import opened LeaseMachine

  predicate Segment(c: nat, a: Args, e: Event) {
    e == Begin(c, a) || e == Resume(c)
  }

  /** The events of the host's answer, and of the insert at `later`. */
  predicate Answer(c: nat, later: int, id: string, e: Event) {
    e == Allow(c) || e == Reject(c) || e == Tick(later) || e == Issue(c, id)
  }

  /** The segments of one call, back to back, lead from s to t. */
  ghost predicate Solo(s: State, t: State, c: nat, a: Args) {
    exists ss, es :: Leads(s, ss, es, t) && forall i :: 0 <= i < |es| ==> Segment(c, a, es[i])
  }

  /** ... and then the host's answer. */
  ghost predicate Answered(s: State, t: State, c: nat, later: int, id: string) {
    exists ss, es :: Leads(s, ss, es, t) && forall i :: 0 <= i < |es| ==> Answer(c, later, id, es[i])
  }

  lemma SoloStep(s: State, t: State, c: nat, a: Args, e: Event) returns (u: State)
    requires Solo(s, t, c, a) && Segment(c, a, e) && Next(t, e).Some?
    ensures Next(t, e) == Some(u) && Solo(s, u, c, a)
  {
    u := Next(t, e).value;
    var ss, es :| Leads(s, ss, es, t) && forall i :: 0 <= i < |es| ==> Segment(c, a, es[i]);
    TraceExtends(ss, es, e, u);
    assert Leads(s, ss + [u], es + [e], u);
  }

  lemma AnswerStep(s: State, t: State, c: nat, later: int, id: string, e: Event) returns (u: State)
    requires Answered(s, t, c, later, id) && Answer(c, later, id, e) && Next(t, e).Some?
    ensures Next(t, e) == Some(u) && Answered(s, u, c, later, id)
  {
    u := Next(t, e).value;
    var ss, es :| Leads(s, ss, es, t) && forall i :: 0 <= i < |es| ==> Answer(c, later, id, es[i]);
    TraceExtends(ss, es, e, u);
    assert Leads(s, ss + [u], es + [e], u);
  }

  /** Only the place of call c and the rows differ. */
  predicate At(s: State, t: State, c: nat, a: Args, pc: Pc, rows: seq<Lease>) {
    t == s.(rows := rows, calls := s.calls[c := Call(a, pc)])
  }

  function Decided(d: Decision): Pc {
    match d
    case Grants(l) => Returned(l, true)
    case Refuses(code) => Failed(code)
    case Asks => Awaiting
  }

  lemma Begun(s: State, c: nat, a: Args) returns (t: State)
    requires c !in s.calls
    ensures Solo(s, t, c, a) && t == NextBegin(s, c, a)
  {
    assert Leads(s, [s], [], s);
    t := SoloStep(s, s, c, a, Begin(c, a));
  }

  /** The call found nothing to reuse: its second query is done, after the lazy expiry if any. */
  lemma Requeried(s: State, c: nat, a: Args) returns (t: State)
    requires c !in s.calls && LegalTtl(a.ttl)
    requires !AfterLookup(Newest(s.rows, KeyQuery(a)), a.action, s.now).Reuse?
    ensures Solo(s, t, c, a)
    ensures var rows := LazilyExpired(s.rows, a, s.now);
            At(s, t, c, a, Checking(Newest(rows, ResourceQuery(a))), rows)
  {
    t := Begun(s, c, a);
    t := SoloStep(s, t, c, a, Resume(c));
    if t.calls[c].pc.Marked? { t := SoloStep(s, t, c, a, Resume(c)); }
    assert t.calls == s.calls[c := t.calls[c]];
  }

  lemma Rechecked(s: State, t: State, c: nat, a: Args, rows: seq<Lease>) returns (u: State)
    requires Solo(s, t, c, a) && At(s, t, c, a, Checking(Newest(rows, ResourceQuery(a))), rows)
    ensures Solo(s, u, c, a)
    ensures var block := Blocks(Newest(rows, ResourceQuery(a)), a, s.now);
            At(s, u, c, a, if block.Some? then Failed(block.value) else Awaiting, rows)
  {
    u := SoloStep(s, t, c, a, Resume(c));
    assert u.calls == s.calls[c := u.calls[c]];
  }

  /** From any state, a new call whose segments run back to back reaches exactly the gateway's
      decision, leaving the table as the gateway method leaves it. */
  lemma SoloRequestDecides(s: State, c: nat, a: Args) returns (t: State)
    requires c !in s.calls
    ensures Solo(s, t, c, a)
    ensures At(s, t, c, a, Decided(Decide(s.rows, a, s.now)), LazilyExpired(s.rows, a, s.now))
  {
    var step := AfterLookup(Newest(s.rows, KeyQuery(a)), a.action, s.now);
    if LegalTtl(a.ttl) && !step.Reuse? {
      t := Requeried(s, c, a);
      t := Rechecked(s, t, c, a, LazilyExpired(s.rows, a, s.now));
    } else {
      t := Begun(s, c, a);
      if LegalTtl(a.ttl) { t := SoloStep(s, t, c, a, Resume(c)); }
      assert t.calls == s.calls[c := t.calls[c]];
    }
  }

  /** The whole request: asked, answered, and inserted at `later`, it ends as the gateway method
      ends, with the table that method leaves; a grant is recorded exactly if the host was asked. */
  lemma SoloRequestCompletes(s: State, c: nat, a: Args, later: int, granted: bool, id: string)
    returns (t: State, u: State)
    requires c !in s.calls && s.now <= later && FreshId(s.rows, id)
    requires forall i :: 0 <= i < |s.rows| ==> s.rows[i].issuedAt < later
    ensures Solo(s, t, c, a) && Answered(t, u, c, later, id)
    ensures u.rows == RowsAfter(s.rows, a, s.now, later, granted, id)
    ensures var refusal := Refusal(s.rows, a, s.now, granted);
            && c in u.calls
            && (refusal.Some? ==> u.calls[c].pc == Failed(refusal.value))
            && (refusal.None? ==>
                  u.calls[c].pc == Returned(LeaseFor(s.rows, a, s.now, later, id), !Decide(s.rows, a, s.now).Asks?))
    ensures |u.grants| == |s.grants| + if Decide(s.rows, a, s.now).Asks? && granted then 1 else 0
  {
    t := SoloRequestDecides(s, c, a);
    u := t;
    assert Leads(t, [t], [], t);
    if Decide(s.rows, a, s.now).Asks? { u := HostAnswers(t, c, a, later, granted, id); }
  }

  lemma HostAnswers(s: State, c: nat, a: Args, later: int, granted: bool, id: string) returns (t: State)
    requires c in s.calls && s.calls[c] == Call(a, Awaiting) && s.now <= later && FreshId(s.rows, id)
    requires forall i :: 0 <= i < |s.rows| ==> s.rows[i].issuedAt < later
    ensures Answered(s, t, c, later, id) && c in t.calls && |t.grants| == |s.grants| + if granted then 1 else 0
    ensures if granted && ValidResource(a.resource)
            then t.rows == s.rows + [NewLease(a, id, later)] && t.calls[c].pc == Returned(NewLease(a, id, later), false)
            else t.rows == s.rows && t.calls[c].pc == Failed(if granted then INVALID_RESOURCE else LEASE_REJECTED)
  {
    assert Leads(s, [s], [], s);
    t := AnswerStep(s, s, c, later, id, if granted then Allow(c) else Reject(c));
    if granted {
      t := AnswerStep(s, t, c, later, id, Tick(later));
      t := AnswerStep(s, t, c, later, id, Issue(c, id));
    }
  }
}
