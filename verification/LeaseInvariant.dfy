/** What holds in every run of overlapping lease requests: the table invariant, no
  resurrection, and conservation of approvals. */
module LeaseInvariant {
  import opened Options
  import opened LeaseTable
  import opened LeaseRules
  import opened LeaseMachine

  lemma SameLengthRowsOk(s: State, t: State)
    requires RowsOk(s) && Evolves(s.rows, t.rows) && |s.rows| == |t.rows| && s.now <= t.now
    requires forall i :: 0 <= i < |t.rows| && t.rows[i].status == EXPIRED && s.rows[i].status != EXPIRED ==>
               t.rows[i].expiresAt <= t.now
    ensures RowsOk(t)
  {
    assert forall i :: 0 <= i < |t.rows| ==> RowEvolves(s.rows[i], t.rows[i]);
  }

  /** The row a lazy expiry marks is a later version of the one looked up, so its time has passed. */
  lemma LazyExpiryIsDue(s: State, m: Lease, i: nat)
    requires RowsOk(s) && Snapshot(s.rows, m) && m.expiresAt <= s.now
    requires i < |s.rows| && s.rows[i].id == m.id
    ensures s.rows[i].expiresAt <= s.now
  {
    var k :| 0 <= k < |s.rows| && RowEvolves(m, s.rows[k]);
    assert i == k;
  }

  lemma RowsStep(s: State, e: Event, t: State)
    requires Inv(s) && Next(s, e) == Some(t)
    ensures RowsOk(t)
  {
    StepShape(s, e, t);
    if e.Issue? {
      IssueRowsStep(s, e, t);
    } else {
      forall i | 0 <= i < |t.rows| && t.rows[i].status == EXPIRED && s.rows[i].status != EXPIRED
        ensures t.rows[i].expiresAt <= t.now
      {
        DueStep(s, e, t, i);
      }
      SameLengthRowsOk(s, t);
    }
  }

  lemma IssueRowsStep(s: State, e: Event, t: State)
    requires RowsOk(s) && TtlsOk(s) && e.Issue? && Next(s, e) == Some(t)
    ensures RowsOk(t)
  {
    if |t.rows| != |s.rows| { InsertKeepsRows(s, NewLease(s.calls[e.c].args, e.id, s.now)); }
  }

  lemma InsertKeepsRows(s: State, l: Lease)
    requires RowsOk(s) && LegalLife(l) && ValidResource(l.resource) && l.status == ACTIVE
    requires l.issuedAt == s.now && CanInsert(s, l.id)
    ensures RowsOk(s.(rows := s.rows + [l]))
  {
  }

  lemma DueStep(s: State, e: Event, t: State, i: nat)
    requires Inv(s) && !e.Issue? && Next(s, e) == Some(t)
    requires i < |s.rows| == |t.rows| && t.rows[i].status == EXPIRED && s.rows[i].status != EXPIRED
    ensures t.rows[i].expiresAt <= t.now
  {
    if e.Resume? {
      assert CallOk(s, e.c, s.calls[e.c]);
      LazyExpiryIsDue(s, s.calls[e.c].pc.hit.value, i);
    }
  }

  /** Only a grant or an issue touches the logs. */
  lemma LogFramed(s: State, e: Event, t: State)
    requires !e.Allow? && !e.Issue? && Next(s, e) == Some(t)
    ensures t.grants == s.grants && t.origin == s.origin && t.refused == s.refused && |t.rows| == |s.rows|
    ensures forall c :: c in s.calls && HoldsGrant(s.calls[c].pc) ==> c in t.calls && t.calls[c] == s.calls[c]
  {
  }

  lemma LogStep(s: State, e: Event, t: State)
    requires Inv(s) && Next(s, e) == Some(t)
    ensures LogOk(t)
  {
    if e.Issue? {
      IssueLogStep(s, e, t);
    } else if e.Allow? {
      assert LogOk(t);
    } else {
      LogFramed(s, e, t);
      StepShape(s, e, t);
      assert forall i :: 0 <= i < |t.rows| ==> RowEvolves(s.rows[i], t.rows[i]);
    }
  }

  lemma IssueLogStep(s: State, e: Event, t: State)
    requires Inv(s) && e.Issue? && Next(s, e) == Some(t)
    ensures LogOk(t)
  {
    assert CallOk(s, e.c, s.calls[e.c]);
    var a, g := s.calls[e.c].args, s.calls[e.c].pc.grant;
    if ValidResource(a.resource) {
      assert t.origin == s.origin + [g];
      assert GrantMatches(s.grants[g], NewLease(a, e.id, s.now));
    }
  }

  lemma CallStep(s: State, e: Event, t: State, c: nat)
    requires Inv(s) && Next(s, e) == Some(t) && c in t.calls
    ensures CallOk(t, c, t.calls[c])
  {
    StepShape(s, e, t);
    if c in s.calls && s.calls[c] == t.calls[c] {
      assert CallOk(s, c, s.calls[c]);
      KeptCall(s, e, t, c);
    } else {
      ChangedCall(s, e, t, c);
    }
  }

  lemma KeptCall(s: State, e: Event, t: State, c: nat)
    requires Inv(s) && Next(s, e) == Some(t)
    requires c in s.calls && c in t.calls && s.calls[c] == t.calls[c]
    ensures CallOk(t, c, t.calls[c])
  {
    StepShape(s, e, t);
    assert CallOk(s, c, s.calls[c]);
    match s.calls[c].pc
    case Looked(hit) => if hit.Some? { SnapshotEvolves(s.rows, t.rows, hit.value); }
    case Checking(latest) => if latest.Some? { SnapshotEvolves(s.rows, t.rows, latest.value); }
    case Returned(l, _) => SnapshotEvolves(s.rows, t.rows, l);
    case Approved(g) =>
      if e.Issue? {
        // two approved calls hold different grants, because a grant names its call
        assert CallOk(s, e.c, s.calls[e.c]);
      }
    case _ =>
  }

  lemma ChangedCall(s: State, e: Event, t: State, c: nat)
    requires Inv(s) && Next(s, e) == Some(t) && c in t.calls
    requires !(c in s.calls && s.calls[c] == t.calls[c])
    ensures CallOk(t, c, t.calls[c])
  {
    match e
    case Begin(_, a) => BegunCall(s, t, c, a);
    case Resume(_) => ResumedCall(s, e, t, c);
    case Allow(_) => AllowedCall(s, t, c);
    case Issue(_, id) => IssuedCall(s, e, t, c);
    case Reject(_) => assert t.calls[c].pc.Failed?;
    case _ =>
  }

  lemma BegunCall(s: State, t: State, c: nat, a: Args)
    requires Next(s, Begin(c, a)) == Some(t)
    ensures CallOk(t, c, t.calls[c])
  {
    NewestSnapshot(s.rows, KeyQuery(a));
  }

  lemma AllowedCall(s: State, t: State, c: nat)
    requires LogOk(s) && Next(s, Allow(c)) == Some(t)
    ensures CallOk(t, c, t.calls[c])
  {
  }

  lemma ResumedCall(s: State, e: Event, t: State, c: nat)
    requires Inv(s) && e == Resume(c) && Next(s, e) == Some(t)
    ensures CallOk(t, c, t.calls[c])
  {
    assert CallOk(s, c, s.calls[c]);
    NewestSnapshot(s.rows, ResourceQuery(s.calls[c].args));
  }

  lemma IssuedCall(s: State, e: Event, t: State, c: nat)
    requires Inv(s) && e.Issue? && e.c == c && Next(s, e) == Some(t)
    ensures CallOk(t, c, t.calls[c])
  {
    if ValidResource(s.calls[c].args.resource) {
      var n := |s.rows|;
      assert RowEvolves(t.rows[n], t.rows[n]);
    }
  }

  lemma GrantsStep(s: State, e: Event, t: State)
    requires GrantsOk(s) && Next(s, e) == Some(t)
    ensures GrantsOk(t)
  {
    StepShape(s, e, t);
    GrantsGrow(s, e, t);
  }

  lemma GrantsGrow(s: State, e: Event, t: State)
    requires Next(s, e) == Some(t)
    ensures if !e.Allow? then t.grants == s.grants
            else e.c in s.calls && |t.grants| == |s.grants| + 1 && t.grants[..|s.grants|] == s.grants
                 && GrantFor(t.grants[|s.grants|], e.c, s.calls[e.c].args)
  {
  }

  lemma TtlsStep(s: State, e: Event, t: State)
    requires TtlsOk(s) && Next(s, e) == Some(t)
    ensures TtlsOk(t)
  {
  }

  lemma InvStep(s: State, e: Event, t: State)
    requires Inv(s) && Next(s, e) == Some(t)
    ensures Inv(t)
  {
    RowsStep(s, e, t);
    LogStep(s, e, t);
    GrantsStep(s, e, t);
    TtlsStep(s, e, t);
    forall c | c in t.calls ensures CallOk(t, c, t.calls[c]) { CallStep(s, e, t, c); }
  }

  /** The table, log and call invariants hold in every state of every run. */
  lemma {:induction false} InvAlways(ss: seq<State>, es: seq<Event>, i: nat)
    requires Trace(ss, es) && Init(ss[0]) && i <= |es|
    ensures Inv(ss[i])
  {
    if i > 0 {
      InvAlways(ss, es, i - 1);
      assert Next(ss[i - 1], es[i - 1]) == Some(ss[i]);
      InvStep(ss[i - 1], es[i - 1], ss[i]);
    }
  }

  // ---------- No resurrection ----------

  /** Rows are never removed, their binding columns never change, and ACTIVE is never regained;
      grants are never removed and a call's arguments and a finished call never change. */
  lemma {:induction false} RunShape(ss: seq<State>, es: seq<Event>, i: nat, j: nat)
    requires Trace(ss, es) && i <= j <= |es|
    ensures Evolves(ss[i].rows, ss[j].rows) && ss[i].now <= ss[j].now
    ensures ss[i].grants <= ss[j].grants
    ensures ss[i].calls.Keys <= ss[j].calls.Keys
    ensures forall c :: c in ss[i].calls ==> ss[j].calls[c].args == ss[i].calls[c].args
    ensures forall c :: c in ss[i].calls && Finished(ss[i].calls[c].pc) ==> ss[j].calls[c] == ss[i].calls[c]
    decreases j
  {
    if i < j {
      RunShape(ss, es, i, j - 1);
      assert Next(ss[j - 1], es[j - 1]) == Some(ss[j]);
      StepShape(ss[j - 1], es[j - 1], ss[j]);
      EvolvesTransitive(ss[i].rows, ss[j - 1].rows, ss[j].rows);
    }
  }

  /** A lease that has stopped being usable is never usable again. */
  lemma NeverUsableAgain(ss: seq<State>, es: seq<Event>, i: nat, j: nat, k: nat)
    requires Trace(ss, es) && i <= j <= |es|
    requires k < |ss[i].rows| && !Usable(ss[i].rows, ss[i].now, k)
    ensures k < |ss[j].rows| && !Usable(ss[j].rows, ss[j].now, k)
    ensures SameBinding(ss[i].rows[k], ss[j].rows[k])
    ensures ss[i].rows[k].status != ACTIVE ==> ss[j].rows[k].status != ACTIVE
  {
    RunShape(ss, es, i, j);
    UnusableForever(ss[i].rows, ss[j].rows, ss[i].now, ss[j].now, k);
    assert RowEvolves(ss[i].rows[k], ss[j].rows[k]);
  }

  /** The call never carries the given row towards reuse. */
  predicate NotReusing(s: State, c: nat, r: Lease) {
    c in s.calls ==>
      match s.calls[c].pc
      case Looked(Some(m)) => m.id == r.id ==> m.status != ACTIVE || m.expiresAt <= s.now
      case Returned(l, true) => l.id != r.id
      case _ => true
  }

  lemma NotReusingStep(s: State, e: Event, t: State, c: nat, k: nat)
    requires WellFormed(s.rows) && Next(s, e) == Some(t)
    requires k < |s.rows| && !Usable(s.rows, s.now, k)
    requires NotReusing(s, c, s.rows[k])
    ensures k < |t.rows| && NotReusing(t, c, t.rows[k])
  {
    StepShape(s, e, t);
    assert RowEvolves(s.rows[k], t.rows[k]);
    if e.Begin? && e.c == c {
      var n := NewestIx(s.rows, KeyQuery(e.args));
      if n >= 0 && s.rows[n].id == s.rows[k].id { assert n == k; }
    } else if c in s.calls && e == Resume(c) {
      NotReusingResume(s, t, c, s.rows[k]);
    } else if e.Issue? && e.c == c {
    } else {
      assert c in t.calls ==>
          c in s.calls && (t.calls[c].pc == s.calls[c].pc || !(t.calls[c].pc.Looked? || t.calls[c].pc.Returned?));
    }
  }

  lemma NotReusingResume(s: State, t: State, c: nat, r: Lease)
    requires c in s.calls && Next(s, Resume(c)) == Some(t) && NotReusing(s, c, r)
    ensures NotReusing(t, c, r)
  {
  }

  /** No call that starts after a lease stopped being usable is ever handed that lease for reuse. */
  lemma {:induction false} NeverReusedAgain(ss: seq<State>, es: seq<Event>, i: nat, j: nat, k: nat, c: nat)
    requires Trace(ss, es) && Init(ss[0]) && i <= j <= |es|
    requires k < |ss[i].rows| && !Usable(ss[i].rows, ss[i].now, k)
    requires c !in ss[i].calls
    ensures k < |ss[j].rows| && NotReusing(ss[j], c, ss[j].rows[k])
    decreases j
  {
    if i < j {
      NeverReusedAgain(ss, es, i, j - 1, k, c);
      NeverUsableAgain(ss, es, i, j - 1, k);
      InvAlways(ss, es, j - 1);
      assert Next(ss[j - 1], es[j - 1]) == Some(ss[j]);
      NotReusingStep(ss[j - 1], es[j - 1], ss[j], c, k);
    }
  }

  // ---------- Conservation of approvals ----------

  ghost function ApprovedCalls(s: State): set<nat> {
    set c | c in s.calls && s.calls[c].pc.Approved?
  }

  lemma BalanceStep(s: State, e: Event, t: State)
    requires Inv(s) && Next(s, e) == Some(t)
    requires |s.grants| == |s.rows| + |ApprovedCalls(s)| + |s.refused|
    ensures |t.grants| == |t.rows| + |ApprovedCalls(t)| + |t.refused|
  {
    if e.Allow? {
      AllowBalance(s, e.c);
    } else if e.Issue? {
      assert CallOk(s, e.c, s.calls[e.c]);
      IssueBalance(s, e.c, e.id);
    } else {
      LogFramed(s, e, t);
      SameApproved(s, e, t);
    }
  }

  lemma AllowBalance(s: State, c: nat)
    requires c in s.calls && s.calls[c].pc.Awaiting?
    ensures |ApprovedCalls(NextAllow(s, c))| == |ApprovedCalls(s)| + 1
  {
    assert ApprovedCalls(NextAllow(s, c)) == ApprovedCalls(s) + {c};
  }

  lemma IssueBalance(s: State, c: nat, id: string)
    requires c in s.calls && s.calls[c].pc.Approved? && s.calls[c].pc.grant !in s.refused
    ensures var t := NextIssue(s, c, id);
            |ApprovedCalls(t)| + |t.rows| + |t.refused| == |ApprovedCalls(s)| + |s.rows| + |s.refused|
  {
    assert ApprovedCalls(NextIssue(s, c, id)) == ApprovedCalls(s) - {c};
  }

  lemma SameApproved(s: State, e: Event, t: State)
    requires !e.Allow? && !e.Issue? && Next(s, e) == Some(t)
    ensures ApprovedCalls(t) == ApprovedCalls(s)
  {
    forall c ensures c in ApprovedCalls(t) <==> c in ApprovedCalls(s) {}
  }

  /** At every step of every run, granted approvals are exactly the rows, the approvals not yet
      inserted and the approvals whose lease the resource-format rule refused. */
  lemma {:induction false} ApprovalsConserved(ss: seq<State>, es: seq<Event>, i: nat)
    requires Trace(ss, es) && Init(ss[0]) && i <= |es|
    ensures |ss[i].grants| == |ss[i].rows| + |ApprovedCalls(ss[i])| + |ss[i].refused|
  {
    if i == 0 {
      assert ApprovedCalls(ss[0]) == {};
    } else {
      ApprovalsConserved(ss, es, i - 1);
      InvAlways(ss, es, i - 1);
      assert Next(ss[i - 1], es[i - 1]) == Some(ss[i]);
      BalanceStep(ss[i - 1], es[i - 1], ss[i]);
    }
  }

  /** Every row was issued for its own granted approval, one that showed the host exactly this
      capsule, provider, resource, action and lifetime. */
  lemma RowsHaveOwnApproval(ss: seq<State>, es: seq<Event>, i: nat)
    requires Trace(ss, es) && Init(ss[0]) && i <= |es|
    ensures var s := ss[i];
            && |s.origin| == |s.rows|
            && (forall k :: 0 <= k < |s.rows| ==>
                  s.origin[k] < |s.grants| && GrantMatches(s.grants[s.origin[k]], s.rows[k]))
            && (forall j, k :: 0 <= j < k < |s.rows| ==> s.origin[j] != s.origin[k])
  {
    InvAlways(ss, es, i);
  }

  /** In every run, each approval showed the host the capsule, provider, resource, action, lifetime
      and tool of its call. */
  lemma GrantsShowTheirCalls(ss: seq<State>, es: seq<Event>, i: nat, g: nat)
    requires Trace(ss, es) && Init(ss[0]) && i <= |es| && g < |ss[i].grants|
    ensures var grant := ss[i].grants[g];
            && grant.call in ss[i].calls
            && var a := ss[i].calls[grant.call].args;
            && grant.capsule == a.capsule && grant.provider == a.provider && grant.resource == a.resource
            && grant.action == a.action && grant.ttl == a.ttl && grant.tool == a.tool
  {
    InvAlways(ss, es, i);
  }

  // ---------- Reuse over a whole run ----------

  /** While row k stays usable, a call for its key and action that began after it was issued is
      either about to reuse it or has been handed exactly it; it never asks the host. */
  predicate ReusingRow(s: State, c: nat, k: nat)
    requires k < |s.rows|
  {
    c in s.calls && KeyQuery(s.calls[c].args) == KeyOf(s.rows[k]) && s.calls[c].args.action in s.rows[k].actions
    && LegalTtl(s.calls[c].args.ttl)
    ==> s.calls[c].pc == Looked(Some(s.rows[k])) || s.calls[c].pc == Returned(s.rows[k], true)
  }

  lemma ReuseStep(s: State, e: Event, t: State, c: nat, k: nat)
    requires Next(s, e) == Some(t) && k < |s.rows| && k < |t.rows|
    requires Usable(s.rows, s.now, k) && Usable(t.rows, t.now, k)
    requires ReusingRow(s, c, k)
    ensures ReusingRow(t, c, k)
  {
    RowsShape(s, e, t);
    assert RowEvolves(s.rows[k], t.rows[k]);
    if e.Begin? && e.c == c {
      assert t.rows == s.rows;
    } else if e == Resume(c) {
      ReuseResume(s, t, c, k);
    } else {
      ReuseKept(s, e, t, c, k);
    }
  }

  lemma ReuseKept(s: State, e: Event, t: State, c: nat, k: nat)
    requires Next(s, e) == Some(t) && k < |s.rows| && k < |t.rows| && s.rows[k] == t.rows[k]
    requires !(e.Begin? && e.c == c) && e != Resume(c) && ReusingRow(s, c, k)
    ensures ReusingRow(t, c, k)
  {
  }

  lemma ReuseResume(s: State, t: State, c: nat, k: nat)
    requires c in s.calls && Next(s, Resume(c)) == Some(t) && k < |s.rows| && k < |t.rows| && s.rows[k] == t.rows[k]
    requires Usable(s.rows, s.now, k) && ReusingRow(s, c, k)
    ensures ReusingRow(t, c, k)
  {
  }

  lemma {:induction false} ReuseOverRun(ss: seq<State>, es: seq<Event>, i: nat, j: nat, k: nat, c: nat)
    requires Trace(ss, es) && i <= j <= |es|
    requires k < |ss[i].rows| && k < |ss[j].rows| && Usable(ss[j].rows, ss[j].now, k)
    requires c !in ss[i].calls
    ensures ReusingRow(ss[j], c, k)
    decreases j
  {
    if i < j {
      RunShape(ss, es, i, j - 1);
      RunShape(ss, es, j - 1, j);
      if !Usable(ss[j - 1].rows, ss[j - 1].now, k) {
        NeverUsableAgain(ss, es, j - 1, j, k);
        assert false;
      }
      ReuseOverRun(ss, es, i, j - 1, k, c);
      assert Next(ss[j - 1], es[j - 1]) == Some(ss[j]);
      ReuseStep(ss[j - 1], es[j - 1], ss[j], c, k);
    }
  }

  /** Row k is in the table at i and still usable at j.  Whatever number of calls for its key and
      action began in between, and however they overlap, none of them was granted an approval,
      and each one that has finished was handed exactly row k. */
  lemma ReuseAsksOnce(ss: seq<State>, es: seq<Event>, i: nat, j: nat, k: nat)
    requires Trace(ss, es) && Init(ss[0]) && i <= j <= |es|
    requires k < |ss[i].rows| && k < |ss[j].rows| && Usable(ss[j].rows, ss[j].now, k)
    ensures var t, r := ss[j], ss[j].rows[k];
            forall c :: c in t.calls && c !in ss[i].calls
                        && KeyQuery(t.calls[c].args) == KeyOf(r) && t.calls[c].args.action in r.actions
                        && LegalTtl(t.calls[c].args.ttl)
                        ==> && (forall g :: 0 <= g < |t.grants| ==> t.grants[g].call != c)
                            && (Finished(t.calls[c].pc) ==> t.calls[c].pc == Returned(r, true))
  {
    InvAlways(ss, es, j);
    forall c | c in ss[j].calls && c !in ss[i].calls ensures ReusingRow(ss[j], c, k) {
      ReuseOverRun(ss, es, i, j, k, c);
    }
  }
}
