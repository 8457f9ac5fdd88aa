/** Leases and containers: whether a lease for a torn-down instance can still let a call through. */
module SystemLeases {
  import opened Options
  import opened Naturals
  import opened RpcIds
  import opened LeaseTable
  import opened LeaseRules
  import opened Manifests
  import opened BrokerStages
  import opened RuntimeSystem
  import L = LeaseMachine
  import LI = LeaseInvariant
  import LP = LeasePaths
  import M = ManagerMachine
  import MA = ManagerAttribution
  import MC = ManagerContainers
  import MS = ManagerSequential

  /** Invocations of one capsule do not overlap. */
  ghost predicate SeqTrace(ss: seq<State>, es: seq<Event>) {
    && Trace(ss, es)
    && forall i {:trigger es[i]} :: 0 <= i < |es| && es[i].Manage? ==> MS.NonOverlapping(ss[i].m, es[i].me)
  }

  ghost predicate ManagerOk(m: M.State) {
    MS.SeqInv(m) && MC.FateOk(m) && M.Inv(m)
  }

  /** A step moves the manager by one of its own steps, or not at all. */
  lemma ManagerPart(s: State, e: Event, t: State)
    requires Next(s, e) == Some(t)
    ensures if e.Manage? then M.Next(s.m, e.me) == Some(t.m) else t.m == s.m
  {
  }

  lemma ManagerStep(m: M.State, e: M.Event, n: M.State)
    requires ManagerOk(m) && MS.NonOverlapping(m, e) && M.Next(m, e) == Some(n)
    ensures ManagerOk(n)
  {
    MA.InvStep(m, e, n);
    MC.FateStep(m, e, n);
    MS.SeqInvStep(m, e, n);
  }

  lemma {:induction false} SeqInvAlways(ss: seq<State>, es: seq<Event>, i: nat)
    requires SeqTrace(ss, es) && Init(ss[0]) && i <= |es|
    ensures ManagerOk(ss[i].m)
  {
    if i > 0 {
      SeqInvAlways(ss, es, i - 1);
      assert Next(ss[i - 1], es[i - 1]) == Some(ss[i]);
      ManagerPart(ss[i - 1], es[i - 1], ss[i]);
      if es[i - 1].Manage? { ManagerStep(ss[i - 1].m, es[i - 1].me, ss[i].m); }
    }
  }

  lemma SessionOnLive(m: M.State, b: nat)
    requires ManagerOk(m) && b in m.brokers && m.brokers[b].session.Some?
    ensures m.brokers[b].inst in m.fate && !MS.Dead(m, m.brokers[b].inst)
  {
    assert M.UsedByHolder(m, b);
    var v := m.holder[m.brokers[b].capsule];
    assert MS.InFlight(m, v) && MS.Fits(m, m.invs[v].capsule, m.invs[v].phase);
    if m.invs[v].phase.StoppingInst? { assert MC.Victim(m.invs[v].phase).Some?; }
  }

  lemma DeadStep(s: State, e: Event, t: State, x: nat)
    requires MC.FateOk(s.m) && Next(s, e) == Some(t) && MS.Dead(s.m, x)
    ensures MS.Dead(t.m, x)
  {
    ManagerPart(s, e, t);
    if e.Manage? { MS.DeadStays(s.m, e.me, t.m, x); }
  }

  lemma DeadAlong(ss: seq<State>, es: seq<Event>, i: nat, x: nat)
    requires Trace(ss, es) && Init(ss[0]) && i < |es| && MS.Dead(ss[i].m, x)
    ensures MS.Dead(ss[i + 1].m, x)
  {
    InvAlways(ss, es, i);
    assert Next(ss[i], es[i]) == Some(ss[i + 1]);
    DeadStep(ss[i], es[i], ss[i + 1], x);
  }

  lemma {:induction false} DeadForGood(ss: seq<State>, es: seq<Event>, i: nat, k: nat, x: nat)
    requires Trace(ss, es) && Init(ss[0]) && i <= k <= |es| && MS.Dead(ss[i].m, x)
    ensures MS.Dead(ss[k].m, x)
    decreases k
  {
    if i < k {
      DeadForGood(ss, es, i, k - 1, x);
      DeadAlong(ss, es, k - 1, x);
    }
  }

  /** A call that arrives once an instance has been torn down is not let through by that instance's
      leases: whatever stage it reaches, the lease it holds names another instance. */
  lemma NoLeaseOutlivesContainer(ss: seq<State>, es: seq<Event>, i: nat, k: nat, j: nat, x: nat)
    requires SeqTrace(ss, es) && Init(ss[0]) && i <= k <= |es| && MS.Dead(ss[i].m, x)
    requires j !in ss[i].jobs && j in ss[k].jobs && |ss[k].jobs[j].stages| >= 2
    ensures ss[k].jobs[j].stages[1].LeaseHeld? && ss[k].jobs[j].stages[1].lease.inst != InstanceId(x)
  {
    InvAlways(ss, es, k);
    var job := ss[k].jobs[j];
    assert JobOk(ss[k], j, job);
    ArrivedAlive(ss, es, i, k, j, x);
    if InstanceId(x) == InstanceId(job.inst) { DecimalInjective(x, job.inst); }
  }

  lemma {:induction false} ArrivedAlive(ss: seq<State>, es: seq<Event>, i: nat, k: nat, j: nat, x: nat)
    requires SeqTrace(ss, es) && Init(ss[0]) && i <= k <= |es| && MS.Dead(ss[i].m, x)
    requires j !in ss[i].jobs && j in ss[k].jobs && HasSession(ss[k].jobs[j].session)
    ensures ss[k].jobs[j].inst != x
    decreases k
  {
    assert Next(ss[k - 1], es[k - 1]) == Some(ss[k]);
    if j in ss[k - 1].jobs {
      FurtherStep(ss[k - 1], es[k - 1], ss[k], j);
      ArrivedAlive(ss, es, i, k - 1, j, x);
    } else {
      DeadForGood(ss, es, i, k - 1, x);
      SeqInvAlways(ss, es, k - 1);
      OnlyArrivalsAdd(ss[k - 1], es[k - 1], ss[k], j);
      SessionOnLive(ss[k - 1].m, es[k - 1].b);
    }
  }

  lemma OnlyArrivalsAdd(s: State, e: Event, t: State, j: nat)
    requires Next(s, e) == Some(t) && j !in s.jobs && j in t.jobs
    ensures e.Arrive? && e.j == j && e.b in s.m.brokers
    ensures t.jobs[j].session == s.m.brokers[e.b].session && t.jobs[j].inst == s.m.brokers[e.b].inst
  {
  }

  // ---------- At the teardown: which calls can still come to hold such a lease ----------

  /** The call holds a lease for instance x. */
  predicate HoldsFor(s: State, j: nat, x: nat) {
    && j in s.jobs && |s.jobs[j].stages| >= 2 && s.jobs[j].stages[1].LeaseHeld?
    && s.jobs[j].stages[1].lease.inst == InstanceId(x)
  }

  /** A call on a broker of x has a lease request in flight that can still end with a lease. */
  predicate StillAwaits(s: State, j: nat, x: nat) {
    && j in s.jobs && s.jobs[j].inst == x && s.jobs[j].progress.Leasing?
    && j in s.l.calls && LP.Alive(s.l.calls[j])
  }

  ghost predicate StillAwaited(s: State, x: nat) {
    exists j :: StillAwaits(s, j, x)
  }

  /** The call has come no nearer to a lease for x than it was in s0. */
  predicate Barred(s0: State, s: State, j: nat, x: nat) {
    j in s.jobs && s.jobs[j].inst == x ==>
      && (s.jobs[j].progress.Leasing? ==> j in s.l.calls && !LP.Alive(s.l.calls[j]))
      && (|s.jobs[j].stages| >= 2 ==>
            j in s0.jobs && |s0.jobs[j].stages| >= 2 && s0.jobs[j].stages[1] == s.jobs[j].stages[1])
  }

  /** A state of a run without overlapping invocations, in which instance x is gone. */
  ghost predicate Gone(s: State, x: nat) {
    Inv(s) && ManagerOk(s.m) && MS.Dead(s.m, x)
  }

  /** A lookup finds rows of well-formed resources only. */
  lemma HitIsWellFormed(s: L.State, j: nat)
    requires L.RowsOk(s) && j in s.calls && L.CallOk(s, j, s.calls[j])
    ensures s.calls[j].pc.Looked? && s.calls[j].pc.hit.Some? ==> ValidResource(s.calls[j].args.resource)
  {
    if s.calls[j].pc.Looked? && s.calls[j].pc.hit.Some? {
      var i :| 0 <= i < |s.rows| && RowEvolves(s.calls[j].pc.hit.value, s.rows[i]);
    }
  }

  /** A request that is not alive is never handed a lease, and stays so. */
  lemma HopelessStays(s: L.State, e: L.Event, t: L.State, j: nat)
    requires L.Next(s, e) == Some(t) && j in s.calls && !LP.Alive(s.calls[j]) && !L.Finished(s.calls[j].pc)
    requires s.calls[j].pc.Looked? && s.calls[j].pc.hit.Some? ==> ValidResource(s.calls[j].args.resource)
    ensures j in t.calls && !LP.Alive(t.calls[j]) && !t.calls[j].pc.Returned?
  {
  }

  lemma BarredAdvance(s0: State, s: State, e: Event, t: State, x: nat)
    requires Inv(s) && e.Advance? && Next(s, e) == Some(t) && Barred(s0, s, e.j, x)
    ensures Barred(s0, t, e.j, x)
  {
    assert JobOk(s, e.j, s.jobs[e.j]);
    if s.jobs[e.j].inst == x {
      assert L.CallOk(s.l, e.j, s.l.calls[e.j]);
      HitIsWellFormed(s.l, e.j);
      HopelessStays(s.l, e.je, t.l, e.j);
    }
  }

  lemma BarredArrive(s0: State, s: State, e: Event, t: State, x: nat)
    requires ManagerOk(s.m) && MS.Dead(s.m, x) && e.Arrive? && Next(s, e) == Some(t)
    ensures Barred(s0, t, e.j, x)
  {
    if t.jobs[e.j].inst == x && s.m.brokers[e.b].session.Some? { SessionOnLive(s.m, e.b); }
  }

  lemma PlaceKept(s: State, e: Event, t: State, j: nat)
    requires Next(s, e) == Some(t) && j in s.jobs && j in t.jobs && !(e.Advance? && e.j == j)
    requires s.jobs[j].progress.Resolving? ==> |s.jobs[j].stages| == 2
    requires s.jobs[j].progress.Executing? ==> |s.jobs[j].stages| == 4
    ensures t.jobs[j].progress.Leasing? ==> s.jobs[j].progress.Leasing?
    ensures |t.jobs[j].stages| >= 2 ==> |s.jobs[j].stages| >= 2
  {
  }

  lemma BarredStep(s0: State, s: State, e: Event, t: State, j: nat, x: nat)
    requires Gone(s, x) && Next(s, e) == Some(t) && Barred(s0, s, j, x)
    ensures Barred(s0, t, j, x)
  {
    if j in t.jobs && j !in s.jobs {
      OnlyArrivalsAdd(s, e, t, j);
      BarredArrive(s0, s, e, t, x);
    } else if j in t.jobs && e.Advance? && e.j == j {
      BarredAdvance(s0, s, e, t, x);
    } else if j in t.jobs {
      assert JobOk(s, j, s.jobs[j]);
      FurtherStep(s, e, t, j);
      PlaceKept(s, e, t, j);
      if s.jobs[j].progress.Leasing? { CallKept(s, e, t, j); }
    }
  }

  lemma GoneAt(ss: seq<State>, es: seq<Event>, i: nat, x: nat)
    requires SeqTrace(ss, es) && i < |es| && Gone(ss[i], x)
    ensures Gone(ss[i + 1], x)
  {
    assert Next(ss[i], es[i]) == Some(ss[i + 1]);
    InvStep(ss[i], es[i], ss[i + 1]);
    ManagerPart(ss[i], es[i], ss[i + 1]);
    if es[i].Manage? { ManagerStep(ss[i].m, es[i].me, ss[i + 1].m); }
    DeadStep(ss[i], es[i], ss[i + 1], x);
  }

  lemma {:induction false} GoneAlong(ss: seq<State>, es: seq<Event>, i: nat, x: nat)
    requires SeqTrace(ss, es) && i <= |es| && Gone(ss[0], x)
    ensures Gone(ss[i], x)
  {
    if i > 0 {
      GoneAlong(ss, es, i - 1, x);
      GoneAt(ss, es, i - 1, x);
    }
  }

  ghost predicate GoneThroughout(ss: seq<State>, x: nat) {
    forall i {:trigger Gone(ss[i], x)} :: 0 <= i < |ss| ==> Gone(ss[i], x)
  }

  lemma {:induction false} BarredAlong(ss: seq<State>, es: seq<Event>, i: nat, j: nat, x: nat)
    requires SeqTrace(ss, es) && i <= |es| && GoneThroughout(ss, x) && Barred(ss[0], ss[0], j, x)
    ensures Barred(ss[0], ss[i], j, x)
  {
    if i > 0 {
      BarredAlong(ss, es, i - 1, j, x);
      BarredAt(ss, es, i - 1, j, x);
    }
  }

  lemma BarredAt(ss: seq<State>, es: seq<Event>, i: nat, j: nat, x: nat)
    requires SeqTrace(ss, es) && i < |es| && GoneThroughout(ss, x) && Barred(ss[0], ss[i], j, x)
    ensures Barred(ss[0], ss[i + 1], j, x)
  {
    assert Gone(ss[i], x);
    assert Next(ss[i], es[i]) == Some(ss[i + 1]);
    BarredStep(ss[0], ss[i], es[i], ss[i + 1], j, x);
  }

  lemma BarredHere(s: State, j: nat, x: nat)
    requires Gone(s, x) && !StillAwaited(s, x)
    ensures Barred(s, s, j, x)
  {
    if j in s.jobs { assert !StillAwaits(s, j, x) && JobOk(s, j, s.jobs[j]); }
  }

  /** The lease a call holds names the instance of its broker. */
  lemma HoldsOwn(s: State, j: nat, x: nat)
    requires Inv(s) && HoldsFor(s, j, x)
    ensures s.jobs[j].inst == x
  {
    assert JobOk(s, j, s.jobs[j]);
    DecimalInjective(x, s.jobs[j].inst);
  }

  lemma NoneNew(ss: seq<State>, es: seq<Event>, j: nat, x: nat)
    requires SeqTrace(ss, es) && Gone(ss[0], x) && !StillAwaited(ss[0], x) && HoldsFor(ss[|es|], j, x)
    ensures HoldsFor(ss[0], j, x)
  {
    forall i | 0 <= i < |ss| ensures Gone(ss[i], x) { GoneAlong(ss, es, i, x); }
    BarredHere(ss[0], j, x);
    BarredAlong(ss, es, |es|, j, x);
    HoldsOwn(ss[|es|], j, x);
  }

  // ---------- ... and how one of them does ----------

  ghost predicate Goes(s: State, t: State) {
    exists ss, es :: SeqTrace(ss, es) && ss[0] == s && ss[|es|] == t
  }

  lemma GoOn(s: State, t: State, e: Event) returns (u: State)
    requires Goes(s, t) && Next(t, e).Some? && (e.Manage? ==> MS.NonOverlapping(t.m, e.me))
    ensures Next(t, e) == Some(u) && Goes(s, u)
  {
    u := Next(t, e).value;
    var ss, es :| SeqTrace(ss, es) && ss[0] == s && ss[|es|] == t;
    ExtendSeq(ss, es, e, u);
    assert (ss + [u])[0] == s && (ss + [u])[|es + [e]|] == u;
  }

  lemma ExtendSeq(ss: seq<State>, es: seq<Event>, e: Event, t: State)
    requires SeqTrace(ss, es) && Next(ss[|es|], e) == Some(t) && (e.Manage? ==> MS.NonOverlapping(ss[|es|].m, e.me))
    ensures SeqTrace(ss + [t], es + [e])
  {
    var ss', es' := ss + [t], es + [e];
    forall i | 0 <= i < |es'|
      ensures Next(ss'[i], es'[i]) == Some(ss'[i + 1]) && (es'[i].Manage? ==> MS.NonOverlapping(ss'[i].m, es'[i].me))
    {
      if i < |es| { assert es'[i] == es[i] && ss'[i] == ss[i] && ss'[i + 1] == ss[i + 1]; }
    }
  }

  /** The lease machine is at l, the call where it was, and nothing else has changed. */
  ghost predicate OnlyLeases(s: State, t: State, j: nat, l: L.State) {
    && j in s.jobs && j in t.jobs
    && t == s.(l := l, jobs := s.jobs[j := s.jobs[j].(since := t.jobs[j].since)])
  }

  lemma LiftStep(s: State, t: State, j: nat, c: nat, e: L.Event, l: L.State) returns (u: State)
    requires Goes(s, t) && OnlyLeases(s, t, j, t.l) && s.jobs[j].progress.Leasing? && c !in s.jobs
    requires L.Next(t.l, e) == Some(l) && LP.Only(e, {j, c})
    requires j in t.l.calls && j in l.calls && !L.Finished(l.calls[j].pc)
    ensures Goes(s, u) && OnlyLeases(s, u, j, l)
  {
    if Concerns(e, j) {
      u := GoOn(s, t, Advance(j, e));
    } else {
      assert MayHappen(t, e);
      u := GoOn(s, t, Elsewhere(e));
    }
    assert u.jobs == s.jobs[j := u.jobs[j]];
  }

  lemma StillInFlight(ls: seq<L.State>, le: seq<L.Event>, i: nat, j: nat)
    requires L.Trace(ls, le) && i <= |le| && j in ls[0].calls
    requires j in ls[|le|].calls && !L.Finished(ls[|le|].calls[j].pc)
    ensures j in ls[i].calls && !L.Finished(ls[i].calls[j].pc)
  {
    LI.RunShape(ls, le, 0, i);
    LI.RunShape(ls, le, i, |le|);
  }

  /** A way on in the lease machine, in which only the call's request and one of the host move, is
      a way on of the whole runtime. */
  lemma {:induction false} Lift(s: State, j: nat, c: nat, ls: seq<L.State>, le: seq<L.Event>, i: nat) returns (t: State)
    requires L.Trace(ls, le) && ls[0] == s.l && i <= |le| && (forall k :: 0 <= k < |le| ==> LP.Only(le[k], {j, c}))
    requires j in s.jobs && s.jobs[j].progress.Leasing? && j in s.l.calls && c !in s.jobs
    requires j in ls[|le|].calls && !L.Finished(ls[|le|].calls[j].pc)
    ensures Goes(s, t) && OnlyLeases(s, t, j, ls[i])
  {
    if i == 0 {
      t := s;
      assert SeqTrace([s], []) && [s][0] == s;
      assert s.jobs[j := s.jobs[j].(since := s.jobs[j].since)] == s.jobs;
    } else {
      t := Lift(s, j, c, ls, le, i - 1);
      StillInFlight(ls, le, i - 1, j);
      StillInFlight(ls, le, i, j);
      assert L.Next(ls[i - 1], le[i - 1]) == Some(ls[i]) && LP.Only(le[i - 1], {j, c});
      t := LiftStep(s, t, j, c, le[i - 1], ls[i]);
    }
  }

  /** In the lease machine, the request of call j comes to hold its approval. */
  lemma RequestApproved(s: L.State, j: nat, c: nat) returns (t: L.State)
    requires L.Inv(s) && j in s.calls && LP.Alive(s.calls[j]) && c !in s.calls
    ensures LP.Path(s, t, {j, c}) && j in t.calls && t.calls[j].pc.Approved? && t.calls[j].args == s.calls[j].args
  {
    var a, cs := s.calls[j].args, {j, c};
    LP.PathHere(s, cs);
    t := s;
    if LP.Early(s.calls[j].pc) && LP.Locked(s.rows, a) { t := LP.Intrude(s, s, cs, c, a); }
    t := LP.ToApproval(s, t, cs, j);
  }

  /** The whole runtime gets to the state in which that approval is held. */
  lemma CallApproved(s: State, j: nat, x: nat) returns (t: State)
    requires Inv(s) && StillAwaits(s, j, x)
    ensures Goes(s, t) && OnlyLeases(s, t, j, t.l) && L.Inv(t.l)
    ensures j in t.l.calls && t.l.calls[j].pc.Approved? && t.l.calls[j].args == s.l.calls[j].args
  {
    var c := Above(s.jobs.Keys + s.l.calls.Keys);
    assert c !in s.jobs && c !in s.l.calls;
    var l := RequestApproved(s.l, j, c);
    LP.PathKeepsInv(s.l, l, {j, c});
    var ls, le :| L.Leads(s.l, ls, le, l) && forall i :: 0 <= i < |le| ==> LP.Only(le[i], {j, c});
    t := Lift(s, j, c, ls, le, |le|);
  }

  lemma LeaseIssued(s: State, t: State, j: nat) returns (u: State)
    requires Goes(s, t) && j in t.jobs && t.jobs[j].progress.Leasing? && j in t.l.calls && t.l.calls[j].pc.Approved?
    requires L.RowsOk(t.l) && ValidResource(t.l.calls[j].args.resource)
    ensures Goes(s, u) && j in u.jobs && |u.jobs[j].stages| == |t.jobs[j].stages| + 1
    ensures var held := u.jobs[j].stages[|t.jobs[j].stages|];
            held.LeaseHeld? && held.lease.inst == t.l.calls[j].args.inst
  {
    u := GoOn(s, t, Elsewhere(L.Tick(t.l.now + 1)));
    u := GoOn(s, u, Advance(j, L.Issue(j, LP.UnusedId(t.l.rows))));
  }

  /** A call that still awaits its lease can come to hold it. */
  lemma OneNew(s: State, j: nat, x: nat) returns (t: State)
    requires Inv(s) && StillAwaits(s, j, x)
    ensures Goes(s, t) && HoldsFor(t, j, x) && !HoldsFor(s, j, x)
  {
    assert JobOk(s, j, s.jobs[j]);
    t := CallApproved(s, j, x);
    t := LeaseIssued(s, t, j);
  }

  /** The exact condition, at the teardown: from a state of any run without overlapping invocations
      in which x is gone, no call newly comes to hold a lease for x in any continuation, if and only
      if no call on a broker of x has a lease request in flight that is still alive. */
  lemma LeasesEndExactly(s: State, x: nat)
    requires Gone(s, x)
    ensures !StillAwaited(s, x) <==>
            (forall ss, es, j :: SeqTrace(ss, es) && ss[0] == s && HoldsFor(ss[|es|], j, x) ==> HoldsFor(s, j, x))
  {
    if StillAwaited(s, x) {
      var j :| StillAwaits(s, j, x);
      var t := OneNew(s, j, x);
      var ss, es :| SeqTrace(ss, es) && ss[0] == s && ss[|es|] == t;
    } else {
      forall ss, es, j | SeqTrace(ss, es) && ss[0] == s && HoldsFor(ss[|es|], j, x) ensures HoldsFor(s, j, x) {
        NoneNew(ss, es, j, x);
      }
    }
  }

  /** Every state of every such run qualifies. */
  lemma GoneReached(ss: seq<State>, es: seq<Event>, i: nat, x: nat)
    requires SeqTrace(ss, es) && Init(ss[0]) && i <= |es| && MS.Dead(ss[i].m, x)
    ensures Gone(ss[i], x)
  {
    InvAlways(ss, es, i);
    SeqInvAlways(ss, es, i);
  }
}
