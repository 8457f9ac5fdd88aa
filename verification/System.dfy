/** The whole runtime: tool invocations, brokered calls and lease requests, interleaved.

  A brokered call reads its broker's session when it arrives, and then runs through its stages on
  its own, even if the invocation it came from has ended.  Nothing here bounds the time a step
  takes; the module `SystemTime` adds the timeouts.
 */
module RuntimeSystem {
  import opened Options
  import opened RpcIds
  import opened LeaseTable
  import opened LeaseRules
  import opened Manifests
  import opened BrokerStages
  import L = LeaseMachine
  import LI = LeaseInvariant
  import M = ManagerMachine
  import MA = ManagerAttribution
  import MC = ManagerContainers

  datatype Progress = Leasing | Resolving | Executing | Done | Stuck

  /** A brokered call: what it read on arrival, the stages it has reached, and since when it is
      where it is. */
  datatype Job = Job(
    broker: nat, capsule: string, inst: nat, session: Option<string>, ask: Ask,
    arrived: int, since: int, progress: Progress, stages: seq<Stage>)

  datatype State = State(
    m: M.State, l: L.State, manifests: map<string, Manifest>, providers: set<string>, jobs: map<nat, Job>)

  datatype Event =
    | Manage(me: M.Event)
    | Elsewhere(le: L.Event)              // clock, revocations, and requests made by the host
    | Arrive(j: nat, b: nat, ask: Ask)
    | Advance(j: nat, je: L.Event)        // the call's own lease request moves on
    | Resolve(j: nat, ok: bool)
    | Finish(j: nat, bytes: Option<nat>)

  function InstanceId(i: nat): string {
    Decimal(i)
  }

  /** The lease-machine event belongs to call c. */
  predicate Concerns(e: L.Event, c: nat) {
    match e
    case Begin(d, _) => c == d
    case Resume(d) => c == d
    case Allow(d) => c == d
    case Reject(d) => c == d
    case Issue(d, _) => c == d
    case _ => false
  }

  predicate MayHappen(s: State, e: L.Event) {
    forall c :: c in s.jobs ==> !Concerns(e, c)
  }

  function NextArrive(s: State, j: nat, b: nat, ask: Ask): State
    requires b in s.m.brokers && s.m.brokers[b].capsule in s.manifests
  {
    var k := s.m.brokers[b];
    var mf := s.manifests[k.capsule];
    var job := Job(b, k.capsule, k.inst, k.session, ask, s.l.now, s.l.now, Stuck, []);
    var cred := Check(mf.credentials, ask.provider, ask.action);
    if cred.None? then s.(jobs := s.jobs[j := job])
    else
      var passed := job.(stages := [PolicyPassed(cred.value)]);
      if !HasSession(k.session) then s.(jobs := s.jobs[j := passed])
      else
        var l := L.NextBegin(s.l, j, LeaseArgs(mf, InstanceId(k.inst), k.session.value, None, ask, cred.value));
        s.(l := l, jobs := s.jobs[j := if l.calls[j].pc.Failed? then passed else passed.(progress := Leasing)])
  }

  /** The call after its lease request has moved to `pc`. */
  function Moved(s: State, job: Job, pc: L.Pc, now: int): Job {
    match pc
    case Returned(lease, _) =>
      job.(stages := job.stages + [LeaseHeld(lease)], since := now,
           progress := if job.ask.provider in s.providers then Resolving else Stuck)
    case Failed(_) => job.(progress := Stuck)
    case _ => job.(since := now)
  }

  function Next(s: State, e: Event): Option<State> {
    match e
    case Manage(me) =>
      var m := M.Next(s.m, me);
      if m.Some? then Some(s.(m := m.value)) else None
    case Elsewhere(le) =>
      var l := L.Next(s.l, le);
      if l.Some? && MayHappen(s, le) then Some(s.(l := l.value)) else None
    case Arrive(j, b, ask) =>
      if j !in s.jobs && j !in s.l.calls && b in s.m.brokers && s.m.brokers[b].capsule in s.manifests
      then Some(NextArrive(s, j, b, ask)) else None
    case Advance(j, je) =>
      if && j in s.jobs && s.jobs[j].progress.Leasing? && Concerns(je, j)
         && L.Next(s.l, je).Some? && j in L.Next(s.l, je).value.calls
      then
        var l := L.Next(s.l, je).value;
        Some(s.(l := l, jobs := s.jobs[j := Moved(s, s.jobs[j], l.calls[j].pc, l.now)]))
      else None
    case Resolve(j, ok) =>
      if j in s.jobs && s.jobs[j].progress.Resolving? && |s.jobs[j].stages| > 0 && s.jobs[j].stages[0].PolicyPassed?
      then
        var job := s.jobs[j];
        Some(s.(jobs := s.jobs[j :=
          if ok
          then job.(stages := job.stages + [Resolved(job.stages[0].cred.ref), Executed(job.ask)],
                    since := s.l.now, progress := Executing)
          else job.(progress := Stuck)]))
      else None
    case Finish(j, bytes) =>
      if j in s.jobs && s.jobs[j].progress.Executing?
      then
        var job := s.jobs[j];
        Some(s.(jobs := s.jobs[j :=
          if bytes.Some? && bytes.value <= MAX_RESPONSE_BYTES
          then job.(stages := job.stages + [Delivered(bytes.value)], progress := Done)
          else job.(progress := Stuck)]))
      else None
  }

  predicate Init(s: State) {
    M.Init(s.m) && L.Init(s.l) && s.jobs == map[] && forall c :: c in s.manifests ==> s.manifests[c].id == c
  }

  ghost predicate Trace(ss: seq<State>, es: seq<Event>) {
    |ss| == |es| + 1 && forall i {:trigger es[i]} :: 0 <= i < |es| ==> Next(ss[i], es[i]) == Some(ss[i + 1])
  }

  // ---------- The invariant ----------

  /** The call's place fits the stages it has reached and the time it may take. */
  ghost predicate JobOk(s: State, j: nat, job: Job) {
    && job.capsule in s.manifests && job.arrived <= job.since <= s.l.now
    && Staged(s.manifests[job.capsule], InstanceId(job.inst), job.session, job.ask, job.stages)
    && (|job.stages| >= 2 ==> L.Snapshot(s.l.rows, job.stages[1].lease))
    && match job.progress
       case Leasing =>
         && |job.stages| == 1 && HasSession(job.session) && j in s.l.calls && !L.Finished(s.l.calls[j].pc)
         && s.l.calls[j].args == LeaseArgs(
              s.manifests[job.capsule], InstanceId(job.inst), job.session.value, None, job.ask, job.stages[0].cred)
       case Resolving => |job.stages| == 2 && job.since < job.stages[1].lease.expiresAt
       case Executing => |job.stages| == 4
       case Done => |job.stages| == 5
       case Stuck => |job.stages| <= 4
  }

  ghost predicate Inv(s: State) {
    && L.Inv(s.l) && M.Inv(s.m) && MC.FateOk(s.m)
    && (forall j :: j in s.jobs ==> JobOk(s, j, s.jobs[j]))
  }

  /** Other parts of the system may move on; a call's own place is not disturbed. */
  lemma JobKept(s: State, t: State, j: nat, job: Job)
    requires JobOk(s, j, job) && t.manifests == s.manifests
    requires Evolves(s.l.rows, t.l.rows) && s.l.now <= t.l.now
    requires job.progress.Leasing? ==> j in t.l.calls && t.l.calls[j] == s.l.calls[j]
    ensures JobOk(t, j, job)
  {
    if |job.stages| >= 2 { L.SnapshotEvolves(s.l.rows, t.l.rows, job.stages[1].lease); }
  }

  // ---------- Each step ----------

  lemma ManageStep(s: State, e: Event, t: State)
    requires Inv(s) && e.Manage? && Next(s, e) == Some(t)
    ensures Inv(t)
  {
    MA.InvStep(s.m, e.me, t.m);
    MC.FateStep(s.m, e.me, t.m);
    forall j | j in t.jobs ensures JobOk(t, j, t.jobs[j]) { JobKept(s, t, j, s.jobs[j]); }
  }

  /** A lease-machine step leaves alone every call it does not concern. */
  lemma LeaseStepElsewhere(s: L.State, e: L.Event, t: L.State, c: nat)
    requires L.Next(s, e) == Some(t) && !Concerns(e, c) && c in s.calls
    ensures c in t.calls && t.calls[c] == s.calls[c]
  {
  }

  lemma OnlyTickMovesTime(s: L.State, e: L.Event, t: L.State)
    requires L.Next(s, e) == Some(t)
    ensures t.now == if e.Tick? then e.to else s.now
  {
  }

  lemma ElsewhereStep(s: State, e: Event, t: State)
    requires Inv(s) && e.Elsewhere? && Next(s, e) == Some(t)
    ensures Inv(t)
  {
    LI.InvStep(s.l, e.le, t.l);
    L.StepShape(s.l, e.le, t.l);
    OnlyTickMovesTime(s.l, e.le, t.l);
    forall j | j in t.jobs ensures JobOk(t, j, t.jobs[j]) {
      var job := s.jobs[j];
      assert JobOk(s, j, job);
      if job.progress.Leasing? { LeaseStepElsewhere(s.l, e.le, t.l, j); }
      JobKept(s, t, j, job);
    }
  }

  lemma ArrivedJobOk(s: State, e: Event, t: State)
    requires e.Arrive? && Next(s, e) == Some(t)
    ensures e.j in t.jobs && JobOk(t, e.j, t.jobs[e.j])
  {
  }

  lemma ArriveOk(s: State, e: Event, t: State)
    requires Inv(s) && e.Arrive? && Next(s, e) == Some(t)
    ensures L.Inv(t.l) && Evolves(s.l.rows, t.l.rows) && t.l.now == s.l.now
    ensures forall c :: c in s.l.calls ==> c in t.l.calls && t.l.calls[c] == s.l.calls[c]
  {
    var k := s.m.brokers[e.b];
    var cred := Check(s.manifests[k.capsule].credentials, e.ask.provider, e.ask.action);
    if cred.Some? && HasSession(k.session) {
      var a := LeaseArgs(s.manifests[k.capsule], InstanceId(k.inst), k.session.value, None, e.ask, cred.value);
      assert L.Next(s.l, L.Begin(e.j, a)) == Some(t.l);
      LI.InvStep(s.l, L.Begin(e.j, a), t.l);
    }
  }

  lemma ArriveStep(s: State, e: Event, t: State)
    requires Inv(s) && e.Arrive? && Next(s, e) == Some(t)
    ensures Inv(t)
  {
    ArriveOk(s, e, t);
    ArrivedJobOk(s, e, t);
    forall j | j in t.jobs ensures JobOk(t, j, t.jobs[j]) {
      if j != e.j { JobKept(s, t, j, s.jobs[j]); }
    }
  }

  /** A lease handed to a call is bound to it and unexpired at that moment. */
  lemma HandedLease(s: L.State, e: L.Event, t: L.State, j: nat)
    requires L.Inv(s) && L.Next(s, e) == Some(t) && L.Inv(t) && Concerns(e, j)
    requires j in s.calls && !L.Finished(s.calls[j].pc) && j in t.calls && t.calls[j].pc.Returned?
    ensures BoundTo(t.calls[j].pc.lease, s.calls[j].args) && L.Snapshot(t.rows, t.calls[j].pc.lease)
    ensures t.now < t.calls[j].pc.lease.expiresAt && t.now == s.now
  {
    assert L.CallOk(t, j, t.calls[j]);
    L.StepShape(s, e, t);
    assert LegalTtl(s.calls[j].args.ttl) by { assert !s.calls[j].pc.Failed?; }
    HandedUnexpired(s, e, t, j);
  }

  lemma HandedUnexpired(s: L.State, e: L.Event, t: L.State, j: nat)
    requires L.Next(s, e) == Some(t) && Concerns(e, j)
    requires j in s.calls && !L.Finished(s.calls[j].pc) && s.calls[j].args.ttl > 0 && j in t.calls
    requires t.calls[j].pc.Returned?
    ensures t.now < t.calls[j].pc.lease.expiresAt && t.now == s.now
  {
  }

  lemma MovedOk(s: State, e: Event, t: State)
    requires Inv(s) && e.Advance? && Next(s, e) == Some(t) && L.Inv(t.l)
    ensures JobOk(t, e.j, t.jobs[e.j]) && t.l.now == s.l.now
  {
    assert JobOk(s, e.j, s.jobs[e.j]);
    L.StepShape(s.l, e.je, t.l);
    OnlyTickMovesTime(s.l, e.je, t.l);
    if t.l.calls[e.j].pc.Returned? { HandedLease(s.l, e.je, t.l, e.j); }
    PlaceOk(s, e, t);
  }

  /** The call's new place fits, given what the lease request came to. */
  lemma PlaceOk(s: State, e: Event, t: State)
    requires e.Advance? && Next(s, e) == Some(t) && JobOk(s, e.j, s.jobs[e.j])
    requires t.l.calls[e.j].args == s.l.calls[e.j].args && t.l.now == s.l.now
    requires var pc := t.l.calls[e.j].pc;
             pc.Returned? ==>
               BoundTo(pc.lease, s.l.calls[e.j].args) && L.Snapshot(t.l.rows, pc.lease) && t.l.now < pc.lease.expiresAt
    ensures JobOk(t, e.j, t.jobs[e.j])
  {
  }

  lemma AdvanceStep(s: State, e: Event, t: State)
    requires Inv(s) && e.Advance? && Next(s, e) == Some(t)
    ensures Inv(t)
  {
    LI.InvStep(s.l, e.je, t.l);
    L.StepShape(s.l, e.je, t.l);
    MovedOk(s, e, t);
    forall j | j in t.jobs ensures JobOk(t, j, t.jobs[j]) {
      if j != e.j {
        var job := s.jobs[j];
        assert JobOk(s, j, job);
        if job.progress.Leasing? {
          ConcernsOne(e.je, e.j, j);
          LeaseStepElsewhere(s.l, e.je, t.l, j);
        }
        JobKept(s, t, j, job);
      }
    }
  }

  lemma ConcernsOne(e: L.Event, c: nat, d: nat)
    requires Concerns(e, c) && c != d
    ensures !Concerns(e, d)
  {
  }

  /** The lease table only evolves, and time only advances. */
  lemma LeasesMove(s: State, e: Event, t: State)
    requires Next(s, e) == Some(t)
    ensures Evolves(s.l.rows, t.l.rows) && s.l.now <= t.l.now
    ensures e.Advance? || e.Resolve? || e.Finish? || e.Arrive? || e.Manage? ==> t.l.now == s.l.now
  {
    if e.Elsewhere? { L.RowsShape(s.l, e.le, t.l); }
    if e.Advance? {
      L.RowsShape(s.l, e.je, t.l);
      OnlyTickMovesTime(s.l, e.je, t.l);
    }
  }

  /** A lease request moves only by its own call's steps. */
  lemma CallKept(s: State, e: Event, t: State, j: nat)
    requires Next(s, e) == Some(t) && j in s.jobs && j in s.l.calls && !(e.Advance? && e.j == j)
    ensures j in t.l.calls && t.l.calls[j] == s.l.calls[j]
  {
    if e.Advance? {
      ConcernsOne(e.je, e.j, j);
      LeaseStepElsewhere(s.l, e.je, t.l, j);
    } else if e.Elsewhere? {
      LeaseStepElsewhere(s.l, e.le, t.l, j);
    }
  }

  lemma EndedOk(s: State, e: Event, t: State)
    requires (e.Resolve? || e.Finish?) && Next(s, e) == Some(t) && JobOk(s, e.j, s.jobs[e.j])
    ensures JobOk(t, e.j, t.jobs[e.j]) && t == s.(jobs := t.jobs) && t.jobs.Keys == s.jobs.Keys
    ensures forall j :: j in s.jobs && j != e.j ==> t.jobs[j] == s.jobs[j]
  {
  }

  lemma EndStep(s: State, e: Event, t: State)
    requires Inv(s) && (e.Resolve? || e.Finish?) && Next(s, e) == Some(t)
    ensures Inv(t)
  {
    assert JobOk(s, e.j, s.jobs[e.j]);
    EndedOk(s, e, t);
    OneJobMoved(s, t, e.j);
  }

  lemma OneJobMoved(s: State, t: State, j: nat)
    requires Inv(s) && t == s.(jobs := t.jobs) && t.jobs.Keys == s.jobs.Keys
    requires j in t.jobs && JobOk(t, j, t.jobs[j]) && forall k :: k in s.jobs && k != j ==> t.jobs[k] == s.jobs[k]
    ensures Inv(t)
  {
    forall k | k in t.jobs ensures JobOk(t, k, t.jobs[k]) {
      if k != j { JobKept(s, t, k, s.jobs[k]); }
    }
  }

  lemma InvStep(s: State, e: Event, t: State)
    requires Inv(s) && Next(s, e) == Some(t)
    ensures Inv(t)
  {
    match e
    case Manage(_) => ManageStep(s, e, t);
    case Elsewhere(_) => ElsewhereStep(s, e, t);
    case Arrive(_, _, _) => ArriveStep(s, e, t);
    case Advance(_, _) => AdvanceStep(s, e, t);
    case Resolve(_, _) => EndStep(s, e, t);
    case Finish(_, _) => EndStep(s, e, t);
  }

  lemma {:induction false} InvAlways(ss: seq<State>, es: seq<Event>, i: nat)
    requires Trace(ss, es) && Init(ss[0]) && i <= |es|
    ensures Inv(ss[i])
  {
    if i > 0 {
      InvAlways(ss, es, i - 1);
      assert Next(ss[i - 1], es[i - 1]) == Some(ss[i]);
      InvStep(ss[i - 1], es[i - 1], ss[i]);
    }
  }

  // ---------- The staged pipeline ----------

  /** Every call in every run has passed its stages in order, each one its own: an execution comes
      after a resolution for the ref of the manifest's first entry for the provider, that after a
      lease bound to this instance, session, provider, resource and action, and that after a policy
      pass; a result is delivered only from the last stage, and within the size limit. */
  lemma StagedAlways(ss: seq<State>, es: seq<Event>, i: nat, j: nat)
    requires Trace(ss, es) && Init(ss[0]) && i <= |es| && j in ss[i].jobs
    ensures var s, job := ss[i], ss[i].jobs[j];
            && job.capsule in s.manifests
            && Staged(s.manifests[job.capsule], InstanceId(job.inst), job.session, job.ask, job.stages)
            && (job.progress.Done? <==> |job.stages| == 5)
            && (job.progress.Executing? ==> |job.stages| == 4)
    ensures var s, job := ss[i], ss[i].jobs[j];
            var stages, ask := job.stages, job.ask;
            && |stages| <= 5
            && (|stages| >= 1 ==> stages[0].PolicyPassed? && exists k ::
                  IsFirst(s.manifests[job.capsule].credentials, ask.provider, k)
                  && stages[0].cred == s.manifests[job.capsule].credentials[k] && ask.action in stages[0].cred.actions)
            && (|stages| >= 2 ==>
                  && stages[1].LeaseHeld? && job.session == Some(stages[1].lease.sess) && stages[1].lease.sess != ""
                  && stages[1].lease.inst == Decimal(job.inst) && stages[1].lease.provider == ask.provider
                  && stages[1].lease.resource == ask.resource && ask.action in stages[1].lease.actions)
            && (|stages| >= 3 ==> stages[2] == Resolved(stages[0].cred.ref))
            && (|stages| >= 4 ==> stages[3] == Executed(ask))
            && (|stages| == 5 ==> stages[4].Delivered? && stages[4].bytes <= 2097152)
  {
    InvAlways(ss, es, i);
    var job := ss[i].jobs[j];
    assert JobOk(ss[i], j, job);
    var credentials := ss[i].manifests[job.capsule].credentials;
    CheckIsFirstEntry(credentials, job.ask.provider, job.ask.action);
    if |job.stages| >= 1 {
      var k :| IsFirst(credentials, job.ask.provider, k) && job.ask.action in credentials[k].actions;
      assert job.stages[0].cred == credentials[k];
    }
  }

  /** The call is the same one, further on: no stage is dropped or rewritten, and a call that has
      failed or delivered reaches no other stage. */
  predicate FurtherOn(a: Job, b: Job) {
    && b == a.(progress := b.progress, stages := b.stages, since := b.since)
    && a.stages <= b.stages
    && (a.progress.Stuck? || a.progress.Done? ==> b == a)
  }

  lemma FurtherStep(s: State, e: Event, t: State, j: nat)
    requires Next(s, e) == Some(t) && j in s.jobs
    ensures j in t.jobs && FurtherOn(s.jobs[j], t.jobs[j])
  {
  }

  lemma {:induction false} JobsOnlyAdvance(ss: seq<State>, es: seq<Event>, i: nat, k: nat, j: nat)
    requires Trace(ss, es) && i <= k <= |es| && j in ss[i].jobs
    ensures j in ss[k].jobs && FurtherOn(ss[i].jobs[j], ss[k].jobs[j])
    decreases k
  {
    if i < k {
      JobsOnlyAdvance(ss, es, i, k - 1, j);
      assert Next(ss[k - 1], es[k - 1]) == Some(ss[k]);
      FurtherStep(ss[k - 1], es[k - 1], ss[k], j);
    }
  }

  // ---------- Whose session a call carries ----------

  /** On arrival a call takes the session of the invocation that holds the lock of its capsule at
      that moment and uses its broker; with no session it stops there, without a lease request. */
  lemma ArrivalSession(ss: seq<State>, es: seq<Event>, i: nat, j: nat, b: nat, ask: Ask)
    requires Trace(ss, es) && Init(ss[0]) && i < |es| && es[i] == Arrive(j, b, ask)
    ensures j in ss[i + 1].jobs
    ensures var job, m := ss[i + 1].jobs[j], ss[i].m;
            && b in m.brokers && job.inst == m.brokers[b].inst
            && (if HasSession(job.session)
                then M.UsedByHolder(m, b) && job.session == m.invs[m.holder[job.capsule]].session
                else job.progress == Stuck && |job.stages| <= 1 && ss[i + 1].l == ss[i].l)
  {
    InvAlways(ss, es, i);
    assert Next(ss[i], es[i]) == Some(ss[i + 1]);
    ArrivalReads(ss[i], es[i], ss[i + 1]);
  }

  lemma ArrivalReads(s: State, e: Event, t: State)
    requires M.SessionsOk(s.m) && e.Arrive? && Next(s, e) == Some(t)
    ensures e.b in s.m.brokers && e.j in t.jobs && t.jobs[e.j].inst == s.m.brokers[e.b].inst
    ensures var job := t.jobs[e.j];
            if HasSession(job.session)
            then M.UsedByHolder(s.m, e.b) && job.session == s.m.invs[s.m.holder[job.capsule]].session
            else job.progress == Stuck && |job.stages| <= 1 && t.l == s.l
  {
  }
}
