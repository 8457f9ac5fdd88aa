/** A run in which a call is granted a lease for an instance that was torn down while the host was
  being asked: leases follow their container on arrival of a call, not when they are issued. */
module SystemWitness {
  import opened Options
  import opened LeaseTable
  import opened LeaseRules
  import opened Manifests
  import opened BrokerStages
  import opened RuntimeSystem
  import opened SystemLeases
  import L = LeaseMachine
  import M = ManagerMachine
  import MS = ManagerSequential

  ghost predicate Reaches(ss: seq<State>, es: seq<Event>, t: State) {
    SeqTrace(ss, es) && Init(ss[0]) && ss[|es|] == t
  }

  lemma Extend(ss: seq<State>, es: seq<Event>, s: State, e: Event, t: State) returns (ss': seq<State>, es': seq<Event>)
    requires Reaches(ss, es, s) && Next(s, e) == Some(t) && (e.Manage? ==> MS.NonOverlapping(s.m, e.me))
    ensures ss' == ss + [t] && es' == es + [e] && Reaches(ss', es', t)
  {
    ss', es' := ss + [t], es + [e];
    ExtendSeq(ss, es, e, t);
  }

  lemma ManagerMoves(ss: seq<State>, es: seq<Event>, s: State, e: M.Event)
    returns (ss': seq<State>, es': seq<Event>, t: State)
    requires Reaches(ss, es, s) && M.Next(s.m, e).Some? && MS.NonOverlapping(s.m, e)
    ensures Reaches(ss', es', t) && t == s.(m := M.Next(s.m, e).value)
  {
    t := s.(m := M.Next(s.m, e).value);
    ss', es' := Extend(ss, es, s, Manage(e), t);
  }

  /** The first invocation of a capsule, up to the moment its tool call is in progress. */
  lemma ToolCallBegins(c: string, mf: Manifest, provider: string, session: string)
    returns (ss: seq<State>, es: seq<Event>, t: State)
    requires mf.id == c
    ensures Reaches(ss, es, t) && t.l == L.State(0, [], map[], [], [], {}) && t.jobs == map[]
    ensures t.manifests == map[c := mf] && t.providers == {provider}
    ensures t.m.brokers == map[0 := M.Broker(c, 0, Some(session))] && t.m.servers == map[c := 0]
    ensures t.m.instances == map[c := 0]
    ensures t.m.invs == map[0 := M.Invocation(c, Some(session), M.Running(0, Some(0)))]
    ensures t.m.fate == map[0 := M.Registered(c)]
  {
    var m0 := M.State(map[], map[], map[], map[], map[], map[], {});
    t := State(m0, L.State(0, [], map[], [], [], {}), map[c := mf], {provider}, map[]);
    ss, es := [t], [];
    ss, es, t := ManagerMoves(ss, es, t, M.Invoke(0, c, Some(session)));
    ss, es, t := ManagerMoves(ss, es, t, M.Started(0, 0, 0));
    ss, es, t := ManagerMoves(ss, es, t, M.BrokerStarted(0, true));
    ss, es, t := ManagerMoves(ss, es, t, M.Acquire(0));
  }

  /** The tool call fails while a brokered call it made is under way ... */
  lemma InstanceFails(ss: seq<State>, es: seq<Event>, s: State, c: string)
    returns (ss': seq<State>, es': seq<Event>, t: State)
    requires Reaches(ss, es, s) && s.m.servers == map[c := 0] && s.m.instances == map[c := 0]
    requires 0 in s.m.invs && s.m.invs[0].capsule == c && s.m.invs[0].phase == M.Running(0, Some(0))
    ensures Reaches(ss', es', t) && t == s.(m := t.m) && t.m.instances == map[c := 0]
    ensures 0 in t.m.invs && t.m.invs[0].capsule == c && t.m.invs[0].phase == M.StoppingBroker(0, Some(0))
  {
    ss', es', t := ManagerMoves(ss, es, s, M.Broke(0));
  }

  /** ... and the instance is torn down. */
  lemma InstanceDies(ss: seq<State>, es: seq<Event>, s: State, c: string)
    returns (ss': seq<State>, es': seq<Event>, t: State)
    requires Reaches(ss, es, s) && s.m.servers == map[c := 0] && s.m.instances == map[c := 0]
    requires 0 in s.m.invs && s.m.invs[0].capsule == c && s.m.invs[0].phase == M.Running(0, Some(0))
    ensures Reaches(ss', es', t) && t == s.(m := t.m) && MS.Dead(t.m, 0)
  {
    ss', es', t := InstanceFails(ss, es, s, c);
    ss', es', t := ManagerMoves(ss', es', t, M.BrokerStopped(0));
    assert t.m.invs[0].phase == M.StoppingInst(0, Some(0), 0);
    ss', es', t := ManagerMoves(ss', es', t, M.ContainerStopped(0, true));
  }

  /** The call's lease request moves on without ending. */
  lemma RequestMoves(ss: seq<State>, es: seq<Event>, s: State, e: L.Event, pc: L.Pc)
    returns (ss': seq<State>, es': seq<Event>, t: State)
    requires Reaches(ss, es, s) && Concerns(e, 0) && 0 in s.jobs && s.jobs[0].progress.Leasing?
    requires L.Next(s.l, e).Some? && s.jobs[0].since == L.Next(s.l, e).value.now
    requires 0 in L.Next(s.l, e).value.calls && L.Next(s.l, e).value.calls[0].pc == pc && !L.Finished(pc)
    ensures Reaches(ss', es', t) && t == s.(l := L.Next(s.l, e).value)
  {
    t := s.(l := L.Next(s.l, e).value);
    assert s.jobs[0 := s.jobs[0]] == s.jobs;
    ss', es' := Extend(ss, es, s, Advance(0, e), t);
  }

  predicate Permitted(mf: Manifest, session: string, ask: Ask) {
    && session != "" && ValidResource(ask.resource)
    && Check(mf.credentials, ask.provider, ask.action).Some?
    && LegalTtl(Check(mf.credentials, ask.provider, ask.action).value.ttl)
  }

  function Request(mf: Manifest, session: string, ask: Ask): Args
    requires Permitted(mf, session, ask)
  {
    LeaseArgs(mf, InstanceId(0), session, None, ask, Check(mf.credentials, ask.provider, ask.action).value)
  }

  /** Call 0 has read its session and passed the policy, and its lease request is at `pc`. */
  ghost predicate AtRequest(s: State, mf: Manifest, session: string, ask: Ask, pc: L.Pc)
    requires Permitted(mf, session, ask)
  {
    && 0 in s.jobs && s.jobs[0].progress == Leasing && |s.jobs[0].stages| == 1
    && s.jobs[0].ask == ask && s.jobs[0].since == 0
    && ask.provider in s.providers
    && s.l == L.State(0, [], map[0 := L.Call(Request(mf, session, ask), pc)], s.l.grants, [], {})
    && (!pc.Approved? ==> s.l.grants == [])
  }

  /** The invocation's tool makes a brokered call. */
  lemma CallArrives(c: string, mf: Manifest, session: string, ask: Ask)
    returns (ss: seq<State>, es: seq<Event>, t: State)
    requires mf.id == c && Permitted(mf, session, ask)
    ensures Reaches(ss, es, t) && AtRequest(t, mf, session, ask, L.Looked(None))
    ensures t.m.servers == map[c := 0] && t.m.instances == map[c := 0]
    ensures t.m.invs == map[0 := M.Invocation(c, Some(session), M.Running(0, Some(0)))]
  {
    ss, es, t := ToolCallBegins(c, mf, ask.provider, session);
    var arrived := NextArrive(t, 0, 0, ask);
    assert arrived.l == L.NextBegin(t.l, 0, Request(mf, session, ask));
    ss, es := Extend(ss, es, t, Arrive(0, 0, ask), arrived);
    t := arrived;
  }

  /** The request finds nothing, asks the host, and is approved. */
  lemma RequestApproved(ss: seq<State>, es: seq<Event>, s: State, mf: Manifest, session: string, ask: Ask)
    returns (ss': seq<State>, es': seq<Event>, t: State)
    requires Permitted(mf, session, ask) && Reaches(ss, es, s) && AtRequest(s, mf, session, ask, L.Looked(None))
    ensures Reaches(ss', es', t) && AtRequest(t, mf, session, ask, L.Approved(0)) && t.m == s.m
  {
    ss', es', t := RequestMoves(ss, es, s, L.Resume(0), L.Checking(None));
    ss', es', t := RequestMoves(ss', es', t, L.Resume(0), L.Awaiting);
    ss', es', t := RequestMoves(ss', es', t, L.Allow(0), L.Approved(0));
  }

  lemma RequestIssued(ss: seq<State>, es: seq<Event>, s: State, mf: Manifest, session: string, ask: Ask)
    returns (ss': seq<State>, es': seq<Event>, t: State)
    requires Permitted(mf, session, ask) && Reaches(ss, es, s) && AtRequest(s, mf, session, ask, L.Approved(0))
    ensures Reaches(ss', es', t) && t.m == s.m && 0 in t.jobs && t.jobs[0].progress.Resolving?
    ensures |t.jobs[0].stages| == 2 && t.jobs[0].stages[1].LeaseHeld? && t.jobs[0].stages[1].lease.inst == InstanceId(0)
  {
    t := Next(s, Advance(0, L.Issue(0, "L"))).value;
    ss', es' := Extend(ss, es, s, Advance(0, L.Issue(0, "L")), t);
  }

  /** For any capsule, caller and permitted action: without any overlapping invocation, a call can
      come to hold a lease that names an instance already torn down. */
  lemma LeaseForDeadInstance(c: string, mf: Manifest, session: string, ask: Ask)
    returns (ss: seq<State>, es: seq<Event>, t: State)
    requires mf.id == c && Permitted(mf, session, ask)
    ensures Reaches(ss, es, t) && 0 in t.jobs && MS.Dead(t.m, 0) && t.jobs[0].progress.Resolving?
    ensures |t.jobs[0].stages| == 2 && t.jobs[0].stages[1].LeaseHeld? && t.jobs[0].stages[1].lease.inst == InstanceId(0)
  {
    ss, es, t := CallArrives(c, mf, session, ask);
    ss, es, t := InstanceDies(ss, es, t, c);
    var m := t.m;
    ss, es, t := RequestApproved(ss, es, t, mf, session, ask);
    ss, es, t := RequestIssued(ss, es, t, mf, session, ask);
    assert t.m == m;
  }
}
