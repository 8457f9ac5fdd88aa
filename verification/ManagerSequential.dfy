/** Runs in which invocations of one capsule do not overlap: registries that agree, no lost
  container but by a failed stop, and a broken instance that is never used again. */
module ManagerSequential {
  import opened Options
  import opened ManagerMachine
  import opened ManagerAttribution
  import opened ManagerContainers

  predicate InFlight(s: State, v: nat) {
    v in s.invs && !s.invs[v].phase.Over?
  }

  ghost predicate Idle(s: State, c: string) {
    forall v :: InFlight(s, v) ==> s.invs[v].capsule != c
  }

  ghost predicate NonOverlapping(s: State, e: Event) {
    e.Invoke? ==> Idle(s, e.capsule)
  }

  ghost predicate SeqTrace(ss: seq<State>, es: seq<Event>) {
    Trace(ss, es) && forall i {:trigger es[i]} :: 0 <= i < |es| ==> NonOverlapping(ss[i], es[i])
  }

  predicate IsRegistered(s: State, c: string, i: nat) {
    c in s.instances && s.instances[c] == i
  }

  predicate BoundTo(s: State, server: Option<nat>, i: nat) {
    server.Some? ==> server.value in s.brokers && s.brokers[server.value].inst == i
  }

  /** Both registries agree on the capsule: a registered instance has a registered broker, bound
      to it, unless that broker failed to start; and no broker is registered without an instance. */
  predicate Settled(s: State, c: string) {
    && (c in s.servers ==> c in s.instances && BoundTo(s, Some(s.servers[c]), s.instances[c]))
    && (c in s.instances ==> (c in s.servers <==> s.instances[c] !in s.brokerless))
  }

  predicate Neither(s: State, c: string) {
    c !in s.instances && c !in s.servers
  }

  /** What each phase finds in the registries of its capsule. */
  predicate Fits(s: State, c: string, p: Phase) {
    match p
    case CheckingHealth(i) => IsRegistered(s, c, i) && Settled(s, c)
    case StoppingOldBroker => c in s.instances && c !in s.servers
    case StoppingOld(_) => Neither(s, c)
    case Starting => Neither(s, c)
    case StartingBroker(i, b) =>
      IsRegistered(s, c, i) && c !in s.servers && BoundTo(s, Some(b), i) && i !in s.brokerless
    case Queued(i, server) => IsRegistered(s, c, i) && Settled(s, c) && server == Get(s.servers, c)
    case Running(i, server) => IsRegistered(s, c, i) && Settled(s, c) && server == Get(s.servers, c)
    case StoppingBroker(i, server) => IsRegistered(s, c, i) && c !in s.servers && BoundTo(s, server, i)
    case StoppingInst(i, server, victim) => Neither(s, c) && victim == i && BoundTo(s, server, i)
    case Over => Settled(s, c)
  }

  ghost predicate SeqInv(s: State) {
    && (forall u, v :: InFlight(s, u) && InFlight(s, v) && u != v ==> s.invs[u].capsule != s.invs[v].capsule)
    && (forall v :: InFlight(s, v) ==> Fits(s, s.invs[v].capsule, s.invs[v].phase))
    && (forall c :: Idle(s, c) ==> Settled(s, c))
    && s.brokerless <= s.fate.Keys
    && (forall i :: i in s.fate ==> !s.fate[i].Overwritten?)
  }

  /** Nothing but the entries of capsule c changed, and broker objects kept their binding. */
  ghost predicate Elsewhere(s: State, t: State, c: string) {
    && (forall d :: d != c ==> Get(t.instances, d) == Get(s.instances, d) && Get(t.servers, d) == Get(s.servers, d))
    && (forall b :: b in s.brokers ==> b in t.brokers && t.brokers[b].inst == s.brokers[b].inst)
    && (forall i :: i in s.brokerless ==> i in t.brokerless)
    && (forall i :: i in t.brokerless && i !in s.brokerless ==> IsRegistered(s, c, i))
  }

  /** What the step of one invocation does to its own capsule. */
  ghost predicate Local(s: State, t: State, v: nat) {
    && v in t.invs
    && (v in s.invs ==> t.invs[v].capsule == s.invs[v].capsule && InFlight(s, v))
    && (forall u :: u != v ==> (u in t.invs <==> u in s.invs))
    && (forall u :: u in s.invs && u != v ==> t.invs[u] == s.invs[u])
    && Elsewhere(s, t, t.invs[v].capsule)
    && Fits(t, t.invs[v].capsule, t.invs[v].phase)
    && t.brokerless <= t.fate.Keys
    && (forall i :: i in t.fate ==> !t.fate[i].Overwritten?)
  }

  lemma FitsElsewhere(s: State, t: State, c: string, d: string, p: Phase)
    requires Elsewhere(s, t, c) && d != c && FateOk(s) && Fits(s, d, p)
    ensures Fits(t, d, p)
  {
    assert Get(t.instances, d) == Get(s.instances, d) && Get(t.servers, d) == Get(s.servers, d);
    if d in s.instances && c in s.instances {
      assert s.instances[c] != s.instances[d];
    }
  }

  lemma LocalKeeps(s: State, t: State, v: nat)
    requires SeqInv(s) && FateOk(s) && Local(s, t, v)
    requires v in s.invs || Idle(s, t.invs[v].capsule)
    ensures SeqInv(t)
  {
    var c := t.invs[v].capsule;
    forall u | InFlight(t, u) && u != v ensures t.invs[u].capsule != c && Fits(t, t.invs[u].capsule, t.invs[u].phase) {
      assert InFlight(s, u);
      assert v in s.invs ==> InFlight(s, v);
      FitsElsewhere(s, t, c, t.invs[u].capsule, t.invs[u].phase);
    }
    forall d | Idle(t, d) ensures Settled(t, d) {
      if d != c {
        assert forall u :: InFlight(s, u) && u != v ==> InFlight(t, u);
        assert Idle(s, d);
        FitsElsewhere(s, t, c, d, Over);
      } else {
        assert !InFlight(t, v);
      }
    }
  }

  // ---------- Each step is local ----------

  lemma PopOldLocal(s: State, v: nat)
    requires SeqInv(s) && InFlight(s, v) && s.invs[v].capsule !in s.servers
    requires s.invs[v].capsule in s.instances
    ensures Local(s, PopOld(s, v), v)
  {
  }

  lemma HealthLocal(s: State, e: Event, t: State)
    requires SeqInv(s) && (e.Healthy? || e.Unhealthy?) && Next(s, e) == Some(t)
    ensures Local(s, t, e.v)
  {
    var v := e.v;
    assert InFlight(s, v) && Fits(s, s.invs[v].capsule, s.invs[v].phase);
    if e.Unhealthy? && s.invs[v].capsule !in s.servers { PopOldLocal(s, v); }
  }

  lemma LeaveLocal(s: State, v: nat, server: Option<nat>)
    requires SeqInv(s) && InFlight(s, v) && Settled(s, s.invs[v].capsule)
    ensures Local(s, Leave(s, v, server), v)
  {
  }

  lemma PopFailedLocal(s: State, v: nat, inst: nat, server: Option<nat>)
    requires SeqInv(s) && InFlight(s, v) && s.invs[v].capsule !in s.servers
    requires IsRegistered(s, s.invs[v].capsule, inst) && BoundTo(s, server, inst)
    ensures Local(s, PopFailed(s, v, inst, server), v)
  {
  }

  lemma BrokerStopLocal(s: State, e: Event, t: State)
    requires SeqInv(s) && e.BrokerStopped? && Next(s, e) == Some(t)
    ensures Local(s, t, e.v)
  {
    var v := e.v;
    assert InFlight(s, v) && Fits(s, s.invs[v].capsule, s.invs[v].phase);
    match s.invs[v].phase
    case StoppingOldBroker => PopOldLocal(s, v);
    case StoppingBroker(i, server) => PopFailedLocal(s, v, i, server);
    case _ =>
  }

  /** Recording how a container ended changes nothing else. */
  lemma FateLocal(s: State, u: State, t: State, v: nat, i: nat, end: Fate)
    requires Local(s, u, v) && t == u.(fate := u.fate[i := end]) && !end.Overwritten?
    ensures Local(s, t, v)
  {
  }

  lemma OldGoneLocal(s: State, v: nat, ok: bool)
    requires SeqInv(s) && InFlight(s, v) && Neither(s, s.invs[v].capsule)
    ensures Local(s, At(s, v, if ok then Starting else Over), v)
  {
  }

  lemma OldStopLocal(s: State, e: Event, t: State)
    requires SeqInv(s) && e.ContainerStopped? && Next(s, e) == Some(t) && s.invs[e.v].phase.StoppingOld?
    ensures Local(s, t, e.v)
  {
    var v := e.v;
    assert InFlight(s, v) && Fits(s, s.invs[v].capsule, s.invs[v].phase);
    OldGoneLocal(s, v, e.ok);
    var u := At(s, v, if e.ok then Starting else Over);
    FateLocal(s, u, t, v, s.invs[v].phase.victim, if e.ok then Gone else StopFailed);
  }

  lemma FailedStopLocal(s: State, e: Event, t: State)
    requires SeqInv(s) && e.ContainerStopped? && Next(s, e) == Some(t) && s.invs[e.v].phase.StoppingInst?
    ensures Local(s, t, e.v)
  {
    var v := e.v;
    assert InFlight(s, v) && Fits(s, s.invs[v].capsule, s.invs[v].phase);
    LeaveLocal(s, v, s.invs[v].phase.server);
    FateLocal(s, Leave(s, v, s.invs[v].phase.server), t, v, s.invs[v].phase.victim, if e.ok then Gone else StopFailed);
  }

  lemma ContainerStopLocal(s: State, e: Event, t: State)
    requires SeqInv(s) && e.ContainerStopped? && Next(s, e) == Some(t)
    ensures Local(s, t, e.v)
  {
    if s.invs[e.v].phase.StoppingOld? { OldStopLocal(s, e, t); } else { FailedStopLocal(s, e, t); }
  }

  lemma BrokeLocal(s: State, e: Event, t: State)
    requires SeqInv(s) && e.Broke? && Next(s, e) == Some(t)
    ensures Local(s, t, e.v)
  {
    var v := e.v;
    assert InFlight(s, v) && Fits(s, s.invs[v].capsule, s.invs[v].phase);
    if s.invs[v].capsule !in s.servers { PopFailedLocal(s, v, s.invs[v].phase.inst, s.invs[v].phase.server); }
  }

  lemma StartLocal(s: State, e: Event, t: State)
    requires SeqInv(s) && (e.Started? || e.StartFailed?) && Next(s, e) == Some(t)
    ensures Local(s, t, e.v)
  {
    assert InFlight(s, e.v) && Fits(s, s.invs[e.v].capsule, s.invs[e.v].phase);
  }

  lemma BrokerStartLocal(s: State, e: Event, t: State)
    requires SeqInv(s) && FateOk(s) && e.BrokerStarted? && Next(s, e) == Some(t)
    ensures Local(s, t, e.v)
  {
    assert InFlight(s, e.v) && Fits(s, s.invs[e.v].capsule, s.invs[e.v].phase);
    if e.ok { BrokerListens(s, e.v); } else { BrokerFails(s, e.v); }
  }

  lemma BrokerListens(s: State, v: nat)
    requires InFlight(s, v) && s.invs[v].phase.StartingBroker? && Fits(s, s.invs[v].capsule, s.invs[v].phase)
    requires s.brokerless <= s.fate.Keys && forall i :: i in s.fate ==> !s.fate[i].Overwritten?
    ensures Local(s, NextBrokerStarted(s, v, true), v)
  {
  }

  lemma BrokerFails(s: State, v: nat)
    requires FateOk(s) && InFlight(s, v) && s.invs[v].phase.StartingBroker?
    requires Fits(s, s.invs[v].capsule, s.invs[v].phase)
    requires s.brokerless <= s.fate.Keys && forall i :: i in s.fate ==> !s.fate[i].Overwritten?
    ensures Local(s, NextBrokerStarted(s, v, false), v)
  {
  }

  lemma LockLocal(s: State, e: Event, t: State)
    requires SeqInv(s) && (e.Acquire? || e.Returned?) && Next(s, e) == Some(t)
    ensures Local(s, t, e.v)
  {
    assert InFlight(s, e.v) && Fits(s, s.invs[e.v].capsule, s.invs[e.v].phase);
    if e.Returned? { LeaveLocal(s, e.v, s.invs[e.v].phase.server); }
  }

  lemma InvokeLocal(s: State, e: Event, t: State)
    requires SeqInv(s) && e.Invoke? && NonOverlapping(s, e) && Next(s, e) == Some(t)
    ensures Local(s, t, e.v)
  {
    assert Settled(s, e.capsule);
  }

  lemma StepLocal(s: State, e: Event, t: State)
    requires SeqInv(s) && FateOk(s) && NonOverlapping(s, e) && Next(s, e) == Some(t)
    ensures Local(s, t, e.v) && (e.v in s.invs || Idle(s, t.invs[e.v].capsule))
  {
    match e
    case Invoke(_, _, _) => InvokeLocal(s, e, t);
    case Healthy(_) => HealthLocal(s, e, t);
    case Unhealthy(_) => HealthLocal(s, e, t);
    case BrokerStopped(_) => BrokerStopLocal(s, e, t);
    case ContainerStopped(_, _) => ContainerStopLocal(s, e, t);
    case Started(_, _, _) => StartLocal(s, e, t);
    case StartFailed(_) => StartLocal(s, e, t);
    case BrokerStarted(_, _) => BrokerStartLocal(s, e, t);
    case Acquire(_) => LockLocal(s, e, t);
    case Returned(_) => LockLocal(s, e, t);
    case Broke(_) => BrokeLocal(s, e, t);
  }

  lemma SeqInvStep(s: State, e: Event, t: State)
    requires SeqInv(s) && FateOk(s) && NonOverlapping(s, e) && Next(s, e) == Some(t)
    ensures SeqInv(t)
  {
    StepLocal(s, e, t);
    LocalKeeps(s, t, e.v);
  }

  lemma SeqInvAt(ss: seq<State>, es: seq<Event>, i: nat)
    requires SeqTrace(ss, es) && i < |es| && SeqInv(ss[i]) && FateOk(ss[i])
    ensures SeqInv(ss[i + 1])
  {
    assert Next(ss[i], es[i]) == Some(ss[i + 1]) && NonOverlapping(ss[i], es[i]);
    SeqInvStep(ss[i], es[i], ss[i + 1]);
  }

  lemma {:induction false} SeqInvAlways(ss: seq<State>, es: seq<Event>, i: nat)
    requires SeqTrace(ss, es) && Init(ss[0]) && i <= |es|
    ensures SeqInv(ss[i]) && FateOk(ss[i]) && Inv(ss[i])
  {
    FateAlways(ss, es, i);
    InvAlways(ss, es, i);
    if i > 0 {
      SeqInvAlways(ss, es, i - 1);
      SeqInvAt(ss, es, i - 1);
    }
  }

  // ---------- Results ----------

  ghost predicate AllIdle(s: State) {
    forall v :: !InFlight(s, v)
  }

  /** When no invocation is in flight: the registries agree on every capsule, and the containers
      started less those stopped are the registered ones and those whose stop failed. */
  lemma IdleRegistries(ss: seq<State>, es: seq<Event>, i: nat)
    requires SeqTrace(ss, es) && Init(ss[0]) && i <= |es| && AllIdle(ss[i])
    ensures var s := ss[i];
            && (forall c :: Settled(s, c))
            && |s.fate| - |Stopped(s)| == |s.instances| + |set k | k in s.fate && s.fate[k].StopFailed?|
  {
    SeqInvAlways(ss, es, i);
    ContainersConserved(ss, es, i);
    IdleFacts(ss[i]);
  }

  lemma IdleFacts(s: State)
    requires SeqInv(s) && AllIdle(s)
    ensures TearingDown(s) == map[] && Lost(s) == set k | k in s.fate && s.fate[k].StopFailed?
    ensures forall c :: Settled(s, c)
  {
    forall v | v in s.invs ensures Victim(s.invs[v].phase).None? { assert !InFlight(s, v); }
    forall c ensures Settled(s, c) { assert Idle(s, c); }
  }

  /** A broker shows a session only for the registered instance of its capsule, or for the one the
      lock holder is just tearing down: never for a container that is gone. */
  lemma SessionOnLiveInstance(ss: seq<State>, es: seq<Event>, i: nat, b: nat)
    requires SeqTrace(ss, es) && Init(ss[0]) && i <= |es|
    requires b in ss[i].brokers && ss[i].brokers[b].session.Some?
    ensures var s, k := ss[i], ss[i].brokers[b];
            && k.inst in s.fate && k.capsule in s.holder
            && (|| (s.fate[k.inst] == Registered(k.capsule) && IsRegistered(s, k.capsule, k.inst))
                || s.fate[k.inst] == Stopping(s.holder[k.capsule]))
  {
    SeqInvAlways(ss, es, i);
    var s := ss[i];
    assert UsedByHolder(s, b);
    var v := s.holder[s.brokers[b].capsule];
    assert InFlight(s, v) && Fits(s, s.invs[v].capsule, s.invs[v].phase);
    if s.invs[v].phase.StoppingInst? { assert Victim(s.invs[v].phase).Some?; }
  }

  // ---------- A broken instance is destroyed ----------

  predicate Dead(s: State, i: nat) {
    i in s.fate && (s.fate[i].Gone? || s.fate[i].StopFailed?)
  }

  lemma DeadStays(s: State, e: Event, t: State, i: nat)
    requires FateOk(s) && Next(s, e) == Some(t) && Dead(s, i)
    ensures Dead(t, i)
  {
    if e.ContainerStopped? {
      StoppedFacts(s, e.v, e.ok);
      assert s.fate[Victim(s.invs[e.v].phase).value].Stopping?;
    } else {
      OnlyRegisteredChange(s, e, t, i);
    }
  }

  /** Popping a capsule's instance touches the record of that one only. */
  lemma PopRecords(s: State, v: nat, inst: nat, server: Option<nat>)
    requires FateOk(s) && v in s.invs
    ensures SameRecord(s, PopOld(s, v)) && SameRecord(s, PopFailed(s, v, inst, server))
  {
  }

  /** Records of containers that are not registered stay. */
  ghost predicate SameRecord(s: State, t: State) {
    forall i :: i in s.fate && !s.fate[i].Registered? ==> i in t.fate && t.fate[i] == s.fate[i]
  }

  /** No step but the end of a stop touches the record of a container that is not registered. */
  lemma OnlyRegisteredChange(s: State, e: Event, t: State, i: nat)
    requires FateOk(s) && Next(s, e) == Some(t) && !e.ContainerStopped? && i in s.fate && !s.fate[i].Registered?
    ensures i in t.fate && t.fate[i] == s.fate[i]
  {
    match e
    case Unhealthy(v) => PopRecords(s, v, 0, None);
    case BrokerStopped(v) =>
      PopRecords(s, v, if s.invs[v].phase.StoppingBroker? then s.invs[v].phase.inst else 0,
                 if s.invs[v].phase.StoppingBroker? then s.invs[v].phase.server else None);
    case Broke(v) => PopRecords(s, v, s.invs[v].phase.inst, s.invs[v].phase.server);
    case _ => OthersRecord(s, e, t);
  }

  lemma OthersRecord(s: State, e: Event, t: State)
    requires FateOk(s) && Next(s, e) == Some(t)
    requires !e.ContainerStopped? && !e.Unhealthy? && !e.BrokerStopped? && !e.Broke?
    ensures SameRecord(s, t)
  {
  }

  /** On its way out: the failed call's instance is being torn down, or is dead. */
  predicate Doomed(s: State, v: nat, i: nat) {
    v in s.invs &&
    match s.invs[v].phase
    case StoppingBroker(j, _) => i == j
    case StoppingInst(j, _, victim) => i == j == victim
    case Over => Dead(s, i)
    case _ => false
  }

  lemma DoomedStep(s: State, e: Event, t: State, v: nat, i: nat)
    requires SeqInv(s) && FateOk(s) && NonOverlapping(s, e) && Next(s, e) == Some(t) && Doomed(s, v, i)
    ensures Doomed(t, v, i)
  {
    if e.v == v {
      assert InFlight(s, v) && Fits(s, s.invs[v].capsule, s.invs[v].phase);
    } else {
      StepLocal(s, e, t);
      if s.invs[v].phase.Over? { DeadStays(s, e, t, i); }
    }
  }

  lemma BrokeDooms(s: State, v: nat, t: State)
    requires SeqInv(s) && Next(s, Broke(v)) == Some(t)
    ensures Doomed(t, v, s.invs[v].phase.inst)
  {
    assert InFlight(s, v) && Fits(s, s.invs[v].capsule, s.invs[v].phase);
  }

  lemma DeadUnregistered(s: State, v: nat, i: nat)
    requires FateOk(s) && Doomed(s, v, i) && s.invs[v].phase.Over?
    ensures forall c :: !IsRegistered(s, c, i)
  {
  }

  /** After a RuntimeError from the backend the invocation is over only when the instance it used
      has been stopped (or its stop failed); it is never registered again, so later invocations
      run on another one. */
  lemma {:induction false} BrokenInstanceDestroyed(ss: seq<State>, es: seq<Event>, i: nat, j: nat, v: nat)
    requires SeqTrace(ss, es) && Init(ss[0]) && i < j <= |es| && es[i] == Broke(v)
    requires v in ss[i].invs && ss[i].invs[v].phase.Running?
    ensures Doomed(ss[j], v, ss[i].invs[v].phase.inst)
    ensures ss[j].invs[v].phase.Over? ==> forall c :: !IsRegistered(ss[j], c, ss[i].invs[v].phase.inst)
    decreases j
  {
    var inst := ss[i].invs[v].phase.inst;
    if i + 1 < j {
      BrokenInstanceDestroyed(ss, es, i, j - 1, v);
      DoomedAlong(ss, es, j - 1, v, inst);
    } else {
      BrokeAt(ss, es, i, v);
    }
    FateAlways(ss, es, j);
    if ss[j].invs[v].phase.Over? { DeadUnregistered(ss[j], v, inst); }
  }

  lemma BrokeAt(ss: seq<State>, es: seq<Event>, i: nat, v: nat)
    requires SeqTrace(ss, es) && Init(ss[0]) && i < |es| && es[i] == Broke(v)
    requires v in ss[i].invs && ss[i].invs[v].phase.Running?
    ensures Doomed(ss[i + 1], v, ss[i].invs[v].phase.inst)
  {
    SeqInvAlways(ss, es, i);
    assert Next(ss[i], es[i]) == Some(ss[i + 1]);
    BrokeDooms(ss[i], v, ss[i + 1]);
  }

  lemma DoomedAlong(ss: seq<State>, es: seq<Event>, i: nat, v: nat, inst: nat)
    requires SeqTrace(ss, es) && Init(ss[0]) && i < |es| && Doomed(ss[i], v, inst)
    ensures Doomed(ss[i + 1], v, inst)
  {
    SeqInvAlways(ss, es, i);
    assert Next(ss[i], es[i]) == Some(ss[i + 1]) && NonOverlapping(ss[i], es[i]);
    DoomedStep(ss[i], es[i], ss[i + 1], v, inst);
  }

  // ---------- Why the invocations must not overlap ----------

  lemma Extend(ss: seq<State>, es: seq<Event>, e: Event, t: State)
    requires Trace(ss, es) && Next(ss[|es|], e) == Some(t)
    ensures Trace(ss + [t], es + [e])
  {
    var ss', es' := ss + [t], es + [e];
    forall i | 0 <= i < |es'| ensures Next(ss'[i], es'[i]) == Some(ss'[i + 1]) {
      if i < |es| { assert es'[i] == es[i] && ss'[i] == ss[i] && ss'[i + 1] == ss[i + 1]; }
    }
  }

  /** Two overlapping first invocations of any capsule both start a container; the second replaces
      the first in the registry, and nothing will ever stop the first. */
  lemma OverlapLosesContainer(c: string) returns (ss: seq<State>, es: seq<Event>)
    ensures Trace(ss, es) && Init(ss[0]) && Lost(ss[|es|]) == {0} && ss[|es|].fate[0] == Overwritten
    ensures ss[|es|].instances == map[c := 1]
  {
    var s0 := State(map[], map[], map[], map[], map[], map[], {});
    ss, es := [s0], [];
    var s1 := Next(s0, Invoke(0, c, None)).value;
    Extend(ss, es, Invoke(0, c, None), s1);
    ss, es := ss + [s1], es + [Invoke(0, c, None)];
    var s2 := Next(s1, Invoke(1, c, None)).value;
    Extend(ss, es, Invoke(1, c, None), s2);
    ss, es := ss + [s2], es + [Invoke(1, c, None)];
    var s3 := NextStarted(s2, 0, 0, 0);
    Extend(ss, es, Started(0, 0, 0), s3);
    ss, es := ss + [s3], es + [Started(0, 0, 0)];
    var s4 := NextStarted(s3, 1, 1, 1);
    Extend(ss, es, Started(1, 1, 1), s4);
    ss, es := ss + [s4], es + [Started(1, 1, 1)];
    assert s4.fate == map[0 := Overwritten, 1 := Registered(c)];
  }
}
