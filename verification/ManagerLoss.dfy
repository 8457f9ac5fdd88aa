/** When a container is lost because its registration is overwritten, and which invocations in
  flight can do that. */
module ManagerLoss {
  import opened Options
  import opened Naturals
  import opened ManagerMachine
  import opened ManagerContainers
  import opened ManagerSequential

  /** The invocation can still come to start a container. */
  predicate CanStart(s: State, v: nat) {
    v in s.invs && (s.invs[v].phase.CheckingHealth? || s.invs[v].phase.StoppingOldBroker? || PastRemoval(s, v))
  }

  /** It has nothing to remove any more before it starts one. */
  predicate PastRemoval(s: State, v: nat) {
    v in s.invs && (s.invs[v].phase.StoppingOld? || s.invs[v].phase.Starting?)
  }

  /** It will start a container although one is registered. */
  predicate Late(s: State, v: nat) {
    PastRemoval(s, v) && s.invs[v].capsule in s.instances
  }

  /** Two invocations of one capsule can both come to start a container. */
  predicate Pair(s: State, u: nat, v: nat) {
    u != v && CanStart(s, u) && CanStart(s, v) && s.invs[u].capsule == s.invs[v].capsule
  }

  ghost predicate NoneLost(s: State) {
    (forall v :: !Late(s, v)) && (forall u, v :: !Pair(s, u, v))
  }

  predicate Overwritten(s: State, i: nat) {
    i in s.fate && s.fate[i].Overwritten?
  }

  // ---------- Without such invocations nothing is overwritten ----------

  /** Only invocation v moved, and it is still the same one. */
  predicate Moved(s: State, t: State, v: nat) {
    OnlyMoved(s, t, v) && t.invs[v].capsule == s.invs[v].capsule
  }

  /** No container is newly overwritten. */
  ghost predicate SameLosses(s: State, t: State) {
    forall i :: Overwritten(t, i) ==> Overwritten(s, i)
  }

  /** Nothing is newly registered. */
  predicate NoneNewlyRegistered(s: State, t: State) {
    forall c :: c in t.instances ==> c in s.instances
  }

  lemma PopOldMoves(s: State, v: nat)
    requires v in s.invs
    ensures var t := PopOld(s, v);
            && Moved(s, t, v) && PastRemoval(t, v) && !Late(t, v)
            && t.instances == s.instances - {s.invs[v].capsule} && SameLosses(s, t)
  {
  }

  lemma LeaveMoves(s: State, v: nat, server: Option<nat>)
    requires v in s.invs
    ensures var t := Leave(s, v, server);
            Moved(s, t, v) && !CanStart(t, v) && t.instances == s.instances && t.fate == s.fate
  {
  }

  lemma PopFailedMoves(s: State, v: nat, inst: nat, server: Option<nat>)
    requires v in s.invs
    ensures var t := PopFailed(s, v, inst, server);
            && Moved(s, t, v) && !CanStart(t, v)
            && t.instances == s.instances - {s.invs[v].capsule} && SameLosses(s, t)
  {
    if s.invs[v].capsule in s.instances { PoppedMoves(s, v, inst, server); } else { LeaveMoves(s, v, server); }
  }

  lemma PoppedMoves(s: State, v: nat, inst: nat, server: Option<nat>)
    requires v in s.invs && s.invs[v].capsule in s.instances
    ensures var t := PopFailed(s, v, inst, server);
            && Moved(s, t, v) && !CanStart(t, v)
            && t.instances == s.instances - {s.invs[v].capsule} && SameLosses(s, t)
  {
  }

  lemma StopsMove(s: State, v: nat, ok: bool)
    requires v in s.invs && NextContainerStopped(s, v, ok).Some?
    ensures var t := NextContainerStopped(s, v, ok).value;
            && Moved(s, t, v) && (CanStart(t, v) ==> s.invs[v].phase.StoppingOld?)
            && t.instances == s.instances && SameLosses(s, t)
  {
  }

  lemma StartedMoves(s: State, v: nat, inst: nat, b: nat)
    requires v in s.invs && inst !in s.fate
    ensures var t := NextStarted(s, v, inst, b);
            && Moved(s, t, v) && !CanStart(t, v) && t.instances == s.instances[s.invs[v].capsule := inst]
            && (s.invs[v].capsule !in s.instances ==> SameLosses(s, t))
  {
  }

  lemma BrokerStartedMoves(s: State, v: nat, ok: bool)
    requires v in s.invs && s.invs[v].phase.StartingBroker?
    ensures var t := NextBrokerStarted(s, v, ok);
            Moved(s, t, v) && !CanStart(t, v) && t.instances == s.instances && t.fate == s.fate
  {
  }

  lemma HealthMoves(s: State, v: nat, ok: bool)
    requires v in s.invs && s.invs[v].phase.CheckingHealth?
    ensures var t := NextHealth(s, v, ok);
            Moved(s, t, v) && !Late(t, v) && NoneNewlyRegistered(s, t) && SameLosses(s, t)
  {
    if !ok && s.invs[v].capsule !in s.servers { PopOldMoves(s, v); }
  }

  lemma BrokeMoves(s: State, v: nat)
    requires v in s.invs && s.invs[v].phase.Running?
    ensures var t := NextBroke(s, v);
            Moved(s, t, v) && !CanStart(t, v) && NoneNewlyRegistered(s, t) && SameLosses(s, t)
  {
    if s.invs[v].capsule !in s.servers { PopFailedMoves(s, v, s.invs[v].phase.inst, s.invs[v].phase.server); }
  }

  lemma AcquireMoves(s: State, v: nat, t: State)
    requires Next(s, Acquire(v)) == Some(t)
    ensures Moved(s, t, v) && !CanStart(t, v) && t.instances == s.instances && t.fate == s.fate
  {
  }

  /** A step moves one invocation, which can start a container only if it could before; it comes to
      be late only by having been so; and only a start registers, and a late one overwrites. */
  lemma StepMoves(s: State, e: Event, t: State)
    requires Next(s, e) == Some(t) && !e.Invoke?
    ensures Moved(s, t, e.v) && (CanStart(t, e.v) ==> CanStart(s, e.v)) && (Late(t, e.v) ==> Late(s, e.v))
    ensures if e.Started? then CanStart(s, e.v) && t.instances.Keys == s.instances.Keys + {s.invs[e.v].capsule}
            else NoneNewlyRegistered(s, t)
    ensures !(e.Started? && Late(s, e.v)) ==> SameLosses(s, t)
  {
    match e
    case Healthy(v) => HealthMoves(s, v, true);
    case Unhealthy(v) => HealthMoves(s, v, false);
    case BrokerStopped(v) =>
      if s.invs[v].phase.StoppingOldBroker? { PopOldMoves(s, v); }
      else { PopFailedMoves(s, v, s.invs[v].phase.inst, s.invs[v].phase.server); }
    case ContainerStopped(v, ok) => StopsMove(s, v, ok);
    case Started(v, i, b) => StartedMoves(s, v, i, b);
    case BrokerStarted(v, ok) => BrokerStartedMoves(s, v, ok);
    case Returned(v) => LeaveMoves(s, v, s.invs[v].phase.server);
    case Broke(v) => BrokeMoves(s, v);
    case Acquire(v) => AcquireMoves(s, v, t);
    case StartFailed(_) =>
  }

  lemma InvokeMoves(s: State, e: Event, t: State)
    requires Next(s, e) == Some(t) && e.Invoke?
    ensures e.v !in s.invs && t.invs == s.invs[e.v := t.invs[e.v]] && t.invs[e.v].capsule == e.capsule
    ensures t.instances == s.instances && t.fate == s.fate && !Late(t, e.v)
  {
  }

  lemma PairBack(s: State, e: Event, t: State, u: nat, v: nat)
    requires Next(s, e) == Some(t) && NonOverlapping(s, e) && Pair(t, u, v)
    ensures Pair(s, u, v)
  {
    if e.Invoke? {
      InvokeMoves(s, e, t);
      assert u != e.v ==> InFlight(s, u);
      assert v != e.v ==> InFlight(s, v);
    } else {
      StepMoves(s, e, t);
    }
  }

  lemma LateBack(s: State, e: Event, t: State, v: nat)
    requires Next(s, e) == Some(t) && Late(t, v)
    ensures Late(s, v) || Pair(s, e.v, v)
  {
    if e.Invoke? { InvokeMoves(s, e, t); } else { StepMoves(s, e, t); }
  }

  lemma NoneLostStep(s: State, e: Event, t: State)
    requires Next(s, e) == Some(t) && NonOverlapping(s, e) && NoneLost(s)
    ensures NoneLost(t) && SameLosses(s, t)
  {
    forall v ensures !Late(t, v) {
      if Late(t, v) { LateBack(s, e, t, v); }
    }
    forall u, v ensures !Pair(t, u, v) {
      if Pair(t, u, v) { PairBack(s, e, t, u, v); }
    }
    if e.Invoke? { InvokeMoves(s, e, t); } else { StepMoves(s, e, t); }
  }

  lemma {:induction false} NoneLostAlong(ss: seq<State>, es: seq<Event>, i: nat)
    requires SeqTrace(ss, es) && i <= |es| && NoneLost(ss[0])
    ensures NoneLost(ss[i]) && SameLosses(ss[0], ss[i])
  {
    if i > 0 {
      NoneLostAlong(ss, es, i - 1);
      assert Next(ss[i - 1], es[i - 1]) == Some(ss[i]) && NonOverlapping(ss[i - 1], es[i - 1]);
      NoneLostStep(ss[i - 1], es[i - 1], ss[i]);
    }
  }

  // ---------- With such invocations something can be ----------

  /** The invocations in flight get from s to t by themselves. */
  ghost predicate Path(s: State, t: State) {
    exists ss: seq<State>, es: seq<Event> ::
      Trace(ss, es) && ss[0] == s && ss[|es|] == t && forall i :: 0 <= i < |es| ==> !es[i].Invoke?
  }

  lemma PathHere(s: State)
    ensures Path(s, s)
  {
    assert Trace([s], []) && [s][0] == s;
  }

  lemma Step(s: State, t: State, e: Event) returns (u: State)
    requires Path(s, t) && Next(t, e).Some? && !e.Invoke?
    ensures Next(t, e) == Some(u) && Path(s, u)
  {
    u := Next(t, e).value;
    var ss: seq<State>, es: seq<Event> :|
      Trace(ss, es) && ss[0] == s && ss[|es|] == t && forall i :: 0 <= i < |es| ==> !es[i].Invoke?;
    Extend(ss, es, e, u);
    assert (ss + [u])[0] == s && (ss + [u])[|es + [e]|] == u;
  }

  /** Nothing but the invocation's own way has changed. */
  predicate Onwards(s: State, t: State, v: nat) {
    && Moved(s, t, v) && t.holder == s.holder && s.fate.Keys <= t.fate.Keys
    && (PastRemoval(s, v) ==> PastRemoval(t, v) && t.instances == s.instances)
  }

  lemma PastHealth(s0: State, s: State, v: nat) returns (t: State)
    requires Path(s0, s) && v in s.invs && s.invs[v].phase.CheckingHealth?
    ensures Path(s0, t) && Onwards(s, t, v) && (t.invs[v].phase.StoppingOldBroker? || PastRemoval(t, v))
  {
    HealthMoves(s, v, false);
    t := Step(s0, s, Unhealthy(v));
  }

  lemma PastOldBroker(s0: State, s: State, v: nat) returns (t: State)
    requires Path(s0, s) && v in s.invs && s.invs[v].phase.StoppingOldBroker?
    ensures Path(s0, t) && Onwards(s, t, v) && PastRemoval(t, v)
  {
    PopOldMoves(s, v);
    t := Step(s0, s, BrokerStopped(v));
  }

  lemma PastOldContainer(s0: State, s: State, v: nat) returns (t: State)
    requires Path(s0, s) && v in s.invs && s.invs[v].phase.StoppingOld?
    ensures Path(s0, t) && Onwards(s, t, v) && t.invs[v].phase.Starting?
  {
    StopsMove(s, v, true);
    t := Step(s0, s, ContainerStopped(v, true));
  }

  /** An invocation that can start a container gets to its start. */
  lemma ToStarting(s0: State, s: State, v: nat) returns (t: State)
    requires Path(s0, s) && CanStart(s, v)
    ensures Path(s0, t) && Onwards(s, t, v) && t.invs[v].phase.Starting?
  {
    t := s;
    if t.invs[v].phase.CheckingHealth? { t := PastHealth(s0, t, v); }
    if t.invs[v].phase.StoppingOldBroker? { t := PastOldBroker(s0, t, v); }
    if t.invs[v].phase.StoppingOld? { t := PastOldContainer(s0, t, v); }
  }

  /** It starts a container, which is registered in place of whatever was. */
  lemma Start(s0: State, s: State, v: nat) returns (t: State, i: nat)
    requires Path(s0, s) && v in s.invs && s.invs[v].phase.Starting?
    ensures Path(s0, t) && Moved(s, t, v) && t.invs[v].phase.StartingBroker? && t.holder == s.holder
    ensures i !in s.fate && s.fate.Keys <= t.fate.Keys && t.instances == s.instances[s.invs[v].capsule := i]
    ensures i in t.fate && t.fate[i] == Registered(s.invs[v].capsule)
    ensures s.invs[v].capsule in s.instances && s.instances[s.invs[v].capsule] in s.fate ==>
              Overwritten(t, s.instances[s.invs[v].capsule])
  {
    i := Above(s.fate.Keys);
    var b := Above(s.brokers.Keys);
    StartedMoves(s, v, i, b);
    t := Step(s0, s, Started(v, i, b));
  }

  /** Some container can newly be overwritten, without any new invocation. */
  ghost predicate CanLose(s: State) {
    exists t, i :: Path(s, t) && Overwritten(t, i) && !Overwritten(s, i)
  }

  lemma LateLoses(s: State, v: nat)
    requires FateOk(s) && Late(s, v)
    ensures CanLose(s)
  {
    PathHere(s);
    var c, i := s.invs[v].capsule, s.instances[s.invs[v].capsule];
    var t := ToStarting(s, s, v);
    var u, j := Start(s, t, v);
    assert Overwritten(u, i) && !Overwritten(s, i);
  }

  lemma PairLoses(s: State, u: nat, v: nat)
    requires Pair(s, u, v)
    ensures CanLose(s)
  {
    PathHere(s);
    var t := ToStarting(s, s, u);
    t := ToStarting(s, t, v);
    var i, j;
    t, i := Start(s, t, u);
    t, j := Start(s, t, v);
    assert Overwritten(t, i) && !Overwritten(s, i);
  }

  lemma PathIsSequential(s: State, t: State) returns (ss: seq<State>, es: seq<Event>)
    requires Path(s, t)
    ensures SeqTrace(ss, es) && ss[0] == s && ss[|es|] == t
  {
    ss, es :| Trace(ss, es) && ss[0] == s && ss[|es|] == t && forall i :: 0 <= i < |es| ==> !es[i].Invoke?;
  }

  /** The exact condition: from a state of any run, no container newly loses its registration to
      another one in any continuation without overlapping new invocations, if and only if no
      invocation in flight is late and no two of one capsule can both come to start a container. */
  lemma LosesExactly(s: State)
    requires FateOk(s)
    ensures NoneLost(s) <==>
            forall ss, es, i :: SeqTrace(ss, es) && ss[0] == s && Overwritten(ss[|es|], i) ==> Overwritten(s, i)
  {
    if NoneLost(s) {
      forall ss, es, i | SeqTrace(ss, es) && ss[0] == s && Overwritten(ss[|es|], i) ensures Overwritten(s, i) {
        NoneLostAlong(ss, es, |es|);
      }
    } else {
      if v :| Late(s, v) {
        LateLoses(s, v);
      } else {
        var u, v :| Pair(s, u, v);
        PairLoses(s, u, v);
      }
      var t, i :| Path(s, t) && Overwritten(t, i) && !Overwritten(s, i);
      var ss, es := PathIsSequential(s, t);
    }
  }
}
