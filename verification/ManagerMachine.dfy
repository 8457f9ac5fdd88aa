/** Tool invocations that overlap in any way: instance and broker registries, the lock of each
  capsule, the call context installed on a broker object, and the containers.

  One step is one uninterrupted segment of `CapsuleManager.invoke`; the backend's outcomes are
  chosen by the environment.
 */
module ManagerMachine {
  import opened Options

  /** A broker object; it outlives its registration. */
  datatype Broker = Broker(capsule: string, inst: nat, session: Option<string>)

  datatype Phase =
    | CheckingHealth(inst: nat)
    | StoppingOldBroker                             // rebuild: broker unregistered, being stopped
    | StoppingOld(victim: nat)                      // rebuild: instance unregistered, being stopped
    | Starting
    | StartingBroker(inst: nat, broker: nat)        // instance registered, its broker being started
    | Queued(inst: nat, server: Option<nat>)        // waits for the capsule's lock
    | Running(inst: nat, server: Option<nat>)       // holds the lock, tool call in progress
    | StoppingBroker(inst: nat, server: Option<nat>)            // call failed: broker being stopped
    | StoppingInst(inst: nat, server: Option<nat>, victim: nat) // call failed: instance being stopped
    | Over

  datatype Invocation = Invocation(capsule: string, session: Option<string>, phase: Phase)

  /** What became of a started container; `Swept` ones are being stopped by a shutdown. */
  datatype Fate = Registered(capsule: string) | Stopping(stopper: nat) | Swept | Gone | StopFailed | Overwritten

  datatype State = State(
    instances: map<string, nat>, servers: map<string, nat>, holder: map<string, nat>,
    brokers: map<nat, Broker>, invs: map<nat, Invocation>,
    fate: map<nat, Fate>,       // every container ever started
    brokerless: set<nat>)       // instances whose broker failed to start

  datatype Event =
    | Invoke(v: nat, capsule: string, session: Option<string>)
    | Healthy(v: nat)
    | Unhealthy(v: nat)
    | BrokerStopped(v: nat)
    | ContainerStopped(v: nat, ok: bool)
    | Started(v: nat, inst: nat, broker: nat)
    | StartFailed(v: nat)
    | BrokerStarted(v: nat, ok: bool)
    | Acquire(v: nat)
    | Returned(v: nat)        // a result, or an error that is no RuntimeError
    | Broke(v: nat)           // RuntimeError from the backend

  function At(s: State, v: nat, p: Phase): State
    requires v in s.invs
  {
    s.(invs := s.invs[v := s.invs[v].(phase := p)])
  }

  function Get(m: map<string, nat>, k: string): Option<nat> {
    if k in m then Some(m[k]) else None
  }

  function WithSession(s: State, server: Option<nat>, session: Option<string>): State {
    if server.Some? && server.value in s.brokers
    then s.(brokers := s.brokers[server.value := s.brokers[server.value].(session := session)]) else s
  }

  /** Joins the queue for the lock with the broker registered at this moment. */
  function Ready(s: State, v: nat, inst: nat): State
    requires v in s.invs
  {
    At(s, v, Queued(inst, Get(s.servers, s.invs[v].capsule)))
  }

  /** `end_call`, lock released. */
  function Leave(s: State, v: nat, server: Option<nat>): State
    requires v in s.invs
  {
    At(WithSession(s, server, None), v, Over).(holder := s.holder - {s.invs[v].capsule})
  }

  function NextHealth(s: State, v: nat, ok: bool): State
    requires v in s.invs && s.invs[v].phase.CheckingHealth?
  {
    var c := s.invs[v].capsule;
    if ok then Ready(s, v, s.invs[v].phase.inst)
    else if c in s.servers then At(s, v, StoppingOldBroker).(servers := s.servers - {c})
    else PopOld(s, v)
  }

  function PopOld(s: State, v: nat): State
    requires v in s.invs
  {
    var c := s.invs[v].capsule;
    if c in s.instances
    then At(s, v, StoppingOld(s.instances[c])).(
      instances := s.instances - {c}, fate := s.fate[s.instances[c] := Stopping(v)])
    else At(s, v, Starting)
  }

  function PopFailed(s: State, v: nat, inst: nat, server: Option<nat>): State
    requires v in s.invs
  {
    var c := s.invs[v].capsule;
    if c in s.instances
    then At(s, v, StoppingInst(inst, server, s.instances[c])).(
      instances := s.instances - {c}, fate := s.fate[s.instances[c] := Stopping(v)])
    else Leave(s, v, server)
  }

  function NextBroke(s: State, v: nat): State
    requires v in s.invs && s.invs[v].phase.Running?
  {
    var c, p := s.invs[v].capsule, s.invs[v].phase;
    if c in s.servers then At(s, v, StoppingBroker(p.inst, p.server)).(servers := s.servers - {c})
    else PopFailed(s, v, p.inst, p.server)
  }

  function NextContainerStopped(s: State, v: nat, ok: bool): Option<State>
    requires v in s.invs
  {
    var end := if ok then Gone else StopFailed;
    match s.invs[v].phase
    case StoppingOld(i) => Some(At(s, v, if ok then Starting else Over).(fate := s.fate[i := end]))
    case StoppingInst(_, server, i) => Some(Leave(s, v, server).(fate := s.fate[i := end]))
    case _ => None
  }

  /** The new instance replaces whatever is registered for the capsule. */
  function NextStarted(s: State, v: nat, inst: nat, b: nat): State
    requires v in s.invs
  {
    var c := s.invs[v].capsule;
    var fate := if c in s.instances then s.fate[s.instances[c] := Overwritten] else s.fate;
    At(s, v, StartingBroker(inst, b)).(
      instances := s.instances[c := inst], fate := fate[inst := Registered(c)],
      brokers := s.brokers[b := Broker(c, inst, None)])
  }

  function NextBrokerStarted(s: State, v: nat, ok: bool): State
    requires v in s.invs && s.invs[v].phase.StartingBroker?
  {
    var c, p := s.invs[v].capsule, s.invs[v].phase;
    if ok then Ready(s.(servers := s.servers[c := p.broker]), v, p.inst)
    else At(s, v, Over).(brokerless := s.brokerless + {p.inst})
  }

  function Next(s: State, e: Event): Option<State> {
    match e
    case Invoke(v, c, session) =>
      if v in s.invs then None
      else
        var phase := if c in s.instances then CheckingHealth(s.instances[c]) else Starting;
        Some(s.(invs := s.invs[v := Invocation(c, session, phase)]))
    case Healthy(v) => if v in s.invs && s.invs[v].phase.CheckingHealth? then Some(NextHealth(s, v, true)) else None
    case Unhealthy(v) => if v in s.invs && s.invs[v].phase.CheckingHealth? then Some(NextHealth(s, v, false)) else None
    case BrokerStopped(v) =>
      if v !in s.invs then None
      else (match s.invs[v].phase
            case StoppingOldBroker => Some(PopOld(s, v))
            case StoppingBroker(i, server) => Some(PopFailed(s, v, i, server))
            case _ => None)
    case ContainerStopped(v, ok) => if v in s.invs then NextContainerStopped(s, v, ok) else None
    case Started(v, inst, b) =>
      if v in s.invs && s.invs[v].phase.Starting? && inst !in s.fate && b !in s.brokers
      then Some(NextStarted(s, v, inst, b)) else None
    case StartFailed(v) => if v in s.invs && s.invs[v].phase.Starting? then Some(At(s, v, Over)) else None
    case BrokerStarted(v, ok) =>
      if v in s.invs && s.invs[v].phase.StartingBroker? then Some(NextBrokerStarted(s, v, ok)) else None
    case Acquire(v) =>
      if v in s.invs && s.invs[v].phase.Queued? && s.invs[v].capsule !in s.holder
      then
        var i := s.invs[v];
        var shown := WithSession(s, i.phase.server, i.session);
        Some(At(shown, v, Running(i.phase.inst, i.phase.server)).(holder := s.holder[i.capsule := v]))
      else None
    case Returned(v) =>
      if v in s.invs && s.invs[v].phase.Running? then Some(Leave(s, v, s.invs[v].phase.server)) else None
    case Broke(v) => if v in s.invs && s.invs[v].phase.Running? then Some(NextBroke(s, v)) else None
  }

  predicate Init(s: State) {
    && s.instances == map[] && s.servers == map[] && s.holder == map[]
    && s.brokers == map[] && s.invs == map[] && s.fate == map[] && s.brokerless == {}
  }

  ghost predicate Trace(ss: seq<State>, es: seq<Event>) {
    |ss| == |es| + 1 && forall i {:trigger es[i]} :: 0 <= i < |es| ==> Next(ss[i], es[i]) == Some(ss[i + 1])
  }

  // ---------- Session attribution ----------

  predicate Holding(p: Phase) {
    p.Running? || p.StoppingBroker? || p.StoppingInst?
  }

  predicate HasServer(p: Phase) {
    p.Queued? || Holding(p)
  }

  predicate Holds(s: State, v: nat) {
    v in s.invs && Holding(s.invs[v].phase)
  }

  /** The broker is used by the holder of its capsule's lock, with the holder's session. */
  predicate UsedByHolder(s: State, b: nat)
    requires b in s.brokers
  {
    var c := s.brokers[b].capsule;
    && c in s.holder && Holds(s, s.holder[c])
    && var v := s.invs[s.holder[c]];
    && v.capsule == c && v.phase.server == Some(b) && v.session == s.brokers[b].session
  }

  ghost predicate LocksOk(s: State) {
    && (forall v :: Holds(s, v) ==> s.invs[v].capsule in s.holder && s.holder[s.invs[v].capsule] == v)
    && (forall c :: c in s.holder ==> Holds(s, s.holder[c]) && s.invs[s.holder[c]].capsule == c)
  }

  ghost predicate BrokersOk(s: State) {
    && (forall c :: c in s.servers ==> s.servers[c] in s.brokers && s.brokers[s.servers[c]].capsule == c)
    && (forall v :: v in s.invs && HasServer(s.invs[v].phase) && s.invs[v].phase.server.Some? ==>
          && s.invs[v].phase.server.value in s.brokers
          && s.brokers[s.invs[v].phase.server.value].capsule == s.invs[v].capsule)
    && (forall v :: v in s.invs && s.invs[v].phase.StartingBroker? ==>
          s.invs[v].phase.broker in s.brokers && s.brokers[s.invs[v].phase.broker].capsule == s.invs[v].capsule)
  }

  ghost predicate SessionsOk(s: State) {
    forall b :: b in s.brokers && s.brokers[b].session.Some? ==> UsedByHolder(s, b)
  }

  ghost predicate Inv(s: State) {
    LocksOk(s) && BrokersOk(s) && SessionsOk(s)
  }
}
