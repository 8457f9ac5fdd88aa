/** Where every started container is, in every interleaving, and what runs without overlapping
  invocations of one capsule add to that. */
module ManagerContainers {
  import opened Options
  import opened ManagerMachine

  function Victim(p: Phase): Option<nat> {
    match p
    case StoppingOld(i) => Some(i)
    case StoppingInst(_, _, i) => Some(i)
    case _ => None
  }

  /** The registry and the teardowns in progress agree with the record of the containers. */
  ghost predicate FateOk(s: State) {
    && (forall c :: c in s.instances ==> s.instances[c] in s.fate && s.fate[s.instances[c]] == Registered(c))
    && (forall i :: i in s.fate && s.fate[i].Registered? ==>
          s.fate[i].capsule in s.instances && s.instances[s.fate[i].capsule] == i)
    && (forall v :: v in s.invs && Victim(s.invs[v].phase).Some? ==>
          Victim(s.invs[v].phase).value in s.fate && s.fate[Victim(s.invs[v].phase).value] == Stopping(v))
    && (forall i :: i in s.fate && s.fate[i].Stopping? ==>
          s.fate[i].stopper in s.invs && Victim(s.invs[s.fate[i].stopper].phase) == Some(i))
  }

  /** No invocation hands a container to a shutdown. */
  ghost predicate NoneNewlySwept(s: State, t: State) {
    forall i :: i in t.fate && t.fate[i].Swept? ==> i in s.fate && s.fate[i].Swept?
  }

  // ---------- Building blocks of the steps ----------

  /** Only invocation v moved. */
  predicate OnlyMoved(s: State, t: State, v: nat) {
    && v in s.invs && v in t.invs && t.invs.Keys == s.invs.Keys
    && (forall u :: u in s.invs && u != v ==> t.invs[u] == s.invs[u])
  }

  lemma PopKeepsFate(s: State, t: State, v: nat, c: string)
    requires FateOk(s) && OnlyMoved(s, t, v) && Victim(s.invs[v].phase).None?
    requires c in s.instances && t.instances == s.instances - {c} && t.fate == s.fate[s.instances[c] := Stopping(v)]
    requires Victim(t.invs[v].phase) == Some(s.instances[c])
    ensures FateOk(t)
  {
  }

  lemma EndKeepsFate(s: State, t: State, v: nat, end: Fate)
    requires FateOk(s) && OnlyMoved(s, t, v) && Victim(s.invs[v].phase).Some? && Victim(t.invs[v].phase).None?
    requires t.instances == s.instances && (end.Gone? || end.StopFailed?)
    requires t.fate == s.fate[Victim(s.invs[v].phase).value := end]
    ensures FateOk(t)
  {
  }

  lemma PopOldFate(s: State, v: nat)
    requires FateOk(s) && v in s.invs && Victim(s.invs[v].phase).None?
    ensures FateOk(PopOld(s, v)) && NoneNewlySwept(s, PopOld(s, v))
  {
    var t := PopOld(s, v);
    if s.invs[v].capsule in s.instances { PopKeepsFate(s, t, v, s.invs[v].capsule); } else { SameFate(s, t); }
  }

  lemma PopFailedFate(s: State, v: nat, inst: nat, server: Option<nat>)
    requires FateOk(s) && v in s.invs && Victim(s.invs[v].phase).None?
    ensures FateOk(PopFailed(s, v, inst, server)) && NoneNewlySwept(s, PopFailed(s, v, inst, server))
  {
    var t := PopFailed(s, v, inst, server);
    if s.invs[v].capsule in s.instances {
      PoppedFacts(s, v, inst, server);
      PopKeepsFate(s, t, v, s.invs[v].capsule);
    } else {
      LeaveMoves(s, v, server);
      SameFate(s, t);
    }
  }

  lemma PoppedFacts(s: State, v: nat, inst: nat, server: Option<nat>)
    requires v in s.invs && s.invs[v].capsule in s.instances
    ensures var t, c := PopFailed(s, v, inst, server), s.invs[v].capsule;
            && OnlyMoved(s, t, v) && t.instances == s.instances - {c}
            && t.fate == s.fate[s.instances[c] := Stopping(v)] && Victim(t.invs[v].phase) == Some(s.instances[c])
  {
  }

  lemma StoppedFate(s: State, v: nat, ok: bool)
    requires FateOk(s) && v in s.invs && NextContainerStopped(s, v, ok).Some?
    ensures FateOk(NextContainerStopped(s, v, ok).value) && NoneNewlySwept(s, NextContainerStopped(s, v, ok).value)
  {
    StoppedFacts(s, v, ok);
    EndKeepsFate(s, NextContainerStopped(s, v, ok).value, v, if ok then Gone else StopFailed);
  }

  lemma StoppedFacts(s: State, v: nat, ok: bool)
    requires v in s.invs && NextContainerStopped(s, v, ok).Some?
    ensures var t := NextContainerStopped(s, v, ok).value;
            && OnlyMoved(s, t, v) && Victim(s.invs[v].phase).Some? && Victim(t.invs[v].phase).None?
            && t.instances == s.instances
            && t.fate == s.fate[Victim(s.invs[v].phase).value := if ok then Gone else StopFailed]
  {
    match s.invs[v].phase
    case StoppingOld(_) => AtMoves(s, v, if ok then Starting else Over);
    case StoppingInst(_, server, _) => LeaveMoves(s, v, server);
    case _ =>
  }

  lemma AtMoves(s: State, v: nat, p: Phase)
    requires v in s.invs
    ensures OnlyMoved(s, At(s, v, p), v) && At(s, v, p).invs[v].phase == p
  {
  }

  lemma LeaveMoves(s: State, v: nat, server: Option<nat>)
    requires v in s.invs
    ensures var t := Leave(s, v, server);
            OnlyMoved(s, t, v) && t.invs[v].phase == Over && t.instances == s.instances && t.fate == s.fate
  {
  }

  lemma StartedFate(s: State, v: nat, inst: nat, b: nat)
    requires FateOk(s) && v in s.invs && s.invs[v].phase.Starting? && inst !in s.fate
    ensures FateOk(NextStarted(s, v, inst, b)) && NoneNewlySwept(s, NextStarted(s, v, inst, b))
  {
  }

  /** Steps that touch neither the registry nor a container. */
  lemma SameFate(s: State, t: State)
    requires FateOk(s) && t.instances == s.instances && t.fate == s.fate && s.invs.Keys <= t.invs.Keys
    requires forall v :: v in s.invs ==> Victim(t.invs[v].phase) == Victim(s.invs[v].phase)
    requires forall v :: v in t.invs && v !in s.invs ==> Victim(t.invs[v].phase).None?
    ensures FateOk(t)
  {
  }

  predicate TouchesNothing(s: State, e: Event) {
    match e
    case Unhealthy(v) => v in s.invs && s.invs[v].capsule in s.servers
    case Broke(v) => v in s.invs && s.invs[v].capsule in s.servers
    case Started(_, _, _) => false
    case BrokerStopped(_) => false
    case ContainerStopped(_, _) => false
    case _ => true
  }

  lemma OtherFate(s: State, e: Event, t: State)
    requires FateOk(s) && Next(s, e) == Some(t) && TouchesNothing(s, e)
    ensures FateOk(t) && NoneNewlySwept(s, t)
  {
    RegistryKept(s, e, t);
    forall v | v in s.invs ensures Victim(t.invs[v].phase) == Victim(s.invs[v].phase) { VictimKept(s, e, t, v); }
    forall v | v in t.invs && v !in s.invs ensures Victim(t.invs[v].phase).None? { VictimKept(s, e, t, v); }
    SameFate(s, t);
  }

  lemma RegistryKept(s: State, e: Event, t: State)
    requires Next(s, e) == Some(t) && TouchesNothing(s, e)
    ensures t.instances == s.instances && t.fate == s.fate && s.invs.Keys <= t.invs.Keys
  {
    if e.Broke? { BrokeQuietly(s, e.v); }
  }

  lemma BrokeQuietly(s: State, v: nat)
    requires v in s.invs && s.invs[v].phase.Running? && s.invs[v].capsule in s.servers
    ensures var t := NextBroke(s, v);
            && t.instances == s.instances && t.fate == s.fate && t.invs.Keys == s.invs.Keys
            && forall u :: u in s.invs ==> Victim(t.invs[u].phase) == Victim(s.invs[u].phase)
  {
  }

  lemma VictimKept(s: State, e: Event, t: State, v: nat)
    requires Next(s, e) == Some(t) && TouchesNothing(s, e) && v in t.invs
    ensures Victim(t.invs[v].phase) == if v in s.invs then Victim(s.invs[v].phase) else None
  {
    if e.Broke? {
      BrokeQuietly(s, e.v);
    } else if e.Healthy? || e.Unhealthy? || e.StartFailed? {
      EarlyVictimKept(s, e, t, v);
    } else if !e.Invoke? {
      LateVictimKept(s, e, t, v);
    }
  }

  lemma LateVictimKept(s: State, e: Event, t: State, v: nat)
    requires e.BrokerStarted? || e.Acquire? || e.Returned?
    requires Next(s, e) == Some(t) && v in t.invs
    ensures v in s.invs && Victim(t.invs[v].phase) == Victim(s.invs[v].phase)
  {
    if e.Returned? { LeaveMoves(s, e.v, s.invs[e.v].phase.server); }
  }

  lemma EarlyVictimKept(s: State, e: Event, t: State, v: nat)
    requires (e.Healthy? || e.Unhealthy? || e.StartFailed?) && TouchesNothing(s, e)
    requires Next(s, e) == Some(t) && v in t.invs
    ensures v in s.invs && Victim(t.invs[v].phase) == Victim(s.invs[v].phase)
  {
  }

  lemma FateStep(s: State, e: Event, t: State)
    requires FateOk(s) && Next(s, e) == Some(t)
    ensures FateOk(t) && NoneNewlySwept(s, t)
  {
    match e
    case Started(v, i, b) => StartedFate(s, v, i, b);
    case ContainerStopped(v, ok) => StoppedFate(s, v, ok);
    case BrokerStopped(v) =>
      if s.invs[v].phase.StoppingOldBroker? { PopOldFate(s, v); }
      else { PopFailedFate(s, v, s.invs[v].phase.inst, s.invs[v].phase.server); }
    case Unhealthy(v) => if s.invs[v].capsule in s.servers { OtherFate(s, e, t); } else { PopOldFate(s, v); }
    case Broke(v) =>
      if s.invs[v].capsule in s.servers { OtherFate(s, e, t); }
      else { PopFailedFate(s, v, s.invs[v].phase.inst, s.invs[v].phase.server); }
    case _ => OtherFate(s, e, t);
  }

  lemma {:induction false} FateAlways(ss: seq<State>, es: seq<Event>, i: nat)
    requires Trace(ss, es) && Init(ss[0]) && i <= |es|
    ensures FateOk(ss[i]) && Sweeping(ss[i]) == {}
  {
    if i > 0 {
      FateAlways(ss, es, i - 1);
      assert Next(ss[i - 1], es[i - 1]) == Some(ss[i]);
      FateStep(ss[i - 1], es[i - 1], ss[i]);
    }
  }

  // ---------- Conservation ----------

  ghost function Stopped(s: State): set<nat> {
    set i | i in s.fate && s.fate[i].Gone?
  }

  /** Containers nobody will stop any more: their stop failed, or their registration was overwritten. */
  ghost function Lost(s: State): set<nat> {
    set i | i in s.fate && (s.fate[i].StopFailed? || s.fate[i].Overwritten?)
  }

  /** Containers a shutdown is stopping. */
  ghost function Sweeping(s: State): set<nat> {
    set i | i in s.fate && s.fate[i].Swept?
  }

  /** Teardowns in progress. */
  ghost function TearingDown(s: State): map<nat, nat> {
    map v | v in s.invs && Victim(s.invs[v].phase).Some? :: Victim(s.invs[v].phase).value
  }

  lemma {:induction false} InjectiveSize<K>(m: map<K, nat>)
    requires forall j, k :: j in m && k in m && m[j] == m[k] ==> j == k
    ensures |m.Values| == |m|
  {
    if m == map[] {
      assert m.Values == {};
    } else {
      var k :| k in m;
      var rest := m - {k};
      InjectiveSize(rest);
      forall x ensures x in m.Values <==> x in rest.Values + {m[k]} {
        if x in m.Values {
          var j :| j in m && m[j] == x;
          assert j == k || rest[j] == x;
        }
        if x in rest.Values {
          var j :| j in rest && rest[j] == x;
          assert m[j] == x;
        }
      }
      assert m.Values == rest.Values + {m[k]};
      forall j | j in rest ensures rest[j] != m[k] { assert m[j] == rest[j]; }
      assert m.Keys == rest.Keys + {k};
    }
  }

  ghost function RegisteredOnes(s: State): set<nat> {
    set i | i in s.fate && s.fate[i].Registered?
  }

  ghost function StoppingOnes(s: State): set<nat> {
    set i | i in s.fate && s.fate[i].Stopping?
  }

  lemma RegistryCounts(s: State)
    requires FateOk(s)
    ensures s.instances.Values == RegisteredOnes(s) && |RegisteredOnes(s)| == |s.instances|
  {
    forall x ensures x in s.instances.Values <==> x in RegisteredOnes(s) {
      if x in RegisteredOnes(s) { assert s.instances[s.fate[x].capsule] == x; }
    }
    assert s.instances.Values == RegisteredOnes(s);
    InjectiveSize(s.instances);
  }

  lemma TeardownsCount(s: State)
    requires FateOk(s)
    ensures TearingDown(s).Values == StoppingOnes(s) && |StoppingOnes(s)| == |TearingDown(s)|
  {
    forall x ensures x in TearingDown(s).Values <==> x in StoppingOnes(s) {
      if x in StoppingOnes(s) { assert TearingDown(s)[s.fate[x].stopper] == x; }
    }
    assert TearingDown(s).Values == StoppingOnes(s);
    InjectiveSize(TearingDown(s));
  }

  lemma FivePlaces(all: set<nat>, a: set<nat>, b: set<nat>, c: set<nat>, d: set<nat>, e: set<nat>)
    requires all == a + b + c + d + e && a !! b && (a + b) !! c && (a + b + c) !! d && (a + b + c + d) !! e
    ensures |all| == |a| + |b| + |c| + |d| + |e|
  {
  }

  lemma FatesPartition(s: State)
    ensures s.fate.Keys == Stopped(s) + RegisteredOnes(s) + StoppingOnes(s) + Sweeping(s) + Lost(s)
    ensures |s.fate| == |Stopped(s)| + |RegisteredOnes(s)| + |StoppingOnes(s)| + |Sweeping(s)| + |Lost(s)|
  {
    var a, b, c, d, e := Stopped(s), RegisteredOnes(s), StoppingOnes(s), Sweeping(s), Lost(s);
    forall i ensures i in s.fate.Keys <==> i in a + b + c + d + e {
      if i in s.fate.Keys { assert i in a || i in b || i in c || i in d || i in e; }
    }
    assert s.fate.Keys == a + b + c + d + e;
    FivePlaces(s.fate.Keys, a, b, c, d, e);
  }

  /** Containers started, less those stopped, are exactly the registered ones, the ones being torn
      down, the ones a shutdown is stopping and the lost ones. */
  lemma ConservedOn(s: State)
    requires FateOk(s)
    ensures s.fate.Keys == Stopped(s) + s.instances.Values + TearingDown(s).Values + Sweeping(s) + Lost(s)
    ensures |s.fate| - |Stopped(s)| == |s.instances| + |TearingDown(s)| + |Sweeping(s)| + |Lost(s)|
  {
    RegistryCounts(s);
    TeardownsCount(s);
    FatesPartition(s);
  }

  /** In every interleaving before a shutdown: nothing else accounts for a container. */
  lemma ContainersConserved(ss: seq<State>, es: seq<Event>, i: nat)
    requires Trace(ss, es) && Init(ss[0]) && i <= |es|
    ensures var s := ss[i];
            && s.fate.Keys == Stopped(s) + s.instances.Values + TearingDown(s).Values + Lost(s)
            && |s.fate| - |Stopped(s)| == |s.instances| + |TearingDown(s)| + |Lost(s)|
  {
    FateAlways(ss, es, i);
    ConservedOn(ss[i]);
  }
}
