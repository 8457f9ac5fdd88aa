/** A broker's session is the lock holder's, in every interleaving. */
module ManagerAttribution {
  import opened Options
  import opened ManagerMachine

  ghost predicate Submap(a: map<string, nat>, b: map<string, nat>) {
    forall k :: k in a ==> k in b && a[k] == b[k]
  }

  /** Only invocation v moved, keeping its lock and broker if it has them. */
  ghost predicate QuietMove(s: State, t: State, v: nat) {
    && v in s.invs && v in t.invs
    && t.holder == s.holder && t.brokers == s.brokers && Submap(t.servers, s.servers)
    && t.invs == At(s, v, t.invs[v].phase).invs
    && var p, q := s.invs[v].phase, t.invs[v].phase;
    && (Holding(p) <==> Holding(q))
    && (Holding(q) ==> q.server == p.server)
    && (q.Queued? ==> q.server == Get(s.servers, s.invs[v].capsule))
    && !q.StartingBroker?
  }

  lemma QuietMoveKeeps(s: State, t: State, v: nat)
    requires Inv(s) && QuietMove(s, t, v)
    ensures Inv(t)
  {
    assert forall u :: Holds(t, u) <==> Holds(s, u);
    assert LocksOk(t) && BrokersOk(t);
    forall b | b in t.brokers && t.brokers[b].session.Some? ensures UsedByHolder(t, b) {
      assert UsedByHolder(s, b);
    }
  }

  lemma LeaveKeepsLocks(s: State, v: nat, server: Option<nat>)
    requires LocksOk(s) && Holds(s, v)
    ensures LocksOk(Leave(s, v, server))
  {
    var t := Leave(s, v, server);
    assert forall u :: Holds(t, u) <==> Holds(s, u) && u != v;
  }

  lemma LeaveKeepsBrokers(s: State, v: nat, server: Option<nat>)
    requires BrokersOk(s) && v in s.invs
    ensures BrokersOk(Leave(s, v, server))
  {
  }

  lemma LeaveKeeps(s: State, v: nat)
    requires Inv(s) && Holds(s, v)
    ensures Inv(Leave(s, v, s.invs[v].phase.server))
  {
    var server := s.invs[v].phase.server;
    var t := Leave(s, v, server);
    LeaveKeepsLocks(s, v, server);
    LeaveKeepsBrokers(s, v, server);
    forall b | b in t.brokers && t.brokers[b].session.Some? ensures UsedByHolder(t, b) {
      LeaveKeepsOthers(s, v, b);
    }
  }

  /** The leaving holder clears its own broker; any other broker in use is another capsule's. */
  lemma LeaveKeepsOthers(s: State, v: nat, b: nat)
    requires Holds(s, v) && s.invs[v].capsule in s.holder && s.holder[s.invs[v].capsule] == v
    requires b in s.brokers && UsedByHolder(s, b)
    ensures var t := Leave(s, v, s.invs[v].phase.server);
            b in t.brokers && (t.brokers[b].session.Some? ==> UsedByHolder(t, b))
  {
  }

  /** The registries and the containers play no part in the invariant but for the servers. */
  lemma RegistriesFree(s: State, t: State)
    requires Inv(s) && t.holder == s.holder && t.brokers == s.brokers && t.invs == s.invs
    requires Submap(t.servers, s.servers)
    ensures Inv(t)
  {
    assert forall u :: Holds(t, u) <==> Holds(s, u);
    forall b | b in t.brokers && t.brokers[b].session.Some? ensures UsedByHolder(t, b) {
      assert UsedByHolder(s, b);
    }
  }

  lemma PopOldIsQuiet(s: State, v: nat)
    requires v in s.invs && !Holding(s.invs[v].phase)
    ensures QuietMove(s, PopOld(s, v), v)
  {
  }

  lemma PopFailedIsQuiet(s: State, v: nat, inst: nat)
    requires Holds(s, v) && s.invs[v].capsule in s.instances
    ensures QuietMove(s, PopFailed(s, v, inst, s.invs[v].phase.server), v)
  {
  }

  lemma OldStoppedIsQuiet(s: State, v: nat, ok: bool)
    requires v in s.invs && s.invs[v].phase.StoppingOld?
    ensures QuietMove(s, NextContainerStopped(s, v, ok).value, v)
  {
  }

  lemma BrokerStopStep(s: State, v: nat)
    requires Inv(s) && v in s.invs && (s.invs[v].phase.StoppingOldBroker? || s.invs[v].phase.StoppingBroker?)
    ensures Inv(if s.invs[v].phase.StoppingOldBroker? then PopOld(s, v)
                else PopFailed(s, v, s.invs[v].phase.inst, s.invs[v].phase.server))
  {
    if s.invs[v].phase.StoppingOldBroker? {
      PopOldIsQuiet(s, v);
      QuietMoveKeeps(s, PopOld(s, v), v);
    } else if s.invs[v].capsule in s.instances {
      PopFailedIsQuiet(s, v, s.invs[v].phase.inst);
      QuietMoveKeeps(s, PopFailed(s, v, s.invs[v].phase.inst, s.invs[v].phase.server), v);
    } else {
      LeaveKeeps(s, v);
    }
  }

  lemma ContainerStopStep(s: State, v: nat, ok: bool)
    requires Inv(s) && v in s.invs && NextContainerStopped(s, v, ok).Some?
    ensures Inv(NextContainerStopped(s, v, ok).value)
  {
    var t := NextContainerStopped(s, v, ok).value;
    if s.invs[v].phase.StoppingOld? {
      OldStoppedIsQuiet(s, v, ok);
      QuietMoveKeeps(s, t, v);
    } else {
      LeaveKeeps(s, v);
      RegistriesFree(Leave(s, v, s.invs[v].phase.server), t);
    }
  }

  lemma BrokeStep(s: State, e: Event, t: State)
    requires Inv(s) && e.Broke? && Next(s, e) == Some(t)
    ensures Inv(t)
  {
    var v := e.v;
    if s.invs[v].capsule in s.servers || s.invs[v].capsule in s.instances {
      BrokeIsQuiet(s, v);
      QuietMoveKeeps(s, t, v);
    } else {
      LeaveKeeps(s, v);
    }
  }

  lemma BrokeIsQuiet(s: State, v: nat)
    requires v in s.invs && s.invs[v].phase.Running?
    requires s.invs[v].capsule in s.servers || s.invs[v].capsule in s.instances
    ensures QuietMove(s, NextBroke(s, v), v)
  {
    if s.invs[v].capsule !in s.servers { PopFailedIsQuiet(s, v, s.invs[v].phase.inst); }
  }

  lemma HealthIsQuiet(s: State, e: Event, t: State)
    requires (e.Healthy? || e.Unhealthy? || e.StartFailed?) && Next(s, e) == Some(t)
    ensures QuietMove(s, t, e.v)
  {
    if e.Unhealthy? && s.invs[e.v].capsule !in s.servers { PopOldIsQuiet(s, e.v); }
  }

  lemma HealthStep(s: State, e: Event, t: State)
    requires Inv(s) && (e.Healthy? || e.Unhealthy? || e.StartFailed?) && Next(s, e) == Some(t)
    ensures Inv(t)
  {
    HealthIsQuiet(s, e, t);
    QuietMoveKeeps(s, t, e.v);
  }

  lemma StartStep(s: State, e: Event, t: State)
    requires Inv(s) && e.Started? && Next(s, e) == Some(t)
    ensures Inv(t)
  {
    assert forall u :: Holds(t, u) <==> Holds(s, u);
    assert LocksOk(t) && BrokersOk(t);
    forall b | b in t.brokers && t.brokers[b].session.Some? ensures UsedByHolder(t, b) {
      assert UsedByHolder(s, b);
    }
  }

  lemma BrokerStartKeepsRest(s: State, e: Event, t: State)
    requires Inv(s) && e.BrokerStarted? && Next(s, e) == Some(t)
    ensures LocksOk(t) && SessionsOk(t)
  {
    BrokerStartHolds(s, e, t);
    forall b | b in t.brokers && t.brokers[b].session.Some? ensures UsedByHolder(t, b) {
      assert UsedByHolder(s, b);
    }
  }

  lemma BrokerStartHolds(s: State, e: Event, t: State)
    requires e.BrokerStarted? && Next(s, e) == Some(t)
    ensures t.holder == s.holder && t.brokers == s.brokers
    ensures forall u :: (Holds(t, u) <==> Holds(s, u)) && (Holds(s, u) ==> t.invs[u] == s.invs[u])
  {
  }

  lemma BrokerStartKeepsBrokers(s: State, e: Event, t: State)
    requires BrokersOk(s) && e.BrokerStarted? && Next(s, e) == Some(t)
    ensures BrokersOk(t)
  {
    if e.ok { ListeningKeepsBrokers(s, e.v); }
  }

  lemma ListeningKeepsBrokers(s: State, v: nat)
    requires BrokersOk(s) && v in s.invs && s.invs[v].phase.StartingBroker?
    ensures BrokersOk(NextBrokerStarted(s, v, true))
  {
  }

  lemma BrokerStartStep(s: State, e: Event, t: State)
    requires Inv(s) && e.BrokerStarted? && Next(s, e) == Some(t)
    ensures Inv(t)
  {
    BrokerStartKeepsRest(s, e, t);
    BrokerStartKeepsBrokers(s, e, t);
  }

  lemma InvokeStep(s: State, e: Event, t: State)
    requires Inv(s) && e.Invoke? && Next(s, e) == Some(t)
    ensures Inv(t)
  {
    assert forall u :: Holds(t, u) <==> Holds(s, u);
    forall b | b in t.brokers && t.brokers[b].session.Some? ensures UsedByHolder(t, b) {
      assert UsedByHolder(s, b);
    }
  }

  lemma AcquireKeepsLocks(s: State, e: Event, t: State)
    requires LocksOk(s) && e.Acquire? && Next(s, e) == Some(t)
    ensures LocksOk(t)
  {
    assert forall u :: Holds(t, u) <==> Holds(s, u) || u == e.v;
  }

  lemma SessionKeepsBrokers(s: State, server: Option<nat>, session: Option<string>)
    requires BrokersOk(s)
    ensures BrokersOk(WithSession(s, server, session))
  {
  }

  lemma AcquireKeepsBrokers(s: State, e: Event, t: State)
    requires BrokersOk(s) && e.Acquire? && Next(s, e) == Some(t)
    ensures BrokersOk(t)
  {
    var i := s.invs[e.v];
    SessionKeepsBrokers(s, i.phase.server, i.session);
    var u := WithSession(s, i.phase.server, i.session);
    assert t == At(u, e.v, Running(i.phase.inst, i.phase.server)).(holder := s.holder[i.capsule := e.v]);
  }

  lemma AcquireStep(s: State, e: Event, t: State)
    requires Inv(s) && e.Acquire? && Next(s, e) == Some(t)
    ensures Inv(t)
  {
    AcquireKeepsLocks(s, e, t);
    AcquireKeepsBrokers(s, e, t);
    AcquireKeepsSessions(s, e, t);
  }

  lemma AcquireKeepsSessions(s: State, e: Event, t: State)
    requires LocksOk(s) && BrokersOk(s) && SessionsOk(s) && e.Acquire? && Next(s, e) == Some(t)
    ensures SessionsOk(t)
  {
    forall b | b in t.brokers && t.brokers[b].session.Some? ensures UsedByHolder(t, b) {
      AcquireKeepsSession(s, e.v, t, b);
    }
  }

  lemma AcquireKeepsSession(s: State, v: nat, t: State, b: nat)
    requires BrokersOk(s) && SessionsOk(s) && Next(s, Acquire(v)) == Some(t)
    requires b in t.brokers && t.brokers[b].session.Some?
    ensures UsedByHolder(t, b)
  {
    assert b in s.brokers;
    if s.invs[v].phase.server != Some(b) { assert UsedByHolder(s, b); }
  }

  lemma InvStep(s: State, e: Event, t: State)
    requires Inv(s) && Next(s, e) == Some(t)
    ensures Inv(t)
  {
    match e
    case Invoke(_, _, _) => InvokeStep(s, e, t);
    case Healthy(_) => HealthStep(s, e, t);
    case Unhealthy(_) => HealthStep(s, e, t);
    case StartFailed(_) => HealthStep(s, e, t);
    case BrokerStopped(v) => BrokerStopStep(s, v);
    case ContainerStopped(v, ok) => ContainerStopStep(s, v, ok);
    case Started(_, _, _) => StartStep(s, e, t);
    case BrokerStarted(_, _) => BrokerStartStep(s, e, t);
    case Acquire(_) => AcquireStep(s, e, t);
    case Returned(v) => LeaveKeeps(s, v);
    case Broke(_) => BrokeStep(s, e, t);
  }

  lemma {:induction false} InvAlways(ss: seq<State>, es: seq<Event>, i: nat)
    requires Trace(ss, es) && Init(ss[0]) && i <= |es|
    ensures Inv(ss[i])
  {
    if i > 0 {
      InvAlways(ss, es, i - 1);
      assert Next(ss[i - 1], es[i - 1]) == Some(ss[i]);
      InvStep(ss[i - 1], es[i - 1], ss[i]);
    }
  }

  /** In every interleaving, whatever brokers rebuilds have left behind: a broker object shows a
      session only while the holder of its capsule's lock is an invocation that uses this broker
      and carries this session. */
  lemma SessionIsHolders(ss: seq<State>, es: seq<Event>, i: nat, b: nat)
    requires Trace(ss, es) && Init(ss[0]) && i <= |es|
    requires b in ss[i].brokers && ss[i].brokers[b].session.Some?
    ensures UsedByHolder(ss[i], b)
  {
    InvAlways(ss, es, i);
  }

  /** Two brokers of one capsule never show a session at the same time. */
  lemma OneSessionPerCapsule(ss: seq<State>, es: seq<Event>, i: nat, b: nat, d: nat)
    requires Trace(ss, es) && Init(ss[0]) && i <= |es|
    requires b in ss[i].brokers && d in ss[i].brokers && ss[i].brokers[b].capsule == ss[i].brokers[d].capsule
    requires ss[i].brokers[b].session.Some? && ss[i].brokers[d].session.Some?
    ensures b == d
  {
    SessionIsHolders(ss, es, i, b);
    SessionIsHolders(ss, es, i, d);
  }

  // ---------- And the holder's broker shows its session ----------

  /** The broker an invocation uses while it holds the lock shows its session. */
  ghost predicate Shown(s: State, v: nat) {
    Holds(s, v) && s.invs[v].phase.server.Some? ==>
      s.invs[v].phase.server.value in s.brokers
      && s.brokers[s.invs[v].phase.server.value].session == s.invs[v].session
  }

  /** Invocation u held its lock before with the same broker, and the broker is as it was. */
  ghost predicate HeldOn(s: State, t: State, u: nat)
    requires Holds(t, u)
  {
    && Holds(s, u) && t.invs[u].session == s.invs[u].session && t.invs[u].phase.server == s.invs[u].phase.server
    && var b := s.invs[u].phase.server;
    (b.Some? && b.value in s.brokers ==> b.value in t.brokers && t.brokers[b.value] == s.brokers[b.value])
  }

  lemma HeldByQuietMove(s: State, t: State, v: nat, u: nat)
    requires QuietMove(s, t, v) && u in t.invs && Holds(t, u)
    ensures HeldOn(s, t, u)
  {
  }

  lemma HeldByOthers(s: State, v: nat, u: nat)
    requires Inv(s) && Holds(s, v) && u in s.invs && Holds(Leave(s, v, s.invs[v].phase.server), u)
    ensures HeldOn(s, Leave(s, v, s.invs[v].phase.server), u)
  {
    assert u != v && s.invs[u].capsule != s.invs[v].capsule;
  }

  lemma HeldEarly(s: State, e: Event, t: State, u: nat)
    requires e.Invoke? || e.Started? || e.BrokerStarted?
    requires Inv(s) && Next(s, e) == Some(t) && Holds(t, u)
    ensures HeldOn(s, t, u)
  {
  }

  lemma HeldByStop(s: State, e: Event, t: State, u: nat)
    requires e.BrokerStopped? && Inv(s) && Next(s, e) == Some(t) && Holds(t, u)
    ensures HeldOn(s, t, u)
  {
    var v := e.v;
    if s.invs[v].phase.StoppingOldBroker? {
      PopOldIsQuiet(s, v);
      HeldByQuietMove(s, t, v, u);
    } else if s.invs[v].capsule in s.instances {
      PopFailedIsQuiet(s, v, s.invs[v].phase.inst);
      HeldByQuietMove(s, t, v, u);
    } else {
      HeldByOthers(s, v, u);
    }
  }

  lemma HeldByContainerStop(s: State, e: Event, t: State, u: nat)
    requires e.ContainerStopped? && Inv(s) && Next(s, e) == Some(t) && Holds(t, u)
    ensures HeldOn(s, t, u)
  {
    if s.invs[e.v].phase.StoppingOld? {
      OldStoppedIsQuiet(s, e.v, e.ok);
      HeldByQuietMove(s, t, e.v, u);
    } else {
      HeldByOthers(s, e.v, u);
    }
  }

  lemma HeldStep(s: State, e: Event, t: State, u: nat)
    requires Inv(s) && Next(s, e) == Some(t) && Holds(t, u) && !e.Acquire?
    ensures HeldOn(s, t, u)
  {
    match e
    case Invoke(_, _, _) => HeldEarly(s, e, t, u);
    case Started(_, _, _) => HeldEarly(s, e, t, u);
    case BrokerStarted(_, _) => HeldEarly(s, e, t, u);
    case BrokerStopped(_) => HeldByStop(s, e, t, u);
    case ContainerStopped(_, _) => HeldByContainerStop(s, e, t, u);
    case Returned(v) => HeldByOthers(s, v, u);
    case Broke(v) =>
      if s.invs[v].capsule in s.servers || s.invs[v].capsule in s.instances {
        BrokeIsQuiet(s, v);
        HeldByQuietMove(s, t, v, u);
      } else {
        HeldByOthers(s, v, u);
      }
    case _ =>
      HealthIsQuiet(s, e, t);
      HeldByQuietMove(s, t, e.v, u);
  }

  lemma ShownByAcquire(s: State, e: Event, t: State, u: nat)
    requires e.Acquire? && Inv(s) && Next(s, e) == Some(t) && Shown(s, u)
    ensures Shown(t, u)
  {
    if u != e.v && Holds(t, u) { assert Holds(s, u) && s.invs[u].capsule != s.invs[e.v].capsule; }
  }

  lemma {:induction false} ShownAlways(ss: seq<State>, es: seq<Event>, i: nat, v: nat)
    requires Trace(ss, es) && Init(ss[0]) && i <= |es|
    ensures Shown(ss[i], v)
  {
    if i > 0 {
      ShownAlways(ss, es, i - 1, v);
      InvAlways(ss, es, i - 1);
      var s, e, t := ss[i - 1], es[i - 1], ss[i];
      assert Next(s, e) == Some(t);
      if e.Acquire? { ShownByAcquire(s, e, t, v); } else if Holds(t, v) { HeldStep(s, e, t, v); }
    }
  }

  /** The other direction: from the moment an invocation gets its capsule's lock until it lets go of
      it, while its call runs and while a failed one's broker and container are being stopped, the
      broker it uses shows its session. */
  lemma HolderIsShown(ss: seq<State>, es: seq<Event>, i: nat, v: nat, b: nat)
    requires Trace(ss, es) && Init(ss[0]) && i <= |es| && v in ss[i].invs
    requires var p := ss[i].invs[v].phase;
             (p.Running? || p.StoppingBroker? || p.StoppingInst?) && p.server == Some(b)
    ensures b in ss[i].brokers && ss[i].brokers[b].session == ss[i].invs[v].session
  {
    ShownAlways(ss, es, i, v);
  }
}
