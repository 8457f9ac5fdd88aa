/** An invocation on its own: the manager machine, run with the events of one invocation only, does
  what `CapsuleManager.Invoke` does to the registries, the containers and the broker's session. */
module ManagerSolo {
  import opened Options
  import opened Naturals
  import opened ManagerMachine

  /** The events of one invocation lead from s to t. */
  ghost predicate Alone(s: State, t: State, v: nat) {
    exists ss: seq<State>, es: seq<Event> ::
      Trace(ss, es) && ss[0] == s && ss[|es|] == t && forall i :: 0 <= i < |es| ==> es[i].v == v
  }

  lemma AloneHere(s: State, v: nat)
    ensures Alone(s, s, v)
  {
    assert Trace([s], []) && [s][0] == s;
  }

  lemma Step(s: State, t: State, v: nat, e: Event) returns (u: State)
    requires Alone(s, t, v) && Next(t, e).Some? && e.v == v
    ensures Next(t, e) == Some(u) && Alone(s, u, v)
  {
    u := Next(t, e).value;
    var ss: seq<State>, es: seq<Event> :|
      Trace(ss, es) && ss[0] == s && ss[|es|] == t && forall i :: 0 <= i < |es| ==> es[i].v == v;
    var ss', es' := ss + [u], es + [e];
    forall i | 0 <= i < |es'| ensures Next(ss'[i], es'[i]) == Some(ss'[i + 1]) {
      if i < |es| { assert es'[i] == es[i] && ss'[i] == ss[i] && ss'[i + 1] == ss[i + 1]; }
    }
    assert Trace(ss', es') && ss'[0] == s && ss'[|es'|] == u;
  }

  /** Invocation v of capsule c is at this phase. */
  predicate At(s: State, v: nat, c: string, session: Option<string>, p: Phase) {
    v in s.invs && s.invs[v] == Invocation(c, session, p)
  }

  /** The registries and the record of the containers. */
  predicate Has(s: State, instances: map<string, nat>, servers: map<string, nat>, fate: map<nat, Fate>) {
    s.instances == instances && s.servers == servers && s.fate == fate
  }

  /** An unhealthy instance is torn down: broker first, then container. */
  lemma Replaced(s0: State, s: State, v: nat, c: string, session: Option<string>, i: nat) returns (t: State)
    requires Alone(s0, s, v) && At(s, v, c, session, CheckingHealth(i)) && c in s.instances && s.instances[c] == i
    ensures Alone(s0, t, v) && At(t, v, c, session, Starting) && t.holder == s.holder && t.brokers == s.brokers
    ensures Has(t, s.instances - {c}, s.servers - {c}, s.fate[i := Gone]) && t.brokerless == s.brokerless
  {
    t := Step(s0, s, v, Unhealthy(v));
    if c in s.servers { t := Step(s0, t, v, BrokerStopped(v)); }
    assert At(t, v, c, session, StoppingOld(i)) && t.fate == s.fate[i := Stopping(v)];
    t := Step(s0, t, v, ContainerStopped(v, true));
    assert t.fate == s.fate[i := Gone] && t.servers == s.servers - {c};
  }

  /** A container is started and registered; its broker listens, or does not. */
  lemma Launched(s0: State, s: State, v: nat, c: string, session: Option<string>, i: nat, b: nat, ok: bool)
    returns (t: State)
    requires Alone(s0, s, v) && At(s, v, c, session, Starting) && c !in s.instances && c !in s.servers
    requires i !in s.fate && b !in s.brokers
    ensures Alone(s0, t, v) && t.holder == s.holder && t.brokers == s.brokers[b := Broker(c, i, None)]
    ensures ok ==> At(t, v, c, session, Queued(i, Some(b)))
                   && Has(t, s.instances[c := i], s.servers[c := b], s.fate[i := Registered(c)])
    ensures !ok ==> At(t, v, c, session, Over)
                    && Has(t, s.instances[c := i], s.servers, s.fate[i := Registered(c)])
  {
    t := Step(s0, s, v, Started(v, i, b));
    t := Step(s0, t, v, BrokerStarted(v, ok));
  }

  /** The call begins: its broker shows the invocation's session. */
  lemma Entered(s0: State, s: State, v: nat, c: string, session: Option<string>, i: nat, server: Option<nat>)
    returns (t: State)
    requires Alone(s0, s, v) && At(s, v, c, session, Queued(i, server)) && c !in s.holder
    requires server.Some? ==> server.value in s.brokers
    ensures Alone(s0, t, v) && At(t, v, c, session, Running(i, server)) && Has(t, s.instances, s.servers, s.fate)
    ensures t.holder == s.holder[c := v]
    ensures server.Some? ==> t.brokers == s.brokers[server.value := s.brokers[server.value].(session := session)]
    ensures server.None? ==> t.brokers == s.brokers
  {
    t := Step(s0, s, v, Acquire(v));
  }

  /** The call ends without a RuntimeError: all stays, the session is cleared, the lock released. */
  lemma Ended(s0: State, s: State, v: nat, c: string, session: Option<string>, i: nat, server: Option<nat>)
    returns (t: State)
    requires Alone(s0, s, v) && At(s, v, c, session, Running(i, server))
    requires server.Some? ==> server.value in s.brokers
    ensures Alone(s0, t, v) && At(t, v, c, session, Over) && Has(t, s.instances, s.servers, s.fate)
    ensures t.holder == s.holder - {c}
    ensures server.Some? ==> server.value in t.brokers && t.brokers[server.value].session == None
  {
    t := Step(s0, s, v, Returned(v));
  }

  /** It ends with a RuntimeError: the registered instance and its broker are gone as well. */
  lemma Failed(s0: State, s: State, v: nat, c: string, session: Option<string>, i: nat, server: Option<nat>)
    returns (t: State)
    requires Alone(s0, s, v) && At(s, v, c, session, Running(i, server)) && c in s.instances && s.instances[c] == i
    requires server.Some? ==> server.value in s.brokers
    ensures Alone(s0, t, v) && At(t, v, c, session, Over) && t.holder == s.holder - {c}
    ensures Has(t, s.instances - {c}, s.servers - {c}, s.fate[i := Gone])
    ensures server.Some? ==> server.value in t.brokers && t.brokers[server.value].session == None
  {
    t := Torn(s0, s, v, c, session, i, server);
    t := Step(s0, t, v, ContainerStopped(v, true));
    assert t.fate == s.fate[i := Gone];
  }

  lemma Torn(s0: State, s: State, v: nat, c: string, session: Option<string>, i: nat, server: Option<nat>)
    returns (t: State)
    requires Alone(s0, s, v) && At(s, v, c, session, Running(i, server)) && c in s.instances && s.instances[c] == i
    ensures Alone(s0, t, v) && At(t, v, c, session, StoppingInst(i, server, i)) && t.holder == s.holder
    ensures Has(t, s.instances - {c}, s.servers - {c}, s.fate[i := Stopping(v)]) && t.brokers == s.brokers
  {
    t := Step(s0, s, v, Broke(v));
    if c in s.servers { t := Step(s0, t, v, BrokerStopped(v)); }
    assert t.servers == s.servers - {c};
  }

  /** No invocation of the capsule holds its lock, and its registries agree. */
  predicate Ready(s: State, v: nat, c: string) {
    && v !in s.invs && c !in s.holder && (c in s.servers ==> c in s.instances && s.servers[c] in s.brokers)
    && (c in s.instances ==> s.instances[c] in s.fate)
  }

  /** The first half: an instance, reused or new, and the call begun on it, or the start failed. */
  lemma SoloStart(s: State, v: nat, c: string, session: Option<string>, healthy: bool, startOk: bool,
                  i: nat, b: nat, brokerOk: bool) returns (t: State)
    requires Ready(s, v, c) && i !in s.fate && b !in s.brokers
    ensures Alone(s, t, v) && v in t.invs
    ensures var reuse := c in s.instances && healthy;
            var fate := if c in s.instances && !healthy then s.fate[s.instances[c] := Gone] else s.fate;
            if reuse then
              var server := if c in s.servers then Some(s.servers[c]) else None;
              && At(t, v, c, session, Running(s.instances[c], server)) && Has(t, s.instances, s.servers, s.fate)
              && t.holder == s.holder[c := v]
              && (c in s.servers ==> s.servers[c] in t.brokers && t.brokers[s.servers[c]].session == session)
            else if !startOk then
              && At(t, v, c, session, Over) && Has(t, s.instances - {c}, s.servers - {c}, fate) && t.holder == s.holder
            else if !brokerOk then
              && At(t, v, c, session, Over) && t.holder == s.holder
              && Has(t, s.instances[c := i], s.servers - {c}, fate[i := Registered(c)])
            else
              && At(t, v, c, session, Running(i, Some(b))) && t.holder == s.holder[c := v]
              && Has(t, s.instances[c := i], s.servers[c := b], fate[i := Registered(c)])
              && b in t.brokers && t.brokers[b] == Broker(c, i, session)
  {
    AloneHere(s, v);
    t := Step(s, s, v, Invoke(v, c, session));
    if c in s.instances && healthy {
      t := Step(s, t, v, Healthy(v));
      t := Entered(s, t, v, c, session, s.instances[c], if c in s.servers then Some(s.servers[c]) else None);
    } else {
      t := SoloLaunch(s, t, v, c, session, startOk, i, b, brokerOk);
    }
  }

  /** What is registered for the capsule is replaced. */
  lemma SoloLaunch(s0: State, s: State, v: nat, c: string, session: Option<string>, startOk: bool,
                   i: nat, b: nat, brokerOk: bool) returns (t: State)
    requires Alone(s0, s, v) && c !in s.holder && i !in s.fate && b !in s.brokers
    requires (c in s.servers ==> c in s.instances) && (c in s.instances ==> s.instances[c] in s.fate)
    requires At(s, v, c, session, if c in s.instances then CheckingHealth(s.instances[c]) else Starting)
    ensures Alone(s0, t, v)
    ensures var fate := if c in s.instances then s.fate[s.instances[c] := Gone] else s.fate;
            if !startOk then
              && At(t, v, c, session, Over) && Has(t, s.instances - {c}, s.servers - {c}, fate) && t.holder == s.holder
            else if !brokerOk then
              && At(t, v, c, session, Over) && t.holder == s.holder
              && Has(t, s.instances[c := i], s.servers - {c}, fate[i := Registered(c)])
            else
              && At(t, v, c, session, Running(i, Some(b))) && t.holder == s.holder[c := v]
              && Has(t, s.instances[c := i], s.servers[c := b], fate[i := Registered(c)])
              && b in t.brokers && t.brokers[b] == Broker(c, i, session)
  {
    t := s;
    if c in s.instances {
      t := Replaced(s0, s, v, c, session, s.instances[c]);
    } else {
      assert s.instances - {c} == s.instances && s.servers - {c} == s.servers;
    }
    if !startOk {
      t := Step(s0, t, v, StartFailed(v));
    } else {
      t := Launched(s0, t, v, c, session, i, b, brokerOk);
      assert t.instances == s.instances[c := i];
      if brokerOk {
        assert t.servers == s.servers[c := b];
        t := Entered(s0, t, v, c, session, i, Some(b));
      }
    }
  }

  /** The second half: the call ends, with a RuntimeError or without. */
  lemma SoloEnd(s0: State, s: State, v: nat, c: string, session: Option<string>, i: nat, server: Option<nat>,
                broke: bool) returns (t: State)
    requires Alone(s0, s, v) && At(s, v, c, session, Running(i, server)) && c in s.instances && s.instances[c] == i
    requires server.Some? ==> server.value in s.brokers
    ensures Alone(s0, t, v) && At(t, v, c, session, Over) && t.holder == s.holder - {c}
    ensures if broke then Has(t, s.instances - {c}, s.servers - {c}, s.fate[i := Gone])
            else Has(t, s.instances, s.servers, s.fate)
    ensures server.Some? ==> server.value in t.brokers && t.brokers[server.value].session == None
  {
    if broke { t := Failed(s0, s, v, c, session, i, server); } else { t := Ended(s0, s, v, c, session, i, server); }
  }

  /** A healthy instance is kept: during the call its broker, if it has one, shows exactly this
      session, and none after it; all that is registered stays as it was, but that a RuntimeError
      unregisters the instance and its broker and stops the container. */
  lemma SoloReuse(s: State, v: nat, c: string, session: Option<string>, broke: bool) returns (mid: State, end: State)
    requires Ready(s, v, c) && c in s.instances
    ensures Alone(s, mid, v) && Alone(s, end, v) && v in mid.invs && v in end.invs
    ensures mid.invs[v].phase.Running? && Has(mid, s.instances, s.servers, s.fate) && mid.holder == s.holder[c := v]
    ensures c in s.servers ==> s.servers[c] in mid.brokers && mid.brokers[s.servers[c]].session == session
    ensures end.invs[v].phase.Over? && end.holder == s.holder
    ensures if broke then Has(end, s.instances - {c}, s.servers - {c}, s.fate[s.instances[c] := Gone])
            else Has(end, s.instances, s.servers, s.fate)
    ensures c in s.servers ==> s.servers[c] in end.brokers && end.brokers[s.servers[c]].session == None
  {
    var i := Above(s.fate.Keys);
    var b := Above(s.brokers.Keys);
    mid := SoloStart(s, v, c, session, true, true, i, b, true);
    var server := if c in s.servers then Some(s.servers[c]) else None;
    end := SoloEnd(s, mid, v, c, session, s.instances[c], server, broke);
    assert s.holder[c := v] - {c} == s.holder;
  }

  lemma NewEnds(s: State, mid: State, v: nat, c: string, session: Option<string>, i: nat, b: nat, broke: bool,
                fate: map<nat, Fate>) returns (end: State)
    requires Alone(s, mid, v) && At(mid, v, c, session, Running(i, Some(b))) && b in mid.brokers && c !in s.holder
    requires Has(mid, s.instances[c := i], s.servers[c := b], fate[i := Registered(c)])
    requires mid.holder == s.holder[c := v]
    ensures Alone(s, end, v) && At(end, v, c, session, Over) && end.holder == s.holder
    ensures b in end.brokers && end.brokers[b].session == None
    ensures if broke then Has(end, s.instances - {c}, s.servers - {c}, fate[i := Gone])
            else Has(end, s.instances[c := i], s.servers[c := b], fate[i := Registered(c)])
  {
    end := SoloEnd(s, mid, v, c, session, i, Some(b), broke);
    assert s.holder[c := v] - {c} == s.holder;
    assert s.instances[c := i] - {c} == s.instances - {c} && s.servers[c := b] - {c} == s.servers - {c};
    assert fate[i := Registered(c)][i := Gone] == fate[i := Gone];
  }

  /** Without one, or with one that is not healthy, whatever is registered is unregistered and
      stopped, and the new container i takes its place, with its own broker b, which shows exactly
      this session during the call; after a failed start nothing is registered, after a failed start
      of the broker the container alone. */
  lemma SoloReplace(s: State, v: nat, c: string, session: Option<string>, startOk: bool,
                    i: nat, b: nat, brokerOk: bool, broke: bool) returns (mid: State, end: State)
    requires Ready(s, v, c) && i !in s.fate && b !in s.brokers
    ensures Alone(s, mid, v) && Alone(s, end, v) && v in mid.invs && v in end.invs
    ensures mid.invs[v].phase.Running? <==> startOk && brokerOk
    ensures end.invs[v].phase.Over? && end.holder == s.holder
    ensures var fate := if c in s.instances then s.fate[s.instances[c] := Gone] else s.fate;
            if !startOk then
              Has(end, s.instances - {c}, s.servers - {c}, fate)
            else if !brokerOk then
              Has(end, s.instances[c := i], s.servers - {c}, fate[i := Registered(c)])
            else
              && Has(mid, s.instances[c := i], s.servers[c := b], fate[i := Registered(c)])
              && mid.holder == s.holder[c := v] && b in mid.brokers && mid.brokers[b] == Broker(c, i, session)
              && b in end.brokers && end.brokers[b].session == None
              && if broke then Has(end, s.instances - {c}, s.servers - {c}, fate[i := Gone])
                 else Has(end, s.instances[c := i], s.servers[c := b], fate[i := Registered(c)])
  {
    mid := SoloStart(s, v, c, session, false, startOk, i, b, brokerOk);
    end := mid;
    if startOk && brokerOk {
      var fate := if c in s.instances then s.fate[s.instances[c] := Gone] else s.fate;
      end := NewEnds(s, mid, v, c, session, i, b, broke, fate);
    }
  }
}
