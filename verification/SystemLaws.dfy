/** What each step of a brokered call does, told by the manifest's entry and by numbers, and what the
  host is shown on its behalf. */
module SystemLaws {
  import opened Options
  import opened LeaseTable
  import opened LeaseRules
  import opened Manifests
  import opened BrokerStages
  import opened RuntimeSystem
  import L = LeaseMachine
  import LI = LeaseInvariant

  // ---------- The steps ----------

  /** Entry k of the manifest is the first one for the provider, and allows the action. */
  predicate Permits(m: Manifest, ask: Ask, k: int) {
    IsFirst(m.credentials, ask.provider, k) && ask.action in m.credentials[k].actions
  }

  lemma PermitsIsCheck(m: Manifest, ask: Ask)
    ensures forall k :: Permits(m, ask, k) ==> Check(m.credentials, ask.provider, ask.action) == Some(m.credentials[k])
    ensures (forall k :: !Permits(m, ask, k)) ==> Check(m.credentials, ask.provider, ask.action) == None
  {
    CheckIsFirstEntry(m.credentials, ask.provider, ask.action);
    if Check(m.credentials, ask.provider, ask.action).Some? {
      var k :| IsFirst(m.credentials, ask.provider, k) && ask.action in m.credentials[k].actions;
      assert Permits(m, ask, k);
    }
  }

  /** A call arrives: the policy, then the session, then its lease request. */
  lemma ArrivalLaw(s: State, j: nat, b: nat, ask: Ask, t: State)
    requires Next(s, Arrive(j, b, ask)) == Some(t)
    ensures b in s.m.brokers && s.m.brokers[b].capsule in s.manifests && j in t.jobs
    ensures var broker, job := s.m.brokers[b], t.jobs[j];
            && job.capsule == broker.capsule && job.inst == broker.inst && job.session == broker.session
            && job.ask == ask && job.arrived == s.l.now && t.m == s.m
            && ((forall k :: !Permits(s.manifests[broker.capsule], ask, k)) ==>
                  job.progress == Stuck && job.stages == [] && t.l == s.l)
            && (forall k :: Permits(s.manifests[broker.capsule], ask, k) ==>
                  var entry := s.manifests[broker.capsule].credentials[k];
                  && job.stages == [PolicyPassed(entry)]
                  && (broker.session == None || broker.session == Some("") ==> job.progress == Stuck && t.l == s.l)
                  && (broker.session != None && broker.session != Some("") ==>
                        && (job.progress == Leasing <==> 1 <= entry.ttl <= 1800)
                        && j in t.l.calls && t.l.calls[j].args.ttl == entry.ttl))
  {
    PermitsIsCheck(s.manifests[s.m.brokers[b].capsule], ask);
  }

  /** A lease is handed to the call. */
  lemma HandedLaw(s: State, j: nat, je: L.Event, t: State)
    requires Next(s, Advance(j, je)) == Some(t) && t.l.calls[j].pc.Returned?
    ensures j in s.jobs && j in t.jobs && t.jobs[j].stages == s.jobs[j].stages + [LeaseHeld(t.l.calls[j].pc.lease)]
    ensures t.jobs[j].progress == if s.jobs[j].ask.provider in s.providers then Resolving else Stuck
  {
  }

  /** The credential is resolved, and the operation begins; or it fails. */
  lemma ResolveLaw(s: State, j: nat, ok: bool, t: State)
    requires Inv(s) && Next(s, Resolve(j, ok)) == Some(t)
    ensures j in s.jobs && j in t.jobs && s.jobs[j].capsule in s.manifests
    ensures forall k :: Permits(s.manifests[s.jobs[j].capsule], s.jobs[j].ask, k) ==>
              var entry := s.manifests[s.jobs[j].capsule].credentials[k];
              t.jobs[j].stages == s.jobs[j].stages + if ok then [Resolved(entry.ref), Executed(s.jobs[j].ask)] else []
    ensures t.jobs[j].progress == if ok then Executing else Stuck
  {
    var job := s.jobs[j];
    assert JobOk(s, j, job);
    CheckIsFirstEntry(s.manifests[job.capsule].credentials, job.ask.provider, job.ask.action);
  }

  /** The operation's result is delivered exactly if there is one of at most 2097152 bytes. */
  lemma FinishLaw(s: State, j: nat, bytes: Option<nat>, t: State)
    requires Next(s, Finish(j, bytes)) == Some(t)
    ensures j in s.jobs && j in t.jobs
    ensures if bytes.Some? && bytes.value <= 2097152
            then t.jobs[j].progress == Done && t.jobs[j].stages == s.jobs[j].stages + [Delivered(bytes.value)]
            else t.jobs[j].progress == Stuck && t.jobs[j].stages == s.jobs[j].stages
  {
  }

  // ---------- What the host is shown ----------

  /** The call's lease request has its capsule, instance, session and wishes, and the lifetime of its
      manifest's first entry for the provider. */
  ghost predicate Carries(s: State, j: nat) {
    j in s.jobs && j in s.l.calls ==>
      var job, a := s.jobs[j], s.l.calls[j].args;
      && job.capsule in s.manifests && a.capsule == job.capsule && a.inst == InstanceId(job.inst)
      && job.session == Some(a.sess) && a.provider == job.ask.provider && a.resource == job.ask.resource
      && a.action == job.ask.action
      && (forall k :: IsFirst(s.manifests[job.capsule].credentials, job.ask.provider, k) ==>
            a.ttl == s.manifests[job.capsule].credentials[k].ttl)
  }

  lemma CarriesArrival(s: State, e: Event, t: State)
    requires e.Arrive? && Next(s, e) == Some(t) && forall c :: c in s.manifests ==> s.manifests[c].id == c
    ensures Carries(t, e.j)
  {
    var mf := s.manifests[s.m.brokers[e.b].capsule];
    CheckIsFirstEntry(mf.credentials, e.ask.provider, e.ask.action);
  }

  lemma CallArgsKept(s: L.State, e: L.Event, t: L.State, j: nat)
    requires L.Next(s, e) == Some(t) && j in t.calls && !(e.Begin? && e.c == j)
    ensures j in s.calls && t.calls[j].args == s.calls[j].args
  {
  }

  lemma CarriesStep(s: State, e: Event, t: State, j: nat)
    requires Inv(s) && Next(s, e) == Some(t) && Carries(s, j) && forall c :: c in s.manifests ==> s.manifests[c].id == c
    ensures Carries(t, j) && t.manifests == s.manifests
  {
    if e.Arrive? && e.j == j {
      CarriesArrival(s, e, t);
    } else if j in t.jobs && j in t.l.calls {
      if j !in s.jobs { OnlyArrive(s, e, t, j); }
      FurtherStep(s, e, t, j);
      JobArgsKept(s, e, t, j);
    }
  }

  lemma JobArgsKept(s: State, e: Event, t: State, j: nat)
    requires Inv(s) && Next(s, e) == Some(t) && j in s.jobs && j in t.l.calls && !(e.Arrive? && e.j == j)
    ensures j in s.l.calls && t.l.calls[j].args == s.l.calls[j].args && t.manifests == s.manifests
  {
    if e.Elsewhere? { CallArgsKept(s.l, e.le, t.l, j); }
    if e.Advance? {
      assert JobOk(s, e.j, s.jobs[e.j]);
      CallArgsKept(s.l, e.je, t.l, j);
    }
  }

  lemma OnlyArrive(s: State, e: Event, t: State, j: nat)
    requires Next(s, e) == Some(t) && j !in s.jobs && j in t.jobs
    ensures e.Arrive? && e.j == j
  {
  }

  lemma {:induction false} CarriesAlways(ss: seq<State>, es: seq<Event>, i: nat, j: nat)
    requires Trace(ss, es) && Init(ss[0]) && i <= |es|
    ensures Carries(ss[i], j) && ss[i].manifests == ss[0].manifests
  {
    if i > 0 {
      CarriesAlways(ss, es, i - 1, j);
      InvAlways(ss, es, i - 1);
      assert Next(ss[i - 1], es[i - 1]) == Some(ss[i]);
      CarriesStep(ss[i - 1], es[i - 1], ss[i], j);
    }
  }

  /** In every run, an approval for a brokered call shows the host the call's capsule, provider,
      resource and action and the lifetime of its manifest's entry, and a lease issued for it has this
      capsule and this lifetime. */
  lemma HostIsShownTheCall(ss: seq<State>, es: seq<Event>, i: nat, g: nat)
    requires Trace(ss, es) && Init(ss[0]) && i <= |es| && g < |ss[i].l.grants| && ss[i].l.grants[g].call in ss[i].jobs
    ensures var s, grant := ss[i], ss[i].l.grants[g];
            var job := s.jobs[grant.call];
            && job.capsule in s.manifests && grant.capsule == job.capsule && grant.provider == job.ask.provider
            && grant.resource == job.ask.resource && grant.action == job.ask.action
            && (forall k :: IsFirst(s.manifests[job.capsule].credentials, job.ask.provider, k) ==>
                  grant.ttl == s.manifests[job.capsule].credentials[k].ttl)
            && |s.l.origin| == |s.l.rows|
            && (forall r :: 0 <= r < |s.l.rows| && s.l.origin[r] == g ==>
                  s.l.rows[r].capsule == job.capsule
                  && s.l.rows[r].expiresAt - s.l.rows[r].issuedAt == grant.ttl * 1_000_000)
  {
    InvAlways(ss, es, i);
    CarriesAlways(ss, es, i, ss[i].l.grants[g].call);
  }
}
