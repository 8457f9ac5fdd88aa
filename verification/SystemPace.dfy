/** How sharp the timing of `SystemTime` is: the schedule in numbers, and a run on it that takes every
  timeout to its end. */
module SystemPace {
  import opened Options
  import opened LeaseTable
  import opened LeaseRules
  import opened Manifests
  import opened BrokerStages
  import opened RuntimeSystem
  import opened SystemTime
  import W = SystemWitness
  import L = LeaseMachine
  import M = ManagerMachine

  /** A state is on schedule exactly if each call that waits for the host has done so for at most 300
      seconds and a segment, each one that waits for its credential for 30 and a segment, each
      operation has lasted at most 15, and each other segment at most d, or, to insert, an instant
      more for each lease issued meanwhile. */
  lemma ScheduleLaw(s: State, d: nat)
    ensures Timely(s, d) <==> forall j :: j in s.jobs ==>
              var job := s.jobs[j];
              && (job.progress.Leasing? && j in s.l.calls ==>
                    match s.l.calls[j].pc
                    case Awaiting => s.l.now <= job.since + d + 300_000_000
                    case Approved(_) =>
                      s.l.now <= job.since + d
                                 + |set i | 0 <= i < |s.l.rows| && job.since <= s.l.rows[i].issuedAt < s.l.now|
                    case _ => s.l.now <= job.since + d)
              && (job.progress.Resolving? ==> s.l.now <= job.since + d + 30_000_000)
              && (job.progress.Executing? ==> s.l.now <= job.since + 15_000_000)
  {
    forall j | j in s.jobs
      ensures IssuedIn(s.l.rows, s.jobs[j].since, s.l.now)
           == set i | 0 <= i < |s.l.rows| && s.jobs[j].since <= s.l.rows[i].issuedAt < s.l.now
    {
    }
  }

  /** Call 0 is the only one, it arrived at time 0, and it has been at `pc` of its lease request since then. */
  ghost predicate Requesting(s: State, a: Args, pc: L.Pc, since: int) {
    && s.jobs.Keys == {0} && s.jobs[0].arrived == 0 && s.jobs[0].since == since && s.l.now == since
    && s.jobs[0].progress.Leasing? && |s.jobs[0].stages| == 1 && s.jobs[0].stages[0].PolicyPassed?
    && s.jobs[0].ask.provider in s.providers && s.l.rows == [] && s.l.calls == map[0 := L.Call(a, pc)]
  }

  /** Time passes, as far as the call may stay where it is. */
  lemma Wait(s0: State, s: State, d: nat, to: int) returns (t: State)
    requires Continues(s0, s, d) && s.l.now <= to && forall j :: j in s.jobs ==> Due(s, j, to, d)
    ensures Continues(s0, t, d) && t == s.(l := s.l.(now := to))
  {
    var e := Elsewhere(L.Tick(to));
    var u := Next(s, e).value;
    assert u == s.(l := s.l.(now := to));
    forall j | j in u.jobs ensures Due(u, j, u.l.now, d) { assert Due(s, j, to, d); }
    t := ContinueWith(s0, s, d, e);
  }

  /** The request takes all the time it has at `pc` and moves on. */
  lemma Linger(s0: State, s: State, d: nat, a: Args, pc: L.Pc, since: int, e: L.Event, next: L.Pc, to: int)
    returns (t: State)
    requires Continues(s0, s, d) && Requesting(s, a, pc, since) && since <= to && DueLeasing([], pc, since, to, d)
    requires Concerns(e, 0) && !L.Finished(next) && L.Next(s.l.(now := to), e).Some?
    requires var u := L.Next(s.l.(now := to), e).value;
             u.now == to && u.rows == [] && u.calls == map[0 := L.Call(a, next)]
    ensures Continues(s0, t, d) && Requesting(t, a, next, to)
  {
    t := Wait(s0, s, d, to);
    var u := Next(t, Advance(0, e)).value;
    assert u.jobs.Keys == {0};
    forall j | j in u.jobs ensures Due(u, j, u.l.now, d) {}
    t := ContinueWith(s0, t, d, Advance(0, e));
  }

  lemma Move(s0: State, s: State, d: nat, e: M.Event) returns (t: State)
    requires Continues(s0, s, d) && s.jobs == map[] && M.Next(s.m, e).Some?
    ensures Continues(s0, t, d) && t == s.(m := M.Next(s.m, e).value)
  {
    t := ContinueWith(s0, s, d, Manage(e));
  }

  /** A first invocation goes on until its tool call is in progress. */
  lemma Runs(s0: State, c: string, session: string, d: nat) returns (t: State)
    requires Continues(s0, s0, d) && s0.jobs == map[]
    requires s0.m == M.State(map[], map[], map[], map[], map[], map[], {})
    ensures Continues(s0, t, d) && t == s0.(m := t.m) && t.m.brokers == map[0 := M.Broker(c, 0, Some(session))]
  {
    t := Move(s0, s0, d, M.Invoke(0, c, Some(session)));
    t := Move(s0, t, d, M.Started(0, 0, 0));
    t := Move(s0, t, d, M.BrokerStarted(0, true));
    assert t.m.brokers == map[0 := M.Broker(c, 0, None)] && t.m.servers == map[c := 0];
    t := Move(s0, t, d, M.Acquire(0));
  }

  /** The tool of a first invocation makes a brokered call at time 0. */
  lemma Arrives(mf: Manifest, session: string, ask: Ask, d: nat) returns (s0: State, t: State)
    requires W.Permitted(mf, session, ask)
    ensures Init(s0) && Continues(s0, t, d)
    ensures Requesting(t, W.Request(mf, session, ask), L.Looked(None), 0)
  {
    var m0 := M.State(map[], map[], map[], map[], map[], map[], {});
    s0 := State(m0, L.State(0, [], map[], [], [], {}), map[mf.id := mf], {ask.provider}, map[]);
    assert Trace([s0], []) && OnSchedule([s0], d) && [s0][0] == s0;
    t := Runs(s0, mf.id, session, d);
    t := ArrivesAt(s0, t, mf, session, ask, d);
  }

  lemma ArrivesAt(s0: State, s: State, mf: Manifest, session: string, ask: Ask, d: nat) returns (t: State)
    requires W.Permitted(mf, session, ask) && Continues(s0, s, d) && s.jobs == map[]
    requires s.m.brokers == map[0 := M.Broker(mf.id, 0, Some(session))] && s.l == L.State(0, [], map[], [], [], {})
    requires s.manifests == map[mf.id := mf] && s.providers == {ask.provider}
    ensures Continues(s0, t, d) && Requesting(t, W.Request(mf, session, ask), L.Looked(None), 0)
  {
    var u := NextArrive(s, 0, 0, ask);
    assert u.l == L.NextBegin(s.l, 0, W.Request(mf, session, ask));
    assert u.jobs.Keys == {0};
    t := ContinueWith(s0, s, d, Arrive(0, 0, ask));
  }

  lemma Reads(s0: State, s: State, mf: Manifest, session: string, ask: Ask, d: nat) returns (t: State)
    requires W.Permitted(mf, session, ask) && Continues(s0, s, d)
    requires Requesting(s, W.Request(mf, session, ask), L.Looked(None), 0)
    ensures Continues(s0, t, d) && Requesting(t, W.Request(mf, session, ask), L.Awaiting, 2 * d)
  {
    var a := W.Request(mf, session, ask);
    t := Linger(s0, s, d, a, L.Looked(None), 0, L.Resume(0), L.Checking(None), d);
    t := Linger(s0, t, d, a, L.Checking(None), d, L.Resume(0), L.Awaiting, 2 * d);
  }

  /** It reads the table twice, asks the host, and is approved at the last moment. */
  lemma Approves(s0: State, s: State, mf: Manifest, session: string, ask: Ask, d: nat) returns (t: State)
    requires W.Permitted(mf, session, ask) && Continues(s0, s, d)
    requires Requesting(s, W.Request(mf, session, ask), L.Looked(None), 0)
    ensures Continues(s0, t, d)
    ensures exists g :: Requesting(t, W.Request(mf, session, ask), L.Approved(g), 3 * d + 300_000_000)
  {
    var a := W.Request(mf, session, ask);
    t := Reads(s0, s, mf, session, ask, d);
    var g := |t.l.grants|;
    t := Linger(s0, t, d, a, L.Awaiting, 2 * d, L.Allow(0), L.Approved(g), 3 * d + 300_000_000);
  }

  /** The lease is inserted, the credential resolved, and the operation goes on, as late as can be. */
  lemma Executes(s0: State, s: State, a: Args, g: nat, d: nat, since: int) returns (t: State)
    requires Continues(s0, s, d) && Requesting(s, a, L.Approved(g), since) && ValidResource(a.resource)
    ensures Continues(s0, t, d) && 0 in t.jobs && t.jobs[0].arrived == 0 && t.jobs[0].progress.Executing?
    ensures t.l.now == since + 2 * d + 45_000_000
  {
    t := Wait(s0, s, d, since + d);
    t := Inserts(s0, t, a, g, d);
    t := Wait(s0, t, d, since + 2 * d + 30_000_000);
    t := Resolves(s0, t, d);
    t := Wait(s0, t, d, since + 2 * d + 45_000_000);
  }

  lemma Inserts(s0: State, s: State, a: Args, g: nat, d: nat) returns (t: State)
    requires Continues(s0, s, d) && s.jobs.Keys == {0} && ValidResource(a.resource)
    requires s.jobs[0].arrived == 0 && s.jobs[0].progress.Leasing? && s.jobs[0].ask.provider in s.providers
    requires |s.jobs[0].stages| == 1 && s.jobs[0].stages[0].PolicyPassed?
    requires s.l.rows == [] && s.l.calls == map[0 := L.Call(a, L.Approved(g))]
    ensures Continues(s0, t, d) && t.jobs.Keys == {0} && t.l.now == s.l.now
    ensures t.jobs[0].progress.Resolving? && t.jobs[0].since == s.l.now && t.jobs[0].arrived == 0
    ensures |t.jobs[0].stages| == 2 && t.jobs[0].stages[0].PolicyPassed?
  {
    t := ContinueWith(s0, s, d, Advance(0, L.Issue(0, "L")));
  }

  lemma Resolves(s0: State, s: State, d: nat) returns (t: State)
    requires Continues(s0, s, d) && s.jobs.Keys == {0} && s.jobs[0].progress.Resolving? && s.jobs[0].arrived == 0
    requires |s.jobs[0].stages| == 2 && s.jobs[0].stages[0].PolicyPassed?
    ensures Continues(s0, t, d) && t.jobs.Keys == {0} && t.l.now == s.l.now
    ensures t.jobs[0].progress.Executing? && t.jobs[0].since == s.l.now && t.jobs[0].arrived == 0
  {
    t := ContinueWith(s0, s, d, Resolve(0, true));
  }

  /** For any manifest, caller and permitted action, and any d: a call can be under way, on schedule,
      345 seconds and five segments after its arrival, one segment and one instant less than is
      proved to be the most. */
  lemma CallsCanTakeThatLong(mf: Manifest, session: string, ask: Ask, d: nat)
    returns (ss: seq<State>, es: seq<Event>)
    requires W.Permitted(mf, session, ask)
    ensures Trace(ss, es) && Init(ss[0]) && OnSchedule(ss, d) && 0 in ss[|es|].jobs
    ensures ss[|es|].jobs[0].progress.Executing? && ss[|es|].l.now == ss[|es|].jobs[0].arrived + 345_000_000 + 5 * d
  {
    var s0, t := Arrives(mf, session, ask, d);
    t := Approves(s0, t, mf, session, ask, d);
    var a := W.Request(mf, session, ask);
    var g :| Requesting(t, a, L.Approved(g), 3 * d + 300_000_000);
    t := Executes(s0, t, a, g, d, 3 * d + 300_000_000);
    ss, es :| Trace(ss, es) && OnSchedule(ss, d) && ss[0] == s0 && ss[|es|] == t;
  }
}
