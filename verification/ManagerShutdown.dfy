/** The shutdown's sweep over the registered capsules, while invocations in flight go on: when it
  leaves a container running or a broker listening.

  The locks are cleared at its end, so that an invocation may take one that another still holds.
 */
module ManagerShutdown {
  import opened Options
  import opened Naturals
  import M = ManagerMachine
  import MC = ManagerContainers
  import MS = ManagerSequential
  import ML = ManagerLoss

  /** The capsules left to tear down, from the snapshot of the registry; a stop that fails aborts the
      sweep. */
  datatype Sweep =
    | NotYet
    | Choosing(left: set<string>)
    | StoppingServer(left: set<string>, capsule: string)
    | StoppingContainer(left: set<string>, inst: nat)
    | Complete
    | Aborted

  datatype State = State(m: M.State, sweep: Sweep)

  datatype Event =
    | Manage(me: M.Event)
    | Snapshot
    | Take(capsule: string)
    | ServerStopped
    | ContainerStopped(ok: bool)
    | Finish

  /** The capsule's instance, if it is still registered, is unregistered and stopped. */
  function PopInstance(m: M.State, left: set<string>, c: string): State {
    if c in m.instances
    then State(m.(instances := m.instances - {c}, fate := m.fate[m.instances[c] := M.Swept]),
               StoppingContainer(left, m.instances[c]))
    else State(m, Choosing(left))
  }

  function NextTake(m: M.State, left: set<string>, c: string): State {
    if c in m.servers then State(m.(servers := m.servers - {c}), StoppingServer(left - {c}, c))
    else PopInstance(m, left - {c}, c)
  }

  function Next(z: State, e: Event): Option<State> {
    match e
    case Manage(me) =>
      var m := M.Next(z.m, me);
      if m.Some? then Some(z.(m := m.value)) else None
    case Snapshot => if z.sweep.NotYet? then Some(z.(sweep := Choosing(z.m.instances.Keys))) else None
    case Take(c) =>
      if z.sweep.Choosing? && c in z.sweep.left then Some(NextTake(z.m, z.sweep.left, c)) else None
    case ServerStopped =>
      if z.sweep.StoppingServer? then Some(PopInstance(z.m, z.sweep.left, z.sweep.capsule)) else None
    case ContainerStopped(ok) =>
      if z.sweep.StoppingContainer?
      then Some(State(z.m.(fate := z.m.fate[z.sweep.inst := if ok then M.Gone else M.StopFailed]),
                      if ok then Choosing(z.sweep.left) else Aborted))
      else None
    case Finish =>
      if z.sweep == Choosing({}) then Some(State(z.m.(holder := map[]), Complete)) else None
  }

  /** A run without new invocations. */
  ghost predicate Closing(zs: seq<State>, es: seq<Event>) {
    && |zs| == |es| + 1
    && (forall i {:trigger es[i]} :: 0 <= i < |es| ==> Next(zs[i], es[i]) == Some(zs[i + 1]))
    && (forall i :: 0 <= i < |es| ==> !(es[i].Manage? && es[i].me.Invoke?))
  }

  /** The sweep and all invocations are over. */
  ghost predicate Over(z: State) {
    z.sweep.Complete? && forall v :: v in z.m.invs ==> z.m.invs[v].phase.Over?
  }

  /** The shutdown begins. */
  ghost predicate Begins(z: State) {
    MC.FateOk(z.m) && MC.Sweeping(z.m) == {} && z.sweep == Choosing(z.m.instances.Keys)
  }

  lemma {:induction false} RunsBegin(ss: seq<M.State>, es: seq<M.Event>, i: nat)
    requires M.Trace(ss, es) && M.Init(ss[0]) && i <= |es|
    ensures Next(State(ss[i], NotYet), Snapshot).Some? && Begins(Next(State(ss[i], NotYet), Snapshot).value)
  {
    MC.FateAlways(ss, es, i);
  }

  // ---------- If nobody can start a container, all are stopped ----------

  ghost predicate NoStarters(m: M.State) {
    forall v :: !ML.CanStart(m, v)
  }

  /** The capsules the sweep has still to visit, or is at. */
  function Ahead(w: Sweep): set<string> {
    match w
    case Choosing(left) => left
    case StoppingServer(left, c) => left + {c}
    case StoppingContainer(left, _) => left
    case _ => {}
  }

  /** What the sweep is stopping. */
  ghost function AtHand(w: Sweep): set<nat> {
    if w.StoppingContainer? then {w.inst} else {}
  }

  /** Every registered capsule is still to be visited, and the sweep knows what it is stopping. */
  ghost predicate OnCourse(z: State) {
    && MC.FateOk(z.m) && NoStarters(z.m) && !z.sweep.NotYet?
    && (!z.sweep.Aborted? ==> z.m.instances.Keys <= Ahead(z.sweep))
    && MC.Sweeping(z.m) == AtHand(z.sweep)
  }

  lemma PoppedSweeping(m: M.State, left: set<string>, c: string)
    requires MC.FateOk(m) && MC.Sweeping(m) == {}
    ensures var z := PopInstance(m, left, c); MC.Sweeping(z.m) == AtHand(z.sweep)
  {
    var z := PopInstance(m, left, c);
    forall i ensures i in MC.Sweeping(z.m) <==> i in AtHand(z.sweep) {
      assert i !in MC.Sweeping(m);
    }
  }

  lemma PoppedOk(m: M.State, left: set<string>, c: string)
    requires MC.FateOk(m) && MC.Sweeping(m) == {}
    ensures var z := PopInstance(m, left, c);
            && MC.FateOk(z.m) && z.m.invs == m.invs && z.m.servers == m.servers
            && z.m.instances == m.instances - {c} && ML.SameLosses(m, z.m) && Ahead(z.sweep) == left
            && MC.Sweeping(z.m) == AtHand(z.sweep)
  {
    PoppedSweeping(m, left, c);
  }

  /** The registry, the containers and the invocations are all that counts. */
  lemma SameFates(m: M.State, n: M.State)
    requires MC.FateOk(m) && n.invs == m.invs && n.instances == m.instances && n.fate == m.fate
    ensures MC.FateOk(n) && MC.Sweeping(n) == MC.Sweeping(m) && ML.SameLosses(m, n)
  {
  }

  lemma EndedOk(m: M.State, n: M.State, i: nat, end: M.Fate)
    requires MC.FateOk(m) && MC.Sweeping(m) == {i} && (end.Gone? || end.StopFailed?)
    requires n == m.(fate := m.fate[i := end])
    ensures MC.FateOk(n) && MC.Sweeping(n) == {} && ML.SameLosses(m, n)
  {
    assert i in MC.Sweeping(m);
    forall j ensures j !in MC.Sweeping(n) { assert j in MC.Sweeping(m) <==> j == i; }
  }

  /** An invocation's step leaves the containers the sweep is stopping to it. */
  lemma SweepingKept(s: M.State, e: M.Event, t: M.State)
    requires MC.FateOk(s) && M.Next(s, e) == Some(t)
    ensures MC.FateOk(t) && MC.Sweeping(t) == MC.Sweeping(s)
  {
    MC.FateStep(s, e, t);
    forall i | i in MC.Sweeping(s) ensures i in MC.Sweeping(t) {
      if e.ContainerStopped? {
        MC.StoppedFacts(s, e.v, e.ok);
        assert s.fate[MC.Victim(s.invs[e.v].phase).value].Stopping?;
      } else {
        MS.OnlyRegisteredChange(s, e, t, i);
      }
    }
  }

  lemma SameInvocations(m: M.State, n: M.State)
    requires NoStarters(m) && n.invs == m.invs
    ensures NoStarters(n)
  {
    forall v ensures !ML.CanStart(n, v) { assert !ML.CanStart(m, v); }
  }

  lemma NoStartersStep(s: M.State, e: M.Event, t: M.State)
    requires M.Next(s, e) == Some(t) && !e.Invoke? && NoStarters(s)
    ensures NoStarters(t) && ML.NoneNewlyRegistered(s, t) && ML.SameLosses(s, t)
  {
    ML.StepMoves(s, e, t);
    assert !ML.CanStart(s, e.v);
    forall v ensures !ML.CanStart(t, v) {
      if v != e.v { assert !ML.CanStart(s, v); }
    }
  }

  lemma CourseManage(z: State, e: Event, t: State)
    requires OnCourse(z) && e.Manage? && !e.me.Invoke? && Next(z, e) == Some(t)
    ensures OnCourse(t) && ML.SameLosses(z.m, t.m)
  {
    NoStartersStep(z.m, e.me, t.m);
    SweepingKept(z.m, e.me, t.m);
  }

  lemma CourseSweep(z: State, e: Event, t: State)
    requires OnCourse(z) && !e.Manage? && Next(z, e) == Some(t)
    ensures OnCourse(t) && ML.SameLosses(z.m, t.m)
  {
    SameInvocations(z.m, t.m);
    match e
    case Take(c) =>
      if c in z.m.servers { SameFates(z.m, t.m); } else { PoppedOk(z.m, z.sweep.left - {c}, c); }
    case ServerStopped => PoppedOk(z.m, z.sweep.left, z.sweep.capsule);
    case ContainerStopped(ok) => EndedOk(z.m, t.m, z.sweep.inst, if ok then M.Gone else M.StopFailed);
    case Finish => SameFates(z.m, t.m);
  }

  lemma CourseAt(zs: seq<State>, es: seq<Event>, i: nat)
    requires Closing(zs, es) && i < |es| && OnCourse(zs[i])
    ensures OnCourse(zs[i + 1]) && ML.SameLosses(zs[i].m, zs[i + 1].m)
  {
    assert Next(zs[i], es[i]) == Some(zs[i + 1]) && !(es[i].Manage? && es[i].me.Invoke?);
    if es[i].Manage? { CourseManage(zs[i], es[i], zs[i + 1]); } else { CourseSweep(zs[i], es[i], zs[i + 1]); }
  }

  lemma {:induction false} CourseAlong(zs: seq<State>, es: seq<Event>, i: nat)
    requires Closing(zs, es) && i <= |es| && OnCourse(zs[0])
    ensures OnCourse(zs[i]) && ML.SameLosses(zs[0].m, zs[i].m)
  {
    if i > 0 {
      CourseAlong(zs, es, i - 1);
      CourseAt(zs, es, i - 1);
    }
  }

  /** The container has been stopped, or its stop has failed, or it had been lost before. */
  predicate Settled(z: State, t: State, i: nat)
    requires i in t.m.fate
  {
    t.m.fate[i].Gone? || t.m.fate[i].StopFailed? || (t.m.fate[i].Overwritten? && ML.Overwritten(z.m, i))
  }

  ghost predicate AllStopped(z: State, t: State) {
    forall i :: i in t.m.fate ==> Settled(z, t, i)
  }

  lemma OverIsStopped(z: State, t: State)
    requires OnCourse(t) && Over(t) && ML.SameLosses(z.m, t.m)
    ensures AllStopped(z, t)
  {
    forall i | i in t.m.fate ensures Settled(z, t, i) {
      assert i !in MC.Sweeping(t.m);
      if t.m.fate[i].Overwritten? { assert ML.Overwritten(t.m, i); }
    }
  }

  // ---------- If somebody can, one may be left running ----------

  ghost predicate Path(z: State, t: State) {
    exists zs: seq<State>, es: seq<Event> :: Closing(zs, es) && zs[0] == z && zs[|es|] == t
  }

  lemma Step(z: State, t: State, e: Event) returns (u: State)
    requires Path(z, t) && Next(t, e).Some? && !(e.Manage? && e.me.Invoke?)
    ensures Next(t, e) == Some(u) && Path(z, u)
  {
    u := Next(t, e).value;
    var zs: seq<State>, es: seq<Event> :| Closing(zs, es) && zs[0] == z && zs[|es|] == t;
    var zs', es' := zs + [u], es + [e];
    forall i | 0 <= i < |es'| ensures Next(zs'[i], es'[i]) == Some(zs'[i + 1]) {
      if i < |es| { assert es'[i] == es[i] && zs'[i] == zs[i] && zs'[i + 1] == zs[i + 1]; }
    }
    assert Closing(zs', es') && zs'[0] == z && zs'[|es'|] == u;
  }

  /** The invocations' way on is a way on while the sweep stands still. */
  lemma {:induction false} Lift(z: State, t: State, ss: seq<M.State>, es: seq<M.Event>, i: nat) returns (u: State)
    requires Path(z, t) && M.Trace(ss, es) && ss[0] == t.m && i <= |es| && forall k :: 0 <= k < |es| ==> !es[k].Invoke?
    ensures Path(z, u) && u == t.(m := ss[i])
  {
    u := t;
    if i > 0 {
      u := Lift(z, t, ss, es, i - 1);
      assert M.Next(ss[i - 1], es[i - 1]) == Some(ss[i]);
      u := Step(z, u, Manage(es[i - 1]));
    }
  }

  lemma LiftPath(z: State, t: State, m: M.State) returns (u: State)
    requires Path(z, t) && ML.Path(t.m, m)
    ensures Path(z, u) && u == t.(m := m)
  {
    var ss: seq<M.State>, es: seq<M.Event> :|
      M.Trace(ss, es) && ss[0] == t.m && ss[|es|] == m && forall i :: 0 <= i < |es| ==> !es[i].Invoke?;
    u := Lift(z, t, ss, es, |es|);
  }

  /** The sweep runs to its end while no invocation moves: servers it does not visit stay. */
  lemma {:induction false} SweepAll(z: State, t: State) returns (u: State)
    requires Path(z, t) && t.sweep.Choosing?
    ensures Path(z, u) && u.sweep.Complete? && u.m.invs == t.m.invs && u.m.holder == map[]
    ensures forall c :: c in t.m.servers && c !in t.sweep.left ==> c in u.m.servers
    decreases t.sweep.left
  {
    if t.sweep.left == {} {
      u := Step(z, t, Finish);
    } else {
      var c :| c in t.sweep.left;
      u := Visit(z, t, c);
      u := SweepAll(z, u);
    }
  }

  lemma Visit(z: State, t: State, c: string) returns (u: State)
    requires Path(z, t) && t.sweep.Choosing? && c in t.sweep.left
    ensures Path(z, u) && u.sweep == Choosing(t.sweep.left - {c}) && u.m.invs == t.m.invs
    ensures forall d :: d in t.m.servers && d != c ==> d in u.m.servers
  {
    u := Step(z, t, Take(c));
    if u.sweep.StoppingServer? { u := Step(z, u, ServerStopped); }
    if u.sweep.StoppingContainer? { u := Step(z, u, ContainerStopped(true)); }
  }

  /** Invocation u moved, with no lock held before or after. */
  predicate Unlocked(s: M.State, t: M.State, u: nat) {
    ML.Moved(s, t, u) && s.holder == map[] && t.holder == map[]
  }

  lemma EndStarter(s0: M.State, s: M.State, u: nat) returns (t: M.State)
    requires ML.Path(s0, s) && s.holder == map[] && ML.CanStart(s, u)
    ensures ML.Path(s0, t) && Unlocked(s, t, u) && t.invs[u].phase.Over?
  {
    t := ML.ToStarting(s0, s, u);
    t := ML.Step(s0, t, M.StartFailed(u));
  }

  lemma EndQueued(s0: M.State, s: M.State, u: nat) returns (t: M.State)
    requires ML.Path(s0, s) && s.holder == map[] && u in s.invs && s.invs[u].phase.Queued?
    ensures ML.Path(s0, t) && Unlocked(s, t, u) && t.invs[u].phase.Over? && t.servers == s.servers
    ensures t.fate == s.fate
  {
    t := ML.Step(s0, s, M.Acquire(u));
    assert t.holder == map[s.invs[u].capsule := u];
    t := ML.Step(s0, t, M.Returned(u));
    assert t.holder == map[];
  }

  lemma EndRunning(s0: M.State, s: M.State, u: nat) returns (t: M.State)
    requires ML.Path(s0, s) && s.holder == map[] && u in s.invs && s.invs[u].phase.Running?
    ensures ML.Path(s0, t) && Unlocked(s, t, u) && t.invs[u].phase.Over? && t.servers == s.servers
  {
    ML.LeaveMoves(s, u, s.invs[u].phase.server);
    t := ML.Step(s0, s, M.Returned(u));
  }

  lemma EndStoppingInst(s0: M.State, s: M.State, u: nat) returns (t: M.State)
    requires ML.Path(s0, s) && s.holder == map[] && u in s.invs && s.invs[u].phase.StoppingInst?
    ensures ML.Path(s0, t) && Unlocked(s, t, u) && t.invs[u].phase.Over? && t.servers == s.servers
  {
    ML.StopsMove(s, u, true);
    t := ML.Step(s0, s, M.ContainerStopped(u, true));
  }

  lemma EndStoppingBroker(s0: M.State, s: M.State, u: nat) returns (t: M.State)
    requires ML.Path(s0, s) && s.holder == map[] && u in s.invs && s.invs[u].phase.StoppingBroker?
    ensures ML.Path(s0, t) && Unlocked(s, t, u) && t.invs[u].phase.Over? && t.servers == s.servers
  {
    t := PastBroker(s0, s, u);
    if t.invs[u].phase.StoppingInst? { t := EndStoppingInst(s0, t, u); }
  }

  lemma PastBroker(s0: M.State, s: M.State, u: nat) returns (t: M.State)
    requires ML.Path(s0, s) && s.holder == map[] && u in s.invs && s.invs[u].phase.StoppingBroker?
    ensures ML.Path(s0, t) && Unlocked(s, t, u) && t.servers == s.servers
    ensures t.invs[u].phase.StoppingInst? || t.invs[u].phase.Over?
  {
    ML.PopFailedMoves(s, u, s.invs[u].phase.inst, s.invs[u].phase.server);
    t := ML.Step(s0, s, M.BrokerStopped(u));
  }

  lemma EndStartingBroker(s0: M.State, s: M.State, u: nat) returns (t: M.State)
    requires ML.Path(s0, s) && s.holder == map[] && u in s.invs && s.invs[u].phase.StartingBroker?
    ensures ML.Path(s0, t) && Unlocked(s, t, u) && t.invs[u].phase.Over?
    ensures t.servers == s.servers && t.fate == s.fate
  {
    t := ML.Step(s0, s, M.BrokerStarted(u, false));
  }

  /** Any invocation can come to its end, registering nothing; one that cannot start a container
      leaves the registered brokers alone. */
  lemma Retire(s0: M.State, s: M.State, u: nat) returns (t: M.State)
    requires ML.Path(s0, s) && s.holder == map[] && u in s.invs
    ensures ML.Path(s0, t) && Unlocked(s, t, u) && t.invs[u].phase.Over?
    ensures !ML.CanStart(s, u) ==> t.servers == s.servers
  {
    if ML.CanStart(s, u) {
      t := EndStarter(s0, s, u);
    } else {
      match s.invs[u].phase
      case StartingBroker(_, _) => t := EndStartingBroker(s0, s, u);
      case Queued(_, _) => t := EndQueued(s0, s, u);
      case Running(_, _) => t := EndRunning(s0, s, u);
      case StoppingBroker(_, _) => t := EndStoppingBroker(s0, s, u);
      case StoppingInst(_, _, _) => t := EndStoppingInst(s0, s, u);
      case Over => t := s;
    }
  }

  /** The other invocations that are not over. */
  ghost function Others(s: M.State, v: nat): set<nat> {
    set u | u in s.invs && u != v && !s.invs[u].phase.Over?
  }

  lemma {:induction false} RetireOthers(s0: M.State, s: M.State, v: nat) returns (t: M.State)
    requires ML.Path(s0, s) && s.holder == map[]
    ensures ML.Path(s0, t) && t.holder == map[] && Others(t, v) == {} && t.invs.Keys == s.invs.Keys
    ensures v in s.invs ==> t.invs[v] == s.invs[v]
    ensures (forall u :: u in Others(s, v) ==> !ML.CanStart(s, u)) ==> t.servers == s.servers
    decreases Others(s, v)
  {
    t := s;
    if Others(s, v) != {} {
      var u :| u in Others(s, v);
      t := Retire(s0, s, u);
      assert Others(t, v) == Others(s, v) - {u};
      assert forall w :: w in Others(t, v) ==> t.invs[w] == s.invs[w];
      t := RetireOthers(s0, t, v);
    }
  }

  /** The sweep is over, and so are all invocations but v. */
  ghost predicate AllBut(z: State, v: nat) {
    z.sweep.Complete? && z.m.holder == map[] && Others(z.m, v) == {}
  }

  lemma ClearTheWay(z: State, v: nat) returns (t: State)
    requires z.sweep.Choosing?
    ensures Path(z, t) && AllBut(t, v) && t.m.invs.Keys == z.m.invs.Keys
    ensures v in z.m.invs ==> t.m.invs[v] == z.m.invs[v]
    ensures NoStarters(z.m) ==> forall c :: c in z.m.servers && c !in z.sweep.left ==> c in t.m.servers
  {
    assert Closing([z], []) && [z][0] == z;
    t := SweepAll(z, z);
    ML.PathHere(t.m);
    var m := RetireOthers(t.m, t.m, v);
    if NoStarters(z.m) { SameInvocations(z.m, t.m); }
    t := LiftPath(z, t, m);
  }

  /** Invocation v starts a container after the sweep; its broker listens, or does not. */
  lemma StartsAfterwards(z: State, v: nat, ok: bool) returns (t: State)
    requires z.sweep.Choosing? && ML.CanStart(z.m, v)
    ensures Path(z, t) && Over(t) && (exists i :: i in t.m.fate && t.m.fate[i].Registered?)
    ensures ok ==> t.m.servers != map[]
  {
    t := ClearTheWay(z, v);
    ML.PathHere(t.m);
    var m := ML.ToStarting(t.m, t.m, v);
    var i;
    m, i := ML.Start(t.m, m, v);
    m := BrokerThenOver(t.m, m, v, ok);
    assert m.fate[i].Registered?;
    t := LiftPath(z, t, m);
    OverIfAlone(t, v);
  }

  lemma BrokerThenOver(s0: M.State, s: M.State, v: nat, ok: bool) returns (t: M.State)
    requires ML.Path(s0, s) && s.holder == map[] && v in s.invs && s.invs[v].phase.StartingBroker?
    ensures ML.Path(s0, t) && Unlocked(s, t, v) && t.invs[v].phase.Over? && t.fate == s.fate
    ensures ok ==> s.invs[v].capsule in t.servers
  {
    if ok {
      ML.BrokerStartedMoves(s, v, true);
      t := ML.Step(s0, s, M.BrokerStarted(v, true));
      t := EndQueued(s0, t, v);
    } else {
      t := EndStartingBroker(s0, s, v);
    }
  }

  lemma OverIfAlone(z: State, v: nat)
    requires AllBut(z, v) && (v in z.m.invs ==> z.m.invs[v].phase.Over?)
    ensures Over(z)
  {
    forall u | u in z.m.invs ensures z.m.invs[u].phase.Over? { assert u !in Others(z.m, v); }
  }

  /** The exact condition: from the snapshot of a shutdown, every container is stopped once the sweep
      and all invocations are over, in every continuation without new invocations, if and only if no
      invocation in flight at the snapshot can come to start a container. */
  lemma SweepStopsAllExactly(z: State)
    requires Begins(z)
    ensures NoStarters(z.m) <==>
            forall zs, es :: Closing(zs, es) && zs[0] == z && Over(zs[|es|]) ==> AllStopped(z, zs[|es|])
  {
    if NoStarters(z.m) {
      forall zs, es | Closing(zs, es) && zs[0] == z && Over(zs[|es|]) ensures AllStopped(z, zs[|es|]) {
        CourseAlong(zs, es, |es|);
        OverIsStopped(z, zs[|es|]);
      }
    } else {
      var v :| ML.CanStart(z.m, v);
      var t := StartsAfterwards(z, v, false);
      var zs: seq<State>, es: seq<Event> :| Closing(zs, es) && zs[0] == z && zs[|es|] == t;
      var i :| i in t.m.fate && t.m.fate[i].Registered?;
      assert !Settled(z, t, i);
    }
  }

  // ---------- And if every stop works, all of them are gone ----------

  /** No stop fails here. */
  predicate Works(e: Event) {
    e != ContainerStopped(false) && !(e.Manage? && e.me.ContainerStopped? && !e.me.ok)
  }

  /** No container is forgotten, and none becomes one whose stop has failed. */
  ghost predicate NoneFailed(m: M.State, n: M.State) {
    forall i :: i in m.fate ==> i in n.fate && (n.fate[i] == M.StopFailed ==> m.fate[i] == M.StopFailed)
  }

  lemma NoneFailedByStop(s: M.State, v: nat)
    requires v in s.invs && M.NextContainerStopped(s, v, true).Some?
    ensures NoneFailed(s, M.NextContainerStopped(s, v, true).value)
  {
    MC.StoppedFacts(s, v, true);
  }

  lemma NoneFailedByPop(s: M.State, v: nat, inst: nat, server: Option<nat>)
    requires v in s.invs
    ensures NoneFailed(s, M.PopOld(s, v)) && NoneFailed(s, M.PopFailed(s, v, inst, server))
  {
  }

  lemma NoneFailedByMove(s: M.State, e: M.Event, t: M.State)
    requires M.Next(s, e) == Some(t) && !(e.ContainerStopped? && !e.ok)
    ensures NoneFailed(s, t)
  {
    match e
    case ContainerStopped(v, _) => NoneFailedByStop(s, v);
    case Unhealthy(v) => if s.invs[v].capsule !in s.servers { NoneFailedByPop(s, v, 0, None); }
    case BrokerStopped(v) =>
      if s.invs[v].phase.StoppingOldBroker? { NoneFailedByPop(s, v, 0, None); }
      else { NoneFailedByPop(s, v, s.invs[v].phase.inst, s.invs[v].phase.server); }
    case Broke(v) =>
      if s.invs[v].capsule !in s.servers { NoneFailedByPop(s, v, s.invs[v].phase.inst, s.invs[v].phase.server); }
    case _ =>
  }

  lemma NoneFailedAt(z: State, e: Event, t: State)
    requires Next(z, e) == Some(t) && Works(e)
    ensures NoneFailed(z.m, t.m)
  {
    if e.Manage? { NoneFailedByMove(z.m, e.me, t.m); }
  }

  lemma {:induction false} NoneFailedAlong(zs: seq<State>, es: seq<Event>, i: nat)
    requires Closing(zs, es) && i <= |es| && forall k :: 0 <= k < |es| ==> Works(es[k])
    ensures NoneFailed(zs[0].m, zs[i].m)
  {
    if i > 0 {
      NoneFailedAlong(zs, es, i - 1);
      assert Next(zs[i - 1], es[i - 1]) == Some(zs[i]);
      NoneFailedAt(zs[i - 1], es[i - 1], zs[i]);
    }
  }

  /** When no stop fails after the snapshot, every container that was registered or being stopped then
      has been stopped in the end, and nothing else has become of it. */
  lemma AllGoneIfStopsWork(zs: seq<State>, es: seq<Event>, c: nat)
    requires Closing(zs, es) && Begins(zs[0]) && NoStarters(zs[0].m) && Over(zs[|es|])
    requires forall k :: 0 <= k < |es| ==>
               es[k] != ContainerStopped(false) && !(es[k].Manage? && es[k].me.ContainerStopped? && !es[k].me.ok)
    requires c in zs[0].m.fate && (zs[0].m.fate[c].Registered? || zs[0].m.fate[c].Stopping?)
    ensures c in zs[|es|].m.fate && zs[|es|].m.fate[c] == M.Gone
  {
    CourseAlong(zs, es, |es|);
    OverIsStopped(zs[0], zs[|es|]);
    NoneFailedAlong(zs, es, |es|);
    assert Settled(zs[0], zs[|es|], c);
  }

  // ---------- The brokers ----------

  /** No invocation can come to register a broker. */
  ghost predicate NoListeners(m: M.State) {
    NoStarters(m) && forall v :: v in m.invs ==> !m.invs[v].phase.StartingBroker?
  }

  /** The capsules whose brokers the sweep has still to take. */
  function Untaken(w: Sweep): set<string> {
    if w.StoppingServer? then w.left else Ahead(w)
  }

  /** Every registered broker is still to be visited. */
  ghost predicate ServersAhead(z: State) {
    NoListeners(z.m) && !z.sweep.NotYet? && (!z.sweep.Aborted? ==> z.m.servers.Keys <= Untaken(z.sweep))
  }

  predicate NoNewServer(s: M.State, t: M.State) {
    forall c :: c in t.servers ==> c in s.servers
  }

  /** Nothing new is registered, and the invocation is not starting a broker. */
  predicate Shrinks(s: M.State, t: M.State, v: nat) {
    NoNewServer(s, t) && v in t.invs && !t.invs[v].phase.StartingBroker?
  }

  lemma PopsShrink(s: M.State, v: nat, inst: nat, server: Option<nat>)
    requires v in s.invs
    ensures Shrinks(s, M.PopOld(s, v), v) && Shrinks(s, M.PopFailed(s, v, inst, server), v)
  {
  }

  lemma HealthShrinks(s: M.State, v: nat, ok: bool)
    requires v in s.invs && s.invs[v].phase.CheckingHealth?
    ensures Shrinks(s, M.NextHealth(s, v, ok), v)
  {
    if !ok { PopsShrink(s, v, 0, None); }
  }

  lemma BrokeShrinks(s: M.State, v: nat)
    requires v in s.invs && s.invs[v].phase.Running?
    ensures Shrinks(s, M.NextBroke(s, v), v)
  {
    PopsShrink(s, v, s.invs[v].phase.inst, s.invs[v].phase.server);
  }

  /** Only a broker's start registers one, and only a container's start leads to it. */
  lemma ServersShrink(s: M.State, e: M.Event, t: M.State)
    requires M.Next(s, e) == Some(t) && !e.Invoke? && !e.BrokerStarted? && !e.Started?
    ensures Shrinks(s, t, e.v)
  {
    match e
    case Healthy(v) => HealthShrinks(s, v, true);
    case Unhealthy(v) => HealthShrinks(s, v, false);
    case BrokerStopped(v) =>
      if s.invs[v].phase.StoppingOldBroker? { PopsShrink(s, v, 0, None); }
      else { PopsShrink(s, v, s.invs[v].phase.inst, s.invs[v].phase.server); }
    case Broke(v) => BrokeShrinks(s, v);
    case _ => QuietlyShrinks(s, e, t);
  }

  lemma QuietlyShrinks(s: M.State, e: M.Event, t: M.State)
    requires M.Next(s, e) == Some(t) && (e.ContainerStopped? || e.StartFailed? || e.Acquire? || e.Returned?)
    ensures Shrinks(s, t, e.v)
  {
  }

  lemma ServersManage(z: State, e: Event, t: State)
    requires ServersAhead(z) && e.Manage? && !e.me.Invoke? && Next(z, e) == Some(t)
    ensures ServersAhead(t)
  {
    NoStartersStep(z.m, e.me, t.m);
    ML.StepMoves(z.m, e.me, t.m);
    assert !ML.CanStart(z.m, e.me.v);
    ServersShrink(z.m, e.me, t.m);
  }

  lemma ServersSweep(z: State, e: Event, t: State)
    requires ServersAhead(z) && !e.Manage? && Next(z, e) == Some(t)
    ensures ServersAhead(t)
  {
    SameInvocations(z.m, t.m);
  }

  lemma ServersAt(zs: seq<State>, es: seq<Event>, i: nat)
    requires Closing(zs, es) && i < |es| && ServersAhead(zs[i])
    ensures ServersAhead(zs[i + 1])
  {
    assert Next(zs[i], es[i]) == Some(zs[i + 1]) && !(es[i].Manage? && es[i].me.Invoke?);
    if es[i].Manage? { ServersManage(zs[i], es[i], zs[i + 1]); } else { ServersSweep(zs[i], es[i], zs[i + 1]); }
  }

  lemma {:induction false} ServersAlong(zs: seq<State>, es: seq<Event>, i: nat)
    requires Closing(zs, es) && i <= |es| && ServersAhead(zs[0])
    ensures ServersAhead(zs[i])
  {
    if i > 0 {
      ServersAlong(zs, es, i - 1);
      ServersAt(zs, es, i - 1);
    }
  }

  /** An invocation whose broker is starting registers it after the sweep. */
  lemma ListensAfterwards(z: State, v: nat) returns (t: State)
    requires z.sweep.Choosing? && v in z.m.invs && z.m.invs[v].phase.StartingBroker?
    ensures Path(z, t) && Over(t) && t.m.servers != map[]
  {
    t := ClearTheWay(z, v);
    ML.PathHere(t.m);
    var m := BrokerThenOver(t.m, t.m, v, true);
    t := LiftPath(z, t, m);
    OverIfAlone(t, v);
  }

  /** A registered broker without a registered instance is not visited. */
  lemma StrayStays(z: State, c: string) returns (t: State)
    requires z.sweep.Choosing? && NoStarters(z.m) && c in z.m.servers && c !in z.sweep.left
    ensures Path(z, t) && Over(t) && t.m.servers != map[]
  {
    var v := Above(z.m.invs.Keys);
    assert v !in z.m.invs;
    t := ClearTheWay(z, v);
    OverIfAlone(t, v);
  }

  /** The exact condition for the brokers: none is left registered, and so listening, if and only if
      at the snapshot no invocation in flight can come to register one, be it by a broker that is just
      starting, and every registered broker has a registered instance. */
  lemma SweepStopsBrokersExactly(z: State)
    requires Begins(z)
    ensures NoListeners(z.m) && z.m.servers.Keys <= z.m.instances.Keys <==>
            forall zs: seq<State>, es: seq<Event> :: Closing(zs, es) && zs[0] == z && Over(zs[|es|]) ==>
              zs[|es|].m.servers == map[]
  {
    if NoListeners(z.m) && z.m.servers.Keys <= z.m.instances.Keys {
      forall zs: seq<State>, es: seq<Event> | Closing(zs, es) && zs[0] == z && Over(zs[|es|])
        ensures zs[|es|].m.servers == map[]
      {
        ServersAlong(zs, es, |es|);
      }
    } else {
      var t := SomeBrokerStays(z);
      var zs: seq<State>, es: seq<Event> :| Closing(zs, es) && zs[0] == z && zs[|es|] == t;
    }
  }

  lemma SomeBrokerStays(z: State) returns (t: State)
    requires Begins(z) && !(NoListeners(z.m) && z.m.servers.Keys <= z.m.instances.Keys)
    ensures Path(z, t) && Over(t) && t.m.servers != map[]
  {
    if v :| ML.CanStart(z.m, v) {
      t := StartsAfterwards(z, v, true);
    } else if v :| v in z.m.invs && z.m.invs[v].phase.StartingBroker? {
      t := ListensAfterwards(z, v);
    } else {
      var c :| c in z.m.servers && c !in z.m.instances;
      t := StrayStays(z, c);
    }
  }
}
