/** Timeouts firing on schedule: how long a brokered call and its operation can last, and that the
  schedule never keeps the clock from going on.

  Waiting for the host, waiting for a credential and executing an operation have their timeouts;
  every other segment takes at most d, among them the sending that comes before each of the two
  waits.  A call waiting to insert its lease may be held up one
  instant longer by each lease issued meanwhile, because no two are issued at one instant.
 */
module SystemTime {
  import opened Options
  import opened LeaseTable
  import opened LeaseRules
  import opened BrokerStages
  import opened RuntimeSystem
  import L = LeaseMachine
  import LP = LeasePaths

  const APPROVAL_TIMEOUT: int := 300 * SECOND
  const RESOLVE_TIMEOUT: int := 30 * SECOND
  const PROVIDER_TIMEOUT: int := 15 * SECOND

  /** Positions of the leases issued in a span of time. */
  ghost function IssuedIn(rows: seq<Lease>, from: int, to: int): set<int> {
    set i | 0 <= i < |rows| && from <= rows[i].issuedAt < to
  }

  ghost function IssuedSince(rows: seq<Lease>, from: int): set<int> {
    set i | 0 <= i < |rows| && from <= rows[i].issuedAt
  }

  lemma Fewer(a: set<int>, b: set<int>)
    requires a <= b
    ensures |a| <= |b|
  {
    assert b == a + (b - a);
  }

  lemma IssuedGrows(a: seq<Lease>, b: seq<Lease>, from: int, to: int)
    requires Evolves(a, b)
    ensures |IssuedIn(a, from, to)| <= |IssuedIn(b, from, to)| && |IssuedSince(a, from)| <= |IssuedSince(b, from)|
  {
    forall i | 0 <= i < |a| ensures a[i].issuedAt == b[i].issuedAt { assert RowEvolves(a[i], b[i]); }
    Fewer(IssuedIn(a, from, to), IssuedIn(b, from, to));
    Fewer(IssuedSince(a, from), IssuedSince(b, from));
  }

  /** The call may still be where it is at this time. */
  ghost predicate Due(s: State, j: nat, at: int, d: nat)
    requires j in s.jobs
  {
    var job := s.jobs[j];
    match job.progress
    case Leasing => j in s.l.calls ==> DueLeasing(s.l.rows, s.l.calls[j].pc, job.since, at, d)
    case Resolving => at <= job.since + d + RESOLVE_TIMEOUT
    case Executing => at <= job.since + PROVIDER_TIMEOUT
    case _ => true
  }

  ghost predicate DueLeasing(rows: seq<Lease>, pc: L.Pc, since: int, at: int, d: nat) {
    match pc
    case Awaiting => at <= since + d + APPROVAL_TIMEOUT
    case Approved(_) => at <= since + d + |IssuedIn(rows, since, at)|
    case _ => at <= since + d
  }

  ghost predicate Timely(s: State, d: nat) {
    forall j :: j in s.jobs ==> Due(s, j, s.l.now, d)
  }

  ghost predicate OnSchedule(ss: seq<State>, d: nat) {
    forall i :: 0 <= i < |ss| ==> Timely(ss[i], d)
  }

  // ---------- How long things last ----------

  /** The latest time, after its arrival, at which a call can have come to where it is. */
  ghost function LatestEntry(s: State, j: nat, d: nat): int
    requires j in s.jobs
  {
    var job := s.jobs[j];
    job.arrived + match job.progress
      case Leasing =>
        (if j !in s.l.calls then 0
         else match s.l.calls[j].pc
              case Looked(_) => 0
              case Marked => d
              case Checking(_) => 2 * d
              case Awaiting => 3 * d
              case _ => 4 * d + APPROVAL_TIMEOUT)
      case Resolving => 5 * d + APPROVAL_TIMEOUT + |IssuedSince(s.l.rows, job.arrived)|
      case _ => 6 * d + APPROVAL_TIMEOUT + RESOLVE_TIMEOUT + |IssuedSince(s.l.rows, job.arrived)|
  }

  predicate UnderWay(job: Job) {
    job.progress.Leasing? || job.progress.Resolving? || job.progress.Executing?
  }

  ghost predicate TimeOk(s: State, j: nat, d: nat)
    requires j in s.jobs
  {
    var job := s.jobs[j];
    && (UnderWay(job) ==> job.since <= LatestEntry(s, j, d))
    && (job.progress.Executing? && |job.stages| >= 2 && job.stages[1].LeaseHeld? ==>
          job.since < job.stages[1].lease.expiresAt + d + RESOLVE_TIMEOUT)
  }

  lemma TimeKept(s: State, e: Event, t: State, j: nat, d: nat)
    requires Next(s, e) == Some(t) && j in s.jobs && j in t.jobs && t.jobs[j] == s.jobs[j] && TimeOk(s, j, d)
    requires s.jobs[j].progress.Leasing? ==> j in s.l.calls && j in t.l.calls && t.l.calls[j] == s.l.calls[j]
    requires Evolves(s.l.rows, t.l.rows) && s.l.now <= t.l.now
    ensures TimeOk(t, j, d)
  {
    IssuedGrows(s.l.rows, t.l.rows, s.jobs[j].arrived, t.l.now);
  }

  lemma TimeArrive(s: State, e: Event, t: State, d: nat)
    requires e.Arrive? && Next(s, e) == Some(t)
    ensures TimeOk(t, e.j, d)
  {
  }

  /** The request has gone from one place to the next. */
  lemma PcMoves(s: L.State, e: L.Event, t: L.State, j: nat)
    requires L.Next(s, e) == Some(t) && Concerns(e, j) && j in s.calls && j in t.calls && !L.Finished(s.calls[j].pc)
    ensures t.now == s.now && Evolves(s.rows, t.rows)
    ensures match t.calls[j].pc
            case Looked(_) => false
            case Marked => s.calls[j].pc.Looked?
            case Checking(_) => s.calls[j].pc.Looked? || s.calls[j].pc.Marked?
            case Awaiting => s.calls[j].pc.Checking?
            case Approved(_) => s.calls[j].pc.Awaiting?
            case Returned(_, _) => s.calls[j].pc.Approved? || s.calls[j].pc.Looked?
            case Failed(_) => true
  {
    L.RowsShape(s, e, t);
  }

  lemma TimeAdvance(s: State, e: Event, t: State, d: nat)
    requires e.Advance? && Next(s, e) == Some(t) && e.j in s.l.calls && !L.Finished(s.l.calls[e.j].pc)
    requires TimeOk(s, e.j, d) && Due(s, e.j, s.l.now, d) && s.jobs[e.j].arrived <= s.jobs[e.j].since
    ensures TimeOk(t, e.j, d)
  {
    var job := s.jobs[e.j];
    PcMoves(s.l, e.je, t.l, e.j);
    IssuedGrows(s.l.rows, t.l.rows, job.arrived, s.l.now);
    Fewer(IssuedIn(s.l.rows, job.since, s.l.now), IssuedSince(s.l.rows, job.arrived));
  }

  lemma TimeEnd(s: State, e: Event, t: State, d: nat)
    requires (e.Resolve? || e.Finish?) && Next(s, e) == Some(t) && TimeOk(s, e.j, d) && Due(s, e.j, s.l.now, d)
    requires s.jobs[e.j].progress.Resolving? ==>
               |s.jobs[e.j].stages| == 2 && s.jobs[e.j].stages[1].LeaseHeld?
               && s.jobs[e.j].since < s.jobs[e.j].stages[1].lease.expiresAt
    ensures TimeOk(t, e.j, d)
  {
  }

  predicate Own(e: Event, j: nat) {
    match e
    case Advance(k, _) => k == j
    case Resolve(k, _) => k == j
    case Finish(k, _) => k == j
    case Arrive(k, _, _) => k == j
    case _ => false
  }

  lemma JobKeptBy(s: State, e: Event, t: State, j: nat)
    requires Next(s, e) == Some(t) && !Own(e, j)
    ensures j in s.jobs <==> j in t.jobs
    ensures j in s.jobs ==> t.jobs[j] == s.jobs[j]
  {
  }

  lemma TimeStep(s: State, e: Event, t: State, j: nat, d: nat)
    requires Inv(s) && Next(s, e) == Some(t) && Timely(s, d) && j in t.jobs && (j in s.jobs ==> TimeOk(s, j, d))
    ensures TimeOk(t, j, d)
  {
    LeasesMove(s, e, t);
    if !Own(e, j) {
      JobKeptBy(s, e, t, j);
      assert JobOk(s, j, s.jobs[j]);
      if s.jobs[j].progress.Leasing? { CallKept(s, e, t, j); }
      TimeKept(s, e, t, j, d);
    } else if e.Arrive? {
      TimeArrive(s, e, t, d);
    } else if e.Advance? {
      assert JobOk(s, j, s.jobs[j]);
      TimeAdvance(s, e, t, d);
    } else {
      assert JobOk(s, j, s.jobs[j]);
      TimeEnd(s, e, t, d);
    }
  }

  lemma {:induction false} TimeAlways(ss: seq<State>, es: seq<Event>, i: nat, j: nat, d: nat)
    requires Trace(ss, es) && Init(ss[0]) && OnSchedule(ss, d) && i <= |es| && j in ss[i].jobs
    ensures TimeOk(ss[i], j, d)
  {
    if i > 0 {
      if j in ss[i - 1].jobs { TimeAlways(ss, es, i - 1, j, d); }
      InvAlways(ss, es, i - 1);
      assert Next(ss[i - 1], es[i - 1]) == Some(ss[i]);
      TimeStep(ss[i - 1], es[i - 1], ss[i], j, d);
    }
  }

  /** On schedule, a call under way is at most 300 + 30 + 15 seconds and six segments past its
      arrival, and one instant more for each lease issued since; as long as these extras fit into 15
      seconds, the 360 seconds its caller waits cover it. */
  lemma CallsEndInTime(ss: seq<State>, es: seq<Event>, i: nat, j: nat, d: nat)
    requires Trace(ss, es) && Init(ss[0]) && OnSchedule(ss, d) && i <= |es|
    requires j in ss[i].jobs && UnderWay(ss[i].jobs[j])
    ensures var s, job := ss[i], ss[i].jobs[j];
            var extra := 6 * d + |IssuedSince(s.l.rows, job.arrived)|;
            && s.l.now <= job.arrived + 345_000_000 + extra
            && (extra <= 15_000_000 ==> s.l.now <= job.arrived + 360_000_000)
  {
    TimeAlways(ss, es, i, j, d);
    InvAlways(ss, es, i);
    assert JobOk(ss[i], j, ss[i].jobs[j]);
    InTimeNow(ss[i], j, d);
  }

  lemma InTimeNow(s: State, j: nat, d: nat)
    requires j in s.jobs && TimeOk(s, j, d) && Due(s, j, s.l.now, d) && UnderWay(s.jobs[j])
    requires s.jobs[j].arrived <= s.jobs[j].since
    requires s.jobs[j].progress.Leasing? ==> j in s.l.calls
    ensures s.l.now <= s.jobs[j].arrived + (300 + 30 + 15) * SECOND + 6 * d + |IssuedSince(s.l.rows, s.jobs[j].arrived)|
  {
    Fewer(IssuedIn(s.l.rows, s.jobs[j].since, s.l.now), IssuedSince(s.l.rows, s.jobs[j].arrived));
  }

  /** On schedule, a provider operation under way is less than 45 seconds and one segment past its
      lease's expiry, and less than 1845 seconds and one segment past its issue. */
  lemma OperationsEndInTime(ss: seq<State>, es: seq<Event>, i: nat, j: nat, d: nat)
    requires Trace(ss, es) && Init(ss[0]) && OnSchedule(ss, d) && i <= |es|
    requires j in ss[i].jobs && ss[i].jobs[j].progress.Executing?
    ensures |ss[i].jobs[j].stages| >= 2 && ss[i].jobs[j].stages[1].LeaseHeld?
    ensures var lease := ss[i].jobs[j].stages[1].lease;
            ss[i].l.now < lease.expiresAt + 45_000_000 + d && ss[i].l.now < lease.issuedAt + 1_845_000_000 + d
  {
    TimeAlways(ss, es, i, j, d);
    InvAlways(ss, es, i);
    var s, job := ss[i], ss[i].jobs[j];
    assert JobOk(s, j, job) && Due(s, j, s.l.now, d);
    var lease := job.stages[1].lease;
    var k :| 0 <= k < |s.l.rows| && RowEvolves(lease, s.l.rows[k]);
    assert L.LegalLife(s.l.rows[k]);
  }

  // ---------- The clock is never kept from going on ----------

  ghost predicate Continues(s: State, t: State, d: nat) {
    exists ss, es :: Trace(ss, es) && OnSchedule(ss, d) && ss[0] == s && ss[|es|] == t
  }

  lemma ContinueWith(s: State, t: State, d: nat, e: Event) returns (u: State)
    requires Continues(s, t, d) && Next(t, e).Some? && Timely(Next(t, e).value, d)
    ensures Next(t, e) == Some(u) && Continues(s, u, d)
  {
    u := Next(t, e).value;
    var ss, es :| Trace(ss, es) && OnSchedule(ss, d) && ss[0] == s && ss[|es|] == t;
    var ss', es' := ss + [u], es + [e];
    forall i | 0 <= i < |es'| ensures Next(ss'[i], es'[i]) == Some(ss'[i + 1]) {
      if i < |es| { assert es'[i] == es[i] && ss'[i] == ss[i] && ss'[i + 1] == ss[i + 1]; }
    }
    assert Trace(ss', es') && OnSchedule(ss', d) && ss'[0] == s && ss'[|es'|] == u;
  }

  lemma ContinuesKeeps(s: State, t: State, d: nat)
    requires Continues(s, t, d) && Inv(s)
    ensures Inv(t) && Timely(t, d)
  {
    var ss, es :| Trace(ss, es) && OnSchedule(ss, d) && ss[0] == s && ss[|es|] == t;
    TraceKeepsInv(ss, es, |es|);
  }

  lemma {:induction false} TraceKeepsInv(ss: seq<State>, es: seq<Event>, i: nat)
    requires Trace(ss, es) && Inv(ss[0]) && i <= |es|
    ensures Inv(ss[i])
  {
    if i > 0 {
      TraceKeepsInv(ss, es, i - 1);
      assert Next(ss[i - 1], es[i - 1]) == Some(ss[i]);
      InvStep(ss[i - 1], es[i - 1], ss[i]);
    }
  }

  /** Calls that cannot stay where they are for one instant more. */
  ghost function Pressed(s: State, d: nat): set<nat> {
    set j | j in s.jobs && !Due(s, j, s.l.now + 1, d)
  }

  lemma DueEvolves(s: State, t: State, k: nat, at: int, d: nat)
    requires k in s.jobs && k in t.jobs && t.jobs[k] == s.jobs[k] && Evolves(s.l.rows, t.l.rows)
    requires s.jobs[k].progress.Leasing? ==> k in s.l.calls && k in t.l.calls && t.l.calls[k] == s.l.calls[k]
    ensures Due(s, k, at, d) ==> Due(t, k, at, d)
  {
    IssuedGrows(s.l.rows, t.l.rows, s.jobs[k].since, at);
  }

  /** Another call's move presses nobody. */
  lemma OthersDue(s: State, e: Event, t: State, k: nat, at: int, d: nat)
    requires Inv(s) && Next(s, e) == Some(t) && !Own(e, k) && k in t.jobs
    ensures k in s.jobs && (Due(s, k, at, d) ==> Due(t, k, at, d))
  {
    LeasesMove(s, e, t);
    JobKeptBy(s, e, t, k);
    assert JobOk(s, k, s.jobs[k]);
    if s.jobs[k].progress.Leasing? { CallKept(s, e, t, k); }
    DueEvolves(s, t, k, at, d);
  }

  predicate Moves(e: Event, j: nat) {
    Own(e, j) && !e.Arrive?
  }

  lemma TimelyAfter(s: State, e: Event, t: State, d: nat, j: nat)
    requires Inv(s) && Timely(s, d) && Moves(e, j) && Next(s, e) == Some(t) && t.l.now == s.l.now
    requires j in t.jobs && Due(t, j, s.l.now, d)
    ensures Timely(t, d)
  {
    forall k | k in t.jobs ensures Due(t, k, t.l.now, d) {
      if k != j { OthersDue(s, e, t, k, s.l.now, d); }
    }
  }

  lemma PressedBefore(s: State, e: Event, t: State, d: nat, k: nat)
    requires Inv(s) && Next(s, e) == Some(t) && !Own(e, k) && t.l.now == s.l.now && k in Pressed(t, d)
    ensures k in Pressed(s, d)
  {
    OthersDue(s, e, t, k, s.l.now + 1, d);
  }

  lemma PressedAfter(s: State, e: Event, t: State, d: nat, j: nat)
    requires Inv(s) && Moves(e, j) && Next(s, e) == Some(t) && t.l.now == s.l.now
    ensures Pressed(t, d) <= Pressed(s, d) + {j}
  {
    forall k | k in Pressed(t, d) && k != j ensures k in Pressed(s, d) { PressedBefore(s, e, t, d, k); }
  }

  /** One call moves, on schedule; nobody else is pressed by it. */
  lemma MoveCall(s0: State, s: State, d: nat, j: nat, e: Event) returns (t: State)
    requires Continues(s0, s, d) && Inv(s0) && j in s.jobs && Moves(e, j) && Next(s, e).Some?
    requires var u := Next(s, e).value; j in u.jobs && Due(u, j, s.l.now, d)
    ensures Next(s, e) == Some(t) && Continues(s0, t, d) && t.l.now == s.l.now
    ensures Pressed(t, d) <= Pressed(s, d) + {j}
  {
    var u := Next(s, e).value;
    ContinuesKeeps(s0, s, d);
    LeasesMove(s, e, u);
    TimelyAfter(s, e, u, d, j);
    PressedAfter(s, e, u, d, j);
    t := ContinueWith(s0, s, d, e);
  }

  /** Segments the call has before it can wait. */
  function Ahead(s: State, j: nat): nat
    requires j in s.jobs
  {
    if !s.jobs[j].progress.Leasing? || j !in s.l.calls then 0
    else match s.l.calls[j].pc
         case Looked(_) => 3
         case Marked => 2
         case Checking(_) => 1
         case _ => 0
  }

  /** A move the call can make at once, after which it is due later or nearer to a wait. */
  ghost predicate Relieves(s: State, j: nat, e: Event, d: nat)
    requires j in s.jobs
  {
    Moves(e, j) && Next(s, e).Some? &&
    var u := Next(s, e).value;
    j in u.jobs && Due(u, j, s.l.now, d) && (Due(u, j, s.l.now + 1, d) || Ahead(u, j) < Ahead(s, j))
  }

  lemma ReadOn(s: State, j: nat, d: nat)
    requires j in s.jobs && s.jobs[j].progress.Leasing? && j in s.l.calls && Ahead(s, j) > 0
    ensures Relieves(s, j, Advance(j, L.Resume(j)), d)
  {
  }

  lemma StopWaiting(s: State, j: nat, d: nat)
    requires j in s.jobs && s.jobs[j].progress.Leasing? && j in s.l.calls && s.l.calls[j].pc.Awaiting?
    ensures Relieves(s, j, Advance(j, L.Reject(j)), d)
  {
  }

  /** A call pressed to insert finds that no lease has been issued at this instant. */
  lemma PressedToInsert(rows: seq<Lease>, since: int, now: int, d: nat, i: nat)
    requires since <= now <= since + d + |IssuedIn(rows, since, now)|
    requires i < |rows| && rows[i].issuedAt == now
    ensures now + 1 <= since + d + |IssuedIn(rows, since, now + 1)|
  {
    var before, after := IssuedIn(rows, since, now), IssuedIn(rows, since, now + 1);
    assert i in after && i !in before && before <= after;
    Fewer(before + {i}, after);
  }

  lemma InsertNow(s: State, j: nat, d: nat)
    requires L.RowsOk(s.l) && j in s.jobs && s.jobs[j].progress.Leasing? && j in s.l.calls && s.l.calls[j].pc.Approved?
    requires Due(s, j, s.l.now, d) && !Due(s, j, s.l.now + 1, d) && s.jobs[j].since <= s.l.now
    ensures Relieves(s, j, Advance(j, L.Issue(j, LP.UnusedId(s.l.rows))), d)
  {
    forall i | 0 <= i < |s.l.rows| ensures s.l.rows[i].issuedAt < s.l.now {
      if s.l.rows[i].issuedAt == s.l.now { PressedToInsert(s.l.rows, s.jobs[j].since, s.l.now, d, i); }
    }
  }

  lemma SomeMove(s: State, j: nat, d: nat) returns (e: Event)
    requires Inv(s) && Timely(s, d) && j in Pressed(s, d)
    ensures Relieves(s, j, e, d)
  {
    assert JobOk(s, j, s.jobs[j]) && Due(s, j, s.l.now, d);
    if s.jobs[j].progress.Leasing? {
      e := LeasingMove(s, j, d);
    } else {
      e := EndingMove(s, j, d);
    }
  }

  lemma EndingMove(s: State, j: nat, d: nat) returns (e: Event)
    requires j in s.jobs && (s.jobs[j].progress.Resolving? || s.jobs[j].progress.Executing?)
    requires s.jobs[j].progress.Resolving? ==> |s.jobs[j].stages| > 0 && s.jobs[j].stages[0].PolicyPassed?
    ensures Relieves(s, j, e, d)
  {
    e := if s.jobs[j].progress.Resolving? then Resolve(j, false) else Finish(j, None);
  }

  lemma LeasingMove(s: State, j: nat, d: nat) returns (e: Event)
    requires L.RowsOk(s.l) && j in s.jobs && s.jobs[j].progress.Leasing? && s.jobs[j].since <= s.l.now
    requires j in s.l.calls && !L.Finished(s.l.calls[j].pc) && Due(s, j, s.l.now, d) && !Due(s, j, s.l.now + 1, d)
    ensures Relieves(s, j, e, d)
  {
    match s.l.calls[j].pc {
      case Awaiting =>
        StopWaiting(s, j, d);
        e := Advance(j, L.Reject(j));
      case Approved(_) =>
        InsertNow(s, j, d);
        e := Advance(j, L.Issue(j, LP.UnusedId(s.l.rows)));
      case _ =>
        ReadOn(s, j, d);
        e := Advance(j, L.Resume(j));
    }
  }

  lemma MoveFor(s0: State, s: State, d: nat, j: nat) returns (e: Event)
    requires Continues(s0, s, d) && Inv(s0) && j in Pressed(s, d)
    ensures Relieves(s, j, e, d)
  {
    ContinuesKeeps(s0, s, d);
    e := SomeMove(s, j, d);
  }

  /** A pressed call moves until it is pressed no more, in no time. */
  lemma {:induction false} Relieve(s0: State, s: State, d: nat, j: nat) returns (t: State)
    requires Continues(s0, s, d) && Inv(s0) && j in Pressed(s, d)
    ensures Continues(s0, t, d) && t.l.now == s.l.now
    ensures Pressed(t, d) <= Pressed(s, d) - {j}
    decreases Ahead(s, j)
  {
    var e := MoveFor(s0, s, d, j);
    t := MoveCall(s0, s, d, j, e);
    if j in Pressed(t, d) { t := Relieve(s0, t, d, j); }
  }

  lemma {:induction false} RelieveAll(s0: State, s: State, d: nat) returns (t: State)
    requires Continues(s0, s, d) && Inv(s0)
    ensures Continues(s0, t, d) && t.l.now == s.l.now && Pressed(t, d) == {}
    decreases |Pressed(s, d)|
  {
    t := s;
    if Pressed(s, d) != {} {
      var j :| j in Pressed(s, d);
      t := Relieve(s0, s, d, j);
      Fewer(Pressed(t, d), Pressed(s, d) - {j});
      t := RelieveAll(s0, t, d);
    }
  }

  lemma TickOn(s0: State, s: State, d: nat) returns (t: State)
    requires Continues(s0, s, d) && Inv(s0) && Pressed(s, d) == {}
    ensures Continues(s0, t, d) && t.l.now == s.l.now + 1
  {
    var e := Elsewhere(L.Tick(s.l.now + 1));
    var u := Next(s, e).value;
    forall j | j in u.jobs ensures Due(u, j, u.l.now, d) { assert j !in Pressed(s, d); }
    t := ContinueWith(s0, s, d, e);
  }

  /** From every timely state of every run, whatever d is, the clock can get past any time, on
      schedule: no deadline ever waits for something that cannot happen. */
  lemma {:induction false} ClockGoesOn(s0: State, s: State, d: nat, past: int) returns (t: State)
    requires Continues(s0, s, d) && Inv(s0)
    ensures Continues(s0, t, d) && past < t.l.now
    decreases past - s.l.now
  {
    t := RelieveAll(s0, s, d);
    t := TickOn(s0, t, d);
    if t.l.now <= past { t := ClockGoesOn(s0, t, d, past); }
  }

  /** Every on-schedule run can go on past any time. */
  lemma ScheduleNeverStuck(ss: seq<State>, es: seq<Event>, d: nat, past: int) returns (t: State)
    requires Trace(ss, es) && Init(ss[0]) && OnSchedule(ss, d)
    ensures Continues(ss[|es|], t, d) && past < t.l.now
  {
    var s := ss[|es|];
    InvAlways(ss, es, |es|);
    assert Trace([s], []) && OnSchedule([s], d) && [s][0] == s;
    t := ClockGoesOn(s, s, d, past);
  }
}
