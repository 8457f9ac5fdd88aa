/** Ways for the run to go on in which a given request gets as far as it can. */
module LeasePaths {
  import opened Options
  import opened LeaseTable
  import opened LeaseRules
  import opened LeaseMachine
  import opened LeaseInvariant

  /** The event is a tick, a revocation, or the move of one of these calls. */
  ghost predicate Only(e: Event, cs: set<nat>) {
    match e
    case Tick(_) => true
    case Revoke(_) => true
    case RevokeAll(_) => false
    case Begin(c, _) => c in cs
    case Resume(c) => c in cs
    case Allow(c) => c in cs
    case Reject(c) => c in cs
    case Issue(c, _) => c in cs
  }

  /** The calls get from s to t by themselves. */
  ghost predicate Path(s: State, t: State, cs: set<nat>) {
    exists ss, es :: Leads(s, ss, es, t) && forall i :: 0 <= i < |es| ==> Only(es[i], cs)
  }

  lemma PathHere(s: State, cs: set<nat>)
    ensures Path(s, s, cs)
  {
    assert Leads(s, [s], [], s);
  }

  lemma Step(s: State, t: State, cs: set<nat>, e: Event) returns (u: State)
    requires Path(s, t, cs) && Only(e, cs) && Next(t, e).Some?
    ensures Next(t, e) == Some(u) && Path(s, u, cs)
  {
    u := Next(t, e).value;
    var ss, es :| Leads(s, ss, es, t) && forall i :: 0 <= i < |es| ==> Only(es[i], cs);
    TraceExtends(ss, es, e, u);
    assert Leads(s, ss + [u], es + [e], u);
  }

  lemma PathKeepsInv(s: State, t: State, cs: set<nat>)
    requires Path(s, t, cs) && Inv(s)
    ensures Inv(t)
  {
    var ss, es :| Leads(s, ss, es, t) && forall i :: 0 <= i < |es| ==> Only(es[i], cs);
    TraceKeepsInv(ss, es, |es|);
  }

  lemma {:induction false} TraceKeepsInv(ss: seq<State>, es: seq<Event>, i: nat)
    requires Trace(ss, es) && Inv(ss[0]) && i <= |es|
    ensures Inv(ss[i])
  {
    if i > 0 {
      TraceKeepsInv(ss, es, i - 1);
      assert Next(ss[i - 1], es[i - 1]) == Some(ss[i]);
      InvStep(ss[i - 1], es[i - 1], ss[i]);
    }
  }

  lemma Wait(s: State, t: State, cs: set<nat>, to: int) returns (u: State)
    requires Path(s, t, cs) && t.now <= to
    ensures u == t.(now := to) && Path(s, u, cs)
  {
    u := Step(s, t, cs, Tick(to));
  }

  function LongestId(rows: seq<Lease>): (n: nat)
    ensures forall i :: 0 <= i < |rows| ==> |rows[i].id| <= n
  {
    if rows == [] then 0
    else
      var rest := LongestId(rows[..|rows| - 1]);
      var last := |rows[|rows| - 1].id|;
      if rest < last then last else rest
  }

  /** An identifier no row has. */
  function UnusedId(rows: seq<Lease>): (id: string)
    ensures FreshId(rows, id)
  {
    seq(LongestId(rows) + 1, _ => 'L')
  }

  // ---------- Which requests can still insert a lease ----------

  /** The call has yet to read the newest row of its resource. */
  predicate Early(pc: Pc) {
    pc.Looked? || pc.Marked?
  }

  /** The call can still come to insert a lease: its resource is well formed, and it has not read a
      revocation of its own session. */
  predicate Alive(call: Call) {
    && !Finished(call.pc)
    && ValidResource(call.args.resource)
    && !(call.pc.Checking? && call.pc.latest.Some? && RevokedFor(call.pc.latest.value, call.args))
  }

  predicate RevokedFor(r: Lease, a: Args) {
    r.status == REVOKED && r.sess == a.sess
  }

  /** The newest row of the resource is a revocation of the caller's session. */
  predicate Locked(rows: seq<Lease>, a: Args) {
    var n := NewestIx(rows, ResourceQuery(a));
    n >= 0 && RevokedFor(rows[n], a)
  }

  /** No row changed but by being marked EXPIRED. */
  ghost predicate Softened(a: seq<Lease>, b: seq<Lease>) {
    && Evolves(a, b) && |a| == |b|
    && forall i {:trigger b[i]} :: 0 <= i < |b| ==> b[i] == a[i] || b[i].status == EXPIRED
  }

  lemma SoftenedUnlocks(a: seq<Lease>, b: seq<Lease>, x: Args)
    requires Softened(a, b) && Locked(b, x)
    ensures Locked(a, x)
  {
    NewestFramed(a, b, ResourceQuery(x));
  }

  /** Nothing but the place of call c has changed. */
  ghost predicate OnlyCall(s: State, t: State, c: nat) {
    && c in s.calls && c in t.calls && t.calls == s.calls[c := t.calls[c]] && t.calls[c].args == s.calls[c].args
  }

  /** What the call has read does not block it at this moment. */
  predicate Unblocked(call: Call, now: int) {
    call.pc.Checking? ==> Blocks(call.pc.latest, call.args, now).None?
  }

  /** Past its reads and unblocked: the host is asked and grants. */
  lemma AtOnce(s0: State, s: State, cs: set<nat>, c: nat) returns (t: State)
    requires Path(s0, s, cs) && c in cs && c in s.calls && !Finished(s.calls[c].pc)
    requires !Early(s.calls[c].pc) && Unblocked(s.calls[c], s.now)
    ensures Path(s0, t, cs) && t.now == s.now && t.rows == s.rows
    ensures OnlyCall(s, t, c) && t.calls[c].pc.Approved?
  {
    t := s;
    if t.calls[c].pc.Checking? { t := Step(s0, t, cs, Resume(c)); }
    if t.calls[c].pc.Awaiting? { t := Step(s0, t, cs, Allow(c)); }
    assert t.calls == s.calls[c := t.calls[c]];
  }

  /** A time by which nothing the call reads is in force any more. */
  function LateEnough(s: State, call: Call): (to: int)
    ensures s.now <= to
    ensures call.pc.Looked? && call.pc.hit.Some? ==> call.pc.hit.value.expiresAt <= to
    ensures call.pc.Checking? && call.pc.latest.Some? ==> call.pc.latest.value.expiresAt <= to
    ensures var n := NewestIx(s.rows, ResourceQuery(call.args));
            n >= 0 ==> s.rows[n].expiresAt <= to
  {
    var n := NewestIx(s.rows, ResourceQuery(call.args));
    var a := if n >= 0 then s.rows[n].expiresAt else s.now;
    var b := match call.pc
             case Looked(Some(m)) => m.expiresAt
             case Checking(Some(m)) => m.expiresAt
             case _ => s.now;
    var m := if a < b then b else a;
    if m < s.now then s.now else m
  }

  /** Every row the lookup found ACTIVE is marked EXPIRED. */
  ghost predicate HitExpired(pc: Pc, rows: seq<Lease>) {
    pc.Looked? && pc.hit.Some? && pc.hit.value.status == ACTIVE ==>
      forall i :: 0 <= i < |rows| && rows[i].id == pc.hit.value.id ==> rows[i].status == EXPIRED
  }

  predicate Reread(s: State, c: nat) {
    c in s.calls && s.calls[c].pc == Checking(Newest(s.rows, ResourceQuery(s.calls[c].args)))
  }

  lemma LookupMoves(s: State, c: nat)
    requires c in s.calls && s.calls[c].pc.Looked?
    requires s.calls[c].pc.hit.Some? ==> s.calls[c].pc.hit.value.expiresAt <= s.now
    ensures NextResume(s, c).Some?
    ensures var t := NextResume(s, c).value;
            && t.now == s.now && OnlyCall(s, t, c) && Softened(s.rows, t.rows)
            && HitExpired(s.calls[c].pc, t.rows) && (t.calls[c].pc == Marked || Reread(t, c))
  {
  }

  lemma MarkMoves(s: State, c: nat)
    requires c in s.calls && s.calls[c].pc == Marked
    ensures NextResume(s, c).Some?
    ensures var t := NextResume(s, c).value;
            t.now == s.now && OnlyCall(s, t, c) && t.rows == s.rows && Reread(t, c)
  {
  }

  /** The lookup ends: nothing is reused any more. */
  lemma PastLookup(s0: State, s: State, cs: set<nat>, c: nat) returns (t: State)
    requires Path(s0, s, cs) && c in cs && c in s.calls && Early(s.calls[c].pc)
    requires s.calls[c].pc.Looked? && s.calls[c].pc.hit.Some? ==> s.calls[c].pc.hit.value.expiresAt <= s.now
    ensures Path(s0, t, cs) && t.now == s.now && OnlyCall(s, t, c) && Softened(s.rows, t.rows)
    ensures HitExpired(s.calls[c].pc, t.rows) && Reread(t, c)
  {
    t := s;
    if t.calls[c].pc.Looked? {
      LookupMoves(t, c);
      t := Step(s0, t, cs, Resume(c));
    }
    if t.calls[c].pc.Marked? {
      MarkMoves(t, c);
      t := Step(s0, t, cs, Resume(c));
    }
  }

  /** By then the newest row blocks nobody but a caller locked out by it. */
  lemma UnblockedInTime(s: State, t: State, c: nat)
    requires c in s.calls && OnlyCall(s, t, c) && Reread(t, c) && Softened(s.rows, t.rows)
    requires LateEnough(s, s.calls[c]) <= t.now && !Locked(s.rows, s.calls[c].args)
    ensures Unblocked(t.calls[c], t.now)
  {
    var q := ResourceQuery(s.calls[c].args);
    NewestFramed(s.rows, t.rows, q);
    var n := NewestIx(t.rows, q);
    assert n >= 0 ==> RowEvolves(s.rows[n], t.rows[n]);
  }

  /** With time, a request that is alive and not locked out is granted its approval. */
  lemma ToApproval(s0: State, s: State, cs: set<nat>, c: nat) returns (t: State)
    requires Path(s0, s, cs) && c in cs && c in s.calls && Alive(s.calls[c])
    requires Early(s.calls[c].pc) ==> !Locked(s.rows, s.calls[c].args)
    ensures Path(s0, t, cs) && s.now <= t.now
    ensures OnlyCall(s, t, c) && t.calls[c].pc.Approved? && Softened(s.rows, t.rows)
  {
    t := Wait(s0, s, cs, LateEnough(s, s.calls[c]));
    if Early(s.calls[c].pc) {
      t := PastLookup(s0, t, cs, c);
      UnblockedInTime(s, t, c);
    }
    t := AtOnce(s0, t, cs, c);
    assert t.calls == s.calls[c := t.calls[c]];
  }

  /** The approved lease is inserted, one instant later. */
  lemma ToInsert(s0: State, s: State, cs: set<nat>, c: nat) returns (t: State)
    requires Path(s0, s, cs) && Inv(s0) && c in cs && c in s.calls && s.calls[c].pc.Approved? && Alive(s.calls[c])
    ensures Path(s0, t, cs) && t.now == s.now + 1 && OnlyCall(s, t, c)
    ensures t.rows == s.rows + [NewLease(s.calls[c].args, UnusedId(s.rows), t.now)]
  {
    PathKeepsInv(s0, s, cs);
    t := Wait(s0, s, cs, s.now + 1);
    t := Step(s0, t, cs, Issue(c, UnusedId(s.rows)));
    assert t.calls == s.calls[c := t.calls[c]];
  }

  // ---------- A request of a session never seen before ----------

  lemma {:induction false} FreshSession(rows: seq<Lease>) returns (sess: string)
    ensures sess != "" && forall i :: 0 <= i < |rows| ==> |rows[i].sess| < |sess|
  {
    if rows == [] {
      sess := "s";
    } else {
      var front := rows[..|rows| - 1];
      sess := FreshSession(front);
      assert forall i :: 0 <= i < |front| ==> front[i] == rows[i];
      var last := rows[|rows| - 1].sess;
      if |sess| <= |last| { sess := last + "s"; }
    }
  }

  /** Whatever locks a caller out of its resource, another session's lease there ends it. */
  lemma Intrude(s0: State, s: State, cs: set<nat>, c: nat, a: Args) returns (t: State)
    requires Path(s0, s, cs) && Inv(s0) && c in cs && c !in s.calls && ValidResource(a.resource)
    ensures Path(s0, t, cs) && !Locked(t.rows, a)
    ensures forall d :: d in s.calls ==> d in t.calls && t.calls[d] == s.calls[d]
  {
    var sess := FreshSession(s.rows);
    var b := Args("capsule", "instance", sess, a.provider, a.resource, "action", 1, None);
    t := Step(s0, s, cs, Begin(c, b));
    assert t.calls[c] == Call(b, Looked(None));
    assert !Locked(t.rows, b);
    t := ToApproval(s0, t, cs, c);
    var rows := t.rows;
    t := ToInsert(s0, t, cs, c);
    NewestAppended(rows, t.rows[|rows|], ResourceQuery(a));
  }
}
