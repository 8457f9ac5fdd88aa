/** Lease requests that overlap in any way.

  One step is one uninterrupted segment of the gateway's coroutine together with the store
  statement it issues at its end; between two segments the clock, revocations and other
  requests may move freely.
 */
module LeaseMachine {
  import opened Options
  import opened LeaseTable
  import opened LeaseRules

  datatype Pc =
    | Looked(hit: Option<Lease>)       // key lookup done, its row not yet examined
    | Marked                           // lazy expiry written
    | Checking(latest: Option<Lease>)  // newest row of the resource read, not yet examined
    | Awaiting                         // approval asked for
    | Approved(grant: nat)             // approval granted, nothing inserted yet
    | Returned(lease: Lease, reused: bool)
    | Failed(code: Code)

  datatype Call = Call(args: Args, pc: Pc)

  /** A granted approval: what the host was shown. */
  datatype Grant = Grant(call: nat, capsule: string, provider: string, resource: string,
                         action: string, ttl: int, tool: Option<string>)

  /** `origin[k]` is the approval row k was issued for; `refused` holds the approvals whose
      lease the resource-format rule rejected. */
  datatype State = State(
    now: int, rows: seq<Lease>, calls: map<nat, Call>,
    grants: seq<Grant>, origin: seq<nat>, refused: set<nat>)

  datatype Event =
    | Tick(to: int)
    | Begin(c: nat, args: Args)
    | Resume(c: nat)
    | Allow(c: nat)
    | Reject(c: nat)
    | Issue(c: nat, id: string)
    | Revoke(id: string)
    | RevokeAll(target: Target)

  predicate Finished(pc: Pc) {
    pc.Returned? || pc.Failed?
  }

  predicate InFlight(s: State, c: nat) {
    c in s.calls && !Finished(s.calls[c].pc)
  }

  function Moved(s: State, c: nat, pc: Pc): State
    requires c in s.calls
  {
    s.(calls := s.calls[c := s.calls[c].(pc := pc)])
  }

  function NextBegin(s: State, c: nat, a: Args): State {
    var pc := if LegalTtl(a.ttl) then Looked(Newest(s.rows, KeyQuery(a))) else Failed(LEASE_REJECTED);
    s.(calls := s.calls[c := Call(a, pc)])
  }

  function Rechecking(s: State, c: nat): State
    requires c in s.calls
  {
    Moved(s, c, Checking(Newest(s.rows, ResourceQuery(s.calls[c].args))))
  }

  function NextResume(s: State, c: nat): Option<State>
    requires c in s.calls
  {
    var a := s.calls[c].args;
    match s.calls[c].pc
    case Looked(hit) =>
      (match AfterLookup(hit, a.action, s.now)
       case Reuse(l) => Some(Moved(s, c, Returned(l, true)))
       case LazyExpire(id) =>
         Some(Moved(s.(rows := UpdateStatus(s.rows, id, EXPIRED, s.now, "expired on lookup")), c, Marked))
       case Miss => Some(Rechecking(s, c)))
    case Marked => Some(Rechecking(s, c))
    case Checking(latest) =>
      var block := Blocks(latest, a, s.now);
      Some(Moved(s, c, if block.Some? then Failed(block.value) else Awaiting))
    case _ => None
  }

  function NextAllow(s: State, c: nat): State
    requires c in s.calls
  {
    var a := s.calls[c].args;
    Moved(s, c, Approved(|s.grants|)).(
      grants := s.grants + [Grant(c, a.capsule, a.provider, a.resource, a.action, a.ttl, a.tool)])
  }

  /** `issue`: the model is built, and refused if the resource has no colon; else it is inserted. */
  function NextIssue(s: State, c: nat, id: string): State
    requires c in s.calls && s.calls[c].pc.Approved?
  {
    var a, g := s.calls[c].args, s.calls[c].pc.grant;
    if !ValidResource(a.resource) then
      Moved(s, c, Failed(INVALID_RESOURCE)).(refused := s.refused + {g})
    else
      var l := NewLease(a, id, s.now);
      Moved(s, c, Returned(l, false)).(rows := s.rows + [l], origin := s.origin + [g])
  }

  /** An inserted row gets an unused identifier and a later time than every other row. */
  predicate CanInsert(s: State, id: string) {
    && FreshId(s.rows, id)
    && (forall i :: 0 <= i < |s.rows| ==> s.rows[i].issuedAt < s.now)
  }

  function Next(s: State, e: Event): Option<State> {
    match e
    case Tick(to) => if s.now <= to then Some(s.(now := to)) else None
    case Begin(c, a) => if c !in s.calls then Some(NextBegin(s, c, a)) else None
    case Resume(c) => if c in s.calls then NextResume(s, c) else None
    case Allow(c) => if c in s.calls && s.calls[c].pc.Awaiting? then Some(NextAllow(s, c)) else None
    case Reject(c) =>
      if c in s.calls && s.calls[c].pc.Awaiting? then Some(Moved(s, c, Failed(LEASE_REJECTED))) else None
    case Issue(c, id) =>
      if c in s.calls && s.calls[c].pc.Approved? && CanInsert(s, id) then Some(NextIssue(s, c, id)) else None
    case Revoke(id) => Some(s.(rows := UpdateStatus(s.rows, id, REVOKED, s.now, "manual revoke")))
    case RevokeAll(t) => Some(s.(rows := RevokeMany(s.rows, t, s.now)))
  }

  predicate Init(s: State) {
    s.rows == [] && s.calls == map[] && s.grants == [] && s.origin == [] && s.refused == {}
  }

  /** `ss` are the states visited by the events `es`. */
  ghost predicate Trace(ss: seq<State>, es: seq<Event>) {
    |ss| == |es| + 1 && forall i {:trigger es[i]} :: 0 <= i < |es| ==> Next(ss[i], es[i]) == Some(ss[i + 1])
  }

  lemma TraceExtends(ss: seq<State>, es: seq<Event>, e: Event, t: State)
    requires Trace(ss, es) && Next(ss[|es|], e) == Some(t)
    ensures Trace(ss + [t], es + [e])
  {
    var ss', es' := ss + [t], es + [e];
    forall i | 0 <= i < |es'| ensures Next(ss'[i], es'[i]) == Some(ss'[i + 1]) {
      if i < |es| { assert es'[i] == es[i] && ss'[i] == ss[i] && ss'[i + 1] == ss[i + 1]; }
    }
  }

  /** A run from s to t. */
  ghost predicate Leads(s: State, ss: seq<State>, es: seq<Event>, t: State) {
    Trace(ss, es) && ss[0] == s && ss[|es|] == t
  }

  // ---------- The invariant of every run ----------

  /** The snapshot is an earlier version of some row. */
  ghost predicate Snapshot(rows: seq<Lease>, m: Lease) {
    exists i :: 0 <= i < |rows| && RowEvolves(m, rows[i])
  }

  predicate GrantFor(g: Grant, c: nat, a: Args) {
    g == Grant(c, a.capsule, a.provider, a.resource, a.action, a.ttl, a.tool)
  }

  predicate GrantMatches(g: Grant, r: Lease) {
    && g.capsule == r.capsule && g.provider == r.provider && g.resource == r.resource
    && {g.action} == r.actions && g.ttl * SECOND == r.expiresAt - r.issuedAt
  }

  /** Where a call can be once the host has granted it an approval. */
  predicate HoldsGrant(pc: Pc) {
    pc.Approved? || pc == Failed(INVALID_RESOURCE) || (pc.Returned? && !pc.reused)
  }

  ghost predicate CallOk(s: State, c: nat, call: Call) {
    match call.pc
    case Looked(hit) => hit.Some? ==> Snapshot(s.rows, hit.value) && Selects(KeyQuery(call.args), hit.value)
    case Checking(latest) =>
      latest.Some? ==> Snapshot(s.rows, latest.value) && Selects(ResourceQuery(call.args), latest.value)
    case Approved(g) => g < |s.grants| && g !in s.origin && g !in s.refused && GrantFor(s.grants[g], c, call.args)
    case Returned(l, _) => Snapshot(s.rows, l) && BoundTo(l, call.args)
    case _ => true
  }

  predicate LegalLife(r: Lease) {
    0 < r.expiresAt - r.issuedAt <= MAX_TTL_SECONDS * SECOND
  }

  ghost predicate RowsOk(s: State) {
    && WellFormed(s.rows)
    && (forall i :: 0 <= i < |s.rows| ==> LegalLife(s.rows[i]))
    && (forall i :: 0 <= i < |s.rows| ==> s.rows[i].issuedAt <= s.now)
    && (forall i :: 0 <= i < |s.rows| ==> s.rows[i].status == EXPIRED ==> s.rows[i].expiresAt <= s.now)
  }

  ghost predicate LogOk(s: State) {
    && |s.origin| == |s.rows|
    && (forall k :: 0 <= k < |s.origin| ==> s.origin[k] < |s.grants|)
    && (forall k :: 0 <= k < |s.origin| ==> GrantMatches(s.grants[s.origin[k]], s.rows[k]))
    && (forall j, k :: 0 <= j < k < |s.origin| ==> s.origin[j] != s.origin[k])
    && (forall g :: g in s.refused ==> g < |s.grants| && g !in s.origin)
    && (forall g :: 0 <= g < |s.grants| ==> s.grants[g].call in s.calls && HoldsGrant(s.calls[s.grants[g].call].pc))
  }

  /** Only a call that has failed asked for an illegal lifetime. */
  ghost predicate TtlsOk(s: State) {
    forall c :: c in s.calls && !s.calls[c].pc.Failed? ==> LegalTtl(s.calls[c].args.ttl)
  }

  /** Every approval showed the host exactly its call's arguments. */
  ghost predicate GrantsOk(s: State) {
    forall g :: 0 <= g < |s.grants| ==>
      s.grants[g].call in s.calls && GrantFor(s.grants[g], s.grants[g].call, s.calls[s.grants[g].call].args)
  }

  ghost predicate Inv(s: State) {
    && RowsOk(s)
    && LogOk(s)
    && GrantsOk(s)
    && TtlsOk(s)
    && (forall c :: c in s.calls ==> CallOk(s, c, s.calls[c]))
  }

  lemma SnapshotEvolves(a: seq<Lease>, b: seq<Lease>, m: Lease)
    requires Snapshot(a, m) && Evolves(a, b)
    ensures Snapshot(b, m)
  {
    var i :| 0 <= i < |a| && RowEvolves(m, a[i]);
    assert RowEvolves(a[i], b[i]);
    assert RowEvolves(m, b[i]);
  }

  lemma NewestSnapshot(rows: seq<Lease>, q: Query)
    ensures Newest(rows, q).Some? ==> Snapshot(rows, Newest(rows, q).value)
  {
    var n := NewestIx(rows, q);
    if n >= 0 { assert RowEvolves(rows[n], rows[n]); }
  }

  /** Every step only lets rows evolve and time advance, keeps the logs growing, and touches
      at most the call it names. */
  lemma StepShape(s: State, e: Event, t: State)
    requires Next(s, e) == Some(t)
    ensures Evolves(s.rows, t.rows) && s.now <= t.now
    ensures s.grants <= t.grants
    ensures s.calls.Keys <= t.calls.Keys
    ensures forall c :: c in s.calls ==> t.calls[c].args == s.calls[c].args
    ensures forall c :: c in s.calls && Finished(s.calls[c].pc) ==> t.calls[c] == s.calls[c]
  {
    RowsShape(s, e, t);
  }

  lemma RowsShape(s: State, e: Event, t: State)
    requires Next(s, e) == Some(t)
    ensures Evolves(s.rows, t.rows) && s.now <= t.now && s.grants <= t.grants
  {
  }
}
