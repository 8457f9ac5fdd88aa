/** When usable leases stay exclusive, and which requests in flight break that.

  Requests that overlap across the approval wait can leave two holders of one resource.  A state
  from which that can happen is recognised by the requests in flight alone.
 */
module LeaseExclusivity {
  import opened Options
  import opened LeaseTable
  import opened LeaseRules
  import opened LeaseMachine
  import opened LeaseInvariant
  import opened LeaseSequential
  import opened LeasePaths

  /** Call d read the newest row of the resource while it was ACTIVE, and will mark it EXPIRED. */
  predicate Softens(s: State, d: nat, q: Query) {
    var n := NewestIx(s.rows, q);
    && d in s.calls && s.calls[d].pc.Looked? && s.calls[d].pc.hit.Some? && n >= 0
    && s.calls[d].pc.hit.value.status == ACTIVE && s.calls[d].pc.hit.value.id == s.rows[n].id
  }

  /** The call can come to insert without another insert before it. */
  ghost predicate CanPass(s: State, c: nat) {
    && c in s.calls && Alive(s.calls[c])
    && (Early(s.calls[c].pc) && Locked(s.rows, s.calls[c].args) ==>
          exists d :: Softens(s, d, ResourceQuery(s.calls[c].args)))
  }

  predicate Rivals(s: State, c: nat, d: nat) {
    && c in s.calls && d in s.calls && Alive(s.calls[c]) && Alive(s.calls[d])
    && ResourceQuery(s.calls[c].args) == ResourceQuery(s.calls[d].args)
    && KeyQuery(s.calls[c].args) != KeyQuery(s.calls[d].args)
  }

  /** A third call whose insert ends any lock. */
  ghost predicate Helps(s: State, p: nat, c: nat, d: nat)
    requires c in s.calls
  {
    p != c && p != d && CanPass(s, p) && ResourceQuery(s.calls[p].args) == ResourceQuery(s.calls[c].args)
  }

  /** Two calls for different holders of one resource can both come to insert. */
  ghost predicate Collision(s: State, c: nat, d: nat) {
    Rivals(s, c, d) && ((CanPass(s, c) && CanPass(s, d)) || exists p :: Helps(s, p, c, d))
  }

  ghost predicate Instant(rows: seq<Lease>, at: int) {
    exists i :: 0 <= i < |rows| && rows[i].issuedAt == at
  }

  /** The earliest time at which a call past its reads can insert. */
  ghost function Earliest(s: State, call: Call): int {
    if !Unblocked(call, s.now) then call.pc.latest.value.expiresAt
    else if Instant(s.rows, s.now) then s.now + 1
    else s.now
  }

  /** The call is past its reads and can insert, for another holder, while row k is usable. */
  ghost predicate Overtakes(s: State, c: nat, k: int) {
    && c in s.calls && Alive(s.calls[c]) && !Early(s.calls[c].pc)
    && Usable(s.rows, s.now, k) && ResourceQuery(s.calls[c].args) == ResourceOf(s.rows[k])
    && KeyQuery(s.calls[c].args) != KeyOf(s.rows[k])
    && Earliest(s, s.calls[c]) < s.rows[k].expiresAt
  }

  ghost predicate Safe(s: State) {
    && (forall c, d :: !Collision(s, c, d))
    && (forall c, k :: !Overtakes(s, c, k))
  }

  // ---------- Safe states stay safe, and exclusive ----------

  /** An insert for one holder while another one has a usable lease is overtaking it. */
  lemma BusyInsertOvertakes(s: State, e: Event, t: State)
    requires Next(s, e) == Some(t) && |t.rows| != |s.rows| && e.c in s.calls
    requires !Free(s.rows, s.now, s.calls[e.c].args)
    ensures exists k :: Overtakes(s, e.c, k)
  {
    OnlyIssueInserts(s, e, t);
    var n := NewestIx(s.rows, ResourceQuery(s.calls[e.c].args));
    assert Usable(s.rows, s.now, n);
    assert Overtakes(s, e.c, n);
  }

  lemma ExclusiveStep(s: State, e: Event, t: State)
    requires Inv(s) && Exclusive(s.rows, s.now) && Safe(s) && Next(s, e) == Some(t)
    ensures Exclusive(t.rows, t.now)
  {
    RowsShape(s, e, t);
    if |t.rows| == |s.rows| {
      ExclusiveEvolves(s.rows, t.rows, s.now, t.now);
    } else {
      OnlyIssueInserts(s, e, t);
      ExclusiveInsert(s.rows, s.now, s.calls[e.c].args, e.id);
      if !Free(s.rows, s.now, s.calls[e.c].args) { BusyInsertOvertakes(s, e, t); }
    }
  }

  /** The call has moved on, and nothing else has. */
  predicate MovedOn(s: State, t: State, c: nat)
    requires c in s.calls && c in t.calls
  {
    t.rows == s.rows && t.now == s.now && Unblocked(s.calls[c], s.now) && Unblocked(t.calls[c], t.now)
  }

  /** A call that is past its reads after a step was so before, or has just read the newest row. */
  lemma PastReads(s: State, e: Event, t: State, c: nat)
    requires Next(s, e) == Some(t) && c in t.calls && Alive(t.calls[c]) && !Early(t.calls[c].pc)
    ensures c in s.calls && Alive(s.calls[c]) && t.calls[c].args == s.calls[c].args
    ensures if Early(s.calls[c].pc) then Reread(t, c) && |t.rows| == |s.rows| && t.now == s.now
            else t.calls[c] == s.calls[c] || MovedOn(s, t, c)
  {
    if e == Resume(c) { ResumedReads(s, t, c); }
  }

  lemma ResumedReads(s: State, t: State, c: nat)
    requires c in s.calls && Next(s, Resume(c)) == Some(t) && Alive(t.calls[c]) && !Early(t.calls[c].pc)
    ensures Alive(s.calls[c]) && t.calls[c].args == s.calls[c].args
    ensures if Early(s.calls[c].pc) then Reread(t, c) && |t.rows| == |s.rows| && t.now == s.now else MovedOn(s, t, c)
  {
  }

  lemma NothingSooner(s: State, e: Event, t: State, c: nat)
    requires Next(s, e) == Some(t) && c in s.calls && c in t.calls && !Early(s.calls[c].pc) && Alive(s.calls[c])
    requires Evolves(s.rows, t.rows) && s.now <= t.now && (t.calls[c] == s.calls[c] || MovedOn(s, t, c))
    ensures Earliest(s, s.calls[c]) <= Earliest(t, t.calls[c])
  {
    if Instant(s.rows, s.now) {
      var i :| 0 <= i < |s.rows| && s.rows[i].issuedAt == s.now;
      assert RowEvolves(s.rows[i], t.rows[i]);
    }
  }

  /** A call that has just read the newest row of its resource overtakes nobody. */
  lemma JustRead(t: State, c: nat, k: int)
    requires Reread(t, c) && Exclusive(t.rows, t.now)
    ensures !Overtakes(t, c, k)
  {
    if Usable(t.rows, t.now, k) && ResourceQuery(t.calls[c].args) == ResourceOf(t.rows[k]) {
      assert t.calls[c].pc.latest == Some(t.rows[k]);
    }
  }

  lemma OvertakeBack(s: State, e: Event, t: State, c: nat, k: int)
    requires Next(s, e) == Some(t) && Exclusive(t.rows, t.now) && Overtakes(t, c, k)
    ensures Overtakes(s, c, k) || Collision(s, e.c, c)
  {
    PastReads(s, e, t, c);
    StepShape(s, e, t);
    if Early(s.calls[c].pc) {
      JustRead(t, c, k);
    } else if k >= |s.rows| {
      InsertCollides(s, e, t, c, k);
    } else {
      assert RowEvolves(s.rows[k], t.rows[k]);
      if !Usable(s.rows, s.now, k) { UnusableForever(s.rows, t.rows, s.now, t.now, k); }
      NothingSooner(s, e, t, c);
    }
  }

  lemma InsertCollides(s: State, e: Event, t: State, c: nat, k: int)
    requires Next(s, e) == Some(t) && Overtakes(t, c, k) && k >= |s.rows|
    requires c in s.calls && Alive(s.calls[c]) && !Early(s.calls[c].pc) && t.calls[c].args == s.calls[c].args
    ensures Collision(s, e.c, c)
  {
    OnlyIssueInserts(s, e, t);
    assert CanPass(s, e.c) && CanPass(s, c) && Rivals(s, e.c, c);
  }

  lemma AliveBack(s: State, e: Event, t: State, c: nat)
    requires Next(s, e) == Some(t) && c in t.calls && Alive(t.calls[c])
    ensures !(e.Begin? && e.c == c) ==> c in s.calls && Alive(s.calls[c]) && t.calls[c].args == s.calls[c].args
  {
  }

  /** A call that begins is alone on its resource. */
  lemma BegunAlone(s: State, e: Event, t: State, c: nat, d: nat)
    requires Next(s, e) == Some(t) && Sequential(s, e) && c in t.calls && d in t.calls && c != d
    requires Alive(t.calls[c]) && Alive(t.calls[d]) && ResourceQuery(t.calls[c].args) == ResourceQuery(t.calls[d].args)
    ensures !(e.Begin? && (e.c == c || e.c == d))
  {
    assert c in s.calls && t.calls[c] == s.calls[c] ==> InFlight(s, c);
    assert d in s.calls && t.calls[d] == s.calls[d] ==> InFlight(s, d);
  }

  /** Locks are only ended by a call that read the row before its revocation, or by an insert. */
  lemma LockEnds(s: State, e: Event, t: State, a: Args)
    requires Next(s, e) == Some(t) && |t.rows| == |s.rows| && Locked(s.rows, a) && !Locked(t.rows, a)
    requires NewestIx(t.rows, ResourceQuery(a)) == NewestIx(s.rows, ResourceQuery(a))
    ensures e.Resume? && Softens(s, e.c, ResourceQuery(a))
  {
  }

  /** A call that would soften a locked row has read it before. */
  lemma SoftensBack(s: State, e: Event, t: State, d: nat, a: Args)
    requires WellFormed(s.rows) && Next(s, e) == Some(t) && Locked(s.rows, a) && Softens(t, d, ResourceQuery(a))
    requires NewestIx(t.rows, ResourceQuery(a)) == NewestIx(s.rows, ResourceQuery(a))
    ensures Softens(s, d, ResourceQuery(a))
  {
    RowsShape(s, e, t);
    var n := NewestIx(s.rows, ResourceQuery(a));
    assert RowEvolves(s.rows[n], t.rows[n]);
    if e.Begin? && e.c == d { BegunSoftensNothing(s, d, e.args, n); } else { StillLooking(s, e, t, d); }
  }

  lemma StillLooking(s: State, e: Event, t: State, d: nat)
    requires Next(s, e) == Some(t) && d in t.calls && t.calls[d].pc.Looked? && !(e.Begin? && e.c == d)
    ensures d in s.calls && s.calls[d] == t.calls[d]
  {
  }

  lemma BegunSoftensNothing(s: State, d: nat, a: Args, n: nat)
    requires WellFormed(s.rows) && n < |s.rows| && s.rows[n].status != ACTIVE
    ensures var pc := NextBegin(s, d, a).calls[d].pc;
            pc.Looked? && pc.hit.Some? && pc.hit.value.status == ACTIVE ==> pc.hit.value.id != s.rows[n].id
  {
  }

  lemma CanPassBack(s: State, e: Event, t: State, c: nat)
    requires Inv(s) && Next(s, e) == Some(t) && CanPass(t, c) && !(e.Begin? && e.c == c)
    requires |t.rows| != |s.rows| ==> ResourceQuery(s.calls[e.c].args) != ResourceQuery(t.calls[c].args)
    ensures CanPass(s, c)
  {
    AliveBack(s, e, t, c);
    StepShape(s, e, t);
    var a, q := s.calls[c].args, ResourceQuery(s.calls[c].args);
    SameNewest(s, e, t, q);
    if Early(s.calls[c].pc) && Locked(s.rows, a) {
      if !Early(t.calls[c].pc) {
        PastReads(s, e, t, c);
        LockEnds(s, e, t, a);
      } else if !Locked(t.rows, a) {
        if |t.rows| == |s.rows| { LockEnds(s, e, t, a); } else { InsertKeepsLock(s, e, t, a); }
      } else {
        var d :| Softens(t, d, q);
        SoftensBack(s, e, t, d, a);
      }
    }
  }

  lemma InsertKeepsLock(s: State, e: Event, t: State, a: Args)
    requires Next(s, e) == Some(t) && |t.rows| != |s.rows| && e.c in s.calls
    requires ResourceQuery(s.calls[e.c].args) != ResourceQuery(a) && Locked(s.rows, a)
    ensures Locked(t.rows, a)
  {
    OnlyIssueInserts(s, e, t);
    NewestAppended(s.rows, NewLease(s.calls[e.c].args, e.id, s.now), ResourceQuery(a));
  }

  lemma SameNewest(s: State, e: Event, t: State, q: Query)
    requires Next(s, e) == Some(t)
    requires |t.rows| != |s.rows| ==> ResourceQuery(s.calls[e.c].args) != q
    requires q.ByResource?
    ensures NewestIx(t.rows, q) == NewestIx(s.rows, q)
  {
    StepShape(s, e, t);
    if |t.rows| == |s.rows| {
      NewestFramed(s.rows, t.rows, q);
    } else {
      OnlyIssueInserts(s, e, t);
      NewestAppended(s.rows, NewLease(s.calls[e.c].args, e.id, s.now), q);
    }
  }

  lemma CollisionBack(s: State, e: Event, t: State, c: nat, d: nat)
    requires Inv(s) && Next(s, e) == Some(t) && Sequential(s, e) && Collision(t, c, d)
    ensures Collision(s, c, d)
  {
    RivalsBack(s, e, t, c, d);
    if |t.rows| != |s.rows| && ResourceQuery(s.calls[e.c].args) == ResourceQuery(s.calls[c].args) {
      InsertHelps(s, e, t, c, d);
    } else if CanPass(t, c) && CanPass(t, d) {
      CanPassBack(s, e, t, c);
      CanPassBack(s, e, t, d);
    } else {
      var p :| Helps(t, p, c, d);
      BegunAlone(s, e, t, c, p);
      CanPassBack(s, e, t, p);
      AliveBack(s, e, t, p);
      assert Helps(s, p, c, d);
    }
  }

  lemma RivalsBack(s: State, e: Event, t: State, c: nat, d: nat)
    requires Next(s, e) == Some(t) && Sequential(s, e) && Rivals(t, c, d)
    ensures Rivals(s, c, d) && !(e.Begin? && (e.c == c || e.c == d)) && t.calls[c].args == s.calls[c].args
    ensures t.calls[d].args == s.calls[d].args
  {
    BegunAlone(s, e, t, c, d);
    AliveBack(s, e, t, c);
    AliveBack(s, e, t, d);
  }

  lemma InsertHelps(s: State, e: Event, t: State, c: nat, d: nat)
    requires Next(s, e) == Some(t) && |t.rows| != |s.rows| && Rivals(s, c, d) && Rivals(t, c, d)
    requires ResourceQuery(s.calls[e.c].args) == ResourceQuery(s.calls[c].args)
    ensures Helps(s, e.c, c, d)
  {
    OnlyIssueInserts(s, e, t);
  }

  lemma SafeStep(s: State, e: Event, t: State)
    requires Inv(s) && Exclusive(s.rows, s.now) && Safe(s) && Next(s, e) == Some(t) && Sequential(s, e)
    ensures Exclusive(t.rows, t.now) && Safe(t)
  {
    ExclusiveStep(s, e, t);
    forall c, k ensures !Overtakes(t, c, k) {
      if Overtakes(t, c, k) { OvertakeBack(s, e, t, c, k); }
    }
    forall c, d ensures !Collision(t, c, d) {
      if Collision(t, c, d) { CollisionBack(s, e, t, c, d); }
    }
  }

  ghost predicate ExclusiveNow(s: State) {
    Exclusive(s.rows, s.now)
  }

  lemma SafeAt(ss: seq<State>, es: seq<Event>, i: nat)
    requires SeqTrace(ss, es) && i < |es| && Inv(ss[i]) && ExclusiveNow(ss[i]) && Safe(ss[i])
    ensures ExclusiveNow(ss[i + 1]) && Safe(ss[i + 1])
  {
    assert Next(ss[i], es[i]) == Some(ss[i + 1]) && Sequential(ss[i], es[i]);
    SafeStep(ss[i], es[i], ss[i + 1]);
  }

  lemma {:induction false} SafeAlong(ss: seq<State>, es: seq<Event>, i: nat)
    requires SeqTrace(ss, es) && i <= |es| && Inv(ss[0]) && ExclusiveNow(ss[0]) && Safe(ss[0])
    ensures ExclusiveNow(ss[i]) && Safe(ss[i])
  {
    if i > 0 {
      SafeAlong(ss, es, i - 1);
      TraceKeepsInv(ss, es, i - 1);
      SafeAt(ss, es, i - 1);
    }
  }

  lemma SeqInvAlways(ss: seq<State>, es: seq<Event>, i: nat)
    requires SeqTrace(ss, es) && Init(ss[0]) && i <= |es|
    ensures Inv(ss[i]) && Exclusive(ss[i].rows, ss[i].now) && Safe(ss[i])
  {
    InvAlways(ss, es, 0);
    SafeAlong(ss, es, i);
    TraceKeepsInv(ss, es, i);
  }

  // ---------- From any other state exclusivity can be lost ----------

  /** Without any new request, the calls in flight can come to share a resource. */
  ghost predicate CanShare(s: State) {
    exists t :: Path(s, t, s.calls.Keys) && !ExclusiveNow(t)
  }

  /** A call that has read the row before its revocation marks it EXPIRED. */
  lemma Soften(s0: State, s: State, cs: set<nat>, d: nat, q: Query) returns (t: State)
    requires Path(s0, s, cs) && d in cs && Softens(s, d, q) && q.ByResource?
    ensures Path(s0, t, cs) && Softened(s.rows, t.rows) && OnlyCall(s, t, d)
    ensures NewestIx(t.rows, q) == NewestIx(s.rows, q) && t.rows[NewestIx(t.rows, q)].status == EXPIRED
    ensures Alive(s.calls[d]) ==> Alive(t.calls[d]) && Early(t.calls[d].pc)
  {
    t := Wait(s0, s, cs, LateEnough(s, s.calls[d]));
    LookupMoves(t, d);
    t := Step(s0, t, cs, Resume(d));
    NewestFramed(s.rows, t.rows, q);
    assert t.calls == s.calls[d := t.calls[d]];
  }

  /** Alive, and not locked out. */
  predicate Unlocked(s: State, c: nat) {
    c in s.calls && Alive(s.calls[c]) && (Early(s.calls[c].pc) ==> !Locked(s.rows, s.calls[c].args))
  }

  /** Calls stay the same, but for their places. */
  ghost predicate SameCalls(s: State, t: State) {
    t.calls.Keys == s.calls.Keys && forall c :: c in s.calls ==> t.calls[c].args == s.calls[c].args
  }

  /** Every lock on the resource that some call in flight can end without an insert is ended. */
  lemma Unlock(s0: State, s: State, cs: set<nat>, q: Query) returns (t: State)
    requires Path(s0, s, cs) && s.calls.Keys <= cs && q.ByResource?
    ensures Path(s0, t, cs) && SameCalls(s, t)
    ensures forall c :: CanPass(s, c) && ResourceQuery(s.calls[c].args) == q ==> Unlocked(t, c)
    ensures forall c :: c in s.calls && Alive(s.calls[c]) ==> Alive(t.calls[c])
  {
    t := s;
    if d :| Softens(s, d, q) { t := Soften(s0, s, cs, d, q); }
  }

  /** Two rivals that are not locked out both get their approval ... */
  lemma BothApproved(s0: State, s: State, cs: set<nat>, c: nat, d: nat) returns (t: State)
    requires Path(s0, s, cs) && c in cs && d in cs && Rivals(s, c, d) && Unlocked(s, c) && Unlocked(s, d)
    ensures Path(s0, t, cs) && Rivals(t, c, d) && t.calls[c].pc.Approved? && t.calls[d].pc.Approved?
  {
    t := ToApproval(s0, s, cs, c);
    if Locked(t.rows, s.calls[d].args) { SoftenedUnlocks(s.rows, t.rows, s.calls[d].args); }
    t := ToApproval(s0, t, cs, d);
  }

  /** ... and then both insert. */
  lemma BothInsert(s0: State, s: State, cs: set<nat>, c: nat, d: nat) returns (t: State)
    requires Path(s0, s, cs) && Inv(s0) && c in cs && d in cs
    requires Rivals(s, c, d) && s.calls[c].pc.Approved? && s.calls[d].pc.Approved?
    ensures Path(s0, t, cs) && !ExclusiveNow(t)
  {
    PathKeepsInv(s0, s, cs);
    assert LegalTtl(s.calls[c].args.ttl);
    t := ToInsert(s0, s, cs, c);
    var rows := t.rows;
    t := ToInsert(s0, t, cs, d);
    SharedRows(rows, s.calls[d].args, UnusedId(rows), t.now);
  }

  /** The last row is usable by one holder; inserting for another one ends exclusivity. */
  lemma SharedRows(rows: seq<Lease>, a: Args, id: string, now: int)
    requires rows != [] && var r := rows[|rows| - 1];
             r.status == ACTIVE && now < r.expiresAt && ResourceOf(r) == ResourceQuery(a) && KeyOf(r) != KeyQuery(a)
    ensures !Exclusive(rows + [NewLease(a, id, now)], now)
  {
    InsertShares(rows, now, a, id);
  }

  lemma CollisionShares(s: State, c: nat, d: nat)
    requires Inv(s) && Collision(s, c, d)
    ensures CanShare(s)
  {
    var cs, q := s.calls.Keys, ResourceQuery(s.calls[c].args);
    PathHere(s, cs);
    var t := Unlock(s, s, cs, q);
    if !(CanPass(s, c) && CanPass(s, d)) {
      var p :| Helps(s, p, c, d);
      t := HelperInserts(s, t, cs, p, c, d);
    }
    t := BothApproved(s, t, cs, c, d);
    t := BothInsert(s, t, cs, c, d);
  }

  lemma HelperInserts(s0: State, s: State, cs: set<nat>, p: nat, c: nat, d: nat) returns (t: State)
    requires Path(s0, s, cs) && Inv(s0) && p in cs && Rivals(s, c, d) && Unlocked(s, p) && p != c && p != d
    requires ResourceQuery(s.calls[p].args) == ResourceQuery(s.calls[c].args)
    ensures Path(s0, t, cs) && Rivals(t, c, d) && Unlocked(t, c) && Unlocked(t, d)
  {
    t := ToApproval(s0, s, cs, p);
    var rows := t.rows;
    t := ToInsert(s0, t, cs, p);
    NewestAppended(rows, t.rows[|rows|], ResourceQuery(s.calls[c].args));
  }

  lemma OvertakingShares(s: State, c: nat, k: int)
    requires Inv(s) && ExclusiveNow(s) && Overtakes(s, c, k)
    ensures CanShare(s)
  {
    var cs, at := s.calls.Keys, Earliest(s, s.calls[c]);
    PathHere(s, cs);
    var t := s;
    if !Unblocked(s.calls[c], s.now) { t := Wait(s, t, cs, at); }
    t := AtOnce(s, t, cs, c);
    if t.now < at { t := Wait(s, t, cs, at); }
    var id, rows := UnusedId(t.rows), t.rows;
    CanInsertInTime(s, t, c);
    t := Step(s, t, cs, Issue(c, id));
    assert Usable(rows, at, k);
    InsertShares(rows, at, s.calls[c].args, id);
  }

  lemma CanInsertInTime(s: State, t: State, c: nat)
    requires Inv(s) && c in s.calls && Alive(s.calls[c]) && t.rows == s.rows && t.now == Earliest(s, s.calls[c])
    ensures forall i :: 0 <= i < |t.rows| ==> t.rows[i].issuedAt < t.now
  {
  }

  /** A state without new requests is a sequential run. */
  lemma PathIsSequential(s: State, t: State) returns (ss: seq<State>, es: seq<Event>)
    requires Path(s, t, s.calls.Keys)
    ensures SeqTrace(ss, es) && Settling(ss, es) && ss[0] == s && ss[|es|] == t
  {
    ss, es :| Leads(s, ss, es, t) && forall i :: 0 <= i < |es| ==> Only(es[i], s.calls.Keys);
    forall i | 0 <= i < |es| ensures !es[i].Begin? {
      RunShape(ss, es, 0, i);
      assert Next(ss[i], es[i]) == Some(ss[i + 1]) && Only(es[i], s.calls.Keys);
    }
  }

  /** A run that begins no request. */
  ghost predicate Settling(ss: seq<State>, es: seq<Event>) {
    Trace(ss, es) && forall i :: 0 <= i < |es| ==> !es[i].Begin?
  }

  /** The exact condition: from a state of any run, usable leases stay exclusive in every sequential
      continuation if and only if no call in flight overtakes a usable lease and no two collide.
      Continuations that begin no request at all make no difference. */
  lemma ExclusivityHoldsExactly(s: State)
    requires Inv(s) && ExclusiveNow(s)
    ensures Safe(s) <==> (forall ss, es :: SeqTrace(ss, es) && ss[0] == s ==> ExclusiveNow(ss[|es|]))
    ensures Safe(s) <==> (forall ss, es :: Settling(ss, es) && ss[0] == s ==> ExclusiveNow(ss[|es|]))
  {
    if Safe(s) {
      forall ss, es | SeqTrace(ss, es) && ss[0] == s ensures ExclusiveNow(ss[|es|]) { SafeAlong(ss, es, |es|); }
      forall ss, es | Settling(ss, es) && ss[0] == s ensures ExclusiveNow(ss[|es|]) { assert SeqTrace(ss, es); }
    } else {
      if c, d :| Collision(s, c, d) {
        CollisionShares(s, c, d);
      } else {
        var c, k :| Overtakes(s, c, k);
        OvertakingShares(s, c, k);
      }
      var t :| Path(s, t, s.calls.Keys) && !ExclusiveNow(t);
      var ss, es := PathIsSequential(s, t);
    }
  }

  // ---------- Exclusive holder ----------

  /** In every sequential run a usable lease is the newest row of its whole resource, so one
      (session, instance) at most can reuse a lease on a resource at any moment. */
  lemma ExclusiveHolder(ss: seq<State>, es: seq<Event>, i: nat, j: nat, k: nat)
    requires SeqTrace(ss, es) && Init(ss[0]) && i <= |es|
    requires Usable(ss[i].rows, ss[i].now, j) && Usable(ss[i].rows, ss[i].now, k)
    requires ResourceOf(ss[i].rows[j]) == ResourceOf(ss[i].rows[k])
    ensures j == k == NewestIx(ss[i].rows, ResourceOf(ss[i].rows[k]))
  {
    SeqInvAlways(ss, es, i);
  }

  /** In every state of every sequential run the two deciders agree. */
  lemma DecidersAgree(ss: seq<State>, es: seq<Event>, i: nat, a: Args)
    requires SeqTrace(ss, es) && Init(ss[0]) && i <= |es| && LegalTtl(a.ttl)
    ensures Agree(Decide(ss[i].rows, a, ss[i].now), Validate(ss[i].rows, a, ss[i].now), ss[i].rows, a)
  {
    SeqInvAlways(ss, es, i);
    DecidersAgreeOn(ss[i].rows, ss[i].now, a);
  }
}
