/** What a revocation does to the calls in progress: which of them can still execute an operation
  under the lease. */
module SystemRevocation {
  import opened Options
  import opened LeaseTable
  import opened LeaseRules
  import opened BrokerStages
  import opened RuntimeSystem
  import L = LeaseMachine

  predicate Under(job: Job, id: string) {
    |job.stages| >= 2 && job.stages[1].LeaseHeld? && job.stages[1].lease.id == id
  }

  /** The call has executed, or is executing, an operation under the lease. */
  predicate Executes(s: State, j: nat, id: string) {
    j in s.jobs && |s.jobs[j].stages| >= 4 && Under(s.jobs[j], id)
  }

  /** The call holds the lease and resolves its credential. */
  predicate Holding(s: State, j: nat, id: string) {
    j in s.jobs && s.jobs[j].progress.Resolving? && Under(s.jobs[j], id)
  }

  /** The call's lookup read the lease while it was usable, and will be handed it. */
  predicate HasRead(s: State, j: nat, id: string) {
    && j in s.jobs && s.jobs[j].progress.Leasing? && j in s.l.calls && s.l.calls[j].pc.Looked?
    && s.l.calls[j].pc.hit.Some? && s.l.calls[j].pc.hit.value.id == id
    && AfterLookup(s.l.calls[j].pc.hit, s.l.calls[j].args.action, s.l.now).Reuse?
    && s.jobs[j].ask.provider in s.providers
  }

  predicate CanExecute(s: State, j: nat, id: string) {
    Holding(s, j, id) || HasRead(s, j, id)
  }

  /** The lease is in the table and not ACTIVE. */
  predicate Ended(s: State, k: nat, id: string) {
    k < |s.l.rows| && s.l.rows[k].id == id && s.l.rows[k].status != ACTIVE
  }

  // ---------- The others never do ----------

  lemma EndedStep(s: State, e: Event, t: State, k: nat, id: string)
    requires Next(s, e) == Some(t) && Ended(s, k, id)
    ensures Ended(t, k, id) && s.l.now <= t.l.now
  {
    LeasesMove(s, e, t);
    assert RowEvolves(s.l.rows[k], t.l.rows[k]);
  }

  /** A lookup that begins after the lease has ended does not find it usable. */
  lemma ArriveReadsNoEnded(s: State, e: Event, t: State, k: nat, id: string)
    requires WellFormed(s.l.rows) && e.Arrive? && Next(s, e) == Some(t) && Ended(s, k, id)
    ensures !CanExecute(t, e.j, id) && !Executes(t, e.j, id)
  {
  }

  /** The call is handed the lease only if it has read it. */
  lemma AdvanceReadsNoEnded(s: State, e: Event, t: State, k: nat, id: string)
    requires e.Advance? && Next(s, e) == Some(t) && Ended(s, k, id)
    requires |s.jobs[e.j].stages| == 1 && e.j in s.l.calls && s.l.calls[e.j].args.action == s.jobs[e.j].ask.action
    requires !CanExecute(s, e.j, id)
    ensures !CanExecute(t, e.j, id) && !Executes(t, e.j, id)
  {
  }

  lemma OthersReadNothing(s: State, e: Event, t: State, j: nat, id: string)
    requires Next(s, e) == Some(t) && s.l.now <= t.l.now && !(e.Arrive? && e.j == j) && !(e.Advance? && e.j == j)
    requires j in s.jobs ==> (s.jobs[j].progress.Leasing? ==> j in s.l.calls)
    requires j in s.jobs ==> (s.jobs[j].progress.Resolving? ==> |s.jobs[j].stages| == 2)
    requires j in s.jobs ==> (s.jobs[j].progress.Executing? ==> |s.jobs[j].stages| == 4)
    requires !CanExecute(s, j, id)
    ensures !CanExecute(t, j, id) && (Executes(t, j, id) ==> Executes(s, j, id))
  {
    if j in s.jobs && s.jobs[j].progress.Leasing? { CallKept(s, e, t, j); }
  }

  lemma CannotStep(s: State, e: Event, t: State, j: nat, k: nat, id: string)
    requires Inv(s) && Next(s, e) == Some(t) && Ended(s, k, id) && !CanExecute(s, j, id)
    ensures !CanExecute(t, j, id) && (Executes(t, j, id) ==> Executes(s, j, id))
  {
    EndedStep(s, e, t, k, id);
    if e.Arrive? && e.j == j {
      ArriveReadsNoEnded(s, e, t, k, id);
    } else if e.Advance? && e.j == j {
      assert JobOk(s, j, s.jobs[j]);
      AdvanceReadsNoEnded(s, e, t, k, id);
    } else {
      assert j in s.jobs ==> JobOk(s, j, s.jobs[j]);
      OthersReadNothing(s, e, t, j, id);
    }
  }

  lemma {:induction false} CannotAlong(ss: seq<State>, es: seq<Event>, i: nat, j: nat, k: nat, id: string)
    requires Trace(ss, es) && i <= |es| && Inv(ss[0]) && Ended(ss[0], k, id) && !CanExecute(ss[0], j, id)
    ensures Inv(ss[i]) && Ended(ss[i], k, id) && !CanExecute(ss[i], j, id)
    ensures Executes(ss[i], j, id) ==> Executes(ss[0], j, id)
  {
    if i > 0 {
      CannotAlong(ss, es, i - 1, j, k, id);
      assert Next(ss[i - 1], es[i - 1]) == Some(ss[i]);
      InvStep(ss[i - 1], es[i - 1], ss[i]);
      EndedStep(ss[i - 1], es[i - 1], ss[i], k, id);
      CannotStep(ss[i - 1], es[i - 1], ss[i], j, k, id);
    }
  }

  // ---------- These can ----------

  lemma HolderExecutes(s: State, j: nat, id: string) returns (t: State)
    requires Inv(s) && Holding(s, j, id)
    ensures Next(s, Resolve(j, true)) == Some(t) && Executes(t, j, id) && !Executes(s, j, id)
  {
    assert JobOk(s, j, s.jobs[j]);
    t := Next(s, Resolve(j, true)).value;
  }

  lemma ReaderHolds(s: State, j: nat, id: string) returns (t: State)
    requires Inv(s) && HasRead(s, j, id)
    ensures Next(s, Advance(j, L.Resume(j))) == Some(t) && Holding(t, j, id) && !Executes(s, j, id)
  {
    assert JobOk(s, j, s.jobs[j]);
    t := Next(s, Advance(j, L.Resume(j))).value;
  }

  lemma SomeExecution(s: State, j: nat, id: string) returns (ss: seq<State>, es: seq<Event>)
    requires Inv(s) && CanExecute(s, j, id)
    ensures Trace(ss, es) && ss[0] == s && Executes(ss[|es|], j, id) && !Executes(s, j, id)
  {
    if Holding(s, j, id) {
      var t := HolderExecutes(s, j, id);
      ss, es := [s, t], [Resolve(j, true)];
    } else {
      ss, es := ReaderExecutes(s, j, id);
    }
  }

  lemma ReaderExecutes(s: State, j: nat, id: string) returns (ss: seq<State>, es: seq<Event>)
    requires Inv(s) && HasRead(s, j, id)
    ensures Trace(ss, es) && ss[0] == s && Executes(ss[|es|], j, id) && !Executes(s, j, id)
  {
    var e := Advance(j, L.Resume(j));
    var t := ReaderHolds(s, j, id);
    InvStep(s, e, t);
    var u := HolderExecutes(t, j, id);
    ss, es := [s, t, u], [e, Resolve(j, true)];
  }

  /** The exact condition: from a state of any run in which a lease has been revoked or has expired, a
      call can newly come to execute an operation under it if and only if it holds the lease already,
      or its lookup has read it and will hand it out.  Nothing looks at the lease again. */
  lemma ExecutesAfterwardsExactly(s: State, j: nat, k: nat, id: string)
    requires Inv(s) && Ended(s, k, id)
    ensures CanExecute(s, j, id) <==>
            exists ss, es :: Trace(ss, es) && ss[0] == s && Executes(ss[|es|], j, id) && !Executes(s, j, id)
  {
    if CanExecute(s, j, id) {
      var ss, es := SomeExecution(s, j, id);
    } else {
      forall ss, es | Trace(ss, es) && ss[0] == s && Executes(ss[|es|], j, id) ensures Executes(s, j, id) {
        CannotAlong(ss, es, |es|, j, k, id);
      }
    }
  }
}
