/** Starting, exiting and disposing of the child process, in any order with calls, replies and
  timers: when a `dispose` completes, and what it leaves unsettled when it does not. */
module RpcLifecycle {
  import opened Options
  import opened RpcIds
  import opened RpcPeers

  datatype Event =
    | Start
    | Call
    | Answer(text: string, reply: Reply)
    | Timer(id: string)
    | Exit(p: nat)
    | Dispose

  function Next(h: Host, e: Event): Option<Host> {
    match e
    case Start => Some(HostStart(h))
    case Call => Some(if h.peer.running then h.(peer := TsRegister(h.peer)) else h)
    case Answer(text, reply) => Some(h.(peer := TsSettle(h.peer, text, Answered(reply))))
    case Timer(id) => Some(h.(peer := TsSettle(h.peer, id, TimedOut)))
    case Exit(p) => if CanExit(h, p) then Some(HostExit(h, p)) else None
    case Dispose => Some(HostDispose(h))
  }

  const START: Host := Host(TsPeer(0, {}, map[], false), None, 0, {}, {})

  ghost predicate Trace(hs: seq<Host>, es: seq<Event>) {
    |hs| == |es| + 1 && forall i {:trigger es[i]} :: 0 <= i < |es| ==> Next(hs[i], es[i]) == Some(hs[i + 1])
  }

  predicate Inv(h: Host) {
    && h.peer.running == h.proc.Some?
    && (h.proc.Some? ==> h.proc.value < h.spawned)
    && (forall p :: p in h.awaited ==> p < h.spawned && h.proc != Some(p))
    && (forall p :: p in h.exited ==> p < h.spawned)
  }

  lemma {:induction false} InvAlways(hs: seq<Host>, es: seq<Event>, i: nat)
    requires Trace(hs, es) && hs[0] == START && i <= |es|
    ensures Inv(hs[i])
  {
    if i > 0 {
      InvAlways(hs, es, i - 1);
      assert Next(hs[i - 1], es[i - 1]) == Some(hs[i]);
    }
  }

  // ---------- What a call gets ----------

  /** The event ends the call with this identifier if it is outstanding, and how. */
  predicate Ends(e: Event, id: string) {
    (e.Answer? && e.text == id) || (e.Timer? && e.id == id) || e.Exit?
  }

  function EndOf(e: Event, id: string): Outcome
    requires Ends(e, id)
  {
    match e
    case Answer(_, reply) => Answered(reply)
    case Timer(_) => TimedOut
    case Exit(_) => ConnectionClosed
  }

  /** Position of the first event that ends the call, or -1. */
  function FirstEnd(es: seq<Event>, id: string): (n: int)
    ensures -1 <= n < |es|
    ensures n >= 0 ==> Ends(es[n], id)
    ensures forall k :: 0 <= k < (if n < 0 then |es| else n) ==> !Ends(es[k], id)
  {
    if es == [] then -1
    else
      var n := FirstEnd(es[..|es| - 1], id);
      if n < 0 && Ends(es[|es| - 1], id) then |es| - 1 else n
  }

  lemma EndStep(h: Host, e: Event, t: Host, id: string)
    requires Next(h, e) == Some(t)
    ensures id in h.peer.pending && !Ends(e, id) ==> id in t.peer.pending
    ensures id in h.peer.pending && Ends(e, id) ==>
              id !in t.peer.pending && id in t.peer.settled && t.peer.settled[id] == EndOf(e, id)
  {
  }

  /** Once over, a call's outcome stays. */
  lemma OverStays(h: Host, e: Event, t: Host, id: string)
    requires Next(h, e) == Some(t) && id !in h.peer.pending && id in h.peer.settled
    requires id != Id(Ts, h.peer.seqNo + 1)
    ensures id !in t.peer.pending && id in t.peer.settled && t.peer.settled[id] == h.peer.settled[id]
  {
  }

  /** The identifier of a call made before. */
  predicate Old(h: Host, id: string) {
    exists n: nat :: n <= h.peer.seqNo && id == Id(Ts, n)
  }

  lemma OldStays(h: Host, e: Event, t: Host, id: string)
    requires Next(h, e) == Some(t) && Old(h, id)
    ensures Old(t, id) && id != Id(Ts, h.peer.seqNo + 1)
  {
    var n: nat :| n <= h.peer.seqNo && id == Id(Ts, n);
    assert n <= t.peer.seqNo;
    if id == Id(Ts, h.peer.seqNo + 1) { IdInjective(Ts, n, Ts, h.peer.seqNo + 1); }
  }

  /** Over any run of calls, answers, timers, exits, starts and disposals, an outstanding call ends with
      the first event that can end it: its first answer, unless its timer or an exit came first. */
  lemma {:induction false} FirstEndWins(hs: seq<Host>, es: seq<Event>, i: nat, id: string)
    requires Trace(hs, es) && i <= |es| && id in hs[0].peer.pending && Old(hs[0], id)
    ensures Old(hs[i], id)
    ensures var n := FirstEnd(es[..i], id);
            if n < 0 then id in hs[i].peer.pending
            else
              && id !in hs[i].peer.pending && id in hs[i].peer.settled
              && hs[i].peer.settled[id]
                 == match es[n]
                    case Answer(_, reply) => Answered(reply)
                    case Timer(_) => TimedOut
                    case _ => ConnectionClosed
  {
    if i > 0 {
      FirstEndWins(hs, es, i - 1, id);
      assert Next(hs[i - 1], es[i - 1]) == Some(hs[i]);
      assert es[..i][..i - 1] == es[..i - 1];
      OldStays(hs[i - 1], es[i - 1], hs[i], id);
      if FirstEnd(es[..i - 1], id) < 0 {
        EndStep(hs[i - 1], es[i - 1], hs[i], id);
      } else {
        OverStays(hs[i - 1], es[i - 1], hs[i], id);
      }
    }
  }

  // ---------- When a disposal completes ----------

  /** A `dispose` waits for a process that has exited before: it waits for ever. */
  lemma {:induction false} WaitsForEver(hs: seq<Host>, es: seq<Event>, i: nat, p: nat)
    requires Trace(hs, es) && i <= |es| && p in hs[0].awaited && p in hs[0].exited
    ensures p in hs[i].awaited && p in hs[i].exited
  {
    if i > 0 {
      WaitsForEver(hs, es, i - 1, p);
      assert Next(hs[i - 1], es[i - 1]) == Some(hs[i]);
    }
  }

  /** A `dispose` ends its wait only with the exit event, and then nothing is outstanding. */
  lemma WaitEnds(h: Host, e: Event, t: Host, p: nat)
    requires Next(h, e) == Some(t) && p in h.awaited && p !in t.awaited
    ensures e == Exit(p) && t.peer.pending == {}
    ensures forall id :: id in h.peer.pending ==> id in t.peer.settled && t.peer.settled[id] == ConnectionClosed
  {
  }

  /** The disposal of p is over: some continuation has got there. */
  ghost predicate CanComplete(h: Host, p: nat) {
    exists hs: seq<Host>, es: seq<Event> :: Trace(hs, es) && hs[0] == h && p !in hs[|es|].awaited
  }

  /** The exact condition: in every state of every run with a current process, `dispose` can complete
      if and only if that process has not exited yet.  If it has, the calls then outstanding are
      left to their own timers. */
  lemma DisposeCompletesExactly(h: Host)
    requires Inv(h) && h.proc.Some?
    ensures CanComplete(HostDispose(h), h.proc.value) <==> h.proc.value !in h.exited
    ensures HostDispose(h).peer.pending == h.peer.pending && HostDispose(h).peer.settled == h.peer.settled
  {
    var p, d := h.proc.value, HostDispose(h);
    if p in h.exited {
      forall hs: seq<Host>, es: seq<Event> | Trace(hs, es) && hs[0] == d ensures p in hs[|es|].awaited {
        WaitsForEver(hs, es, |es|, p);
      }
    } else {
      var hs, es := [d, HostExit(d, p)], [Exit(p)];
      assert Trace(hs, es) && p !in hs[|es|].awaited;
    }
  }

  /** The order that hangs: the process exits, a call is made, and then `dispose` runs.  The call is
      outstanding, and no later event but its own reply or timer settles it. */
  lemma DisposeAfterExitHangs() returns (hs: seq<Host>, es: seq<Event>)
    ensures Trace(hs, es) && hs[0] == START && es == [Start, Exit(0), Event.Call, Dispose]
    ensures 0 in hs[4].awaited && !CanComplete(hs[4], 0) && hs[4].peer.pending == {Id(Ts, 2)}
  {
    var a := HostStart(START);
    var b := HostExit(a, 0);
    var c := b.(peer := TsRegister(b.peer));
    var d := HostDispose(c);
    hs, es := [START, a, b, c, d], [Start, Exit(0), Event.Call, Dispose];
    IdInjective(Ts, 1, Ts, 1);
    DisposeCompletesExactly(c);
  }

  // ---------- Whose calls an exit settles ----------

  /** The host, with the process each call was made to. */
  datatype Ledger = Ledger(h: Host, madeTo: map<string, nat>)

  function Entered(g: Ledger, p: nat): Ledger {
    g.(madeTo := g.madeTo[Id(Ts, g.h.peer.seqNo + 1) := p])
  }

  function NextLedger(g: Ledger, e: Event): Option<Ledger> {
    var h := Next(g.h, e);
    if h.None? then None
    else if e.Call? && g.h.proc.Some? then Some(Entered(g, g.h.proc.value).(h := h.value))
    else if e.Start? && g.h.proc.None? then Some(Entered(g, g.h.spawned).(h := h.value))
    else Some(g.(h := h.value))
  }

  ghost predicate LedgerTrace(gs: seq<Ledger>, es: seq<Event>) {
    |gs| == |es| + 1 && forall i {:trigger es[i]} :: 0 <= i < |es| ==> NextLedger(gs[i], es[i]) == Some(gs[i + 1])
  }

  ghost predicate LedgerInv(g: Ledger) {
    && Inv(g.h)
    && forall id :: id in g.h.peer.pending ==>
         id in g.madeTo && g.madeTo[id] < g.h.spawned && Issued(id, g.h.peer.seqNo)
  }

  lemma LedgerStep(g: Ledger, e: Event, t: Ledger)
    requires LedgerInv(g) && NextLedger(g, e) == Some(t)
    ensures LedgerInv(t)
  {
    IssuedNext(g.h.peer.seqNo);
    forall id | id in t.h.peer.pending
      ensures id in t.madeTo && t.madeTo[id] < t.h.spawned && Issued(id, t.h.peer.seqNo)
    {
      assert id in g.h.peer.pending || id == Id(Ts, g.h.peer.seqNo + 1);
    }
  }

  lemma {:induction false} LedgerAlways(gs: seq<Ledger>, es: seq<Event>, i: nat)
    requires LedgerTrace(gs, es) && (gs[0] == Ledger(START, map[]) || LedgerInv(gs[0])) && i <= |es|
    ensures LedgerInv(gs[i])
  {
    if i > 0 {
      LedgerAlways(gs, es, i - 1);
      assert NextLedger(gs[i - 1], es[i - 1]) == Some(gs[i]);
      LedgerStep(gs[i - 1], es[i - 1], gs[i]);
    }
  }

  /** Every outstanding call was made to process p. */
  ghost predicate AllMadeTo(g: Ledger, p: nat) {
    forall id :: id in g.h.peer.pending ==> id in g.madeTo && g.madeTo[id] == p
  }

  /** An exit settles the calls to its own process only. */
  ghost predicate OwnExit(g: Ledger, e: Event) {
    e.Exit? ==> AllMadeTo(g, e.p)
  }

  /** Whichever process can still exit, all outstanding calls were made to it, and so will the next
      ones be. */
  ghost predicate Unmixed(g: Ledger) {
    forall p :: CanExit(g.h, p) ==> AllMadeTo(g, p) && (g.h.proc.Some? ==> g.h.proc.value == p)
  }

  lemma UnmixedStep(g: Ledger, e: Event, t: Ledger)
    requires LedgerInv(g) && Unmixed(g) && !e.Start? && NextLedger(g, e) == Some(t)
    ensures Unmixed(t) && OwnExit(g, e)
  {
    forall p | CanExit(t.h, p) ensures AllMadeTo(t, p) && (t.h.proc.Some? ==> t.h.proc.value == p) {
      assert CanExit(g.h, p);
    }
  }

  /** A run without a restart. */
  ghost predicate NoRestart(gs: seq<Ledger>, es: seq<Event>) {
    LedgerTrace(gs, es) && forall i :: 0 <= i < |es| ==> !es[i].Start?
  }

  lemma {:induction false} UnmixedAlong(gs: seq<Ledger>, es: seq<Event>, i: nat)
    requires NoRestart(gs, es) && i <= |es| && LedgerInv(gs[0]) && Unmixed(gs[0])
    ensures Unmixed(gs[i])
  {
    if i > 0 {
      UnmixedAlong(gs, es, i - 1);
      LedgerAlways(gs, es, i - 1);
      assert NextLedger(gs[i - 1], es[i - 1]) == Some(gs[i]);
      UnmixedStep(gs[i - 1], es[i - 1], gs[i]);
    }
  }

  /** Some exit can settle a call made to another process. */
  ghost predicate CanMix(g: Ledger) {
    exists gs: seq<Ledger>, es: seq<Event>, i: nat ::
      NoRestart(gs, es) && gs[0] == g && i < |es| && !OwnExit(gs[i], es[i])
  }

  lemma MixedNow(g: Ledger, p: nat)
    requires CanExit(g.h, p) && !AllMadeTo(g, p)
    ensures CanMix(g)
  {
    var gs, es := [g, NextLedger(g, Exit(p)).value], [Exit(p)];
    assert NoRestart(gs, es) && gs[0] == g && !OwnExit(gs[0], es[0]);
  }

  lemma MixedByNextCall(g: Ledger, p: nat)
    requires LedgerInv(g) && CanExit(g.h, p) && g.h.proc.Some? && g.h.proc.value != p
    ensures CanMix(g)
  {
    var t := NextLedger(g, Event.Call).value;
    var id := Id(Ts, g.h.peer.seqNo + 1);
    assert id in t.h.peer.pending && t.madeTo[id] != p;
    var gs, es := [g, t, NextLedger(t, Exit(p)).value], [Event.Call, Exit(p)];
    assert NoRestart(gs, es) && gs[0] == g && !OwnExit(gs[1], es[1]);
  }

  /** The exact condition: in every state of every run, no exit settles a call made to another process
      before the next restart, if and only if each process that can still exit is the only one with
      outstanding calls, and the current one if there is one. */
  lemma ExitsMixExactly(g: Ledger)
    requires LedgerInv(g)
    ensures Unmixed(g) <==> !CanMix(g)
  {
    if Unmixed(g) {
      forall gs: seq<Ledger>, es: seq<Event>, i: nat | NoRestart(gs, es) && gs[0] == g && i < |es|
        ensures OwnExit(gs[i], es[i])
      {
        UnmixedAlong(gs, es, i);
        LedgerAlways(gs, es, i);
        assert NextLedger(gs[i], es[i]) == Some(gs[i + 1]);
        UnmixedStep(gs[i], es[i], gs[i + 1]);
      }
    } else {
      var p :| CanExit(g.h, p) && !(AllMadeTo(g, p) && (g.h.proc.Some? ==> g.h.proc.value == p));
      if AllMadeTo(g, p) { MixedByNextCall(g, p); } else { MixedNow(g, p); }
    }
  }

  /** At a start: it is safe if and only if no process can still exit and no call is outstanding. */
  lemma StartMixesExactly(g: Ledger)
    requires LedgerInv(g) && g.h.proc.None?
    ensures var t := NextLedger(g, Start).value;
            Unmixed(t) <==> g.h.peer.pending == {} && forall p :: !CanExit(g.h, p)
  {
    var t := NextLedger(g, Start).value;
    var next := Id(Ts, g.h.peer.seqNo + 1);
    IssuedNext(g.h.peer.seqNo);
    assert CanExit(t.h, g.h.spawned) && forall p :: CanExit(g.h, p) ==> CanExit(t.h, p);
    assert forall id :: id in g.h.peer.pending ==> id != next && t.madeTo[id] == g.madeTo[id];
    assert t.h.peer.pending == g.h.peer.pending + {next} && t.madeTo[next] == g.h.spawned;
    if Unmixed(t) {
      forall id ensures id !in g.h.peer.pending {
        assert id in g.h.peer.pending ==> id in t.h.peer.pending;
      }
      forall p ensures !CanExit(g.h, p) { assert CanExit(g.h, p) ==> CanExit(t.h, p) && p == g.h.spawned; }
    }
    if g.h.peer.pending == {} && forall p :: !CanExit(g.h, p) {
      forall p | CanExit(t.h, p) ensures p == g.h.spawned { assert !CanExit(g.h, p); }
      assert AllMadeTo(t, g.h.spawned);
    }
  }

  /** A restart before the old process has exited: that exit fails the new process's calls. */
  lemma LateExitFailsNewCalls() returns (hs: seq<Host>, es: seq<Event>)
    ensures Trace(hs, es) && hs[0] == START && es == [Start, Dispose, Start, Exit(0)]
    ensures hs[3].proc == Some(1) && Id(Ts, 2) in hs[3].peer.pending
    ensures hs[4].proc == Some(1) && 1 !in hs[4].exited
    ensures Id(Ts, 2) in hs[4].peer.settled && hs[4].peer.settled[Id(Ts, 2)] == ConnectionClosed
  {
    var a := HostStart(START);
    var b := HostDispose(a);
    var c := HostStart(b);
    var d := HostExit(c, 0);
    hs, es := [START, a, b, c, d], [Start, Dispose, Start, Exit(0)];
  }
}
