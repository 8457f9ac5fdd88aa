/** Restarts of the Python process, seen from Python's calls: each process counts its calls from 1,
  while TypeScript's handlers outlive the process they were called by and answer to whatever process
  is there when they end.
 */
module RpcRestarts {
  import opened Options
  import opened RpcPeers

  /** A call of one process; its identifier is given by `num` alone. */
  datatype Req = Req(proc: nat, num: nat, name: string, params: Json)

  /** `sent` has every call made, `waiting` those outstanding, and `got` whose answer a call was given;
      `wire` and `handling` are with TypeScript, `replies` on their way to a process. */
  datatype State = State(
    current: Option<nat>, spawned: nat, exited: set<nat>, made: map<nat, nat>,
    sent: map<(nat, nat), Req>, waiting: set<(nat, nat)>, got: map<(nat, nat), Req>,
    wire: set<Req>, handling: set<Req>, replies: set<(nat, Req)>)

  datatype Event =
    | Start
    | Dispose
    | Exit(p: nat)
    | Call(p: nat, name: string, params: Json)
    | Read(r: Req)
    | Answer(r: Req)
    | Take(p: nat, r: Req)
    | TimeOut(p: nat, num: nat)

  predicate Alive(s: State, p: nat) {
    p < s.spawned && p !in s.exited
  }

  function Made(s: State, p: nat): nat {
    if p in s.made then s.made[p] else 0
  }

  function NextCall(s: State, p: nat, name: string, params: Json): State {
    var r := Req(p, Made(s, p) + 1, name, params);
    s.(made := s.made[p := r.num], sent := s.sent[(p, r.num) := r], waiting := s.waiting + {(p, r.num)},
       wire := s.wire + {r})
  }

  /** The process finds its call by the number alone. */
  function NextTake(s: State, p: nat, r: Req): State {
    var read := s.(replies := s.replies - {(p, r)});
    if (p, r.num) in s.waiting
    then read.(waiting := s.waiting - {(p, r.num)}, got := s.got[(p, r.num) := r]) else read
  }

  function Next(s: State, e: Event): Option<State> {
    match e
    case Start =>
      if s.current.None? then Some(s.(current := Some(s.spawned), spawned := s.spawned + 1)) else None
    case Dispose => Some(s.(current := None))
    case Exit(p) => if Alive(s, p) then Some(s.(exited := s.exited + {p})) else None
    case Call(p, name, params) => if Alive(s, p) then Some(NextCall(s, p, name, params)) else None
    case Read(r) =>
      if r in s.wire then Some(s.(wire := s.wire - {r}, handling := s.handling + {r})) else None
    case Answer(r) =>
      if r !in s.handling then None
      else
        var ended := s.(handling := s.handling - {r});
        Some(if s.current.Some? then ended.(replies := s.replies + {(s.current.value, r)}) else ended)
    case Take(p, r) => if Alive(s, p) && (p, r) in s.replies then Some(NextTake(s, p, r)) else None
    case TimeOut(p, num) => Some(s.(waiting := s.waiting - {(p, num)}))
  }

  ghost predicate Trace(ss: seq<State>, es: seq<Event>) {
    |ss| == |es| + 1 && forall i {:trigger es[i]} :: 0 <= i < |es| ==> Next(ss[i], es[i]) == Some(ss[i + 1])
  }

  predicate Init(s: State) {
    s == State(None, 0, {}, map[], map[], {}, map[], {}, {}, {})
  }

  // ---------- What holds in every run ----------

  predicate Known(s: State, r: Req) {
    (r.proc, r.num) in s.sent && s.sent[(r.proc, r.num)] == r && r.proc < s.spawned
  }

  ghost predicate Inv(s: State) {
    && (forall p :: p in s.made || p in s.exited ==> p < s.spawned)
    && (s.current.Some? ==> s.current.value < s.spawned)
    && (forall k :: k in s.sent ==> 0 < k.1 <= Made(s, k.0))
    && (forall r :: r in s.wire || r in s.handling ==> Known(s, r))
    && (forall x :: x in s.replies ==> Known(s, x.1) && x.0 < s.spawned)
    && (forall k :: k in s.got ==> Known(s, s.got[k]) && s.got[k].num == k.1 && k in s.sent)
    && (forall k :: k in s.waiting ==> k in s.sent && k !in s.got)
  }

  lemma InvStep(s: State, e: Event, t: State)
    requires Inv(s) && Next(s, e) == Some(t)
    ensures Inv(t)
  {
    match e
    case Call(p, name, params) => CallKeeps(s, p, name, params);
    case Take(p, r) => TakeKeeps(s, p, r);
    case Answer(r) => AnswerKeeps(s, r, t);
    case _ =>
  }

  lemma AnswerKeeps(s: State, r: Req, t: State)
    requires Inv(s) && Next(s, Answer(r)) == Some(t)
    ensures Inv(t)
  {
  }

  lemma CallKeeps(s: State, p: nat, name: string, params: Json)
    requires Inv(s) && p < s.spawned
    ensures Inv(NextCall(s, p, name, params))
  {
    var t := NextCall(s, p, name, params);
    KnownKept(s, p, name, params);
    assert forall q :: Made(s, q) <= Made(t, q);
  }

  lemma KnownKept(s: State, p: nat, name: string, params: Json)
    requires p < s.spawned && forall k :: k in s.sent ==> k.1 <= Made(s, k.0)
    ensures var t, r := NextCall(s, p, name, params), Req(p, Made(s, p) + 1, name, params);
            (forall q :: Known(s, q) ==> Known(t, q)) && Known(t, r) && (p, r.num) !in s.sent
  {
  }

  lemma TakeKeeps(s: State, p: nat, r: Req)
    requires Inv(s) && (p, r) in s.replies
    ensures Inv(NextTake(s, p, r))
  {
  }

  lemma {:induction false} InvAlways(ss: seq<State>, es: seq<Event>, i: nat)
    requires Trace(ss, es) && Init(ss[0]) && i <= |es|
    ensures Inv(ss[i])
  {
    if i > 0 {
      InvAlways(ss, es, i - 1);
      assert Next(ss[i - 1], es[i - 1]) == Some(ss[i]);
      InvStep(ss[i - 1], es[i - 1], ss[i]);
    }
  }

  /** The call was given the answer to another call, of another process. */
  predicate Wrong(s: State, k: (nat, nat)) {
    k in s.got && s.got[k].proc != k.0
  }

  /** Every call not wronged has the answer to exactly itself. */
  lemma RightAnswer(s: State, k: (nat, nat))
    requires Inv(s) && k in s.got && !Wrong(s, k)
    ensures k in s.sent && s.got[k] == s.sent[k]
  {
  }

  // ---------- A clean start ----------

  /** No earlier process can call any more, and no call of one is with TypeScript. */
  ghost predicate Clean(s: State) {
    s.wire == {} && s.handling == {} && forall p: nat :: p < s.spawned ==> p in s.exited
  }

  /** Only process n lives, and everything with TypeScript or on its way to n is n's own. */
  ghost predicate OnlyOne(s: State, n: nat) {
    && s.spawned == n + 1 && (forall p: nat :: p < n ==> p in s.exited) && (s.current.Some? ==> s.current.value == n)
    && (forall r :: r in s.wire || r in s.handling ==> r.proc == n)
    && (forall r :: (n, r) in s.replies ==> r.proc == n)
  }

  lemma OnlyOneStep(s: State, e: Event, t: State, n: nat)
    requires OnlyOne(s, n) && !e.Start? && Next(s, e) == Some(t)
    ensures OnlyOne(t, n)
    ensures forall k :: Wrong(t, k) ==> Wrong(s, k)
  {
  }

  ghost predicate NoRestart(ss: seq<State>, es: seq<Event>) {
    Trace(ss, es) && forall i :: 0 <= i < |es| ==> !es[i].Start?
  }

  lemma {:induction false} OnlyOneAlong(ss: seq<State>, es: seq<Event>, i: nat, n: nat)
    requires NoRestart(ss, es) && i <= |es| && OnlyOne(ss[0], n)
    ensures OnlyOne(ss[i], n)
    ensures forall k :: Wrong(ss[i], k) ==> Wrong(ss[0], k)
  {
    if i > 0 {
      OnlyOneAlong(ss, es, i - 1, n);
      assert Next(ss[i - 1], es[i - 1]) == Some(ss[i]);
      OnlyOneStep(ss[i - 1], es[i - 1], ss[i], n);
    }
  }

  // ---------- Any other start ----------

  ghost predicate Path(s: State, t: State) {
    exists ss: seq<State>, es: seq<Event> :: NoRestart(ss, es) && ss[0] == s && ss[|es|] == t
  }

  lemma PathHere(s: State)
    ensures Path(s, s)
  {
    assert NoRestart([s], []) && [s][0] == s;
  }

  lemma Step(s: State, t: State, e: Event) returns (u: State)
    requires Path(s, t) && Next(t, e).Some? && !e.Start?
    ensures Next(t, e) == Some(u) && Path(s, u)
  {
    u := Next(t, e).value;
    var ss: seq<State>, es: seq<Event> :| NoRestart(ss, es) && ss[0] == s && ss[|es|] == t;
    var ss', es' := ss + [u], es + [e];
    forall i | 0 <= i < |es'| ensures Next(ss'[i], es'[i]) == Some(ss'[i + 1]) {
      if i < |es| { assert es'[i] == es[i] && ss'[i] == ss[i] && ss'[i + 1] == ss[i + 1]; }
    }
    assert NoRestart(ss', es') && ss'[0] == s && ss'[|es'|] == u;
  }

  /** The new process makes its calls up to this number. */
  lemma {:induction false} CallsUpTo(s0: State, s: State, n: nat, num: nat) returns (t: State)
    requires Path(s0, s) && Alive(s, n) && Made(s, n) < num
    ensures Path(s0, t) && (n, num) in t.waiting && t.handling == s.handling && t.current == s.current
    ensures t.got == s.got && t.exited == s.exited && t.spawned == s.spawned
    decreases num - Made(s, n)
  {
    t := Step(s0, s, Event.Call(n, "method", "params"));
    if Made(t, n) < num { t := CallsUpTo(s0, t, n, num); }
  }

  /** A handler called by an earlier process answers a call of the new one. */
  lemma HandlerMisleads(s0: State, s: State, n: nat, r: Req) returns (t: State)
    requires Path(s0, s) && s.current == Some(n) && Alive(s, n) && Made(s, n) == 0
    requires r in s.handling && r.proc != n && r.num > 0
    ensures Path(s0, t) && Wrong(t, (n, r.num))
  {
    t := CallsUpTo(s0, s, n, r.num);
    t := Step(s0, t, Answer(r));
    t := Step(s0, t, Take(n, r));
  }

  /** A call of an earlier process is with TypeScript, or can still be made. */
  lemma EarlierMisleads(s0: State, s: State, n: nat, r: Req) returns (t: State)
    requires Path(s0, s) && s.current == Some(n) && Alive(s, n) && Made(s, n) == 0
    requires (r in s.wire || r in s.handling) && r.proc != n && r.num > 0
    ensures Path(s0, t) && Wrong(t, (n, r.num))
  {
    t := s;
    if r !in s.handling { t := Step(s0, s, Read(r)); }
    t := HandlerMisleads(s0, t, n, r);
  }

  lemma LiveMisleads(s0: State, s: State, n: nat, p: nat) returns (t: State, k: (nat, nat))
    requires Path(s0, s) && s.current == Some(n) && Alive(s, n) && Made(s, n) == 0 && Alive(s, p) && p != n
    ensures Path(s0, t) && Wrong(t, k) && k.0 == n
  {
    var r := Req(p, Made(s, p) + 1, "method", "params");
    t := Step(s0, s, Event.Call(p, r.name, r.params));
    t := EarlierMisleads(s0, t, n, r);
    k := (n, r.num);
  }

  /** Some call can newly be given another one's answer before the next restart. */
  ghost predicate CanMislead(s: State) {
    exists t, k :: Path(s, t) && Wrong(t, k) && !Wrong(s, k)
  }

  lemma UncleanMisleads(s: State)
    requires Inv(s) && s.current.None? && !Clean(s)
    ensures CanMislead(Next(s, Start).value)
  {
    var t, n := Next(s, Start).value, s.spawned;
    PathHere(t);
    var u, k;
    if r :| r in s.wire || r in s.handling {
      u := EarlierMisleads(t, t, n, r);
      k := (n, r.num);
    } else {
      var p: nat :| p < s.spawned && p !in s.exited;
      u, k := LiveMisleads(t, t, n, p);
    }
    assert k !in t.got;
    assert Wrong(u, k) && !Wrong(t, k);
  }

  /** The exact condition, at a restart: no call is newly given the answer to another one before the
      next restart, if and only if every earlier process has exited and TypeScript has none of their
      calls left, unread or in a handler. */
  lemma RestartMisleadsExactly(s: State)
    requires Inv(s) && s.current.None?
    ensures Clean(s) <==> !CanMislead(Next(s, Start).value)
  {
    var t := Next(s, Start).value;
    if Clean(s) {
      forall r ensures (s.spawned, r) !in s.replies {
        var x := (s.spawned, r);
        assert x in s.replies ==> x.0 < s.spawned;
      }
      forall u, k | Path(t, u) && Wrong(u, k) ensures Wrong(t, k) {
        var ss: seq<State>, es: seq<Event> :| NoRestart(ss, es) && ss[0] == t && ss[|es|] == u;
        OnlyOneAlong(ss, es, |es|, s.spawned);
      }
    } else {
      UncleanMisleads(s);
    }
  }
}
