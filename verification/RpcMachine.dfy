/** Both peers at once: calls in both directions, messages handled in any order, timeouts, late
  replies, end of input and disposal.

  Messages are sets because every request and every reply to a request is sent once.
 */
module RpcMachine {
  import opened Options
  import opened RpcIds
  import opened RpcPeers

  /** A request as its caller made it; `side` and `num` give its identifier. */
  datatype Request = Request(side: Side, num: nat, name: string, params: Json)

  function IdOf(r: Request): string {
    Id(r.side, r.num)
  }

  datatype Response = Response(text: string, reply: Reply)

  datatype World = World(
    py: PyPeer, ts: TsPeer,
    pyMethods: set<string>, tsMethods: set<string>,
    queued: set<Request>,                       // registered by Python, not yet written
    toTs: set<Request>, toPy: set<Request>,     // requests on the wire
    atTs: set<Request>, atPy: set<Request>,     // requests being handled
    repliesToTs: set<Response>, repliesToPy: set<Response>,
    sent: map<string, Request>,                 // every call made, by identifier
    answers: map<string, (Request, Handled)>,   // what the handler did with which request
    pyDone: map<string, Outcome>)               // how Python's calls ended

  datatype Event =
    | PyCall(name: string, params: Json)
    | PyWrite(r: Request)
    | PyWriteFails(r: Request)
    | PyTimeout(r: Request)
    | PyReturn(r: Request)
    | PyTakeRequest(r: Request)
    | PyTakeReply(m: Response)
    | PyAnswer(r: Request, h: Handled)
    | PyBadLine(message: string)
    | PyEof
    | TsCall(name: string, params: Json)
    | TsTimer(id: string)
    | TsTakeRequest(r: Request)
    | TsTakeReply(m: Response)
    | TsAnswer(r: Request, h: Handled)
    | TsExit
    | TsDispose

  /** The answer of the peer that the request went to, whose handler did this. */
  function AnswerTo(w: World, r: Request, h: Handled): Reply {
    if r.side.Py? then TsDispatch(w.tsMethods, r.name, h) else PyDispatch(w.pyMethods, r.name, h)
  }

  /** An unknown method is answered as such; a known one with what its handler did: its result, an
      RpcError of a Python handler with its own code, any other exception as an internal error. */
  lemma AnswersAreDispatched(w: World, r: Request, h: Handled)
    ensures AnswerTo(w, r, h)
            == if r.name !in (if r.side.Py? then w.tsMethods else w.pyMethods)
               then Error(-32601, "method not found: " + r.name, None)
               else match h
                    case Gave(value) => Result(value)
                    case RaisedRpc(code, message) => Error(if r.side.Py? then -32603 else code, message, None)
                    case Raised(message, own) => Error(-32603, message, if r.side.Py? then None else own)
  {
  }

  /** Python's call r is written and waits for its future. */
  predicate Awaited(w: World, r: Request) {
    r !in w.queued && IdOf(r) in w.py.pending && IdOf(r) in w.sent && w.sent[IdOf(r)] == r
  }

  /** The answer goes out only while there is a process to write to. */
  function NextTsAnswer(w: World, r: Request, h: Handled): World {
    var replied := w.(atTs := w.atTs - {r}, answers := w.answers[IdOf(r) := (r, h)]);
    if w.ts.running
    then replied.(repliesToPy := w.repliesToPy + {Response(IdOf(r), TsDispatch(w.tsMethods, r.name, h))}) else replied
  }

  function Next(w: World, e: Event): Option<World> {
    match e
    case PyCall(name, params) =>
      var r := Request(Py, w.py.next, name, params);
      Some(w.(py := PyRegister(w.py), queued := w.queued + {r}, sent := w.sent[IdOf(r) := r]))
    case PyWrite(r) =>
      if r in w.queued then Some(w.(queued := w.queued - {r}, toTs := w.toTs + {r})) else None
    case PyWriteFails(r) =>
      if r in w.queued
      then Some(w.(queued := w.queued - {r}, py := PyDrop(w.py, IdOf(r)), pyDone := w.pyDone[IdOf(r) := SendFailed]))
      else None
    case PyTimeout(r) =>
      if Awaited(w, r) && w.py.pending[IdOf(r)].Waiting?
      then Some(w.(py := PyDrop(w.py, IdOf(r)), pyDone := w.pyDone[IdOf(r) := TimedOut]))
      else None
    case PyReturn(r) =>
      if Awaited(w, r) && w.py.pending[IdOf(r)].Settled?
      then Some(w.(py := PyDrop(w.py, IdOf(r)), pyDone := w.pyDone[IdOf(r) := w.py.pending[IdOf(r)].outcome]))
      else None
    case PyTakeRequest(r) =>
      if r in w.toPy && w.py.open then Some(w.(toPy := w.toPy - {r}, atPy := w.atPy + {r})) else None
    case PyTakeReply(m) =>
      if m in w.repliesToPy && w.py.open
      then Some(w.(repliesToPy := w.repliesToPy - {m}, py := PyReceive(w.py, m.text, m.reply)))
      else None
    case PyAnswer(r, h) =>
      if r in w.atPy
      then Some(w.(atPy := w.atPy - {r}, answers := w.answers[IdOf(r) := (r, h)],
                   repliesToTs := w.repliesToTs + {Response(IdOf(r), PyDispatch(w.pyMethods, r.name, h))}))
      else None
    case PyBadLine(message) =>
      if w.py.open
      then Some(w.(repliesToTs := w.repliesToTs + {Response("null", Error(PARSE_ERROR, message, None))}))
      else None
    case PyEof => Some(w.(py := PyClose(w.py)))
    case TsCall(name, params) =>
      var r := Request(Ts, w.ts.seqNo + 1, name, params);
      if w.ts.running
      then Some(w.(ts := TsRegister(w.ts), toPy := w.toPy + {r}, sent := w.sent[IdOf(r) := r]))
      else None
    case TsTimer(id) =>
      if id in w.ts.pending then Some(w.(ts := TsSettle(w.ts, id, TimedOut))) else None
    case TsTakeRequest(r) =>
      if r in w.toTs then Some(w.(toTs := w.toTs - {r}, atTs := w.atTs + {r})) else None
    case TsTakeReply(m) =>
      if m in w.repliesToTs
      then Some(w.(repliesToTs := w.repliesToTs - {m}, ts := TsSettle(w.ts, m.text, Answered(m.reply))))
      else None
    case TsAnswer(r, h) => if r in w.atTs then Some(NextTsAnswer(w, r, h)) else None
    case TsExit => Some(w.(ts := TsFailAll(w.ts)))
    case TsDispose => Some(w.(ts := w.ts.(running := false)))
  }

  predicate Init(w: World) {
    && w.py == PyPeer(1, map[], true) && w.ts == TsPeer(0, {}, map[], true)
    && w.queued == w.toTs == w.toPy == w.atTs == w.atPy == {}
    && w.repliesToTs == w.repliesToPy == {}
    && w.sent == map[] && w.answers == map[] && w.pyDone == map[]
  }

  ghost predicate Trace(ws: seq<World>, es: seq<Event>) {
    |ws| == |es| + 1 && forall i {:trigger es[i]} :: 0 <= i < |es| ==> Next(ws[i], es[i]) == Some(ws[i + 1])
  }

  // ---------- The invariant ----------

  /** Every recorded call sits under its own identifier, from a counter value already used. */
  ghost predicate CallsOk(w: World) {
    && (forall id :: id in w.sent ==> IdOf(w.sent[id]) == id)
    && (forall id :: id in w.sent && w.sent[id].side.Py? ==> w.sent[id].num < w.py.next)
    && (forall id :: id in w.sent && w.sent[id].side.Ts? ==> w.sent[id].num <= w.ts.seqNo)
  }

  /** A call is outstanding or over, never both. */
  ghost predicate Accounted(w: World) {
    && (forall id :: id in w.sent && w.sent[id].side.Py? ==> (id in w.py.pending <==> id !in w.pyDone))
    && (forall id :: id in w.sent && w.sent[id].side.Ts? ==> (id in w.ts.pending <==> id !in w.ts.settled))
    && (forall id :: id in w.py.pending || id in w.pyDone ==> id in w.sent && w.sent[id].side.Py?)
    && (forall id :: id in w.ts.pending || id in w.ts.settled ==> id in w.sent && w.sent[id].side.Ts?)
  }

  predicate Known(w: World, r: Request, side: Side) {
    IdOf(r) in w.sent && w.sent[IdOf(r)] == r && r.side == side && IdOf(r) !in w.answers
  }

  /** Every request is in at most one place, as its caller made it, and not yet answered. */
  ghost predicate RequestsOk(w: World) {
    && (forall r :: r in w.queued ==> Known(w, r, Py) && r !in w.toTs && r !in w.atTs)
    && (forall r :: r in w.toTs ==> Known(w, r, Py) && r !in w.atTs)
    && (forall r :: r in w.atTs ==> Known(w, r, Py))
    && (forall r :: r in w.toPy ==> Known(w, r, Ts) && r !in w.atPy)
    && (forall r :: r in w.atPy ==> Known(w, r, Ts))
    && (forall r :: r in w.queued ==> IdOf(r) in w.py.pending)
  }

  /** The reply is what the other side's handler made of exactly this call. */
  predicate Earned(w: World, id: string, reply: Reply) {
    && id in w.sent && id in w.answers
    && w.answers[id].0 == w.sent[id] && reply == AnswerTo(w, w.sent[id], w.answers[id].1)
  }

  predicate OutcomeOk(w: World, id: string, o: Outcome) {
    o.Answered? ==> Earned(w, id, o.reply)
  }

  ghost predicate RepliesOk(w: World) {
    && (forall m :: m in w.repliesToTs ==> NoId(m.text) || Earned(w, m.text, m.reply))
    && (forall m :: m in w.repliesToPy ==> NoId(m.text) || Earned(w, m.text, m.reply))
    && (forall id :: id in w.answers ==> id in w.sent && w.answers[id].0 == w.sent[id])
    && (forall id :: id in w.py.pending && w.py.pending[id].Settled? ==> OutcomeOk(w, id, w.py.pending[id].outcome))
    && (forall id :: id in w.pyDone ==> OutcomeOk(w, id, w.pyDone[id]))
    && (forall id :: id in w.ts.settled ==> OutcomeOk(w, id, w.ts.settled[id]))
  }

  ghost predicate Inv(w: World) {
    CallsOk(w) && Accounted(w) && RequestsOk(w) && RepliesOk(w)
  }
}
