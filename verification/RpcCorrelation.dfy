/** Request/response correlation over every interleaving of the two peers. */
module RpcCorrelation {
  import opened Options
  import opened RpcIds
  import opened RpcPeers
  import opened RpcMachine

  lemma FreshIds(w: World)
    requires CallsOk(w)
    ensures Id(Py, w.py.next) !in w.sent && Id(Ts, w.ts.seqNo + 1) !in w.sent
  {
    var p, t := Id(Py, w.py.next), Id(Ts, w.ts.seqNo + 1);
    if p in w.sent { IdInjective(w.sent[p].side, w.sent[p].num, Py, w.py.next); }
    if t in w.sent { IdInjective(w.sent[t].side, w.sent[t].num, Ts, w.ts.seqNo + 1); }
  }

  /** The records only grow: no call is forgotten or rewritten, no answer and no outcome replaced. */
  ghost predicate Grows(w: World, v: World) {
    && w.pyMethods == v.pyMethods && w.tsMethods == v.tsMethods
    && (forall id :: id in w.sent ==> id in v.sent && v.sent[id] == w.sent[id])
    && (forall id :: id in w.answers ==> id in v.answers && v.answers[id] == w.answers[id])
    && (forall id :: id in w.pyDone ==> id in v.pyDone && v.pyDone[id] == w.pyDone[id])
    && (forall id :: id in w.ts.settled ==> id in v.ts.settled && v.ts.settled[id] == w.ts.settled[id])
  }

  /** Only calls that were made have answers. */
  predicate AnswersKnown(w: World) {
    forall id :: id in w.answers ==> id in w.sent
  }

  lemma NoIdUnknown(w: World, text: string)
    requires CallsOk(w) && NoId(text)
    ensures text !in w.sent
  {
    if text in w.sent { NoIdIsNoRequest(text, w.sent[text].side, w.sent[text].num); }
  }

  /** An unanswered call has no other request anywhere. */
  lemma AnsweredOnce(w: World, r: Request, v: World, h: Handled)
    requires RequestsOk(w) && RepliesOk(w) && (r in w.atPy || r in w.atTs)
    requires v.answers == w.answers[IdOf(r) := (r, h)] && v.sent == w.sent
    requires v.pyMethods == w.pyMethods && v.tsMethods == w.tsMethods
    ensures Earned(v, IdOf(r), AnswerTo(w, r, h))
    ensures forall id, x :: Earned(w, id, x) ==> Earned(v, id, x)
    ensures forall id :: id in v.answers ==> id in v.sent && v.answers[id].0 == v.sent[id]
  {
    assert Known(w, r, Py) || Known(w, r, Ts);
  }

  /** Replies stay earned while the calls and the answers do not change. */
  lemma EarnedFramed(w: World, v: World)
    requires v.sent == w.sent && v.answers == w.answers && v.pyMethods == w.pyMethods && v.tsMethods == w.tsMethods
    ensures forall id, x :: Earned(w, id, x) <==> Earned(v, id, x)
  {
  }

  // ---------- Each step keeps each part of the invariant ----------

  lemma FramedKeepsCalls(w: World, e: Event, v: World)
    requires CallsOk(w) && Accounted(w)
    requires e.PyWrite? || e.PyTakeRequest? || e.TsTakeRequest? || e.PyBadLine? || e.TsDispose?
    requires Next(w, e) == Some(v)
    ensures CallsOk(v) && Accounted(v)
  {
  }

  lemma PyAnswerKeepsCalls(w: World, e: Event, v: World)
    requires CallsOk(w) && Accounted(w) && e.PyAnswer? && Next(w, e) == Some(v)
    ensures CallsOk(v) && Accounted(v)
  {
  }

  lemma TsAnswerKeepsCalls(w: World, e: Event, v: World)
    requires CallsOk(w) && Accounted(w) && e.TsAnswer? && Next(w, e) == Some(v)
    ensures CallsOk(v) && Accounted(v)
  {
    assert v.sent == w.sent && v.py == w.py && v.ts == w.ts && v.pyDone == w.pyDone;
  }

  lemma PySetKeepsCalls(w: World, e: Event, v: World)
    requires CallsOk(w) && Accounted(w) && (e.PyEof? || e.PyTakeReply?) && Next(w, e) == Some(v)
    ensures CallsOk(v) && Accounted(v)
  {
  }

  lemma PyCallKeepsCalls(w: World, e: Event, v: World)
    requires CallsOk(w) && Accounted(w) && e.PyCall? && Next(w, e) == Some(v)
    ensures CallsOk(v) && Accounted(v)
  {
    FreshIds(w);
  }

  lemma TsCallNumbered(w: World, e: Event, v: World)
    requires CallsOk(w) && e.TsCall? && Next(w, e) == Some(v)
    ensures CallsOk(v)
  {
  }

  lemma TsCallAccounted(w: World, e: Event, v: World)
    requires CallsOk(w) && Accounted(w) && e.TsCall? && Next(w, e) == Some(v)
    ensures Accounted(v)
  {
    FreshIds(w);
  }

  lemma PyEndKeepsCalls(w: World, e: Event, v: World)
    requires CallsOk(w) && Accounted(w) && RequestsOk(w) && (e.PyWriteFails? || e.PyTimeout? || e.PyReturn?)
    requires Next(w, e) == Some(v)
    ensures CallsOk(v) && Accounted(v)
  {
    if e.PyWriteFails? { assert Known(w, e.r, Py); }
  }

  lemma TsEndKeepsCalls(w: World, e: Event, v: World)
    requires CallsOk(w) && Accounted(w) && (e.TsTimer? || e.TsTakeReply?) && Next(w, e) == Some(v)
    ensures CallsOk(v) && Accounted(v)
  {
  }

  lemma TsExitKeepsCalls(w: World, e: Event, v: World)
    requires CallsOk(w) && Accounted(w) && e.TsExit? && Next(w, e) == Some(v)
    ensures CallsOk(v) && Accounted(v)
  {
  }

  lemma FramedKeepsRequests(w: World, e: Event, v: World)
    requires RequestsOk(w) && (e.PyBadLine? || e.TsDispose?) && Next(w, e) == Some(v)
    ensures Grows(w, v) && RequestsOk(v)
  {
  }

  lemma PySetKeepsRequests(w: World, e: Event, v: World)
    requires RequestsOk(w) && (e.PyEof? || e.PyTakeReply?) && Next(w, e) == Some(v)
    ensures Grows(w, v) && RequestsOk(v)
  {
  }

  lemma TsEndKeepsRequests(w: World, e: Event, v: World)
    requires CallsOk(w) && Accounted(w) && RequestsOk(w) && (e.TsTakeReply? || e.TsTimer?) && Next(w, e) == Some(v)
    ensures Grows(w, v) && RequestsOk(v)
  {
  }

  lemma TsExitKeepsRequests(w: World, e: Event, v: World)
    requires CallsOk(w) && Accounted(w) && RequestsOk(w) && e.TsExit? && Next(w, e) == Some(v)
    ensures Grows(w, v) && RequestsOk(v)
  {
  }

  lemma EndedKeepsRequests(w: World, e: Event, v: World)
    requires CallsOk(w) && Accounted(w) && RequestsOk(w) && (e.PyTimeout? || e.PyReturn?) && Next(w, e) == Some(v)
    ensures Grows(w, v) && RequestsOk(v)
  {
  }

  lemma MovedKeepsRequests(w: World, e: Event, v: World)
    requires RequestsOk(w) && (e.PyWrite? || e.PyTakeRequest? || e.TsTakeRequest?) && Next(w, e) == Some(v)
    ensures Grows(w, v) && RequestsOk(v)
  {
  }

  lemma PyCallKeepsRequests(w: World, e: Event, v: World)
    requires CallsOk(w) && Accounted(w) && RequestsOk(w) && AnswersKnown(w) && e.PyCall? && Next(w, e) == Some(v)
    ensures RequestsOk(v)
  {
    PyCallKnown(w, e, v);
    assert v.toTs == w.toTs && v.atTs == w.atTs && v.toPy == w.toPy && v.atPy == w.atPy;
  }

  lemma PyCallKnown(w: World, e: Event, v: World)
    requires CallsOk(w) && AnswersKnown(w) && e.PyCall? && Next(w, e) == Some(v)
    ensures forall r, side :: Known(w, r, side) ==> Known(v, r, side)
    ensures Known(v, Request(Py, w.py.next, e.name, e.params), Py)
    ensures forall r, side :: Known(w, r, side) ==> r != Request(Py, w.py.next, e.name, e.params)
  {
    FreshIds(w);
  }

  lemma PyCallGrows(w: World, e: Event, v: World)
    requires CallsOk(w) && Accounted(w) && e.PyCall? && Next(w, e) == Some(v)
    ensures Grows(w, v)
  {
    FreshIds(w);
  }

  lemma TsCallGrows(w: World, e: Event, v: World)
    requires CallsOk(w) && e.TsCall? && Next(w, e) == Some(v)
    ensures Grows(w, v)
  {
    FreshIds(w);
  }

  /** What was known stays so, and the new request is. */
  lemma TsCallKnown(w: World, e: Event, v: World)
    requires CallsOk(w) && AnswersKnown(w) && e.TsCall? && Next(w, e) == Some(v)
    ensures forall r, side :: Known(w, r, side) ==> Known(v, r, side)
    ensures Known(v, Request(Ts, w.ts.seqNo + 1, e.name, e.params), Ts)
    ensures forall r, side :: Known(w, r, side) ==> r != Request(Ts, w.ts.seqNo + 1, e.name, e.params)
  {
    FreshIds(w);
  }

  lemma TsCallKeepsRequests(w: World, e: Event, v: World)
    requires CallsOk(w) && RequestsOk(w) && AnswersKnown(w) && e.TsCall? && Next(w, e) == Some(v)
    ensures RequestsOk(v)
  {
    TsCallKnown(w, e, v);
    assert v.queued == w.queued && v.toTs == w.toTs && v.atTs == w.atTs && v.atPy == w.atPy && v.py == w.py;
  }

  lemma PyFailKeepsRequests(w: World, e: Event, v: World)
    requires CallsOk(w) && Accounted(w) && RequestsOk(w) && e.PyWriteFails? && Next(w, e) == Some(v)
    ensures Grows(w, v) && RequestsOk(v)
  {
    assert Known(w, e.r, Py);
  }

  lemma PyAnswerKeepsRequests(w: World, e: Event, v: World)
    requires RequestsOk(w) && e.PyAnswer? && Next(w, e) == Some(v)
    ensures Grows(w, v) && RequestsOk(v)
  {
    assert Known(w, e.r, Ts);
  }

  lemma TsAnswerKeepsRequests(w: World, e: Event, v: World)
    requires RequestsOk(w) && e.TsAnswer? && Next(w, e) == Some(v)
    ensures Grows(w, v) && RequestsOk(v)
  {
    assert Known(w, e.r, Py);
  }

  lemma WriteKeepsReplies(w: World, e: Event, v: World)
    requires RepliesOk(w) && (e.PyWrite? || e.PyTakeRequest?) && Next(w, e) == Some(v)
    requires Grows(w, v)
    ensures RepliesOk(v)
  {
  }

  lemma FramedKeepsReplies(w: World, e: Event, v: World)
    requires RepliesOk(w) && (e.TsTakeRequest? || e.TsDispose?) && Next(w, e) == Some(v)
    requires Grows(w, v)
    ensures RepliesOk(v)
  {
  }

  lemma PyCallKeepsReplies(w: World, e: Event, v: World)
    requires RepliesOk(w) && e.PyCall? && Next(w, e) == Some(v)
    requires Grows(w, v)
    ensures RepliesOk(v)
  {
  }

  lemma TsCallKeepsReplies(w: World, e: Event, v: World)
    requires RepliesOk(w) && e.TsCall? && Next(w, e) == Some(v)
    requires Grows(w, v)
    ensures RepliesOk(v)
  {
  }

  lemma PyEndKeepsReplies(w: World, e: Event, v: World)
    requires Accounted(w) && RepliesOk(w) && (e.PyWriteFails? || e.PyTimeout?) && Next(w, e) == Some(v)
    requires Grows(w, v)
    ensures RepliesOk(v)
  {
  }

  lemma PyReturnKeepsReplies(w: World, e: Event, v: World)
    requires Accounted(w) && RepliesOk(w) && e.PyReturn? && Next(w, e) == Some(v)
    requires Grows(w, v)
    ensures RepliesOk(v)
  {
  }

  lemma TimerKeepsReplies(w: World, e: Event, v: World)
    requires Accounted(w) && RepliesOk(w) && e.TsTimer? && Next(w, e) == Some(v)
    requires Grows(w, v)
    ensures RepliesOk(v)
  {
  }

  lemma ExitKeepsReplies(w: World, e: Event, v: World)
    requires Accounted(w) && RepliesOk(w) && e.TsExit? && Next(w, e) == Some(v)
    requires Grows(w, v)
    ensures RepliesOk(v)
  {
  }

  lemma EofKeepsReplies(w: World, e: Event, v: World)
    requires RepliesOk(w) && e.PyEof? && Next(w, e) == Some(v)
    requires Grows(w, v)
    ensures RepliesOk(v)
  {
  }

  lemma BadLineKeepsReplies(w: World, e: Event, v: World)
    requires RepliesOk(w) && e.PyBadLine? && Next(w, e) == Some(v)
    requires Grows(w, v)
    ensures RepliesOk(v)
  {
  }

  lemma PyReplyKeepsReplies(w: World, e: Event, v: World)
    requires CallsOk(w) && Accounted(w) && RepliesOk(w) && e.PyTakeReply? && Next(w, e) == Some(v)
    requires Grows(w, v)
    ensures RepliesOk(v)
  {
    if NoId(e.m.text) { NoIdUnknown(w, e.m.text); }
    EarnedFramed(w, v);
  }

  lemma TsReplyKeepsReplies(w: World, e: Event, v: World)
    requires CallsOk(w) && Accounted(w) && RepliesOk(w) && e.TsTakeReply? && Next(w, e) == Some(v)
    requires Grows(w, v)
    ensures RepliesOk(v)
  {
    if NoId(e.m.text) { NoIdUnknown(w, e.m.text); }
    EarnedFramed(w, v);
  }

  lemma PyAnswerKeepsReplies(w: World, e: Event, v: World)
    requires RequestsOk(w) && RepliesOk(w) && e.PyAnswer? && Next(w, e) == Some(v)
    requires Grows(w, v)
    ensures RepliesOk(v)
  {
    AnsweredOnce(w, e.r, v, e.h);
    assert Known(w, e.r, Ts);
  }

  lemma TsAnswerKeepsReplies(w: World, e: Event, v: World)
    requires RequestsOk(w) && RepliesOk(w) && e.TsAnswer? && Next(w, e) == Some(v)
    requires Grows(w, v)
    ensures RepliesOk(v)
  {
    AnsweredOnce(w, e.r, v, e.h);
    assert Known(w, e.r, Py);
  }

  lemma StepKeepsCalls(w: World, e: Event, v: World)
    requires Inv(w) && Next(w, e) == Some(v)
    ensures CallsOk(v) && Accounted(v)
  {
    match e
    case PyAnswer(_, _) => PyAnswerKeepsCalls(w, e, v);
    case TsAnswer(_, _) => TsAnswerKeepsCalls(w, e, v);
    case PyEof => PySetKeepsCalls(w, e, v);
    case PyTakeReply(_) => PySetKeepsCalls(w, e, v);
    case PyCall(_, _) => PyCallKeepsCalls(w, e, v);
    case TsCall(_, _) =>
      TsCallNumbered(w, e, v);
      TsCallAccounted(w, e, v);
    case PyWriteFails(_) => PyEndKeepsCalls(w, e, v);
    case PyTimeout(_) => PyEndKeepsCalls(w, e, v);
    case PyReturn(_) => PyEndKeepsCalls(w, e, v);
    case TsTimer(_) => TsEndKeepsCalls(w, e, v);
    case TsExit => TsExitKeepsCalls(w, e, v);
    case TsTakeReply(_) => TsEndKeepsCalls(w, e, v);
    case _ => FramedKeepsCalls(w, e, v);
  }

  lemma StepKeepsRequests(w: World, e: Event, v: World)
    requires Inv(w) && Next(w, e) == Some(v)
    ensures Grows(w, v) && RequestsOk(v)
  {
    match e
    case TsTakeReply(_) => TsEndKeepsRequests(w, e, v);
    case TsTimer(_) => TsEndKeepsRequests(w, e, v);
    case TsExit => TsExitKeepsRequests(w, e, v);
    case PyEof => PySetKeepsRequests(w, e, v);
    case PyTakeReply(_) => PySetKeepsRequests(w, e, v);
    case PyTimeout(_) => EndedKeepsRequests(w, e, v);
    case PyReturn(_) => EndedKeepsRequests(w, e, v);
    case PyWrite(_) => MovedKeepsRequests(w, e, v);
    case PyTakeRequest(_) => MovedKeepsRequests(w, e, v);
    case TsTakeRequest(_) => MovedKeepsRequests(w, e, v);
    case PyCall(_, _) =>
      PyCallGrows(w, e, v);
      PyCallKeepsRequests(w, e, v);
    case TsCall(_, _) =>
      TsCallGrows(w, e, v);
      TsCallKeepsRequests(w, e, v);
    case PyWriteFails(_) => PyFailKeepsRequests(w, e, v);
    case PyAnswer(_, _) => PyAnswerKeepsRequests(w, e, v);
    case TsAnswer(_, _) => TsAnswerKeepsRequests(w, e, v);
    case _ => FramedKeepsRequests(w, e, v);
  }

  lemma StepKeepsReplies(w: World, e: Event, v: World)
    requires Inv(w) && Next(w, e) == Some(v)
    requires Grows(w, v)
    ensures RepliesOk(v)
  {
    match e
    case PyWrite(_) => WriteKeepsReplies(w, e, v);
    case PyTakeRequest(_) => WriteKeepsReplies(w, e, v);
    case PyCall(_, _) => PyCallKeepsReplies(w, e, v);
    case TsCall(_, _) => TsCallKeepsReplies(w, e, v);
    case PyWriteFails(_) => PyEndKeepsReplies(w, e, v);
    case PyTimeout(_) => PyEndKeepsReplies(w, e, v);
    case PyReturn(_) => PyReturnKeepsReplies(w, e, v);
    case TsTimer(_) => TimerKeepsReplies(w, e, v);
    case TsExit => ExitKeepsReplies(w, e, v);
    case PyEof => EofKeepsReplies(w, e, v);
    case PyBadLine(_) => BadLineKeepsReplies(w, e, v);
    case PyTakeReply(_) => PyReplyKeepsReplies(w, e, v);
    case TsTakeReply(_) => TsReplyKeepsReplies(w, e, v);
    case PyAnswer(_, _) => PyAnswerKeepsReplies(w, e, v);
    case TsAnswer(_, _) => TsAnswerKeepsReplies(w, e, v);
    case _ => FramedKeepsReplies(w, e, v);
  }

  lemma InvStep(w: World, e: Event, v: World)
    requires Inv(w) && Next(w, e) == Some(v)
    ensures Inv(v) && Grows(w, v)
  {
    StepKeepsCalls(w, e, v);
    StepKeepsRequests(w, e, v);
    StepKeepsReplies(w, e, v);
  }

  lemma {:induction false} InvAlways(ws: seq<World>, es: seq<Event>, i: nat)
    requires Trace(ws, es) && Init(ws[0]) && i <= |es|
    ensures Inv(ws[i])
  {
    if i > 0 {
      InvAlways(ws, es, i - 1);
      assert Next(ws[i - 1], es[i - 1]) == Some(ws[i]);
      InvStep(ws[i - 1], es[i - 1], ws[i]);
    }
  }

  // ---------- Correlation ----------

  /** How the call with this identifier ended, if it did. */
  function Ending(w: World, id: string): Option<Outcome> {
    if id in w.pyDone then Some(w.pyDone[id])
    else if id in w.ts.settled then Some(w.ts.settled[id])
    else None
  }

  predicate Outstanding(w: World, id: string) {
    id in w.py.pending || id in w.ts.pending
  }

  /** In every state of every run, each call is either outstanding or over; and one that was
      answered was given what the other peer's handler made of exactly this call's own method and
      parameters, or "method not found" if that peer has no such method. */
  lemma Correlated(ws: seq<World>, es: seq<Event>, i: nat, id: string)
    requires Trace(ws, es) && Init(ws[0]) && i <= |es|
    ensures var w := ws[i];
            && (id in w.sent <==> Outstanding(w, id) || Ending(w, id).Some?)
            && !(Outstanding(w, id) && Ending(w, id).Some?)
            && (Ending(w, id).Some? && Ending(w, id).value.Answered? ==> Earned(w, id, Ending(w, id).value.reply))
  {
    InvAlways(ws, es, i);
  }

  /** ... and told outright: the answer is what the other peer's handler did with this very call, whose
      method and parameters are those of the request as it was made. */
  lemma AnsweredByTheHandler(ws: seq<World>, es: seq<Event>, i: nat, id: string)
    requires Trace(ws, es) && Init(ws[0]) && i <= |es|
    requires Ending(ws[i], id).Some? && Ending(ws[i], id).value.Answered?
    ensures id in ws[i].sent && id in ws[i].answers && ws[i].answers[id].0 == ws[i].sent[id]
    ensures var w, call, h := ws[i], ws[i].sent[id], ws[i].answers[id].1;
            Ending(w, id).value.reply
            == if call.name !in (if call.side.Py? then w.tsMethods else w.pyMethods)
               then Error(-32601, "method not found: " + call.name, None)
               else match h
                    case Gave(value) => Result(value)
                    case RaisedRpc(code, message) => Error(if call.side.Py? then -32603 else code, message, None)
                    case Raised(message, own) => Error(-32603, message, if call.side.Py? then None else own)
  {
    Correlated(ws, es, i, id);
    AnswersAreDispatched(ws[i], ws[i].sent[id], ws[i].answers[id].1);
  }

  /** How each event ends a call. */
  lemma EndingLaws(w: World, e: Event, v: World)
    requires Next(w, e) == Some(v)
    ensures match e
            case PyTimeout(r) => IdOf(r) in v.pyDone && v.pyDone[IdOf(r)] == TimedOut
            case PyWriteFails(r) => IdOf(r) in v.pyDone && v.pyDone[IdOf(r)] == SendFailed
            case PyReturn(r) =>
              IdOf(r) in w.py.pending && IdOf(r) in v.pyDone && w.py.pending[IdOf(r)] == Settled(v.pyDone[IdOf(r)])
            case PyTakeReply(m) =>
              m.text in w.py.pending && w.py.pending[m.text] == Waiting ==>
                m.text in v.py.pending && v.py.pending[m.text] == Settled(Answered(m.reply))
            case PyEof =>
              forall id :: id in w.py.pending ==>
                id in v.py.pending
                && v.py.pending[id] == if w.py.pending[id] == Waiting then Settled(ConnectionClosed)
                                        else w.py.pending[id]
            case TsTimer(id) => id in v.ts.settled && v.ts.settled[id] == TimedOut
            case TsTakeReply(m) =>
              m.text in w.ts.pending ==> m.text in v.ts.settled && v.ts.settled[m.text] == Answered(m.reply)
            case TsExit =>
              forall id :: id in w.ts.pending ==> id in v.ts.settled && v.ts.settled[id] == ConnectionClosed
            case _ => v.pyDone == w.pyDone && v.ts.settled == w.ts.settled
  {
  }

  lemma GrowsTransitive(u: World, w: World, v: World)
    requires Grows(u, w) && Grows(w, v)
    ensures Grows(u, v)
  {
  }

  lemma EndingStays(w: World, v: World, id: string)
    requires Grows(w, v) && Accounted(v) && Ending(w, id).Some?
    ensures Ending(v, id) == Ending(w, id)
  {
  }

  predicate Calls(e: Event) {
    e.PyCall? || e.TsCall?
  }

  lemma OtherStepsCount(w: World, e: Event, v: World)
    requires !Calls(e) && Next(w, e) == Some(v)
    ensures v.sent == w.sent && v.py.next == w.py.next && v.ts.seqNo == w.ts.seqNo
  {
  }

  lemma CountStep(w: World, e: Event, v: World)
    requires CallsOk(w) && Next(w, e) == Some(v)
    ensures |v.sent| == |w.sent| + (if Calls(e) then 1 else 0)
    ensures v.py.next + v.ts.seqNo == w.py.next + w.ts.seqNo + (if Calls(e) then 1 else 0)
  {
    if Calls(e) { FreshIds(w); } else { OtherStepsCount(w, e, v); }
  }

  lemma RunStep(ws: seq<World>, es: seq<Event>, i: nat)
    requires Trace(ws, es) && Init(ws[0]) && i < |es|
    ensures Grows(ws[i], ws[i + 1]) && Accounted(ws[i + 1])
    ensures |ws[i + 1].sent| == |ws[i].sent| + (if Calls(es[i]) then 1 else 0)
    ensures ws[i + 1].py.next + ws[i + 1].ts.seqNo == ws[i].py.next + ws[i].ts.seqNo + (if Calls(es[i]) then 1 else 0)
  {
    InvAlways(ws, es, i);
    assert Next(ws[i], es[i]) == Some(ws[i + 1]);
    CountStep(ws[i], es[i], ws[i + 1]);
    InvStep(ws[i], es[i], ws[i + 1]);
  }

  lemma {:induction false} RunGrows(ws: seq<World>, es: seq<Event>, i: nat, j: nat)
    requires Trace(ws, es) && Init(ws[0]) && i <= j <= |es|
    ensures Grows(ws[i], ws[j])
    decreases j
  {
    if i < j {
      RunGrows(ws, es, i, j - 1);
      RunStep(ws, es, j - 1);
      GrowsTransitive(ws[i], ws[j - 1], ws[j]);
    }
  }

  /** A call ends at most once: later steps neither change its request, nor the answer made to it,
      nor how it ended, so a late reply or a second timer has no effect. */
  lemma EndsOnce(ws: seq<World>, es: seq<Event>, i: nat, j: nat, id: string)
    requires Trace(ws, es) && Init(ws[0]) && i <= j <= |es|
    ensures id in ws[i].sent ==> id in ws[j].sent && ws[j].sent[id] == ws[i].sent[id]
    ensures id in ws[i].answers ==> id in ws[j].answers && ws[j].answers[id] == ws[i].answers[id]
    ensures Ending(ws[i], id).Some? ==> Ending(ws[j], id) == Ending(ws[i], id)
  {
    RunGrows(ws, es, i, j);
    InvAlways(ws, es, j);
    if Ending(ws[i], id).Some? { EndingStays(ws[i], ws[j], id); }
  }

  function CallsMade(es: seq<Event>): nat {
    if es == [] then 0 else CallsMade(es[..|es| - 1]) + (if Calls(es[|es| - 1]) then 1 else 0)
  }

  /** Identifiers are never reused or confused: there are as many as calls made by the two peers. */
  lemma {:induction false} OneIdPerCall(ws: seq<World>, es: seq<Event>, i: nat)
    requires Trace(ws, es) && Init(ws[0]) && i <= |es|
    ensures |ws[i].sent| == CallsMade(es[..i])
    ensures |ws[i].sent| == ws[i].py.next - 1 + ws[i].ts.seqNo
  {
    if i > 0 {
      OneIdPerCall(ws, es, i - 1);
      RunStep(ws, es, i - 1);
      assert es[..i][..i - 1] == es[..i - 1];
    }
  }

  /** After the process exits nothing TypeScript has called is left unsettled. */
  lemma NothingHangsAfterExit(ws: seq<World>, es: seq<Event>, i: nat, id: string)
    requires Trace(ws, es) && Init(ws[0]) && i < |es| && es[i].TsExit?
    requires id in ws[i + 1].sent && ws[i + 1].sent[id].side.Ts?
    ensures id in ws[i + 1].ts.settled && id !in ws[i + 1].ts.pending
  {
    assert Next(ws[i], es[i]) == Some(ws[i + 1]);
    InvAlways(ws, es, i + 1);
  }

  /** After end of input every call Python made before it has its outcome. */
  lemma NothingWaitsAfterEof(ws: seq<World>, es: seq<Event>, i: nat, id: string)
    requires Trace(ws, es) && Init(ws[0]) && i < |es| && es[i].PyEof?
    requires id in ws[i + 1].sent && ws[i + 1].sent[id].side.Py?
    ensures id in ws[i + 1].pyDone || (id in ws[i + 1].py.pending && ws[i + 1].py.pending[id].Settled?)
  {
    assert Next(ws[i], es[i]) == Some(ws[i + 1]);
    InvAlways(ws, es, i + 1);
  }
}
