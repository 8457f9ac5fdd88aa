/** A call on its own: in any state of any run, made, carried over, handled and answered without
  anything in between, it ends with exactly what the handler did. */
module RpcSolo {
  import opened Options
  import opened RpcIds
  import opened RpcPeers
  import opened RpcMachine

  /** These events lead from w to v. */
  ghost predicate Leads(w: World, es: seq<Event>, v: World) {
    exists ws: seq<World> :: Trace(ws, es) && ws[0] == w && ws[|es|] == v
  }

  lemma Here(w: World)
    ensures Leads(w, [], w)
  {
    assert Trace([w], []);
  }

  lemma Step(w: World, es: seq<Event>, v: World, e: Event) returns (u: World)
    requires Leads(w, es, v) && Next(v, e).Some?
    ensures Next(v, e) == Some(u) && Leads(w, es + [e], u)
  {
    u := Next(v, e).value;
    var ws: seq<World> :| Trace(ws, es) && ws[0] == w && ws[|es|] == v;
    var ws', es' := ws + [u], es + [e];
    forall i | 0 <= i < |es'| ensures Next(ws'[i], es'[i]) == Some(ws'[i + 1]) {
      if i < |es| { assert es'[i] == es[i] && ws'[i] == ws[i] && ws'[i + 1] == ws[i + 1]; }
    }
    assert Trace(ws', es') && ws'[0] == w && ws'[|es'|] == u;
  }

  /** A new identifier is the next one, not used for any call before. */
  lemma NewIsUnused(w: World)
    requires Inv(w)
    ensures Id(Py, w.py.next) !in w.sent && Id(Ts, w.ts.seqNo + 1) !in w.sent
  {
    forall id | id in w.sent ensures id != Id(Py, w.py.next) && id != Id(Ts, w.ts.seqNo + 1) {
      var r := w.sent[id];
      if id == Id(Py, w.py.next) { IdInjective(r.side, r.num, Py, w.py.next); }
      if id == Id(Ts, w.ts.seqNo + 1) { IdInjective(r.side, r.num, Ts, w.ts.seqNo + 1); }
    }
  }

  /** The end of TypeScript's call of a Python method, for any behaviour of its handler. */
  lemma TypeScriptIsAnswered(w: World, name: string, params: Json, h: Handled, reply: Reply) returns (v: World)
    requires Inv(w) && w.ts.running && w.py.open
    requires reply == if name !in w.pyMethods then Error(-32601, "method not found: " + name, None)
                      else match h
                           case Gave(value) => Result(value)
                           case RaisedRpc(code, message) => Error(code, message, None)
                           case Raised(message, own) => Error(-32603, message, own)
    ensures var id, r := "ts-" + Decimal(w.ts.seqNo + 1), Request(Ts, w.ts.seqNo + 1, name, params);
            && Leads(w, [TsCall(name, params), PyTakeRequest(r), PyAnswer(r, h), TsTakeReply(Response(id, reply))], v)
            && id !in w.sent && id !in v.ts.pending && id in v.ts.settled && v.ts.settled[id] == Answered(reply)
  {
    NewIsUnused(w);
    var id, r := Id(Ts, w.ts.seqNo + 1), Request(Ts, w.ts.seqNo + 1, name, params);
    var es := [TsCall(name, params), PyTakeRequest(r)];
    v := ReachesPython(w, name, params);
    v := AnsweredByPython(w, es, v, r, h, reply);
    assert es + [PyAnswer(r, h), TsTakeReply(Response(id, reply))]
        == [TsCall(name, params), PyTakeRequest(r), PyAnswer(r, h), TsTakeReply(Response(id, reply))];
  }

  lemma ReachesPython(w: World, name: string, params: Json) returns (v: World)
    requires w.ts.running && w.py.open
    ensures var r := Request(Ts, w.ts.seqNo + 1, name, params);
            && Leads(w, [TsCall(name, params), PyTakeRequest(r)], v) && r in v.atPy && IdOf(r) in v.ts.pending
            && v.pyMethods == w.pyMethods
  {
    var r := Request(Ts, w.ts.seqNo + 1, name, params);
    Here(w);
    v := Step(w, [], w, TsCall(name, params));
    assert [] + [TsCall(name, params)] == [TsCall(name, params)];
    v := Step(w, [TsCall(name, params)], v, PyTakeRequest(r));
    assert [TsCall(name, params)] + [PyTakeRequest(r)] == [TsCall(name, params), PyTakeRequest(r)];
  }

  lemma AnsweredByPython(w: World, es: seq<Event>, u: World, r: Request, h: Handled, reply: Reply) returns (v: World)
    requires Leads(w, es, u) && r in u.atPy && IdOf(r) in u.ts.pending && reply == PyDispatch(u.pyMethods, r.name, h)
    ensures Leads(w, es + [PyAnswer(r, h), TsTakeReply(Response(IdOf(r), reply))], v)
    ensures IdOf(r) !in v.ts.pending && IdOf(r) in v.ts.settled && v.ts.settled[IdOf(r)] == Answered(reply)
  {
    v := Step(w, es, u, PyAnswer(r, h));
    v := Step(w, es + [PyAnswer(r, h)], v, TsTakeReply(Response(IdOf(r), reply)));
    assert es + [PyAnswer(r, h)] + [TsTakeReply(Response(IdOf(r), reply))]
        == es + [PyAnswer(r, h), TsTakeReply(Response(IdOf(r), reply))];
  }

  /** The end of Python's call of a host method. */
  lemma PythonIsAnswered(w: World, name: string, params: Json, h: Handled, reply: Reply) returns (v: World)
    requires Inv(w) && w.ts.running && w.py.open
    requires reply == if name !in w.tsMethods then Error(-32601, "method not found: " + name, None)
                      else match h
                           case Gave(value) => Result(value)
                           case RaisedRpc(_, message) => Error(-32603, message, None)
                           case Raised(message, _) => Error(-32603, message, None)
    ensures var id, r := "py-" + Decimal(w.py.next), Request(Py, w.py.next, name, params);
            && Leads(w, [PyCall(name, params), PyWrite(r), TsTakeRequest(r), TsAnswer(r, h),
                         PyTakeReply(Response(id, reply)), PyReturn(r)], v)
            && id !in w.sent && id !in v.py.pending && id in v.pyDone && v.pyDone[id] == Answered(reply)
  {
    NewIsUnused(w);
    var id, r := Id(Py, w.py.next), Request(Py, w.py.next, name, params);
    var es := [PyCall(name, params), PyWrite(r), TsTakeRequest(r)];
    v := ReachesTypeScript(w, name, params);
    v := AnsweredByTypeScript(w, es, v, r, h, reply);
    assert es + [TsAnswer(r, h), PyTakeReply(Response(id, reply)), PyReturn(r)]
        == [PyCall(name, params), PyWrite(r), TsTakeRequest(r), TsAnswer(r, h),
            PyTakeReply(Response(id, reply)), PyReturn(r)];
  }

  /** The written call waits for its future. */
  predicate Waits(u: World, r: Request) {
    && r !in u.queued && IdOf(r) in u.sent && u.sent[IdOf(r)] == r
    && IdOf(r) in u.py.pending && u.py.pending[IdOf(r)] == Waiting
  }

  lemma ReachesTypeScript(w: World, name: string, params: Json) returns (v: World)
    ensures var r := Request(Py, w.py.next, name, params);
            && Leads(w, [PyCall(name, params), PyWrite(r), TsTakeRequest(r)], v) && r in v.atTs && Waits(v, r)
            && v.tsMethods == w.tsMethods && v.py.open == w.py.open && v.ts == w.ts
  {
    var r := Request(Py, w.py.next, name, params);
    v := Written(w, name, params);
    v := Step(w, [PyCall(name, params), PyWrite(r)], v, TsTakeRequest(r));
    assert [PyCall(name, params), PyWrite(r)] + [TsTakeRequest(r)]
        == [PyCall(name, params), PyWrite(r), TsTakeRequest(r)];
  }

  lemma Written(w: World, name: string, params: Json) returns (v: World)
    ensures var r := Request(Py, w.py.next, name, params);
            && Leads(w, [PyCall(name, params), PyWrite(r)], v) && r in v.toTs && Waits(v, r)
            && v.tsMethods == w.tsMethods && v.py.open == w.py.open && v.ts == w.ts
  {
    var r := Request(Py, w.py.next, name, params);
    Here(w);
    v := Step(w, [], w, PyCall(name, params));
    assert [] + [PyCall(name, params)] == [PyCall(name, params)];
    assert r in v.queued && v.sent == w.sent[IdOf(r) := r] && v.py == PyRegister(w.py);
    v := Step(w, [PyCall(name, params)], v, PyWrite(r));
    assert [PyCall(name, params)] + [PyWrite(r)] == [PyCall(name, params), PyWrite(r)];
  }

  lemma AnsweredByTypeScript(w: World, es: seq<Event>, u: World, r: Request, h: Handled, reply: Reply)
    returns (v: World)
    requires Leads(w, es, u) && r in u.atTs && u.ts.running && u.py.open && Waits(u, r)
    requires reply == TsDispatch(u.tsMethods, r.name, h)
    ensures Leads(w, es + [TsAnswer(r, h), PyTakeReply(Response(IdOf(r), reply)), PyReturn(r)], v)
    ensures IdOf(r) !in v.py.pending && IdOf(r) in v.pyDone && v.pyDone[IdOf(r)] == Answered(reply)
  {
    v := Step(w, es, u, TsAnswer(r, h));
    v := Step(w, es + [TsAnswer(r, h)], v, PyTakeReply(Response(IdOf(r), reply)));
    v := Step(w, es + [TsAnswer(r, h)] + [PyTakeReply(Response(IdOf(r), reply))], v, PyReturn(r));
    assert es + [TsAnswer(r, h)] + [PyTakeReply(Response(IdOf(r), reply))] + [PyReturn(r)]
        == es + [TsAnswer(r, h), PyTakeReply(Response(IdOf(r), reply)), PyReturn(r)];
  }
}
