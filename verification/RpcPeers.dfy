/** The two JSON-RPC peers: their pending tables, as values and as the classes that update them. */
module RpcPeers {
  import opened Options
  import opened RpcIds

  type Json = string

  /** The member of a response that is not the identifier: exactly one of result and error, the
      latter with an application's own code in its data, if there is one. */
  datatype Reply = Result(value: Json) | Error(code: int, message: string, data: Option<string>)

  datatype Outcome = Answered(reply: Reply) | TimedOut | ConnectionClosed | SendFailed

  /** A Python future: set at most once. */
  datatype Future = Waiting | Settled(outcome: Outcome)

  const METHOD_NOT_FOUND: int := -32601
  const INTERNAL_ERROR: int := -32603
  const PARSE_ERROR: int := -32700

  /** A message as received; `text` is the identifier of a response, turned into a string. */
  datatype Message = Call(id: CallId, name: string, params: Json) | Return(text: string, reply: Reply)

  /** A call's identifier can be missing, or null. */
  datatype CallId = Absent | Null | Given(text: string)

  /** A line that is not UTF-8 cannot be decoded; one that is may be no JSON, or JSON but no object. */
  datatype Line = Blank | Undecodable | Garbage(message: string) | NoObject | Parsed(msg: Message)

  datatype Sent = Sent(id: Option<string>, reply: Reply)

  /** What a handler does; an exception may carry an application's own code. */
  datatype Handled =
    | Gave(value: Json)
    | RaisedRpc(code: int, message: string)
    | Raised(message: string, own: Option<string>)

  function NotFound(name: string): Reply {
    Error(METHOD_NOT_FOUND, "method not found: " + name, None)
  }

  // ---------- The Python peer ----------

  /** An RpcError keeps its code; any other exception is an internal error. */
  function PyDispatch(known: set<string>, name: string, h: Handled): Reply {
    if name !in known then NotFound(name)
    else
      match h
      case Gave(value) => Result(value)
      case RaisedRpc(code, message) => Error(code, message, None)
      case Raised(message, own) => Error(INTERNAL_ERROR, message, own)
  }

  datatype PyPeer = PyPeer(next: nat, pending: map<string, Future>, open: bool)

  function PyRegister(p: PyPeer): PyPeer {
    p.(next := p.next + 1, pending := p.pending[Id(Py, p.next) := Waiting])
  }

  /** Sets the future of a pending call, unless it is already set. */
  function PyReceive(p: PyPeer, text: string, reply: Reply): PyPeer {
    if text in p.pending && p.pending[text].Waiting?
    then p.(pending := p.pending[text := Settled(Answered(reply))]) else p
  }

  function PyDrop(p: PyPeer, id: string): PyPeer {
    p.(pending := p.pending - {id})
  }

  /** The responses among the lines, one after the other. */
  function PyReceiveAll(p: PyPeer, lines: seq<Line>): PyPeer {
    if lines == [] then p
    else
      var before := PyReceiveAll(p, lines[..|lines| - 1]);
      match lines[|lines| - 1]
      case Parsed(Return(text, reply)) => PyReceive(before, text, reply)
      case _ => before
  }

  /** What goes out for one line: an answer to a call that has an identifier, or a parse error. */
  function PyOutput(known: set<string>, line: Line, h: Handled): seq<Sent> {
    match line
    case Garbage(message) => [Sent(None, Error(PARSE_ERROR, message, None))]
    case Parsed(Call(Given(id), name, _)) => [Sent(Some(id), PyDispatch(known, name, h))]
    case _ => []
  }

  function PyOutputs(known: set<string>, lines: seq<Line>, hs: seq<Handled>): seq<Sent>
    requires |lines| == |hs|
  {
    if lines == [] then []
    else PyOutputs(known, lines[..|lines| - 1], hs[..|hs| - 1]) + PyOutput(known, lines[|lines| - 1], hs[|hs| - 1])
  }

  /** The line is answered: it is garbage, or a call with an identifier. */
  predicate Answerable(line: Line) {
    line.Garbage? || (line.Parsed? && line.msg.Call? && line.msg.id.Given?)
  }

  /** A parse error for garbage; for a call its identifier, and an unknown method, the handler's result,
      an RpcError's own code and message, or an internal error with the exception's own code. */
  predicate RightFor(known: set<string>, line: Line, h: Handled, sent: Sent)
    requires Answerable(line)
  {
    if line.Garbage? then sent == Sent(None, Error(-32700, line.message, None))
    else
      && sent.id == Some(line.msg.id.text)
      && sent.reply == if line.msg.name !in known then Error(-32601, "method not found: " + line.msg.name, None)
                       else match h
                            case Gave(value) => Result(value)
                            case RaisedRpc(code, message) => Error(code, message, None)
                            case Raised(message, own) => Error(-32603, message, own)
  }

  /** How many of the lines are answered. */
  function Slots(lines: seq<Line>): nat {
    if lines == [] then 0 else Slots(lines[..|lines| - 1]) + if Answerable(lines[|lines| - 1]) then 1 else 0
  }

  lemma {:induction false} SlotsGrow(lines: seq<Line>, k: nat)
    requires k < |lines| && Answerable(lines[k])
    ensures Slots(lines[..k]) < Slots(lines)
  {
    var front := lines[..|lines| - 1];
    if k < |front| {
      assert front[..k] == lines[..k];
      SlotsGrow(front, k);
    } else {
      assert front == lines[..k];
    }
  }

  /** Every line that is answered has its own place in what goes out, in the order of the lines. */
  lemma {:induction false} OutputsByLine(known: set<string>, lines: seq<Line>, hs: seq<Handled>)
    requires |lines| == |hs|
    ensures |PyOutputs(known, lines, hs)| == Slots(lines)
    ensures forall k :: 0 <= k < |lines| && Answerable(lines[k]) ==>
              Slots(lines[..k]) < Slots(lines)
              && [PyOutputs(known, lines, hs)[Slots(lines[..k])]] == PyOutput(known, lines[k], hs[k])
  {
    if lines != [] {
      var front, fronths := lines[..|lines| - 1], hs[..|hs| - 1];
      OutputsByLine(known, front, fronths);
      forall k | 0 <= k < |lines| && Answerable(lines[k])
        ensures Slots(lines[..k]) < Slots(lines)
                && [PyOutputs(known, lines, hs)[Slots(lines[..k])]] == PyOutput(known, lines[k], hs[k])
      {
        SlotsGrow(lines, k);
        if k < |front| { assert front[..k] == lines[..k] && front[k] == lines[k] && fronths[k] == hs[k]; }
      }
    }
  }

  lemma OutputsOfPrefix(known: set<string>, lines: seq<Line>, hs: seq<Handled>, n: nat)
    requires |lines| == |hs| && n <= |lines|
    ensures |PyOutputs(known, lines[..n], hs[..n])| == Slots(lines[..n])
    ensures forall k :: 0 <= k < n && Answerable(lines[k]) ==>
              Slots(lines[..k]) < Slots(lines[..n])
              && RightFor(known, lines[k], hs[k], PyOutputs(known, lines[..n], hs[..n])[Slots(lines[..k])])
  {
    OutputsByLine(known, lines[..n], hs[..n]);
    forall k | 0 <= k < n && Answerable(lines[k])
      ensures Slots(lines[..k]) < Slots(lines[..n])
              && RightFor(known, lines[k], hs[k], PyOutputs(known, lines[..n], hs[..n])[Slots(lines[..k])])
    {
      assert lines[..n][..k] == lines[..k] && lines[..n][k] == lines[k] && hs[..n][k] == hs[k];
    }
  }

  /** Lines read before the first one that cannot be decoded, which ends the loop by an exception. */
  function Readable(lines: seq<Line>): (n: nat)
    ensures n <= |lines| && (n < |lines| ==> lines[n].Undecodable?)
    ensures forall i :: 0 <= i < n ==> !lines[i].Undecodable?
  {
    if lines == [] || lines[0].Undecodable? then 0
    else
      var rest := Readable(lines[1..]);
      assert forall i :: 0 < i < rest + 1 ==> lines[i] == lines[1..][i - 1];
      rest + 1
  }

  predicate Returns(line: Line, id: string) {
    line.Parsed? && line.msg.Return? && line.msg.text == id
  }

  /** Position of the first response with the identifier, or -1. */
  function FirstReturn(lines: seq<Line>, id: string): (n: int)
    ensures -1 <= n < |lines|
    ensures n >= 0 ==> Returns(lines[n], id)
    ensures forall k :: 0 <= k < (if n < 0 then |lines| else n) ==> !Returns(lines[k], id)
  {
    if lines == [] then -1
    else
      var n := FirstReturn(lines[..|lines| - 1], id);
      if n < 0 && Returns(lines[|lines| - 1], id) then |lines| - 1 else n
  }

  /** Of all the responses to a call the first one counts, and without one the call fails at end of
      input. */
  lemma {:induction false} FirstReplyWins(p: PyPeer, lines: seq<Line>, id: string)
    requires id in p.pending && p.pending[id].Waiting?
    ensures var q, n := PyReceiveAll(p, lines), FirstReturn(lines, id);
            && id in q.pending
            && q.pending[id] == (if n < 0 then Waiting else Settled(Answered(lines[n].msg.reply)))
            && PyClose(q).pending[id] == Settled(if n < 0 then ConnectionClosed else Answered(lines[n].msg.reply))
  {
    if lines != [] { FirstReplyWins(p, lines[..|lines| - 1], id); }
  }

  /** End of input: every unset future fails. */
  function PyClose(p: PyPeer): (q: PyPeer)
    ensures q.pending.Keys == p.pending.Keys
    ensures forall id :: id in q.pending ==>
              q.pending[id] == if p.pending[id].Waiting? then Settled(ConnectionClosed) else p.pending[id]
  {
    p.(open := false,
       pending := map id | id in p.pending ::
         if p.pending[id].Waiting? then Settled(ConnectionClosed) else p.pending[id])
  }

  class RpcConnection {
    var pending: map<string, Future>
    var next: nat
    var open: bool
    var methods: set<string>

    ghost function State(): PyPeer
      reads this
    {
      PyPeer(next, pending, open)
    }

    constructor ()
      ensures State() == PyPeer(1, map[], true) && methods == {}
    {
      pending, next, open, methods := map[], 1, true, {};
    }

    method Register(name: string)
      modifies this`methods
      ensures methods == old(methods) + {name}
    {
      methods := methods + {name};
    }

    /** The start of `call`: takes the next identifier and registers a future for it. */
    method BeginCall() returns (id: string)
      modifies this`pending, this`next, this`open
      ensures State() == PyRegister(old(State())) && id == Id(Py, old(next))
      ensures id == "py-" + Decimal(old(next)) && pending == old(pending)[id := Waiting] && next == old(next) + 1
    {
      id := Id(Py, next);
      next := next + 1;
      pending := pending[id := Waiting];
    }

    /** The end of `call`: the future's outcome or a timeout, and in any case the entry goes. */
    method EndCall(id: string) returns (o: Outcome)
      requires id in pending
      modifies this`pending, this`next, this`open
      ensures State() == PyDrop(old(State()), id)
      ensures pending == old(pending) - {id} && next == old(next) && open == old(open)
      ensures o == if old(pending)[id].Settled? then old(pending)[id].outcome else TimedOut
    {
      o := match pending[id] case Settled(x) => x case Waiting => TimedOut;
      pending := pending - {id};
    }

    method HandleResponse(text: string, reply: Reply)
      modifies this`pending, this`next, this`open
      ensures State() == PyReceive(old(State()), text, reply)
      ensures pending == if text in old(pending) && old(pending)[text] == Waiting
                         then old(pending)[text := Settled(Answered(reply))] else old(pending)
      ensures next == old(next) && open == old(open)
    {
      if text in pending && pending[text].Waiting? {
        pending := pending[text := Settled(Answered(reply))];
      }
    }

    /** One message, handled to its end; `h` is what the handler of a call does. */
    method Handle(msg: Message, h: Handled) returns (out: seq<Sent>)
      modifies this`pending, this`next, this`open
      ensures State() == PyReceiveAll(old(State()), [Parsed(msg)]) && out == PyOutput(methods, Parsed(msg), h)
      ensures msg.Return? ==>
                && out == []
                && pending == if msg.text in old(pending) && old(pending)[msg.text] == Waiting
                              then old(pending)[msg.text := Settled(Answered(msg.reply))] else old(pending)
      ensures msg.Call? ==> pending == old(pending) && (!msg.id.Given? ==> out == [])
      ensures msg.Call? && msg.id.Given? ==>
                |out| == 1 && out[0].id == Some(msg.id.text)
      ensures msg.Call? && msg.id.Given? ==>
                out[0].reply == if msg.name !in methods then Error(-32601, "method not found: " + msg.name, None)
                                else match h
                                     case Gave(value) => Result(value)
                                     case RaisedRpc(code, message) => Error(code, message, None)
                                     case Raised(message, own) => Error(-32603, message, own)
    {
      assert PyReceiveAll(State(), []) == State();
      match msg {
        case Return(text, reply) =>
          HandleResponse(text, reply);
          out := [];
        case Call(id, name, _) =>
          var reply: Reply;
          if name !in methods {
            reply := Error(METHOD_NOT_FOUND, "method not found: " + name, None);
          } else {
            match h
            case Gave(value) => reply := Result(value);
            case RaisedRpc(code, message) => reply := Error(code, message, None);
            case Raised(message, own) => reply := Error(INTERNAL_ERROR, message, own);
          }
          out := if id.Given? then [Sent(Some(id.text), reply)] else [];
      }
    }

    /** The read loop, each message handled before the next line is read: every line up to the
        first that cannot be decoded is answered on its own, and if there is none, no future is left
        unset at end of input; else the loop ends by an exception and leaves the futures alone. */
    method Run(lines: seq<Line>, hs: seq<Handled>) returns (out: seq<Sent>, eof: bool)
      requires |hs| == |lines|
      modifies this`pending, this`next, this`open
      ensures eof <==> Readable(lines) == |lines|
      ensures var got := PyReceiveAll(old(State()), lines[..Readable(lines)]);
              State() == if eof then PyClose(got) else got
      ensures out == PyOutputs(methods, lines[..Readable(lines)], hs[..Readable(lines)])
      ensures eof ==> forall id :: id in pending ==> pending[id].Settled?
      ensures |out| == Slots(lines[..Readable(lines)])
      ensures forall k :: 0 <= k < Readable(lines) && Answerable(lines[k]) ==>
                Slots(lines[..k]) < |out| && RightFor(methods, lines[k], hs[k], out[Slots(lines[..k])])
    {
      out := [];
      var k := 0;
      while k < |lines|
        invariant 0 <= k <= Readable(lines)
        invariant State() == PyReceiveAll(old(State()), lines[..k])
        invariant out == PyOutputs(methods, lines[..k], hs[..k])
      {
        assert lines[..k + 1][..k] == lines[..k] && hs[..k + 1][..k] == hs[..k];
        match lines[k] {
          case Blank =>
          case NoObject =>
          case Undecodable =>
            OutputsOfPrefix(methods, lines, hs, k);
            return out, false;
          case Garbage(message) => out := out + [Sent(None, Error(PARSE_ERROR, message, None))];
          case Parsed(msg) =>
            var sent := Handle(msg, hs[k]);
            out := out + sent;
        }
        k := k + 1;
      }
      OutputsOfPrefix(methods, lines, hs, k);
      FailPending();
      eof := true;
    }

    /** End of input: the loop over the pending futures. */
    method FailPending()
      modifies this`pending, this`next, this`open
      ensures State() == PyClose(old(State()))
      ensures !open && next == old(next) && pending.Keys == old(pending).Keys
      ensures forall id :: id in pending ==>
                pending[id] == if old(pending)[id] == Waiting then Settled(ConnectionClosed) else old(pending)[id]
    {
      open := false;
      var left := pending.Keys;
      while left != {}
        invariant left <= pending.Keys == old(pending).Keys
        invariant !open && next == old(next)
        invariant forall id :: id in pending ==>
                    pending[id] == if id in left || old(pending)[id].Settled? then old(pending)[id]
                                   else Settled(ConnectionClosed)
        decreases left
      {
        var id :| id in left;
        if pending[id].Waiting? { pending := pending[id := Settled(ConnectionClosed)]; }
        left := left - {id};
      }
      assert pending == PyClose(old(State())).pending;
    }
  }

  // ---------- The TypeScript peer ----------

  /** `settled` records how each promise was settled. */
  datatype TsPeer = TsPeer(seqNo: nat, pending: set<string>, settled: map<string, Outcome>, running: bool)

  function TsRegister(p: TsPeer): TsPeer {
    p.(seqNo := p.seqNo + 1, pending := p.pending + {Id(Ts, p.seqNo + 1)})
  }

  function TsSettle(p: TsPeer, id: string, o: Outcome): TsPeer {
    if id in p.pending then p.(pending := p.pending - {id}, settled := p.settled[id := o]) else p
  }

  function TsFailAll(p: TsPeer): (q: TsPeer)
    ensures q.settled.Keys == p.settled.Keys + p.pending && q.pending == {}
    ensures forall id :: id in q.settled ==>
              q.settled[id] == if id in p.pending then ConnectionClosed else p.settled[id]
  {
    p.(pending := {},
       settled := map id | id in p.settled.Keys + p.pending ::
         if id in p.pending then ConnectionClosed else p.settled[id])
  }

  /** Any exception of a host handler is an internal error. */
  function TsDispatch(known: set<string>, name: string, h: Handled): Reply {
    if name !in known then NotFound(name)
    else
      match h
      case Gave(value) => Result(value)
      case RaisedRpc(_, message) => Error(INTERNAL_ERROR, message, None)
      case Raised(message, _) => Error(INTERNAL_ERROR, message, None)
  }

  /** An answer's identifier: TypeScript answers a call whose identifier is null, with null. */
  function TextOf(id: CallId): Option<string> {
    if id.Given? then Some(id.text) else None
  }

  /** One of the first k identifiers. */
  ghost predicate Issued(id: string, k: nat) {
    exists n: nat :: 1 <= n <= k && id == Id(Ts, n)
  }

  lemma IssuedNext(k: nat)
    ensures forall id :: Issued(id, k + 1) <==> Issued(id, k) || id == Id(Ts, k + 1)
    ensures !Issued(Id(Ts, k + 1), k)
  {
    forall id | Issued(id, k + 1) && id != Id(Ts, k + 1) ensures Issued(id, k) {}
    if Issued(Id(Ts, k + 1), k) {
      var n: nat :| 1 <= n <= k && Id(Ts, k + 1) == Id(Ts, n);
      IdInjective(Ts, k + 1, Ts, n);
    }
  }

  /** The TypeScript peer with its processes, numbered as they are spawned: the current one, those
      that have exited, and those whose exit a `dispose` is waiting for. */
  datatype Host = Host(peer: TsPeer, proc: Option<nat>, spawned: nat, exited: set<nat>, awaited: set<nat>)

  predicate CanExit(h: Host, p: nat) {
    p < h.spawned && p !in h.exited
  }

  /** A new process, and the health-check call. */
  function HostStart(h: Host): Host {
    if h.proc.Some? then h
    else h.(peer := TsRegister(h.peer.(running := true)), proc := Some(h.spawned), spawned := h.spawned + 1)
  }

  /** A process exits, which leaves it the current one; a `dispose` waiting for it goes on. */
  function HostExit(h: Host, p: nat): Host {
    h.(peer := TsFailAll(h.peer), exited := h.exited + {p}, awaited := h.awaited - {p})
  }

  /** `dispose` up to its wait for the exit event. */
  function HostDispose(h: Host): Host {
    if h.proc.None? then h
    else h.(peer := h.peer.(running := false), proc := None, awaited := h.awaited + {h.proc.value})
  }

  class PythonRuntime {
    var proc: Option<nat>                // the child process, by number
    var spawned: nat                     // processes spawned so far
    var exited: set<nat>                 // processes that have exited
    var awaited: set<nat>                // processes whose exit a dispose is waiting for
    var pending: set<string>             // keys of the pending table
    var timers: set<string>              // entries whose timer may still fire
    var settled: map<string, Outcome>    // promises settled so far
    var idSeq: nat
    var handlers: set<string>            // registered host methods

    /** The pending keys are the identifiers of the unsettled calls, and only they have a timer. */
    ghost predicate Valid()
      reads this
    {
      && timers == pending
      && (forall id :: id in pending ==> id !in settled)
      && (forall id :: id in pending || id in settled <==> Issued(id, idSeq))
    }

    ghost function State(): TsPeer
      reads this
    {
      TsPeer(idSeq, pending, settled, proc.Some?)
    }

    ghost function Whole(): Host
      reads this
    {
      Host(State(), proc, spawned, exited, awaited)
    }

    constructor ()
      ensures Valid() && Whole() == Host(TsPeer(0, {}, map[], false), None, 0, {}, {}) && handlers == {}
    {
      proc, spawned, exited, awaited := None, 0, {}, {};
      pending, timers, settled, idSeq, handlers := {}, {}, map[], 0, {};
    }

    method RegisterHostMethod(name: string)
      modifies this`handlers
      ensures handlers == old(handlers) + {name}
    {
      handlers := handlers + {name};
    }

    /** A second start is refused; else a process is spawned and sent the health check. */
    method Start() returns (ok: bool, id: string)
      requires Valid()
      modifies this`proc, this`spawned, this`pending, this`timers, this`settled, this`idSeq
      ensures Valid() && ok == old(proc).None? && Whole() == HostStart(old(Whole()))
      ensures ok ==> id == Id(Ts, idSeq) && id in pending
      ensures ok ==> id == "ts-" + Decimal(old(idSeq) + 1) && proc == Some(old(spawned)) && spawned == old(spawned) + 1
                     && pending == old(pending) + {id} && settled == old(settled)
    {
      if proc.Some? { return false, ""; }
      proc, spawned := Some(spawned), spawned + 1;
      ok, id := Call();
    }

    /** Registers the promise and its timer, or throws when there is no process. */
    method Call() returns (started: bool, id: string)
      requires Valid()
      modifies this`pending, this`timers, this`settled, this`idSeq
      ensures Valid() && started == proc.Some?
      ensures State() == if started then TsRegister(old(State())) else old(State())
      ensures started ==> id == Id(Ts, idSeq) && id !in old(pending) && id !in old(settled)
      ensures started ==> id == "ts-" + Decimal(old(idSeq) + 1) && pending == old(pending) + {id} && timers == pending
      ensures settled == old(settled)
    {
      if proc.None? { return false, ""; }
      IssuedNext(idSeq);
      idSeq := idSeq + 1;
      id := Id(Ts, idSeq);
      timers, pending := timers + {id}, pending + {id};
      started := true;
    }

    /** Settles a promise: allowed once for each. */
    method Settle(id: string, o: Outcome)
      requires Valid() && id in pending && id !in settled
      modifies this`pending, this`timers, this`settled, this`idSeq
      ensures Valid() && State() == TsSettle(old(State()), id, o)
      ensures pending == old(pending) - {id} && timers == pending && settled == old(settled)[id := o]
    {
      pending, timers, settled := pending - {id}, timers - {id}, settled[id := o];
    }

    method HandleResponse(text: string, reply: Reply)
      requires Valid()
      modifies this`pending, this`timers, this`settled, this`idSeq
      ensures Valid() && State() == TsSettle(old(State()), text, Answered(reply))
      ensures text in old(pending) ==>
                settled == old(settled)[text := Answered(reply)] && pending == old(pending) - {text}
      ensures text !in old(pending) ==> settled == old(settled) && pending == old(pending)
    {
      if text !in pending { return; }
      Settle(text, Answered(reply));
    }

    /** One line: garbage is dropped, a call is answered if its identifier is not missing (null will
        do) and there is a process to write to, a response goes to its call. */
    method HandleLine(line: Line, h: Handled) returns (out: seq<Sent>)
      requires Valid()
      modifies this`pending, this`timers, this`settled, this`idSeq
      ensures Valid()
      ensures line.Parsed? && line.msg.Return? ==>
                out == [] && State() == TsSettle(old(State()), line.msg.text, Answered(line.msg.reply))
      ensures line.Parsed? && line.msg.Return? && line.msg.text in old(pending) ==>
                settled == old(settled)[line.msg.text := Answered(line.msg.reply)]
                && pending == old(pending) - {line.msg.text}
      ensures line.Parsed? && line.msg.Return? && line.msg.text !in old(pending) ==>
                settled == old(settled) && pending == old(pending)
      ensures !(line.Parsed? && line.msg.Return?) ==> State() == old(State())
      ensures line.Parsed? && line.msg.Call? && (line.msg.id == Absent || proc == None) ==> out == []
      ensures line.Parsed? && line.msg.Call? && line.msg.id != Absent && proc != None ==>
                && |out| == 1 && out[0].id == (if line.msg.id == Null then None else Some(line.msg.id.text))
                && out[0].reply == if line.msg.name !in handlers
                                   then Error(-32601, "method not found: " + line.msg.name, None)
                                   else match h
                                        case Gave(value) => Result(value)
                                        case RaisedRpc(_, message) => Error(-32603, message, None)
                                        case Raised(message, _) => Error(-32603, message, None)
      ensures line.Parsed? && line.msg.Call? ==>
                out == if !line.msg.id.Absent? && proc.Some?
                       then [Sent(TextOf(line.msg.id), TsDispatch(handlers, line.msg.name, h))] else []
      ensures !line.Parsed? ==> out == []
    {
      out := [];
      if !line.Parsed? { return; }
      match line.msg {
        case Return(text, reply) => HandleResponse(text, reply);
        case Call(id, name, _) =>
          var reply: Reply;
          if name !in handlers {
            reply := Error(METHOD_NOT_FOUND, "method not found: " + name, None);
          } else {
            match h
            case Gave(value) => reply := Result(value);
            case RaisedRpc(_, message) => reply := Error(INTERNAL_ERROR, message, None);
            case Raised(message, _) => reply := Error(INTERNAL_ERROR, message, None);
          }
          if !id.Absent? && proc.Some? { out := [Sent(if id.Given? then Some(id.text) else None, reply)]; }
      }
    }

    /** A timer that is still armed fires: its call is pending, and times out. */
    method TimerFires(id: string)
      requires Valid() && id in timers
      modifies this`pending, this`timers, this`settled, this`idSeq
      ensures Valid() && State() == TsSettle(old(State()), id, TimedOut) && id in settled && settled[id] == TimedOut
      ensures id !in timers && settled == old(settled)[id := TimedOut] && pending == old(pending) - {id}
    {
      Settle(id, TimedOut);
    }

    /** Exit or dispose: the loop over the pending entries; nothing is left unsettled. */
    method FailAllPending()
      requires Valid()
      modifies this`pending, this`timers, this`settled, this`idSeq
      ensures Valid() && State() == TsFailAll(old(State()))
      ensures pending == {} && timers == {}
      ensures forall id :: id in old(pending) ==> id in settled && settled[id] == ConnectionClosed
      ensures forall id :: id in old(settled) && id !in old(pending) ==>
                id in settled && settled[id] == old(settled)[id]
      ensures forall n: nat :: 1 <= n <= idSeq ==> Id(Ts, n) in settled
    {
      ghost var before := State();
      while pending != {}
        invariant Valid() && idSeq == before.seqNo
        invariant pending <= before.pending
        invariant forall id :: id in settled <==> id in before.settled || (id in before.pending && id !in pending)
        invariant forall id :: id in settled ==>
                    settled[id] == if id in before.pending then ConnectionClosed else before.settled[id]
        decreases pending
      {
        var id :| id in pending;
        Settle(id, ConnectionClosed);
      }
      assert settled == TsFailAll(before).settled;
      forall n: nat | 1 <= n <= idSeq ensures Id(Ts, n) in settled { assert Issued(Id(Ts, n), idSeq); }
    }

    /** The exit event: every outstanding call fails, and a dispose waiting for it completes. */
    method Exit(p: nat)
      requires Valid() && CanExit(Whole(), p)
      modifies this`exited, this`awaited, this`pending, this`timers, this`settled, this`idSeq
      ensures Valid() && Whole() == HostExit(old(Whole()), p) && pending == {} && timers == {}
      ensures exited == old(exited) + {p} && awaited == old(awaited) - {p} && proc == old(proc)
      ensures forall id :: id in old(pending) ==> id in settled && settled[id] == ConnectionClosed
    {
      exited := exited + {p};
      FailAllPending();
      if p in awaited {
        awaited := awaited - {p};
        FailAllPending();
      }
      assert awaited == old(awaited) - {p};
    }

    /** `dispose` up to its wait; without a process it is complete at once. */
    method Dispose() returns (complete: bool)
      requires Valid()
      modifies this`proc, this`awaited
      ensures Valid() && Whole() == HostDispose(old(Whole())) && complete == old(proc).None?
      ensures proc == None && pending == old(pending) && settled == old(settled)
      ensures awaited == old(awaited) + if old(proc).Some? then {old(proc).value} else {}
    {
      if proc.None? { return true; }
      awaited := awaited + {proc.value};
      proc := None;
      complete := false;
    }
  }
}
