/** The broker of one capsule instance: its call context, the staged call, and the connection loop. */
module BrokerServers {
  import opened Options
  import opened LeaseTable
  import opened LeaseRules
  import opened LeaseStores
  import opened LeaseServices
  import opened LeaseLaws
  import opened Manifests
  import opened BrokerStages

  datatype Failure =
    | BROKER_PROTOCOL_ERROR | CAPABILITY_DENIED | LEASE_REQUIRED | PROVIDER_NOT_FOUND
    | CREDENTIAL_NOT_CONFIGURED | PROVIDER_TIMEOUT | PROVIDER_ERROR | OUTPUT_TOO_LARGE
    | LeaseFailure(code: Code)

  datatype CallResult = Ok(result: string) | Err(failure: Failure)

  /** Parameters as received: None where a value has the wrong type. */
  datatype Params = Params(provider: Option<string>, action: Option<string>, resource: Option<string>, payloadOk: bool)

  datatype Execution = Finished(result: string, bytes: nat) | TimedOut | Rejected(failure: Failure) | Crashed

  /** What happens around one call: the clock, the host's answer, a lease identifier, the resolved
      credential and the provider's behaviour. */
  datatype Surroundings = Surroundings(
    now: int, later: int, granted: bool, leaseId: string, secret: Option<string>, execution: Execution)

  // ---------- The connection ----------

  datatype Line =
    | Unparseable(message: string)
    | NoObject                            // JSON but no object, or not even UTF-8
    | Overlong                            // longer than the stream's limit
    | Message(id: Option<string>, name: Option<string>, params: Params)

  /** A response carries the request's identifier, or null, and exactly one of result and error. */
  datatype Body = ResultOf(result: string) | ErrorOf(code: int, data: Option<Failure>)
  datatype Response = Response(id: Option<string>, body: Body)

  /** The code attached to an error response: only broker and lease errors keep their own. */
  function DataCode(f: Failure): Failure {
    match f
    case CREDENTIAL_NOT_CONFIGURED => BROKER_PROTOCOL_ERROR
    case OUTPUT_TOO_LARGE => BROKER_PROTOCOL_ERROR
    case LeaseFailure(INVALID_RESOURCE) => BROKER_PROTOCOL_ERROR
    case _ => f
  }

  /** The code attached to the error response of a message. */
  function LineFailure(line: Line, outcome: CallResult): Failure
    requires line.Message? && (line.name != Some("broker.call") || outcome.Err?)
  {
    if line.name != Some("broker.call") then BROKER_PROTOCOL_ERROR else DataCode(outcome.failure)
  }

  /** Reading or handling the line ends the connection. */
  predicate Fatal(line: Line) {
    line.NoObject? || line.Overlong?
  }

  /** Lines answered before the first fatal one. */
  function Answerable(lines: seq<Line>): (n: nat)
    ensures n <= |lines| && (n < |lines| ==> Fatal(lines[n]))
    ensures forall i :: 0 <= i < n ==> !Fatal(lines[i])
  {
    if lines == [] || Fatal(lines[0]) then 0
    else
      var rest := Answerable(lines[1..]);
      assert forall i :: 0 < i < rest + 1 ==> lines[i] == lines[1..][i - 1];
      rest + 1
  }

  /** The types the broker insists on before anything else. */
  predicate WellTyped(p: Params) {
    p.provider.Some? && p.action.Some? && p.resource.Some? && p.resource.value != "" && p.payloadOk
  }

  function AskOf(p: Params): Ask
    requires WellTyped(p)
  {
    Ask(p.provider.value, p.action.value, p.resource.value)
  }

  /** Why an execution delivers nothing. */
  function ExecutionFailure(x: Execution): Failure {
    match x
    case TimedOut => PROVIDER_TIMEOUT
    case Rejected(f) => f
    case Crashed => PROVIDER_ERROR
    case Finished(_, _) => OUTPUT_TOO_LARGE
  }

  predicate Delivers(x: Execution) {
    x.Finished? && x.bytes <= MAX_RESPONSE_BYTES
  }

  /** The table grows only by the new lease of a caller who was asked for. */
  lemma TableGrowth(rows: seq<Lease>, a: Args, env: Surroundings)
    requires WellFormed(rows)
    ensures var out := RowsAfter(rows, a, env.now, env.later, env.granted, env.leaseId);
            && |rows| <= |out| <= |rows| + 1
            && (|out| > |rows| ==> Decide(rows, a, env.now).Asks? && env.granted && ':' in a.resource
                                   && out[|rows|] == NewLease(a, env.leaseId, env.later))
  {
    RequestCases(rows, a, env.now, env.later, env.granted, env.leaseId);
  }

  class BrokerServer {
    const manifest: Manifest
    const instance: string
    const gateway: LeaseGateway
    const providers: set<string>
    var sessionId: Option<string>
    var toolName: Option<string>
    var listening: bool

    constructor (manifest: Manifest, instance: string, gateway: LeaseGateway, providers: set<string>)
      ensures this.manifest == manifest && this.instance == instance && this.gateway == gateway
      ensures this.providers == providers
      ensures sessionId == None && toolName == None && !listening
    {
      this.manifest, this.instance, this.gateway, this.providers := manifest, instance, gateway, providers;
      sessionId, toolName, listening := None, None, false;
    }

    method BeginCall(session: Option<string>, tool: string)
      modifies this`sessionId, this`toolName
      ensures sessionId == session && toolName == Some(tool)
    {
      sessionId, toolName := session, Some(tool);
    }

    method EndCall()
      modifies this`sessionId, this`toolName
      ensures sessionId == None && toolName == None
    {
      sessionId, toolName := None, None;
    }

    /** `opens` tells whether the socket can be opened. */
    method Start(opens: bool) returns (ok: bool)
      modifies this`listening
      ensures ok == opens && listening == (opens || old(listening))
    {
      ok := opens;
      if opens { listening := true; }
    }

    method Stop()
      modifies this`listening
      ensures !listening
    {
      listening := false;
    }

    /** One brokered call: it delivers only after all its stages, in order; a failure at any stage
        leaves no later one; and the lease table changes in the lease stage only. */
    method HandleCall(p: Params, env: Surroundings)
      returns (r: CallResult, ghost stages: seq<Stage>, ghost shown: Option<Approval>)
      requires gateway.service.store.Valid() && FreshId(gateway.service.store.rows, env.leaseId) && env.now <= env.later
      requires forall i :: 0 <= i < |gateway.service.store.rows| ==> gateway.service.store.rows[i].issuedAt < env.later
      modifies gateway.service.store
      ensures gateway.service.store.Valid()
      ensures r.Ok? <==> |stages| == 5
      ensures !WellTyped(p) ==>
                && r == Err(BROKER_PROTOCOL_ERROR) && stages == []
                && gateway.service.store.rows == old(gateway.service.store.rows)
      ensures WellTyped(p) ==>
                var cred := Check(manifest.credentials, p.provider.value, p.action.value);
                && Staged(manifest, instance, sessionId, AskOf(p), stages)
                && (if cred.None? then r == Err(Failure.CAPABILITY_DENIED) && stages == [] else |stages| >= 1)
                && (cred.Some? && !HasSession(sessionId) ==> r == Err(Failure.LEASE_REQUIRED) && |stages| == 1)
                && (cred.None? || !HasSession(sessionId) ==>
                      gateway.service.store.rows == old(gateway.service.store.rows))
                && (cred.Some? && HasSession(sessionId) ==>
                      var a := LeaseArgs(manifest, instance, sessionId.value, toolName, AskOf(p), cred.value);
                      var refusal := Refusal(old(gateway.service.store.rows), a, env.now, env.granted);
                      && gateway.service.store.rows
                         == RowsAfter(old(gateway.service.store.rows), a, env.now, env.later, env.granted, env.leaseId)
                      && (refusal.Some? ==> |stages| == 1 && r == Err(LeaseFailure(refusal.value)))
                      && (refusal.None? ==> |stages| >= 2 && stages[1].lease in gateway.service.store.rows))
      ensures WellTyped(p) && |stages| >= 2 ==> AfterLease(AskOf(p).provider, env, r, |stages|)
      // the parameters, the policy and the session, as the call finds them
      ensures p.provider == None || p.action == None || p.resource == None || p.resource == Some("") || !p.payloadOk
              <==> !WellTyped(p)
      ensures WellTyped(p) ==>
                && ((forall k :: 0 <= k < |manifest.credentials| ==>
                       manifest.credentials[k].provider != p.provider.value) ==> r == Err(Failure.CAPABILITY_DENIED))
                && (forall k :: IsFirst(manifest.credentials, p.provider.value, k) ==>
                      if p.action.value !in manifest.credentials[k].actions then r == Err(Failure.CAPABILITY_DENIED)
                      else sessionId == None || sessionId == Some("") ==> r == Err(Failure.LEASE_REQUIRED))
      // what the host is shown, and the row the call adds
      ensures shown.Some? ==>
                && WellTyped(p)
                && forall k :: IsFirst(manifest.credentials, p.provider.value, k) ==>
                     shown.value == Approval(manifest.id, p.provider.value, p.resource.value, p.action.value,
                                             manifest.credentials[k].ttl, toolName)
      ensures |gateway.service.store.rows| > |old(gateway.service.store.rows)| ==>
                && WellTyped(p) && shown.Some? && sessionId.Some?
                && |gateway.service.store.rows| == |old(gateway.service.store.rows)| + 1
                && var added := gateway.service.store.rows[|old(gateway.service.store.rows)|];
                && added.capsule == manifest.id && added.inst == instance && added.sess == sessionId.value
                && added.provider == p.provider.value && added.resource == p.resource.value
                && added.actions == {p.action.value} && added.status == ACTIVE && added.issuedAt == env.later
                && forall k :: IsFirst(manifest.credentials, p.provider.value, k) ==>
                     added.expiresAt - added.issuedAt == manifest.credentials[k].ttl * 1000000
    {
      shown := None;
      stages := [];
      if p.provider.None? || p.action.None? || p.resource.None? || p.resource.value == "" || !p.payloadOk {
        return Err(BROKER_PROTOCOL_ERROR), [], None;
      }
      var ask := Ask(p.provider.value, p.action.value, p.resource.value);
      var cred := Check(manifest.credentials, ask.provider, ask.action);
      CheckIsFirstEntry(manifest.credentials, ask.provider, ask.action);
      if cred.None? { return Err(Failure.CAPABILITY_DENIED), [], None; }
      stages := [PolicyPassed(cred.value)];
      if sessionId.None? || sessionId.value == "" { return Err(Failure.LEASE_REQUIRED), stages, None; }
      var a := LeaseArgs(manifest, instance, sessionId.value, toolName, ask, cred.value);
      var outcome, approval := ObtainLease(a, env);
      shown := approval;
      if outcome.Denied? { return Err(LeaseFailure(outcome.code)), stages, shown; }
      stages := stages + [LeaseHeld(outcome.lease)];
      r, stages := Execute(ask, cred.value, env, stages);
    }

    /** The lease stage: a lease for this caller, in the table, or the reason why there is none. */
    method ObtainLease(a: Args, env: Surroundings) returns (r: Outcome, shown: Option<Approval>)
      requires gateway.service.store.Valid() && FreshId(gateway.service.store.rows, env.leaseId) && env.now <= env.later
      requires forall i :: 0 <= i < |gateway.service.store.rows| ==> gateway.service.store.rows[i].issuedAt < env.later
      modifies gateway.service.store
      ensures gateway.service.store.Valid()
      ensures gateway.service.store.rows
              == RowsAfter(old(gateway.service.store.rows), a, env.now, env.later, env.granted, env.leaseId)
      ensures var refusal := Refusal(old(gateway.service.store.rows), a, env.now, env.granted);
              if refusal.Some? then r == Denied(refusal.value)
              else r.Leased? && BoundTo(r.lease, a) && r.lease in gateway.service.store.rows
      ensures |gateway.service.store.rows| <= |old(gateway.service.store.rows)| + 1
      ensures shown.Some? ==> shown.value == Approval(a.capsule, a.provider, a.resource, a.action, a.ttl, a.tool)
      ensures |gateway.service.store.rows| > |old(gateway.service.store.rows)| ==>
                && shown.Some? && r == Leased(gateway.service.store.rows[|old(gateway.service.store.rows)|])
                && r.lease == Lease(env.leaseId, a.capsule, a.inst, a.sess, a.provider, a.resource, {a.action},
                                    env.later, env.later + a.ttl * 1000000, ACTIVE, None, None)
    {
      ghost var before := gateway.service.store.rows;
      TableGrowth(before, a, env);
      r, shown := gateway.Request(a, env.now, env.later, env.granted, env.leaseId);
      if Decide(before, a, env.now).Grants? {
        LookupFacts(before, a, env.now);
        GrantedIsBound(before, a, env.now);
      }
    }

    /** What follows the lease, exactly: provider, credential, execution, size limit. */
    ghost predicate AfterLease(provider: string, env: Surroundings, r: CallResult, reached: nat) {
      && (reached == 2 <==> provider !in providers || env.secret.None?)
      && (reached == 2 ==> r == Err(if provider !in providers then PROVIDER_NOT_FOUND else CREDENTIAL_NOT_CONFIGURED))
      && (reached > 2 ==> reached == if Delivers(env.execution) then 5 else 4)
      && (reached > 2 ==>
            r == if Delivers(env.execution) then Ok(env.execution.result) else Err(ExecutionFailure(env.execution)))
    }

    /** The stages after the lease. */
    method Execute(ask: Ask, cred: CredentialRequest, env: Surroundings, ghost before: seq<Stage>)
      returns (r: CallResult, ghost stages: seq<Stage>)
      requires |before| == 2 && before[0] == PolicyPassed(cred) && Staged(manifest, instance, sessionId, ask, before)
      ensures Staged(manifest, instance, sessionId, ask, stages) && |stages| >= 2 && stages[..2] == before
      ensures AfterLease(ask.provider, env, r, |stages|)
      ensures ask.provider !in providers ==> r == Err(PROVIDER_NOT_FOUND) && stages == before
      ensures ask.provider in providers && env.secret == None ==>
                r == Err(CREDENTIAL_NOT_CONFIGURED) && stages == before
      ensures ask.provider in providers && env.secret.Some? ==>
                && stages[..4] == before + [Resolved(cred.ref), Executed(ask)]
                && r == match env.execution
                        case TimedOut => Err(PROVIDER_TIMEOUT)
                        case Rejected(f) => Err(f)
                        case Crashed => Err(PROVIDER_ERROR)
                        case Finished(result, bytes) => if bytes <= 2097152 then Ok(result) else Err(OUTPUT_TOO_LARGE)
      ensures |stages| == 5 ==> stages[4] == Delivered(env.execution.bytes)
    {
      stages := before;
      if ask.provider !in providers { return Err(PROVIDER_NOT_FOUND), stages; }
      if env.secret.None? { return Err(CREDENTIAL_NOT_CONFIGURED), stages; }
      stages := stages + [Resolved(cred.ref), Executed(ask)];
      match env.execution {
        case TimedOut => r := Err(PROVIDER_TIMEOUT);
        case Rejected(f) => r := Err(f);
        case Crashed => r := Err(PROVIDER_ERROR);
        case Finished(result, bytes) =>
          if bytes > MAX_RESPONSE_BYTES { return Err(OUTPUT_TOO_LARGE), stages; }
          stages := stages + [Delivered(bytes)];
          r := Ok(result);
      }
    }

    /** One parsed line; `outcome` is what the call it makes yields. */
    method Dispatch(id: Option<string>, name: Option<string>, outcome: CallResult) returns (r: Response)
      ensures r.id == id
      ensures r.body.ResultOf? <==> name == Some("broker.call") && outcome.Ok?
      ensures r.body.ResultOf? ==> r.body.result == outcome.result
      ensures r.body.ErrorOf? ==> r.body.code == -32000 && r.body.data.Some?
      ensures name != Some("broker.call") ==> r.body == ErrorOf(-32000, Some(BROKER_PROTOCOL_ERROR))
      ensures name == Some("broker.call") && outcome.Err? ==>
                var own := outcome.failure != CREDENTIAL_NOT_CONFIGURED && outcome.failure != OUTPUT_TOO_LARGE
                           && outcome.failure != LeaseFailure(INVALID_RESOURCE);
                r.body == ErrorOf(-32000, Some(if own then outcome.failure else BROKER_PROTOCOL_ERROR))
      ensures name == Some("broker.call") && outcome.Err? ==> r.body == ErrorOf(-32000, Some(DataCode(outcome.failure)))
    {
      if name != Some("broker.call") { return Response(id, ErrorOf(-32000, Some(BROKER_PROTOCOL_ERROR))); }
      match outcome
      case Ok(result) => r := Response(id, ResultOf(result));
      case Err(f) => r := Response(id, ErrorOf(-32000, Some(DataCode(f))));
    }

    /** The connection loop: the i-th response answers the i-th line, with its identifier. */
    method HandleConn(lines: seq<Line>, outcomes: seq<CallResult>) returns (out: seq<Response>)
      requires |outcomes| == |lines|
      ensures |out| == Answerable(lines) && |out| <= |lines|
      ensures forall i :: 0 <= i < |out| ==> lines[i].Unparseable? || lines[i].Message?
      ensures |out| < |lines| ==> lines[|out|].NoObject? || lines[|out|].Overlong?
      ensures forall i :: 0 <= i < |out| && lines[i].Unparseable? ==> out[i] == Response(None, ErrorOf(-32700, None))
      ensures forall i :: 0 <= i < |out| && lines[i].Message? ==>
                && out[i].id == lines[i].id
                && (out[i].body.ResultOf? <==> lines[i].name == Some("broker.call") && outcomes[i].Ok?)
                && (out[i].body.ResultOf? ==> out[i].body.result == outcomes[i].result)
                && (out[i].body.ErrorOf? ==> out[i].body == ErrorOf(-32000, Some(LineFailure(lines[i], outcomes[i]))))
      ensures forall i :: 0 <= i < |out| && lines[i].Message? && out[i].body.ErrorOf? ==>
                if lines[i].name != Some("broker.call") then out[i].body.data == Some(BROKER_PROTOCOL_ERROR)
                else
                  var f := outcomes[i].failure;
                  if f == CREDENTIAL_NOT_CONFIGURED || f == OUTPUT_TOO_LARGE || f == LeaseFailure(INVALID_RESOURCE)
                  then out[i].body.data == Some(BROKER_PROTOCOL_ERROR) else out[i].body.data == Some(f)
    {
      out := [];
      var k := 0;
      while k < |lines|
        invariant 0 <= k <= |lines| && |out| == k <= Answerable(lines)
        invariant forall i :: 0 <= i < k && lines[i].Unparseable? ==> out[i] == Response(None, ErrorOf(-32700, None))
        invariant forall i :: 0 <= i < k && lines[i].Message? ==>
                    && out[i].id == lines[i].id
                    && (out[i].body.ResultOf? <==> lines[i].name == Some("broker.call") && outcomes[i].Ok?)
                    && (out[i].body.ResultOf? ==> out[i].body.result == outcomes[i].result)
                    && (out[i].body.ErrorOf? ==>
                          out[i].body == ErrorOf(-32000, Some(LineFailure(lines[i], outcomes[i]))))
      {
        var r: Response;
        match lines[k] {
          case NoObject => return;
          case Overlong => return;
          case Unparseable(_) => r := Response(None, ErrorOf(-32700, None));
          case Message(id, name, _) => r := Dispatch(id, name, outcomes[k]);
        }
        out := out + [r];
        k := k + 1;
      }
    }
  }
}
