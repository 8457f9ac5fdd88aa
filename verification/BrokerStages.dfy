/** The stages of one brokered call, in the order in which they must happen. */
module BrokerStages {
  import opened Options
  import opened LeaseTable
  import opened LeaseRules
  import opened Manifests

  const MAX_RESPONSE_BYTES: nat := 2 * 1024 * 1024

  /** The validated parameters of a broker call. */
  datatype Ask = Ask(provider: string, action: string, resource: string)

  datatype Stage =
    | PolicyPassed(cred: CredentialRequest)
    | LeaseHeld(lease: Lease)
    | Resolved(ref: string)
    | Executed(ask: Ask)
    | Delivered(bytes: nat)

  /** The session a broker was given: absent or empty means none. */
  predicate HasSession(session: Option<string>) {
    session.Some? && session.value != ""
  }

  function LeaseArgs(
    m: Manifest, inst: string, sess: string, tool: Option<string>, ask: Ask, cred: CredentialRequest): Args
  {
    Args(m.id, inst, sess, ask.provider, ask.resource, ask.action, cred.ttl, tool)
  }

  /** The stages reached so far by a call on the broker of this manifest and instance: each one
      needs all earlier ones, of this very call. */
  predicate Staged(m: Manifest, inst: string, session: Option<string>, ask: Ask, stages: seq<Stage>) {
    && |stages| <= 5
    && (|stages| >= 1 ==>
          stages[0].PolicyPassed? && Check(m.credentials, ask.provider, ask.action) == Some(stages[0].cred))
    && (|stages| >= 2 ==> HasSession(session) && stages[1].LeaseHeld?
                          && BoundTo(stages[1].lease, LeaseArgs(m, inst, session.value, None, ask, stages[0].cred)))
    && (|stages| >= 3 ==> stages[2] == Resolved(stages[0].cred.ref))
    && (|stages| >= 4 ==> stages[3] == Executed(ask))
    && (|stages| >= 5 ==> stages[4].Delivered? && stages[4].bytes <= MAX_RESPONSE_BYTES)
  }
}
