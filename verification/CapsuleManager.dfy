/** The capsule manager, one invocation at a time.

  The backend's outcomes are parameters; a start either yields a container or cleans up after
  itself, and a stop works.  `started` and `stopped` count what the backend was asked for.
 */
module CapsuleManagers {
  import opened Options
  import opened Manifests
  import opened LeaseServices
  import opened BrokerServers

  datatype ToolCall = Yielded(value: string) | RuntimeFailure | OtherFailure

  /** What the backend does during one invocation; `newId` identifies a new instance. */
  datatype Backend = Backend(healthy: bool, startOk: bool, newId: string, brokerOk: bool, call: ToolCall)

  /** What a broker knows of the call in progress. */
  datatype Context = Context(session: Option<string>, tool: Option<string>)

  datatype Outcome = UnknownTool | StartFailed | BrokerFailed | Completed(call: ToolCall)

  /** The maps agree on every key but c. */
  ghost predicate SameBut<V>(a: map<string, V>, b: map<string, V>, c: string) {
    forall d :: d != c ==> (d in a <==> d in b) && (d in a ==> a[d] == b[d])
  }

  lemma SizeWithout(m: map<string, string>, c: string)
    requires c in m
    ensures |m - {c}| == |m| - 1
  {
    assert (m - {c}).Keys == m.Keys - {c};
    assert |m| == |m.Keys| && |m - {c}| == |(m - {c}).Keys|;
  }

  lemma SizeWith(m: map<string, string>, c: string, i: string)
    requires c !in m
    ensures |m[c := i]| == |m| + 1
  {
    assert m[c := i].Keys == m.Keys + {c};
    assert |m| == |m.Keys| && |m[c := i]| == |m[c := i].Keys|;
  }

  lemma ListingStep(ls: seq<Listed>, m: Manifest, t: nat)
    requires t <= |m.tools|
    ensures t < |m.tools| ==> ls + ToolsOf(m)[..t] + [Listed(m.tools[t], m.id)] == ls + ToolsOf(m)[..t + 1]
    ensures t == |m.tools| ==> ls + ToolsOf(m)[..t] == ls + ToolsOf(m)
    ensures ls + ToolsOf(m)[..0] == ls
  {
  }

  class CapsuleManager {
    const gateway: LeaseGateway
    const providers: set<string>
    var manifests: seq<Manifest>
    var owners: map<string, Manifest>
    var instances: map<string, string>
    var servers: map<string, BrokerServer>
    ghost var brokerless: set<string>  // capsules whose registered instance has no broker
    ghost var started: nat
    ghost var stopped: nat

    /** Conservation of containers, and registries that agree. */
    ghost predicate Registries()
      reads this, servers.Values
    {
      && started - stopped == |instances|
      && (forall c :: c in instances <==> c in servers || c in brokerless)
      && (forall c :: c in servers ==> c !in brokerless)
      && (forall c :: c in servers ==>
            servers[c].manifest.id == c && servers[c].instance == instances[c] && servers[c].listening)
    }

    /** No registered broker carries a call context. */
    ghost predicate NoContext()
      reads this, servers.Values
    {
      forall c :: c in servers ==> servers[c].sessionId == None && servers[c].toolName == None
    }

    ghost predicate Valid()
      reads this, servers.Values
    {
      Registries() && NoContext()
    }

    constructor (gateway: LeaseGateway, providers: set<string>)
      ensures Valid() && manifests == [] && owners == map[] && instances == map[] && servers == map[]
    {
      this.gateway, this.providers := gateway, providers;
      manifests, owners, instances, servers := [], map[], map[], map[];
      brokerless, started, stopped := {}, 0, 0;
    }

    /** Loads the manifests found, in order; a repeated capsule identifier is an error. */
    method Discover(found: seq<Manifest>) returns (ok: bool)
      requires Valid() && manifests == [] && owners == map[]
      modifies this`manifests, this`owners
      ensures ok <==> forall i, j :: 0 <= i < j < |found| ==> found[i].id != found[j].id
      ensures ok ==> manifests == found && RoutesLast(owners, Listing(found))
      ensures ok ==> forall i, t :: 0 <= i < |found| && 0 <= t < |found[i].tools| ==> found[i].tools[t].name in owners
      ensures ok ==> forall name :: name in owners ==>
                exists i :: 0 <= i < |found| && owners[name] == found[i]
                  && (exists t :: 0 <= t < |found[i].tools| && found[i].tools[t].name == name)
                  && forall j, t :: i < j < |found| && 0 <= t < |found[j].tools| ==> found[j].tools[t].name != name
    {
      var k := 0;
      while k < |found|
        invariant 0 <= k <= |found| && manifests == found[..k] && DistinctIds(found[..k])
        invariant RoutesLast(owners, Listing(found[..k])) && OwnedByLast(owners, found[..k])
      {
        var m := found[k];
        if exists i :: 0 <= i < |manifests| && manifests[i].id == m.id { return false; }
        manifests := manifests + [m];
        assert found[..k + 1] == manifests && manifests[..k] == found[..k];
        ghost var before := owners;
        RouteTools(m, Listing(found[..k]));
        OwnersExtended(before, owners, found[..k], m);
        k := k + 1;
      }
      assert found[..k] == found;
      forall name | name in owners ensures exists i :: LastToList(found, name, i) && owners[name] == found[i] {}
      ok := true;
    }

    /** The inner loop over a manifest's tools; `ls` is the listing of the capsules before it. */
    method RouteTools(m: Manifest, ghost ls: seq<Listed>)
      requires RoutesLast(owners, ls)
      modifies this`owners
      ensures RoutesLast(owners, ls + ToolsOf(m))
      ensures RoutedBy(old(owners), owners, m, |m.tools|)
    {
      var t := 0;
      ListingStep(ls, m, 0);
      while t < |m.tools|
        invariant 0 <= t <= |m.tools|
        invariant RoutesLast(owners, ls + ToolsOf(m)[..t])
        invariant RoutedBy(old(owners), owners, m, t)
      {
        RoutesExtended(owners, ls + ToolsOf(m)[..t], m, m.tools[t]);
        ListingStep(ls, m, t);
        RoutedNext(old(owners), owners, m, t);
        owners := owners[m.tools[t].name := m];
        t := t + 1;
      }
      ListingStep(ls, m, t);
    }

    /** Stops the capsule's broker and container, if any, and forgets both. */
    method TeardownInstance(c: string)
      requires Registries()
      modifies this`instances, this`servers, this`brokerless, this`stopped
      modifies (if c in servers then {servers[c]} else {})`listening
      ensures Registries() && c !in instances && c !in servers
      ensures SameBut(instances, old(instances), c) && SameBut(servers, old(servers), c)
      ensures c in old(servers) ==> !old(servers[c]).listening
    {
      if c in servers {
        var server := servers[c];
        servers := servers - {c};
        server.Stop();
      }
      if c in instances {
        SizeWithout(instances, c);
        instances := instances - {c};
        stopped := stopped + 1;
      }
      brokerless := brokerless - {c};
    }

    /** Starts a container for a capsule that has none, and its own broker. */
    method StartInstance(m: Manifest, env: Backend) returns (failure: Option<Outcome>)
      requires Registries() && m.id !in instances
      modifies this`instances, this`servers, this`brokerless, this`started
      ensures Registries() && started == old(started) + (if env.startOk then 1 else 0)
      ensures SameBut(instances, old(instances), m.id) && SameBut(servers, old(servers), m.id)
      ensures m.id in servers ==>
                fresh(servers[m.id]) && servers[m.id].sessionId == None && servers[m.id].toolName == None
      ensures if !env.startOk then failure == Some(StartFailed) && m.id !in instances
              else m.id in instances && instances[m.id] == env.newId && (m.id in servers <==> env.brokerOk)
                   && failure == (if env.brokerOk then None else Some(BrokerFailed))
    {
      if !env.startOk { return Some(StartFailed); }
      Register(m.id, env.newId);
      var server := new BrokerServer(m, env.newId, gateway, providers);
      var ok := server.Start(env.brokerOk);
      if !ok { return Some(BrokerFailed); }
      servers, brokerless := servers[m.id := server], brokerless - {m.id};
      failure := None;
    }

    /** The container has started: its instance is registered, without a broker so far. */
    method Register(c: string, id: string)
      requires Registries() && c !in instances
      modifies this`instances, this`brokerless, this`started
      ensures Registries() && instances == old(instances)[c := id] && brokerless == old(brokerless) + {c}
      ensures started == old(started) + 1
    {
      SizeWith(instances, c, id);
      instances, brokerless := instances[c := id], brokerless + {c};
      started := started + 1;
    }

    /** Reuses a healthy instance, else replaces it by a fresh one. */
    method EnsureInstance(m: Manifest, env: Backend) returns (failure: Option<Outcome>)
      requires Valid()
      modifies this`instances, this`servers, this`brokerless, this`stopped, this`started, servers.Values`listening
      ensures Valid()
      ensures started == old(started) + (if env.startOk && !(m.id in old(instances) && env.healthy) then 1 else 0)
      ensures SameBut(instances, old(instances), m.id) && SameBut(servers, old(servers), m.id)
      ensures m.id in servers ==> fresh(servers[m.id]) || servers[m.id] in old(servers.Values)
      ensures m.id in old(instances) && env.healthy ==>
                failure == None && instances == old(instances) && servers == old(servers)
      ensures !(m.id in old(instances) && env.healthy) ==>
                if !env.startOk then failure == Some(StartFailed) && m.id !in instances
                else m.id in instances && instances[m.id] == env.newId && (m.id in servers <==> env.brokerOk)
                     && failure == (if env.brokerOk then None else Some(BrokerFailed))
    {
      var c := m.id;
      if c in instances && env.healthy { return None; }
      if c in instances { TeardownInstance(c); }
      failure := StartInstance(m, env);
    }

    /** The call itself; `during` is the context its broker shows while the call lasts. */
    method RunCall(c: string, name: string, session: Option<string>, call: ToolCall)
      returns (ghost during: Option<Context>)
      requires Valid() && c in instances
      modifies this`instances, this`servers, this`brokerless, this`stopped, (if c in servers then {servers[c]} else {})
      ensures Valid() && SameBut(instances, old(instances), c)
      ensures if call.RuntimeFailure? then c !in instances && c !in servers
              else instances == old(instances) && servers == old(servers)
      ensures during == if c in old(servers) then Some(Context(session, Some(name))) else None
      ensures c in old(servers) ==> old(servers[c]).sessionId == None && old(servers[c]).toolName == None
    {
      during := None;
      var server: BrokerServer? := if c in servers then servers[c] else null;
      if server != null { server.BeginCall(session, name); }
      // `call` is what the backend's invoke yields here
      if server != null { during := Some(Context(server.sessionId, server.toolName)); }
      if call.RuntimeFailure? { TeardownInstance(c); }
      if server != null { server.EndCall(); }
      forall d | d in servers ensures servers[d].sessionId == None && servers[d].toolName == None {
        assert servers[d] == old(servers)[d] && servers[d].manifest.id == d;
      }
    }

    /** One tool call.  A healthy instance is reused, another one replaced; a RuntimeError leaves no
        instance behind; any other end leaves the instance used.  While the call lasts its broker
        shows exactly this session and tool, and afterwards no broker keeps a context. */
    method Invoke(name: string, session: Option<string>, env: Backend)
      returns (r: Outcome, ghost during: Option<Context>)
      requires Valid()
      modifies this`instances, this`servers, this`brokerless, this`stopped, this`started, servers.Values
      ensures Valid()
      ensures name !in owners ==>
                r == UnknownTool && instances == old(instances) && servers == old(servers) && started == old(started)
      ensures name in owners ==>
                var c := owners[name].id;
                var reuse := c in old(instances) && env.healthy;
                && SameBut(instances, old(instances), c)
                && started == old(started) + (if !reuse && env.startOk then 1 else 0)
                && r == (if reuse || (env.startOk && env.brokerOk) then Completed(env.call)
                         else if env.startOk then BrokerFailed else StartFailed)
                && (c in instances <==> r == BrokerFailed || (r.Completed? && !r.call.RuntimeFailure?))
                && (c in instances ==> instances[c] == if reuse then old(instances)[c] else env.newId)
                && (c in servers ==> c in instances && r.Completed?)
                && (r.Completed? && !reuse ==> during == Some(Context(session, Some(name))))
                && (r.Completed? && c in old(servers) ==> during == Some(Context(session, Some(name))))
    {
      if name !in owners { return UnknownTool, None; }
      var c := owners[name].id;
      var failure := EnsureInstance(owners[name], env);
      if failure.Some? { return failure.value, None; }
      during := RunCall(c, name, session, env.call);
      r := Completed(env.call);
    }

    /** Tears down every capsule: no container is left running. */
    method Shutdown()
      requires Valid()
      modifies this`instances, this`servers, this`brokerless, this`stopped, servers.Values
      ensures Valid() && instances == map[] && servers == map[] && started == stopped
    {
      var left := instances.Keys;
      while left != {}
        invariant Valid() && left == instances.Keys
        invariant forall c :: c in servers ==> c in old(servers) && servers[c] == old(servers)[c]
        decreases left
      {
        var c :| c in left;
        TeardownInstance(c);
        left := left - {c};
      }
      assert forall c :: c !in instances;
    }
  }
}
