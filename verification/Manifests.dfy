/** Capsule manifests and the policy check on their credential requests. */
module Manifests {
  import opened Options

  datatype CredentialRequest = CredentialRequest(provider: string, ref: string, actions: seq<string>, ttl: int)

  datatype Tool = Tool(name: string, description: string, parameters: string)

  datatype Manifest = Manifest(id: string, credentials: seq<CredentialRequest>, tools: seq<Tool>)

  /** The policy scan: the first entry for the provider decides. */
  function Check(credentials: seq<CredentialRequest>, provider: string, action: string): Option<CredentialRequest> {
    if credentials == [] then None
    else if credentials[0].provider == provider then
      if action in credentials[0].actions then Some(credentials[0]) else None
    else Check(credentials[1..], provider, action)
  }

  /** Entry k is the manifest's first one for the provider. */
  predicate IsFirst(credentials: seq<CredentialRequest>, provider: string, k: int) {
    0 <= k < |credentials| && credentials[k].provider == provider
    && forall j :: 0 <= j < k ==> credentials[j].provider != provider
  }

  /** The check passes with an entry exactly when that is the first one for the provider and allows
      the action; a later entry for the same provider is never looked at. */
  lemma {:induction false} CheckIsFirstEntry(credentials: seq<CredentialRequest>, provider: string, action: string)
    ensures Check(credentials, provider, action).Some? <==>
            exists k :: IsFirst(credentials, provider, k) && action in credentials[k].actions
    ensures forall k :: IsFirst(credentials, provider, k) && action in credentials[k].actions ==>
              Check(credentials, provider, action) == Some(credentials[k])
  {
    if credentials != [] {
      var rest := credentials[1..];
      if credentials[0].provider == provider {
        assert IsFirst(credentials, provider, 0);
      } else {
        CheckIsFirstEntry(rest, provider, action);
        forall k ensures IsFirst(credentials, provider, k) <==> k > 0 && IsFirst(rest, provider, k - 1) {
          if k > 0 && IsFirst(rest, provider, k - 1) {
            forall j | 0 <= j < k ensures credentials[j].provider != provider {
              if j > 0 { assert rest[j - 1] == credentials[j]; }
            }
          }
          if IsFirst(credentials, provider, k) {
            forall j | 0 <= j < k - 1 ensures rest[j].provider != provider { assert rest[j] == credentials[j + 1]; }
          }
        }
        if Check(rest, provider, action).Some? {
          var k :| IsFirst(rest, provider, k) && action in rest[k].actions;
          assert IsFirst(credentials, provider, k + 1);
        }
      }
    }
  }

  // ---------- The tool listing ----------

  datatype Listed = Listed(tool: Tool, capsule: string)

  function ToolsOf(m: Manifest): (ls: seq<Listed>)
    ensures |ls| == |m.tools|
    ensures forall i :: 0 <= i < |ls| ==> ls[i] == Listed(m.tools[i], m.id)
  {
    seq(|m.tools|, i requires 0 <= i < |m.tools| => Listed(m.tools[i], m.id))
  }

  /** `list_tools`: every capsule's tools, in discovery order. */
  function Listing(ms: seq<Manifest>): seq<Listed> {
    if ms == [] then [] else Listing(ms[..|ms| - 1]) + ToolsOf(ms[|ms| - 1])
  }

  /** Each capsule adds its tools, and nothing else, after those of the capsules before it. */
  lemma ListingGrows(ms: seq<Manifest>, i: nat)
    requires i < |ms|
    ensures |Listing([])| == 0 && |Listing(ms[..i + 1])| == |Listing(ms[..i])| + |ms[i].tools|
  {
    assert ms[..i + 1][..i] == ms[..i];
  }

  /** Tool t of capsule i stands where the capsules before it end, t entries on. */
  lemma {:induction false} ListingInOrder(ms: seq<Manifest>, i: nat, t: nat)
    requires i < |ms| && t < |ms[i].tools|
    ensures |Listing(ms[..i])| + t < |Listing(ms)|
    ensures Listing(ms)[|Listing(ms[..i])| + t] == Listed(ms[i].tools[t], ms[i].id)
  {
    var front := ms[..|ms| - 1];
    if i < |front| {
      assert front[..i] == ms[..i] && front[i] == ms[i];
      ListingInOrder(front, i, t);
    }
  }

  /** The manifest lists a tool with this name. */
  predicate Lists(m: Manifest, name: string) {
    exists t :: 0 <= t < |m.tools| && m.tools[t].name == name
  }

  /** Each name's owner is the last manifest that lists it. */
  ghost predicate OwnedByLast(owners: map<string, Manifest>, ms: seq<Manifest>) {
    && (forall i, t :: 0 <= i < |ms| && 0 <= t < |ms[i].tools| ==> ms[i].tools[t].name in owners)
    && (forall name :: name in owners ==> exists i :: LastToList(ms, name, i) && owners[name] == ms[i])
  }

  predicate LastToList(ms: seq<Manifest>, name: string, i: int) {
    0 <= i < |ms| && Lists(ms[i], name) && forall j :: i < j < |ms| ==> !Lists(ms[j], name)
  }

  /** One of the first n tools has this name. */
  predicate ListedBy(m: Manifest, n: int, name: string) {
    exists t :: 0 <= t < |m.tools| && t < n && m.tools[t].name == name
  }

  /** Owners after the manifest's first n tools, on top of those before it. */
  ghost predicate RoutedBy(was: map<string, Manifest>, owners: map<string, Manifest>, m: Manifest, n: int) {
    && (forall name :: name in owners <==> name in was || ListedBy(m, n, name))
    && (forall name :: name in owners ==> owners[name] == if ListedBy(m, n, name) then m else was[name])
  }

  lemma RoutedNext(was: map<string, Manifest>, owners: map<string, Manifest>, m: Manifest, n: nat)
    requires n < |m.tools| && RoutedBy(was, owners, m, n)
    ensures RoutedBy(was, owners[m.tools[n].name := m], m, n + 1)
  {
    forall name ensures ListedBy(m, n + 1, name) <==> ListedBy(m, n, name) || name == m.tools[n].name {}
  }

  lemma OwnersExtended(was: map<string, Manifest>, owners: map<string, Manifest>, ms: seq<Manifest>, m: Manifest)
    requires OwnedByLast(was, ms)
    requires RoutedBy(was, owners, m, |m.tools|)
    ensures OwnedByLast(owners, ms + [m])
  {
    var ms' := ms + [m];
    forall name ensures ListedBy(m, |m.tools|, name) <==> Lists(m, name) {}
    forall i, t | 0 <= i < |ms'| && 0 <= t < |ms'[i].tools| ensures ms'[i].tools[t].name in owners {
      if i == |ms| { assert Lists(m, m.tools[t].name); } else { assert ms[i].tools[t].name in was; }
    }
    forall name | name in owners ensures exists i :: LastToList(ms', name, i) && owners[name] == ms'[i] {
      if Lists(m, name) {
        assert LastToList(ms', name, |ms|);
      } else {
        var i :| LastToList(ms, name, i) && was[name] == ms[i];
        assert LastToList(ms', name, i);
      }
    }
  }

  predicate DistinctIds(ms: seq<Manifest>) {
    forall i, j :: 0 <= i < j < |ms| ==> ms[i].id != ms[j].id
  }

  /** Position of the last entry with the name, or -1. */
  function LastIx(ls: seq<Listed>, name: string): (n: int)
    ensures -1 <= n < |ls|
    ensures n >= 0 ==> ls[n].tool.name == name
    ensures forall j :: n < j < |ls| ==> ls[j].tool.name != name
  {
    if ls == [] then -1
    else if ls[|ls| - 1].tool.name == name then |ls| - 1
    else LastIx(ls[..|ls| - 1], name)
  }

  /** The owners map routes each listed name to the capsule of the last entry with that name, and
      routes nothing else. */
  ghost predicate RoutesLast(owners: map<string, Manifest>, ls: seq<Listed>) {
    forall name :: if LastIx(ls, name) < 0 then name !in owners
                   else name in owners && owners[name].id == ls[LastIx(ls, name)].capsule
  }

  lemma RoutesExtended(owners: map<string, Manifest>, ls: seq<Listed>, m: Manifest, tool: Tool)
    requires RoutesLast(owners, ls)
    ensures RoutesLast(owners[tool.name := m], ls + [Listed(tool, m.id)])
  {
    var ls' := ls + [Listed(tool, m.id)];
    assert ls'[..|ls'| - 1] == ls;
  }

  /** With distinct tool names the map and the listing are in one-to-one agreement. */
  lemma UniqueNamesOneToOne(owners: map<string, Manifest>, ls: seq<Listed>)
    requires RoutesLast(owners, ls)
    requires forall i, j :: 0 <= i < j < |ls| ==> ls[i].tool.name != ls[j].tool.name
    ensures forall i :: 0 <= i < |ls| ==> ls[i].tool.name in owners && owners[ls[i].tool.name].id == ls[i].capsule
    ensures |owners| == |ls|
  {
    forall i | 0 <= i < |ls| ensures LastIx(ls, ls[i].tool.name) == i {}
    NamesCounted(ls);
    var names := set i | 0 <= i < |ls| :: ls[i].tool.name;
    forall name | name in owners ensures name in names { assert ls[LastIx(ls, name)].tool.name == name; }
    assert owners.Keys == names;
  }

  lemma {:induction false} NamesCounted(ls: seq<Listed>)
    requires forall i, j :: 0 <= i < j < |ls| ==> ls[i].tool.name != ls[j].tool.name
    ensures |set i | 0 <= i < |ls| :: ls[i].tool.name| == |ls|
  {
    if ls != [] {
      var front, last := ls[..|ls| - 1], ls[|ls| - 1].tool.name;
      NamesCounted(front);
      var some := set i | 0 <= i < |front| :: front[i].tool.name;
      assert (set i | 0 <= i < |ls| :: ls[i].tool.name) == some + {last};
    }
  }
}
