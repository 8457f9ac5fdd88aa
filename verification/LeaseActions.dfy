/** A caller that keeps asking for one resource, with changing actions: how often the host is asked.

  A lease covers one action, and a lease for a new action shadows the one before.
 */
module LeaseActions {
  import opened Options
  import opened LeaseTable
  import opened LeaseRules

  /** One whole request, granted if the host is asked. */
  datatype Visit = Visit(action: string, now: int, later: int, id: string)

  function ArgsFor(a: Args, v: Visit): Args {
    a.(action := v.action)
  }

  function AfterVisit(rows: seq<Lease>, a: Args, v: Visit): seq<Lease> {
    RowsAfter(rows, ArgsFor(a, v), v.now, v.later, true, v.id)
  }

  /** The table after the visits, one after the other. */
  function AfterVisits(rows: seq<Lease>, a: Args, vs: seq<Visit>): seq<Lease> {
    if vs == [] then rows else AfterVisit(AfterVisits(rows, a, vs[..|vs| - 1]), a, vs[|vs| - 1])
  }

  /** How many of them ask the host. */
  function Asked(rows: seq<Lease>, a: Args, vs: seq<Visit>): nat {
    if vs == [] then 0
    else
      var last := vs[|vs| - 1];
      var before := AfterVisits(rows, a, vs[..|vs| - 1]);
      Asked(rows, a, vs[..|vs| - 1]) + if Decide(before, ArgsFor(a, last), last.now).Asks? then 1 else 0
  }

  /** How many of them want another action than the one before. */
  function Changes(vs: seq<Visit>): nat {
    if |vs| < 2 then 0
    else Changes(vs[..|vs| - 1]) + if vs[|vs| - 1].action != vs[|vs| - 2].action then 1 else 0
  }

  /** One after the other, all before the first lease expires. */
  ghost predicate WithinLifetime(a: Args, vs: seq<Visit>) {
    && (forall i :: 0 <= i < |vs| ==> vs[0].later <= vs[i].later)
    && (forall i :: 1 <= i < |vs| ==> vs[i].now < vs[0].later + a.ttl * SECOND)
  }

  /** The caller holds the newest lease of the resource, for this action and at least until then. */
  predicate Holds(rows: seq<Lease>, a: Args, action: string, until: int) {
    var n := NewestIx(rows, ResourceQuery(a));
    && n >= 0 && NewestIx(rows, KeyQuery(a)) == n
    && rows[n].status == ACTIVE && rows[n].actions == {action} && until <= rows[n].expiresAt
  }

  lemma InsertHolds(rows: seq<Lease>, a: Args, v: Visit, until: int)
    requires until <= v.later + a.ttl * SECOND
    ensures Holds(rows + [NewLease(ArgsFor(a, v), v.id, v.later)], a, v.action, until)
  {
    var l := NewLease(ArgsFor(a, v), v.id, v.later);
    NewestAppended(rows, l, ResourceQuery(a));
    NewestAppended(rows, l, KeyQuery(a));
  }

  /** A visit by the holder asks exactly for another action. */
  lemma HolderAsks(rows: seq<Lease>, a: Args, v: Visit, action: string, until: int)
    requires Holds(rows, a, action, until) && v.now < until && LegalTtl(a.ttl)
    ensures LazilyExpired(rows, ArgsFor(a, v), v.now) == rows
    ensures var d := Decide(rows, ArgsFor(a, v), v.now); if v.action == action then d.Grants? else d.Asks?
  {
  }

  lemma VisitHolds(rows: seq<Lease>, a: Args, v: Visit, action: string, until: int)
    requires Holds(rows, a, action, until) && v.now < until <= v.later + a.ttl * SECOND
    requires LegalTtl(a.ttl) && ValidResource(a.resource)
    ensures Holds(AfterVisit(rows, a, v), a, v.action, until)
    ensures Decide(rows, ArgsFor(a, v), v.now).Asks? <==> v.action != action
  {
    HolderAsks(rows, a, v, action, until);
    RequestCases(rows, ArgsFor(a, v), v.now, v.later, true, v.id);
    if v.action != action { InsertHolds(rows, a, v, until); }
  }

  lemma FirstVisitHolds(rows: seq<Lease>, a: Args, v: Visit)
    requires ValidResource(a.resource) && Decide(rows, ArgsFor(a, v), v.now).Asks?
    ensures Holds(AfterVisit(rows, a, v), a, v.action, v.later + a.ttl * SECOND)
  {
    RequestCases(rows, ArgsFor(a, v), v.now, v.later, true, v.id);
    InsertHolds(LazilyExpired(rows, ArgsFor(a, v), v.now), a, v, v.later + a.ttl * SECOND);
  }

  lemma SingleVisitHolds(rows: seq<Lease>, a: Args, v: Visit)
    requires ValidResource(a.resource) && Decide(rows, ArgsFor(a, v), v.now).Asks?
    ensures Asked(rows, a, [v]) == 1 && Changes([v]) == 0
    ensures Holds(AfterVisits(rows, a, [v]), a, v.action, v.later + a.ttl * SECOND)
  {
    FirstVisitHolds(rows, a, v);
    assert [v][..0] == [] && AfterVisits(rows, a, []) == rows;
  }

  lemma {:induction false} VisitsHold(rows: seq<Lease>, a: Args, vs: seq<Visit>)
    requires vs != [] && LegalTtl(a.ttl) && ValidResource(a.resource) && WithinLifetime(a, vs)
    requires Decide(rows, ArgsFor(a, vs[0]), vs[0].now).Asks?
    ensures Asked(rows, a, vs) == 1 + Changes(vs)
    ensures Holds(AfterVisits(rows, a, vs), a, vs[|vs| - 1].action, vs[0].later + a.ttl * SECOND)
  {
    if |vs| == 1 {
      SingleVisitHolds(rows, a, vs[0]);
      assert vs == [vs[0]];
    } else {
      var front := vs[..|vs| - 1];
      FrontWithin(a, vs);
      VisitsHold(rows, a, front);
      LaterVisitHolds(rows, a, vs);
    }
  }

  lemma FrontWithin(a: Args, vs: seq<Visit>)
    requires |vs| >= 2 && WithinLifetime(a, vs)
    ensures var front := vs[..|vs| - 1]; front[0] == vs[0] && WithinLifetime(a, front)
  {
  }

  lemma LaterVisitHolds(rows: seq<Lease>, a: Args, vs: seq<Visit>)
    requires |vs| >= 2 && LegalTtl(a.ttl) && ValidResource(a.resource) && WithinLifetime(a, vs)
    requires Asked(rows, a, vs[..|vs| - 1]) == 1 + Changes(vs[..|vs| - 1])
    requires Holds(AfterVisits(rows, a, vs[..|vs| - 1]), a, vs[|vs| - 2].action, vs[0].later + a.ttl * SECOND)
    ensures Asked(rows, a, vs) == 1 + Changes(vs)
    ensures Holds(AfterVisits(rows, a, vs), a, vs[|vs| - 1].action, vs[0].later + a.ttl * SECOND)
  {
    var before := AfterVisits(rows, a, vs[..|vs| - 1]);
    VisitHolds(before, a, vs[|vs| - 1], vs[|vs| - 2].action, vs[0].later + a.ttl * SECOND);
  }

  /** Any number of whole requests for one key, granted whenever the host is asked: if the first one
      asks and all come before its lease expires, the host is asked once and again for each change of
      the action, even back to one it has granted before. */
  lemma AskedPerChange(rows: seq<Lease>, a: Args, vs: seq<Visit>)
    requires vs != [] && LegalTtl(a.ttl) && ValidResource(a.resource) && WithinLifetime(a, vs)
    requires Decide(rows, ArgsFor(a, vs[0]), vs[0].now).Asks?
    ensures Asked(rows, a, vs) == 1 + Changes(vs)
  {
    VisitsHold(rows, a, vs);
  }
}
