/** Allocating project identifiers: the same local name keeps its identifier. */
module FleetNaming {
  import opened Prelude
  import opened Wire
  import F = Fleet

  // ----- what leaves names alone -----

  /** No row is new or took another name. */
  ghost predicate SameNames(f: F.Fleet, g: F.Fleet) {
    forall p :: p in g.projects ==> p in f.projects && F.SameName(f.projects[p], g.projects[p])
  }

  lemma SameNamesKeep(f: F.Fleet, g: F.Fleet)
    requires SameNames(f, g) && F.UniqueNames(f)
    ensures F.UniqueNames(g)
  {
  }

  lemma {:induction false} ObservingKeepsNames(f: F.Fleet, id: Uuid, observations: seq<F.Observation>, now: int)
    requires F.ObservedAll(f, id, observations, now).Some?
    ensures SameNames(f, F.ObservedAll(f, id, observations, now).value)
  {
    if observations != [] { ObservingKeepsNames(f, id, observations[..|observations| - 1], now); }
  }

  lemma ReceivingKeepsNames(f: F.Fleet, id: Uuid, sessionId: Uuid, v: F.Inventory, now: int)
    requires F.ReceiveObservation(f, id, sessionId, v, now).Some?
    ensures SameNames(f, F.ReceiveObservation(f, id, sessionId, v, now).value)
  {
    hide F.ObservedAll, F.Fresh, F.IdsOf;
    ObservingKeepsNames(F.BeginPage(f, id, sessionId, v).value, id, v.projects, now);
  }

  // ----- naming -----

  /** Later rows keep the earlier ones. */
  ghost predicate Extends(f: F.Fleet, g: F.Fleet) {
    && g == f.(projects := g.projects)
    && forall p :: p in f.projects ==> p in g.projects && g.projects[p] == f.projects[p]
  }

  /** Each identifier belongs to its name. */
  ghost predicate Answers(n: F.Naming, id: Uuid, agentId: Uuid, names: seq<string>) {
    |n.ids| == |names| && forall k :: 0 <= k < |names| ==> F.Named(n.fleet, n.ids[k], id, agentId, names[k])
  }

  lemma NameOneAnswers(n: F.Naming, id: Uuid, agentId: Uuid, name: string, drawn: Uuid, names: seq<string>)
    requires Answers(n, id, agentId, names) && F.UniqueNames(n.fleet) && F.NameOne(n, id, agentId, name, drawn).Some?
    ensures var m := F.NameOne(n, id, agentId, name, drawn).value;
            && Answers(m, id, agentId, names + [name]) && F.UniqueNames(m.fleet) && Extends(n.fleet, m.fleet)
            && m.ids[..|n.ids|] == n.ids
            && (m.fleet == n.fleet
                || m.fleet.projects
                   == n.fleet.projects[drawn := F.Project.Project(id, name, agentId, false, false, None, None)])
  {
    var m := F.NameOne(n, id, agentId, name, drawn).value;
    forall p | p in n.fleet.projects && p in m.fleet.projects && m.fleet != n.fleet
      ensures !F.SameName(n.fleet.projects[p], F.Project.Project(id, name, agentId, false, false, None, None))
    {
      assert !F.Named(n.fleet, p, id, agentId, name);
    }
    forall k | 0 <= k < |names + [name]| ensures F.Named(m.fleet, m.ids[k], id, agentId, (names + [name])[k]) {
      if k < |names| { assert F.Named(n.fleet, n.ids[k], id, agentId, names[k]); }
    }
  }

  /** Nothing but rows of this enrollment was added. */
  ghost predicate OnlyAdds(f: F.Fleet, g: F.Fleet, id: Uuid, agentId: Uuid) {
    Extends(f, g) && forall p :: p in g.projects && p !in f.projects ==>
      g.projects[p].environmentId == id && g.projects[p].agentId == agentId
  }

  lemma AddsOneMore(f: F.Fleet, g: F.Fleet, h: F.Fleet, id: Uuid, agentId: Uuid, name: string, drawn: Uuid)
    requires OnlyAdds(f, g, id, agentId) && Extends(g, h)
    requires h == g || h.projects == g.projects[drawn := F.Project.Project(id, name, agentId, false, false, None, None)]
    ensures OnlyAdds(f, h, id, agentId)
  {
  }

  lemma AddsNothing(f: F.Fleet, id: Uuid, agentId: Uuid)
    ensures OnlyAdds(f, f, id, agentId)
  {
  }

  lemma {:induction false} NameAllAnswers(n: F.Naming, id: Uuid, agentId: Uuid, names: seq<string>, drawn: seq<Uuid>)
    requires |drawn| == |names| && n.ids == [] && F.UniqueNames(n.fleet)
             && F.NameAll(n, id, agentId, names, drawn).Some?
    ensures var m := F.NameAll(n, id, agentId, names, drawn).value;
            Answers(m, id, agentId, names) && F.UniqueNames(m.fleet) && OnlyAdds(n.fleet, m.fleet, id, agentId)
  {
    AddsNothing(n.fleet, id, agentId);
    if names != [] {
      hide F.NameOne, F.UniqueNames, Answers, OnlyAdds, Extends;
      var k := |names| - 1;
      NameAllAnswers(n, id, agentId, names[..k], drawn[..k]);
      var m := F.NameAll(n, id, agentId, names[..k], drawn[..k]).value;
      NameOneAnswers(m, id, agentId, names[k], drawn[k], names[..k]);
      assert names[..k] + [names[k]] == names;
      AddsOneMore(n.fleet, m.fleet, F.NameOne(m, id, agentId, names[k], drawn[k]).value.fleet, id, agentId, names[k],
                  drawn[k]);
    }
  }

  /** Asking again for names that have rows finds them and adds nothing. */
  lemma {:induction false} NameAllAgain(
    f: F.Fleet, ids: seq<Uuid>, outstanding: nat, id: Uuid, agentId: Uuid, names: seq<string>, drawn: seq<Uuid>)
    requires |drawn| == |names| == |ids| && F.UniqueNames(f)
    requires forall k :: 0 <= k < |names| ==> F.Named(f, ids[k], id, agentId, names[k])
    ensures F.NameAll(F.Naming.Naming(f, [], outstanding), id, agentId, names, drawn)
            == Some(F.Naming.Naming(f, ids, outstanding))
  {
    if names != [] {
      var k := |names| - 1;
      NameAllAgain(f, ids[..k], outstanding, id, agentId, names[..k], drawn[..k]);
      assert F.Named(f, ids[k], id, agentId, names[k]);
      assert ids[..k] + [ids[k]] == ids;
    }
  }

  lemma AbandonedKeepsNames(f: F.Fleet, id: Uuid, agentId: Uuid)
    requires F.UniqueNames(f)
    ensures F.UniqueNames(F.WithoutAbandoned(f, id, agentId))
  {
  }

  lemma NothingAbandoned(f: F.Fleet, g: F.Fleet, id: Uuid, agentId: Uuid)
    requires OnlyAdds(F.WithoutAbandoned(f, id, agentId), g, id, agentId)
    ensures F.WithoutAbandoned(g, id, agentId) == g
  {
    assert F.WithoutAbandoned(g, id, agentId).projects == g.projects;
  }

  lemma NamingKeepsUnique(f: F.Fleet, id: Uuid, names: seq<string>, drawn: seq<Uuid>)
    requires |drawn| == |names| && F.UniqueNames(f) && F.IdentifyProjects(f, id, names, drawn).Some?
    ensures F.UniqueNames(F.IdentifyProjects(f, id, names, drawn).value.fleet)
  {
    hide F.NameAll, F.WithoutAbandoned, F.UniqueNames;
    var agentId := f.credentials[id].agentId;
    var b := F.WithoutAbandoned(f, id, agentId);
    AbandonedKeepsNames(f, id, agentId);
    NameAllAnswers(F.Naming.Naming(b, [], |set p | p in b.projects && F.Unpublished(b, p, id)|), id, agentId, names,
                   drawn);
  }

  /** Every name gets an identifier of its own enrollment, names stay unique, and asking
      again gives the same identifiers and changes nothing, whatever would be drawn. */
  lemma IdentifiersAreStable(f: F.Fleet, id: Uuid, names: seq<string>, drawn: seq<Uuid>, again: seq<Uuid>)
    requires |drawn| == |names| == |again| && F.UniqueNames(f) && F.IdentifyProjects(f, id, names, drawn).Some?
    ensures var n := F.IdentifyProjects(f, id, names, drawn).value;
            && id in f.credentials && Answers(n, id, f.credentials[id].agentId, names) && F.UniqueNames(n.fleet)
            && F.IdentifyProjects(n.fleet, id, names, again).Some?
            && F.IdentifyProjects(n.fleet, id, names, again).value.ids == n.ids
            && F.IdentifyProjects(n.fleet, id, names, again).value.fleet == n.fleet
  {
    hide F.NameAll, F.WithoutAbandoned, F.UniqueNames;
    var agentId := f.credentials[id].agentId;
    var b := F.WithoutAbandoned(f, id, agentId);
    AbandonedKeepsNames(f, id, agentId);
    var start := F.Naming.Naming(b, [], |set p | p in b.projects && F.Unpublished(b, p, id)|);
    NameAllAnswers(start, id, agentId, names, drawn);
    var n := F.IdentifyProjects(f, id, names, drawn).value;
    NothingAbandoned(f, n.fleet, id, agentId);
    SameEnrollment(f, id, agentId);
    NameAllAgain(n.fleet, n.ids, |set p | p in n.fleet.projects
                 && F.Unpublished(n.fleet, p, id)|, id, agentId, names, again);
  }

  lemma SameEnrollment(f: F.Fleet, id: Uuid, agentId: Uuid)
    ensures var b := F.WithoutAbandoned(f, id, agentId);
            b.environments == f.environments && b.credentials == f.credentials
  {
  }

  // ----- what is refused -----

  ghost predicate HasName(f: F.Fleet, id: Uuid, agentId: Uuid, name: string) {
    exists p :: F.Named(f, p, id, agentId, name)
  }

  /** How many of the names have no row. */
  ghost function NewNames(f: F.Fleet, id: Uuid, agentId: Uuid, names: seq<string>): nat {
    if names == [] then 0
    else
      var k := |names| - 1;
      NewNames(f, id, agentId, names[..k]) + if HasName(f, id, agentId, names[k]) then 0 else 1
  }

  /** Identifiers that are drawn at random repeat neither one another nor a row. */
  ghost predicate Unused(f: F.Fleet, drawn: seq<Uuid>) {
    && (forall k :: 0 <= k < |drawn| ==> drawn[k] !in f.projects)
    && (forall i, j :: 0 <= i < j < |drawn| ==> drawn[i] != drawn[j])
  }

  ghost predicate Distinct(names: seq<string>) { forall i, j :: 0 <= i < j < |names| ==> names[i] != names[j] }

  /** Other names, and other identifiers, are as they were. */
  ghost predicate OnlyThese(f: F.Fleet, g: F.Fleet, id: Uuid, agentId: Uuid, names: seq<string>, drawn: seq<Uuid>) {
    && (forall name :: name !in names ==> (HasName(g, id, agentId, name) <==> HasName(f, id, agentId, name)))
    && (forall p :: p in g.projects ==> p in f.projects || p in drawn)
  }

  lemma NameOneDecided(n: F.Naming, id: Uuid, agentId: Uuid, name: string, drawn: Uuid)
    requires drawn !in n.fleet.projects
    ensures var m := F.NameOne(n, id, agentId, name, drawn);
            && (m.Some? <==> HasName(n.fleet, id, agentId, name) || n.outstanding < 100)
            && (m.Some? ==>
                  && m.value.outstanding == n.outstanding + (if HasName(n.fleet, id, agentId, name) then 0 else 1)
                  && OnlyThese(n.fleet, m.value.fleet, id, agentId, [name], [drawn]))
  {
    var m := F.NameOne(n, id, agentId, name, drawn);
    if m.Some? {
      forall other | other != name
        ensures HasName(m.value.fleet, id, agentId, other) <==> HasName(n.fleet, id, agentId, other)
      {
        if p :| F.Named(n.fleet, p, id, agentId, other) { assert F.Named(m.value.fleet, p, id, agentId, other); }
        if p :| F.Named(m.value.fleet, p, id, agentId, other) { assert F.Named(n.fleet, p, id, agentId, other); }
      }
    }
  }

  lemma OnlyTheseSum(f: F.Fleet, g: F.Fleet, h: F.Fleet, id: Uuid, agentId: Uuid, names: seq<string>, drawn: seq<Uuid>,
                     name: string, more: Uuid)
    requires OnlyThese(f, g, id, agentId, names, drawn) && OnlyThese(g, h, id, agentId, [name], [more])
    ensures OnlyThese(f, h, id, agentId, names + [name], drawn + [more])
  {
    hide HasName;
    forall other | other !in names + [name] ensures HasName(h, id, agentId, other) <==> HasName(f, id, agentId, other) {
      assert other !in names && other !in [name];
    }
  }

  lemma {:induction false} NameAllDecided(n: F.Naming, id: Uuid, agentId: Uuid, names: seq<string>, drawn: seq<Uuid>)
    requires |drawn| == |names| && Unused(n.fleet, drawn) && Distinct(names)
    ensures var (m, count) := (F.NameAll(n, id, agentId, names, drawn), NewNames(n.fleet, id, agentId, names));
            && (m.Some? <==> count == 0 || n.outstanding + count <= 100)
            && (m.Some? ==> m.value.outstanding == n.outstanding + count
                            && OnlyThese(n.fleet, m.value.fleet, id, agentId, names, drawn))
  {
    if names != [] {
      hide F.NameOne, HasName;
      var k := |names| - 1;
      NameAllDecided(n, id, agentId, names[..k], drawn[..k]);
      var m := F.NameAll(n, id, agentId, names[..k], drawn[..k]);
      if m.Some? {
        assert names[k] !in names[..k] && drawn[k] !in drawn[..k];
        NameOneDecided(m.value, id, agentId, names[k], drawn[k]);
        var last := F.NameOne(m.value, id, agentId, names[k], drawn[k]);
        if last.Some? {
          OnlyTheseSum(n.fleet, m.value.fleet, last.value.fleet, id, agentId, names[..k], drawn[..k], names[k],
                       drawn[k]);
          assert names[..k] + [names[k]] == names && drawn[..k] + [drawn[k]] == drawn;
        }
      }
    }
  }

  /** The rows of this enrollment that were never published. */
  ghost function Outstanding(f: F.Fleet, id: Uuid, agentId: Uuid): set<Uuid> {
    set p | p in f.projects && f.projects[p].environmentId == id && f.projects[p].agentId == agentId
            && !f.projects[p].published
  }

  /** Names are identified if and only if they are at most a hundred, all different and none blank, their environment is
      enrolled, and those without a row leave no more than a hundred rows of the enrollment unpublished. */
  lemma NamingDecided(f: F.Fleet, id: Uuid, names: seq<string>, drawn: seq<Uuid>)
    requires |drawn| == |names| && Unused(f, drawn)
    ensures F.IdentifyProjects(f, id, names, drawn).Some? <==>
              && |names| <= 100 && Distinct(names) && "" !in names
              && id in f.environments && f.environments[id].enrollment == F.Enrolled && id in f.credentials
              && var (agentId, count) := (f.credentials[id].agentId, NewNames(f, id, f.credentials[id].agentId, names));
              (count == 0 || |Outstanding(f, id, agentId)| + count <= 100)
  {
    hide F.NameAll, NewNames;
    if id in f.credentials && Distinct(names) {
      var agentId := f.credentials[id].agentId;
      var b := F.WithoutAbandoned(f, id, agentId);
      assert Outstanding(f, id, agentId) == set p | p in b.projects && F.Unpublished(b, p, id);
      SameNewNames(f, id, agentId, names);
      NameAllDecided(F.Naming.Naming(b, [], |set p | p in b.projects && F.Unpublished(b, p, id)|), id, agentId, names,
                     drawn);
    }
  }

  lemma {:induction false} SameNewNames(f: F.Fleet, id: Uuid, agentId: Uuid, names: seq<string>)
    ensures NewNames(F.WithoutAbandoned(f, id, agentId), id, agentId, names) == NewNames(f, id, agentId, names)
  {
    if names != [] {
      var k := |names| - 1;
      SameNewNames(f, id, agentId, names[..k]);
      var b := F.WithoutAbandoned(f, id, agentId);
      if p :| F.Named(f, p, id, agentId, names[k]) { assert F.Named(b, p, id, agentId, names[k]); }
      if p :| F.Named(b, p, id, agentId, names[k]) { assert F.Named(f, p, id, agentId, names[k]); }
    }
  }
}
