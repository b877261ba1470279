/**
 * DoProcess of process.go: the earlier variant of the migration queues,
 * which keeps query ids instead of query records, sorts the queries of
 * the collection into buckets, groups projects by team, and prints a
 * summary sorted by a per-query key.
 */
module Process {
  import opened Catalog
  import opened Lists
  import opened Text
  import opened Ordering
  import opened Queues

  // ---------------------------------------------------------------------
  // appendQueryToList and prependQueryToList, on ids.

  /** An id queue: ids of eligible queries of the collection, each once. */
  predicate IdsOk(cat: Collection, list: seq<nat>)
  {
    NoDup(list) && forall id :: id in list ==> id in cat && Eligible(cat[id])
  }

  /** prependQueryToList. Its callers only hand it a query whose id is not
      in the list yet; it does not check that itself. */
  function PrependIds(cat: Collection, q: Query, list: seq<nat>): (r: seq<nat>)
    requires Keyed(cat) && Closed(cat) && q in cat.Values && q.id !in list
    ensures EndsWith(r, list)
    ensures Eligible(q) ==> EndsWith(r, [q.id] + list)
    ensures !Eligible(q) ==> r == list
    decreases |cat.Keys - Elems(list)|, 0, 0
  {
    if Eligible(q) then
      FiledUnderId(cat, q);
      CardShrinks(cat.Keys - Elems(list), cat.Keys - Elems([q.id] + list), q.id);
      var r := PrependDeps(cat, q, q.dependencies, [q.id] + list);
      EndsWithTrans(r, [q.id] + list, list);
      r
    else list
  }

  /** The loop of prependQueryToList over the dependencies `deps` of `q`. */
  function PrependDeps(cat: Collection, q: Query, deps: seq<nat>, list: seq<nat>): (r: seq<nat>)
    requires Keyed(cat) && Closed(cat) && forall d :: d in deps ==> d in cat
    ensures EndsWith(r, list)
    decreases |cat.Keys - Elems(list)|, 1, |deps|
  {
    if deps == [] then list
    else
      var d := deps[0];
      var next := if InsertScope(cat[d], q) && d !in list then PrependIds(cat, cat[d], list) else list;
      EndsWithElems(next, list);
      SubsetCard(cat.Keys - Elems(next), cat.Keys - Elems(list));
      var r := PrependDeps(cat, q, deps[1..], next);
      EndsWithTrans(r, next, list);
      r
  }

  /** appendQueryToList of process.go: like the one of the queues, but it
      does not hand corp dependencies anywhere. */
  function AppendIds(cat: Collection, q: Query, list: seq<nat>): (r: seq<nat>)
    requires Keyed(cat) && Closed(cat) && q in cat.Values
    ensures !(Eligible(q) && q.id !in list) ==> r == list
    ensures Eligible(q) && q.id !in list ==> EndsWith(r, list + [q.id])
  {
    if Eligible(q) && q.id !in list then AppendIdDeps(cat, q, q.dependencies, list + [q.id]) else list
  }

  function AppendIdDeps(cat: Collection, q: Query, deps: seq<nat>, list: seq<nat>): (r: seq<nat>)
    requires Keyed(cat) && Closed(cat) && forall d :: d in deps ==> d in cat
    ensures EndsWith(r, list)
    decreases |deps|
  {
    if deps == [] then list
    else
      var d := deps[0];
      var next := if AppendScope(cat[d], q) && d !in list then PrependIds(cat, cat[d], list) else list;
      var r := AppendIdDeps(cat, q, deps[1..], next);
      EndsWithTrans(r, next, list);
      r
  }

  // ---------------------------------------------------------------------
  // The two variants agree.

  /** The ids of a list of queries. */
  function Ids(list: seq<Query>): seq<nat>
  {
    seq(|list|, k requires 0 <= k < |list| => list[k].id)
  }

  /** The ids of a list with one more query in front. */
  lemma IdsCons(q: Query, list: seq<Query>)
    ensures Ids([q] + list) == [q.id] + Ids(list)
  {
    assert forall k :: 0 <= k < |list| ==> ([q] + list)[k + 1] == list[k];
  }

  /** In a keyed collection a query is in a list of its queries exactly when
      its id is among their ids. */
  lemma IdsMember(cat: Collection, list: seq<Query>, x: Query)
    requires Keyed(cat) && x in cat.Values && forall y :: y in list ==> y in cat.Values
    ensures x in list <==> x.id in Ids(list)
  {
    if x.id in Ids(list) {
      var k :| 0 <= k < |list| && list[k].id == x.id;
      FiledUnderId(cat, list[k]);
      FiledUnderId(cat, x);
    }
    if x in list {
      var k :| 0 <= k < |list| && list[k] == x;
      assert Ids(list)[k] == x.id;
    }
  }

  /** The ids of a well-kept queue form a well-kept id queue. */
  lemma IdsOfQueue(cat: Collection, list: seq<Query>)
    requires Keyed(cat) && QueueOk(cat, list)
    ensures IdsOk(cat, Ids(list))
  {
    forall i, j | 0 <= i < j < |list| ensures list[i].id != list[j].id {
      FiledUnderId(cat, list[i]);
      FiledUnderId(cat, list[j]);
    }
    forall id | id in Ids(list) ensures id in cat && Eligible(cat[id]) {
      var k :| 0 <= k < |list| && list[k].id == id;
      FiledUnderId(cat, list[k]);
    }
  }

  /** The queries of a well-kept id queue, in its order. */
  function Queries(cat: Collection, list: seq<nat>): (r: seq<Query>)
    requires IdsOk(cat, list)
  {
    seq(|list|, k requires 0 <= k < |list| => cat[list[k]])
  }

  lemma QueriesOfIds(cat: Collection, list: seq<nat>)
    requires Keyed(cat) && IdsOk(cat, list)
    ensures QueueOk(cat, Queries(cat, list)) && Ids(Queries(cat, list)) == list
  {
    var r := Queries(cat, list);
    forall i, j | 0 <= i < j < |r| ensures r[i] != r[j] {
      assert r[i].id == list[i] && r[j].id == list[j];
    }
  }

  /** prependQueryToList on ids does what insertQueryToList does on queries. */
  lemma {:induction false} PrependAgrees(cat: Collection, q: Query, list: seq<Query>)
    requires Keyed(cat) && Closed(cat) && q in cat.Values && QueueOk(cat, list) && q.id !in Ids(list)
    ensures Ids(InsertQuery(cat, q, list)) == PrependIds(cat, q, Ids(list))
    decreases |cat.Values - Elems(list)|, 0, 0
  {
    IdsMember(cat, list, q);
    if Eligible(q) {
      CardShrinks(cat.Values - Elems(list), cat.Values - Elems([q] + list), q);
      QueueOkCons(cat, q, list);
      IdsCons(q, list);
      PrependDepsAgree(cat, q, q.dependencies, [q] + list);
    }
  }

  lemma {:induction false} PrependDepsAgree(cat: Collection, q: Query, deps: seq<nat>, list: seq<Query>)
    requires Keyed(cat) && Closed(cat) && (forall d :: d in deps ==> d in cat) && QueueOk(cat, list)
    ensures Ids(InsertDeps(cat, q, deps, list)) == PrependDeps(cat, q, deps, Ids(list))
    decreases |cat.Values - Elems(list)|, 1, |deps|
  {
    if deps != [] {
      var d := deps[0];
      var dep := cat[d];
      assert dep in cat.Values;
      FiledUnderId(cat, dep);
      IdsMember(cat, list, dep);
      var next := if InsertScope(dep, q) && dep !in list then InsertQuery(cat, dep, list) else list;
      if InsertScope(dep, q) && dep !in list {
        PrependAgrees(cat, dep, list);
        InsertQueryKeepsQueue(cat, dep, list);
      }
      EndsWithElems(next, list);
      SubsetCard(cat.Values - Elems(next), cat.Values - Elems(list));
      PrependDepsAgree(cat, q, deps[1..], next);
    }
  }

  /** The list that appendQueryToList of process.go builds is the list of ids
      of what appendQueryToList of the queues builds; the latter only adds
      the corp routing, which does not touch the list. */
  lemma AppendAgrees(cat: Collection, q: Query, list: seq<Query>)
    requires Keyed(cat) && Closed(cat) && q in cat.Values && QueueOk(cat, list)
    ensures Ids(AppendList(cat, q, list)) == AppendIds(cat, q, Ids(list))
  {
    IdsMember(cat, list, q);
    if Eligible(q) && q !in list {
      QueueOkCons(cat, q, list);
      assert Ids(list + [q]) == Ids(list) + [q.id];
      AppendDepsAgree(cat, q, q.dependencies, list + [q]);
    }
  }

  lemma {:induction false} AppendDepsAgree(cat: Collection, q: Query, deps: seq<nat>, list: seq<Query>)
    requires Keyed(cat) && Closed(cat) && (forall d :: d in deps ==> d in cat) && QueueOk(cat, list)
    ensures Ids(AppendDeps(cat, q, deps, list)) == AppendIdDeps(cat, q, deps, Ids(list))
    decreases |deps|
  {
    if deps != [] {
      var d := deps[0];
      var dep := cat[d];
      assert dep in cat.Values;
      FiledUnderId(cat, dep);
      IdsMember(cat, list, dep);
      if dep !in list && AppendScope(dep, q) {
        PrependAgrees(cat, dep, list);
        InsertQueryKeepsQueue(cat, dep, list);
      }
      AppendDepsAgree(cat, q, deps[1..], DepStep(cat, q, d, list));
    }
  }

  /** Both id builders keep an id queue well kept. */
  lemma AppendIdsKeepsQueue(cat: Collection, q: Query, list: seq<nat>)
    requires Keyed(cat) && Closed(cat) && q in cat.Values && IdsOk(cat, list)
    ensures IdsOk(cat, AppendIds(cat, q, list))
  {
    QueriesOfIds(cat, list);
    var recs := Queries(cat, list);
    AppendAgrees(cat, q, recs);
    AppendListKeepsQueue(cat, q, recs);
    IdsOfQueue(cat, AppendList(cat, q, recs));
  }

  lemma PrependIdsKeepsQueue(cat: Collection, q: Query, list: seq<nat>)
    requires Keyed(cat) && Closed(cat) && q in cat.Values && IdsOk(cat, list) && q.id !in list
    ensures IdsOk(cat, PrependIds(cat, q, list))
  {
    QueriesOfIds(cat, list);
    var recs := Queries(cat, list);
    IdsMember(cat, recs, q);
    PrependAgrees(cat, q, recs);
    InsertQueryKeepsQueue(cat, q, recs);
    IdsOfQueue(cat, InsertQuery(cat, q, recs));
  }

  /** A dependency that prependQueryToList brings in comes before the query. */
  lemma PrependedDependencyFirst(cat: Collection, q: Query, list: seq<nat>, d: nat)
    requires Keyed(cat) && Closed(cat) && q in cat.Values && IdsOk(cat, list) && q.id !in list
    requires Eligible(q) && d in q.dependencies && InsertScope(cat[d], q) && Eligible(cat[d])
    requires d !in list && d != q.id
    ensures var r := PrependIds(cat, q, list);
            d in r && q.id in r && Lists.IndexOf(r, d) < Lists.IndexOf(r, q.id)
  {
    QueriesOfIds(cat, list);
    var recs := Queries(cat, list);
    assert cat[d] in cat.Values;
    FiledUnderId(cat, cat[d]);
    FiledUnderId(cat, q);
    IdsMember(cat, recs, q);
    IdsMember(cat, recs, cat[d]);
    InsertedDependencyFirst(cat, q, recs, d);
    PrependAgrees(cat, q, recs);
    var r := InsertQuery(cat, q, recs);
    var ids := Ids(r);
    var i := Lists.IndexOf(r, cat[d]);
    var j := Lists.IndexOf(r, q);
    assert ids[i] == d && ids[j] == q.id;
    InsertQueryKeepsQueue(cat, q, recs);
    IdsOfQueue(cat, r);
    assert Lists.IndexOf(ids, d) == i;
    assert Lists.IndexOf(ids, q.id) == j;
  }

  // ---------------------------------------------------------------------
  // The classification loop of DoProcess.

  /** A query group of the collection: its package level, its owner and
      its queries. The groups of every language are given one after the
      other. */
  datatype Group = Group(packageType: PackageType, owningTeamId: nat, owningProjectId: nat, queries: seq<Query>)

  datatype Buckets = Buckets(
    corpToMigrate: seq<nat>,
    corpToCreate: seq<nat>,
    teamToMigrate: map<nat, seq<nat>>,
    projectToMigrate: map<nat, seq<nat>>)

  const NoBuckets := Buckets([], [], map[], map[])

  predicate FromCollection(cat: Collection, groups: seq<Group>)
  {
    forall i, q :: 0 <= i < |groups| && q in groups[i].queries ==> q in cat.Values
  }

  predicate BucketsOk(cat: Collection, b: Buckets)
  {
    IdsOk(cat, b.corpToMigrate) && IdsOk(cat, b.corpToCreate)
    && (forall t :: t in b.teamToMigrate ==> IdsOk(cat, b.teamToMigrate[t]))
    && (forall p :: p in b.projectToMigrate ==> IdsOk(cat, b.projectToMigrate[p]))
  }

  function IdBucket(m: map<nat, seq<nat>>, key: nat): seq<nat>
  {
    if key in m then m[key] else []
  }

  /** One query of a group: a corp query goes to the corp migrate queue; a
      valid team or project query goes to the create queue when it is the
      root of its chain, and to the queue of its group's team or project
      otherwise. */
  function ClassifyQuery(cat: Collection, g: Group, q: Query, b: Buckets): Buckets
    requires Keyed(cat) && Closed(cat) && q in cat.Values
  {
    match g.packageType
    case Corp => b.(corpToMigrate := AppendIds(cat, q, b.corpToMigrate))
    case Team =>
      if !q.valid then b
      else if IsRoot(q) then b.(corpToCreate := AppendIds(cat, q, b.corpToCreate))
      else b.(teamToMigrate := b.teamToMigrate[g.owningTeamId := AppendIds(cat, q, IdBucket(b.teamToMigrate, g.owningTeamId))])
    case Project =>
      if !q.valid then b
      else if IsRoot(q) then b.(corpToCreate := AppendIds(cat, q, b.corpToCreate))
      else b.(projectToMigrate := b.projectToMigrate[g.owningProjectId := AppendIds(cat, q, IdBucket(b.projectToMigrate, g.owningProjectId))])
    case Product => b
  }

  /** The first `n` queries of a group, one after the other. */
  function ClassifyGroup(cat: Collection, g: Group, n: nat, b: Buckets): Buckets
    requires Keyed(cat) && Closed(cat) && n <= |g.queries| && forall q :: q in g.queries ==> q in cat.Values
  {
    if n == 0 then b else ClassifyQuery(cat, g, g.queries[n - 1], ClassifyGroup(cat, g, n - 1, b))
  }

  /** The first `n` groups, one after the other. */
  function Classify(cat: Collection, groups: seq<Group>, n: nat): Buckets
    requires Keyed(cat) && Closed(cat) && n <= |groups| && FromCollection(cat, groups)
  {
    if n == 0 then NoBuckets
    else ClassifyGroup(cat, groups[n - 1], |groups[n - 1].queries|, Classify(cat, groups, n - 1))
  }

  /** Classifying a query keeps every bucket well kept and loses nothing
      from the corp migrate queue. */
  lemma ClassifyQueryKeeps(cat: Collection, g: Group, q: Query, b: Buckets)
    requires Keyed(cat) && Closed(cat) && q in cat.Values && BucketsOk(cat, b)
    ensures var r := ClassifyQuery(cat, g, q, b);
            BucketsOk(cat, r) && (forall x :: x in b.corpToMigrate ==> x in r.corpToMigrate)
            && (g.packageType == PackageType.Corp && Eligible(q) ==> q.id in r.corpToMigrate)
  {
    match g.packageType
    case Corp =>
      AppendIdsKeepsQueue(cat, q, b.corpToMigrate);
      var list := b.corpToMigrate;
      if Eligible(q) && q.id !in list {
        var r := AppendIds(cat, q, list);
        EndsWithElems(r, list + [q.id]);
        assert q.id in Elems(list + [q.id]);
        forall x | x in list ensures x in r {
          assert x in Elems(list + [q.id]);
        }
      }
    case Team =>
      AppendIdsKeepsQueue(cat, q, b.corpToCreate);
      AppendIdsKeepsQueue(cat, q, IdBucket(b.teamToMigrate, g.owningTeamId));
    case Project =>
      AppendIdsKeepsQueue(cat, q, b.corpToCreate);
      AppendIdsKeepsQueue(cat, q, IdBucket(b.projectToMigrate, g.owningProjectId));
    case Product =>
  }

  /** A valid team or project query that is the root of its chain goes to
      the create queue and nowhere else. */
  lemma RootOnlyCreated(cat: Collection, g: Group, q: Query, b: Buckets)
    requires Keyed(cat) && Closed(cat) && q in cat.Values && BucketsOk(cat, b)
    requires g.packageType in {PackageType.Team, PackageType.Project} && Eligible(q) && IsRoot(q)
    ensures var r := ClassifyQuery(cat, g, q, b);
            q.id in r.corpToCreate && r.corpToMigrate == b.corpToMigrate
            && r.teamToMigrate == b.teamToMigrate && r.projectToMigrate == b.projectToMigrate
  {
    var list := b.corpToCreate;
    if q.id !in list {
      EndsWithElems(AppendIds(cat, q, list), list + [q.id]);
      assert q.id in Elems(list + [q.id]);
    }
  }

  lemma {:induction false} ClassifyGroupKeeps(cat: Collection, g: Group, n: nat, b: Buckets)
    requires Keyed(cat) && Closed(cat) && n <= |g.queries| && (forall q :: q in g.queries ==> q in cat.Values)
    requires BucketsOk(cat, b)
    ensures var r := ClassifyGroup(cat, g, n, b);
            BucketsOk(cat, r) && (forall x :: x in b.corpToMigrate ==> x in r.corpToMigrate)
            && (g.packageType == PackageType.Corp ==>
                  forall k :: 0 <= k < n && Eligible(g.queries[k]) ==> g.queries[k].id in r.corpToMigrate)
  {
    if n > 0 {
      ClassifyGroupKeeps(cat, g, n - 1, b);
      ClassifyQueryKeeps(cat, g, g.queries[n - 1], ClassifyGroup(cat, g, n - 1, b));
    }
  }

  lemma {:induction false} ClassifyKeeps(cat: Collection, groups: seq<Group>, n: nat)
    requires Keyed(cat) && Closed(cat) && n <= |groups| && FromCollection(cat, groups)
    ensures var r := Classify(cat, groups, n);
            BucketsOk(cat, r)
            && forall i, k ::
                 (0 <= i < n && groups[i].packageType == PackageType.Corp
                  && 0 <= k < |groups[i].queries| && Eligible(groups[i].queries[k]))
                 ==> groups[i].queries[k].id in r.corpToMigrate
  {
    if n > 0 {
      ClassifyKeeps(cat, groups, n - 1);
      var g := groups[n - 1];
      assert forall q :: q in g.queries ==> q in cat.Values;
      ClassifyGroupKeeps(cat, g, |g.queries|, Classify(cat, groups, n - 1));
    }
  }

  /** After the classification every bucket is well kept, and every eligible
      query of a corp group is queued for migration. */
  lemma ClassificationQueuesCorp(cat: Collection, groups: seq<Group>)
    requires Keyed(cat) && Closed(cat) && FromCollection(cat, groups)
    ensures var r := Classify(cat, groups, |groups|);
            BucketsOk(cat, r)
            && forall i, q ::
                 (0 <= i < |groups| && groups[i].packageType == PackageType.Corp
                  && q in groups[i].queries && Eligible(q))
                 ==> q.id in r.corpToMigrate
  {
    ClassifyKeeps(cat, groups, |groups|);
    forall i, q | 0 <= i < |groups| && groups[i].packageType == PackageType.Corp
                 && q in groups[i].queries && Eligible(q)
      ensures q.id in Classify(cat, groups, |groups|).corpToMigrate
    {
      var k :| 0 <= k < |groups[i].queries| && groups[i].queries[k] == q;
    }
  }

  /** The classification loop of DoProcess. */
  method ClassifyQueries(cat: Collection, groups: seq<Group>) returns (b: Buckets)
    requires Keyed(cat) && Closed(cat) && FromCollection(cat, groups)
    ensures b == Classify(cat, groups, |groups|)
  {
    b := NoBuckets;
    var i := 0;
    while i < |groups|
      invariant 0 <= i <= |groups|
      invariant b == Classify(cat, groups, i)
    {
      var g := groups[i];
      assert forall q :: q in g.queries ==> q in cat.Values;
      b := ClassifyGroupQueries(cat, g, b);
      i := i + 1;
    }
  }

  /** The inner loop of classifyQueries: the queries of one group, in order. */
  method ClassifyGroupQueries(cat: Collection, g: Group, b0: Buckets) returns (b: Buckets)
    requires Keyed(cat) && Closed(cat) && forall q :: q in g.queries ==> q in cat.Values
    ensures b == ClassifyGroup(cat, g, |g.queries|, b0)
  {
    b := b0;
    var j := 0;
    while j < |g.queries|
      invariant 0 <= j <= |g.queries|
      invariant b == ClassifyGroup(cat, g, j, b0)
    {
      b := ClassifyOne(cat, g, g.queries[j], b);
      j := j + 1;
    }
  }

  /** A team or project query goes into the queue of its owner, which is
      started empty when the owner has none yet. */
  method FileIds(cat: Collection, q: Query, queues0: map<nat, seq<nat>>, key: nat)
    returns (queues: map<nat, seq<nat>>)
    requires Keyed(cat) && Closed(cat) && q in cat.Values
    ensures queues == queues0[key := AppendIds(cat, q, IdBucket(queues0, key))]
  {
    queues := queues0;
    if key !in queues {
      queues := queues[key := []];
    }
    queues := queues[key := AppendIds(cat, q, queues[key])];
  }

  /** One query of classifyQueries, filed by the package type of its group. */
  method ClassifyOne(cat: Collection, g: Group, q: Query, b0: Buckets) returns (b: Buckets)
    requires Keyed(cat) && Closed(cat) && q in cat.Values
    ensures b == ClassifyQuery(cat, g, q, b0)
  {
    b := b0;
    match g.packageType {
      case Corp =>
        b := b.(corpToMigrate := AppendIds(cat, q, b.corpToMigrate));
      case Team =>
        if q.valid {
          if q.baseId == q.id {
            b := b.(corpToCreate := AppendIds(cat, q, b.corpToCreate));
          } else {
            var queues := FileIds(cat, q, b.teamToMigrate, g.owningTeamId);
            b := b.(teamToMigrate := queues);
          }
        }
      case Project =>
        if q.valid {
          if q.baseId == q.id {
            b := b.(corpToCreate := AppendIds(cat, q, b.corpToCreate));
          } else {
            var queues := FileIds(cat, q, b.projectToMigrate, g.owningProjectId);
            b := b.(projectToMigrate := queues);
          }
        }
      case Product =>
    }
  }

  // ---------------------------------------------------------------------
  // projectsPerTeam and the teams whose queues are migrated.

  /** projectsPerTeam: every project listed under its team, in the order the
      project map happens to yield them. */
  method ProjectsPerTeam(projects: map<nat, Project>) returns (r: map<nat, seq<nat>>)
    ensures forall t :: t in r <==> exists pid :: pid in projects && projects[pid].teamId == t
    ensures forall t :: t in r ==> |r[t]| > 0
    ensures forall t, x :: t in r ==>
              (x in r[t] <==> exists pid :: pid in projects && projects[pid].teamId == t && projects[pid].id == x)
    ensures (forall pid :: pid in projects ==> projects[pid].id == pid) ==> forall t :: t in r ==> NoDup(r[t])
  {
    r := map[];
    var rest := projects;
    while rest != map[]
      invariant Filed(projects, rest, r)
      decreases |rest.Keys|
    {
      var pid :| pid in rest;
      var project := rest[pid];
      ghost var before := r;
      if project.teamId !in r {
        r := r[project.teamId := []];
      }
      r := r[project.teamId := r[project.teamId] + [project.id]];
      assert r == FileProject(before, project);
      FiledStep(projects, rest, before, pid);
      assert (rest - {pid}).Keys == rest.Keys - {pid};
      rest := rest - {pid};
    }
  }

  /** The project listed under its team, at the end of the team's list. */
  function FileProject(r: map<nat, seq<nat>>, project: Project): map<nat, seq<nat>>
  {
    r[project.teamId := (if project.teamId in r then r[project.teamId] else []) + [project.id]]
  }

  /** The loop invariant of projectsPerTeam: `r` lists exactly the projects
      no longer in `rest`, each under its team, and (with projects keyed by
      their ids) each once and none of those still to come. */
  ghost predicate Filed(projects: map<nat, Project>, rest: map<nat, Project>, r: map<nat, seq<nat>>)
  {
    (forall pid :: pid in rest ==> pid in projects && rest[pid] == projects[pid])
    && FiledTeams(projects, rest, r) && FiledIds(projects, rest, r) && FiledOnce(projects, rest, r)
  }

  /** The teams listed are those of the projects filed, each with a project. */
  ghost predicate FiledTeams(projects: map<nat, Project>, rest: map<nat, Project>, r: map<nat, seq<nat>>)
  {
    (forall t :: t in r <==> exists pid :: pid in projects && pid !in rest && projects[pid].teamId == t)
    && (forall t :: t in r ==> |r[t]| > 0)
  }

  /** A team lists the ids of exactly its projects filed. */
  ghost predicate FiledIds(projects: map<nat, Project>, rest: map<nat, Project>, r: map<nat, seq<nat>>)
  {
    forall t, x :: t in r ==>
      (x in r[t] <==> exists pid :: pid in projects && pid !in rest && projects[pid].teamId == t && projects[pid].id == x)
  }

  /** With projects keyed by their ids, a team lists each id once, and none
      of the projects still to come. */
  ghost predicate FiledOnce(projects: map<nat, Project>, rest: map<nat, Project>, r: map<nat, seq<nat>>)
  {
    (forall pid :: pid in projects ==> projects[pid].id == pid) ==>
      forall t :: t in r ==> NoDup(r[t]) && forall x :: x in r[t] ==> x !in rest
  }

  /** Filing one more project keeps the invariant. */
  lemma FiledStep(projects: map<nat, Project>, rest: map<nat, Project>, r: map<nat, seq<nat>>, pid: nat)
    requires Filed(projects, rest, r) && pid in rest
    ensures Filed(projects, rest - {pid}, FileProject(r, rest[pid]))
  {
    FiledTeamsStep(projects, rest, r, pid);
    FiledIdsStep(projects, rest, r, pid);
    FiledOnceStep(projects, rest, r, pid);
  }

  /** Filing a project lists its team. */
  lemma FiledTeamsStep(projects: map<nat, Project>, rest: map<nat, Project>, r: map<nat, seq<nat>>, pid: nat)
    requires pid in rest && pid in projects && rest[pid] == projects[pid]
    requires FiledTeams(projects, rest, r)
    ensures FiledTeams(projects, rest - {pid}, FileProject(r, rest[pid]))
  {
  }

  /** Filing a project lists its id under its team. */
  lemma FiledIdsStep(projects: map<nat, Project>, rest: map<nat, Project>, r: map<nat, seq<nat>>, pid: nat)
    requires pid in rest && pid in projects && rest[pid] == projects[pid]
    requires FiledTeams(projects, rest, r) && FiledIds(projects, rest, r)
    ensures FiledIds(projects, rest - {pid}, FileProject(r, rest[pid]))
  {
    var r' := FileProject(r, rest[pid]);
    forall t, x | t in r'
      ensures x in r'[t] <==> exists p :: p in projects && p !in rest - {pid} && projects[p].teamId == t && projects[p].id == x
    {
      if x in r'[t] && t == rest[pid].teamId && x == rest[pid].id {
        assert pid in projects && pid !in rest - {pid};
      }
    }
  }

  /** Filing a project not listed yet keeps each list free of repeats. */
  lemma FiledOnceStep(projects: map<nat, Project>, rest: map<nat, Project>, r: map<nat, seq<nat>>, pid: nat)
    requires pid in rest && pid in projects && rest[pid] == projects[pid]
    requires FiledIds(projects, rest, r) && FiledOnce(projects, rest, r)
    ensures FiledOnce(projects, rest - {pid}, FileProject(r, rest[pid]))
  {
  }

  /** A team's queue is migrated when the team has at least one project. */
  predicate HasProjects(projectsPerTeam: map<nat, seq<nat>>, teamId: nat)
  {
    teamId in projectsPerTeam && |projectsPerTeam[teamId]| > 0
  }

  /** The ids of the team queries DoProcess migrates: the queues of the teams
      with projects, in the order the map happens to yield the teams. */
  method TeamQueriesToMigrate(teamQueries: map<nat, seq<nat>>, projectsPerTeam: map<nat, seq<nat>>)
    returns (ids: seq<nat>)
    ensures forall x :: x in ids <==>
              exists t :: t in teamQueries && HasProjects(projectsPerTeam, t) && x in teamQueries[t]
  {
    ids := [];
    var rest := teamQueries;
    while rest != map[]
      invariant forall t :: t in rest ==> t in teamQueries && rest[t] == teamQueries[t]
      invariant forall x :: x in ids <==>
                  exists t :: t in teamQueries && t !in rest && HasProjects(projectsPerTeam, t) && x in teamQueries[t]
      decreases |rest.Keys|
    {
      var teamId :| teamId in rest;
      if teamId in projectsPerTeam && |projectsPerTeam[teamId]| > 0 {
        ids := ids + rest[teamId];
      }
      assert (rest - {teamId}).Keys == rest.Keys - {teamId};
      rest := rest - {teamId};
    }
  }

  /** Teams with projects are exactly the teams some project belongs to. */
  lemma HasProjectsIff(projects: map<nat, Project>, projectsPerTeam: map<nat, seq<nat>>, t: nat)
    requires forall t :: t in projectsPerTeam <==> exists pid :: pid in projects && projects[pid].teamId == t
    requires forall t :: t in projectsPerTeam ==> |projectsPerTeam[t]| > 0
    ensures HasProjects(projectsPerTeam, t) <==> exists pid :: pid in projects && projects[pid].teamId == t
  {
  }

  // ---------------------------------------------------------------------
  // The summary.

  /** The summary key of a migrated query: "language.group.name #id". */
  function SummaryKey(q: Query): (k: string)
    ensures HasPrefix(k, q.language + ".")
    ensures HasSuffix(k, " #" + NatToString(q.id))
  {
    var head := q.language + ".";
    var tail := " #" + NatToString(q.id);
    var k := head + (q.group + "." + q.name + tail);
    assert k[..|head|] == head;
    assert k[|k| - |tail|..] == tail;
    k
  }

  /** The keys of the entries `ids` of a status map, counted with repetition. */
  ghost function KeyBag(status: map<nat, Query>, ids: set<nat>): multiset<string>
    requires ids <= status.Keys
    decreases ids
  {
    if ids == {} then multiset{}
    else
      var id :| id in ids;
      KeyBag(status, ids - {id}) + multiset{SummaryKey(status[id])}
  }

  /** Whichever entry is taken out first, the bag is the same. */
  lemma {:induction false} KeyBagRemove(status: map<nat, Query>, ids: set<nat>, id: nat)
    requires ids <= status.Keys && id in ids
    ensures KeyBag(status, ids) == KeyBag(status, ids - {id}) + multiset{SummaryKey(status[id])}
    decreases ids
  {
    var j :| j in ids && KeyBag(status, ids) == KeyBag(status, ids - {j}) + multiset{SummaryKey(status[j])};
    if j != id {
      KeyBagRemove(status, ids - {j}, id);
      KeyBagRemove(status, ids - {id}, j);
      assert ids - {j} - {id} == ids - {id} - {j};
    }
  }

  lemma {:induction false} KeyBagMember(status: map<nat, Query>, ids: set<nat>, k: string)
    requires ids <= status.Keys
    ensures k in KeyBag(status, ids) <==> exists id :: id in ids && SummaryKey(status[id]) == k
    decreases ids
  {
    if ids != {} {
      var id :| id in ids;
      KeyBagRemove(status, ids, id);
      KeyBagMember(status, ids - {id}, k);
    }
  }

  /** The loop of DoProcess over the status map: one key per entry, in the
      order the map happens to yield them, and the map back to the entry. */
  method CollectKeys(status: map<nat, Query>) returns (unsorted: seq<string>, keymap: map<string, nat>)
    ensures multiset(unsorted) == KeyBag(status, status.Keys)
    ensures forall k :: k in unsorted ==> k in keymap
    ensures forall k :: k in keymap ==> keymap[k] in status && SummaryKey(status[keymap[k]]) == k
  {
    unsorted := [];
    keymap := map[];
    var todo := status.Keys;
    while todo != {}
      invariant todo <= status.Keys
      invariant multiset(unsorted) + KeyBag(status, todo) == KeyBag(status, status.Keys)
      invariant forall k :: k in unsorted ==> k in keymap
      invariant forall k :: k in keymap ==> keymap[k] in status && SummaryKey(status[keymap[k]]) == k
      decreases todo
    {
      var id :| id in todo;
      var key := SummaryKey(status[id]);
      KeyBagRemove(status, todo, id);
      unsorted := unsorted + [key];
      keymap := keymap[key := id];
      todo := todo - {id};
    }
  }

  /** The summary of DoProcess: the keys sorted ascending. */
  method SummaryKeys(status: map<nat, Query>) returns (keys: seq<string>, keymap: map<string, nat>)
    ensures Sorted(keys) && multiset(keys) == KeyBag(status, status.Keys)
    ensures forall k :: k in keys ==> k in keymap && keymap[k] in status && SummaryKey(status[keymap[k]]) == k
  {
    var unsorted;
    unsorted, keymap := CollectKeys(status);
    keys := Sort(unsorted);
    assert forall k :: k in keys ==> k in multiset(unsorted);
  }

  /** The summary does not depend on the order the status map yields its
      entries: two sorted key lists of the same status are equal, and each
      key names an entry of the status. */
  lemma SummaryDeterministic(status: map<nat, Query>, a: seq<string>, b: seq<string>)
    requires Sorted(a) && multiset(a) == KeyBag(status, status.Keys)
    requires Sorted(b) && multiset(b) == KeyBag(status, status.Keys)
    ensures a == b
    ensures forall k :: k in a ==> exists id :: id in status && SummaryKey(status[id]) == k
  {
    SortedUnique(a, b);
    forall k | k in a ensures exists id :: id in status && SummaryKey(status[id]) == k {
      assert k in multiset(a);
      KeyBagMember(status, status.Keys, k);
    }
  }
}
