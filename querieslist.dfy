/**
 * The migration queues of querieslist.go: corp queries to create, corp
 * queries to migrate, and team and project overrides to migrate per team
 * or project. A query is queued with the custom queries it depends on,
 * so that every dependency is migrated before the query that needs it.
 *
 * The queues hold query records; the original holds pointers into the
 * query collection, so "already queued" is a comparison of records here.
 */
module Queues {
  import opened Wrappers
  import opened Catalog
  import opened Lists

  // ---------------------------------------------------------------------
  // Which dependencies follow a query.

  /** appendQueryToList moves a dependency along with the query when both
      belong to the same project, or to the same team. */
  predicate AppendScope(dep: Query, q: Query)
  {
    (dep.owner.owningProjectId > 0 && dep.owner.owningProjectId == q.owner.owningProjectId)
    || (dep.owner.owningTeamId > 0 && dep.owner.owningTeamId == q.owner.owningTeamId)
  }

  /** insertQueryToList moves a dependency along when both have the same
      project id, or when the dependency belongs to any team. */
  predicate InsertScope(dep: Query, q: Query)
  {
    dep.owner.owningProjectId == q.owner.owningProjectId || dep.owner.owningTeamId > 0
  }

  /** A well-kept queue: eligible queries of the collection, each once. */
  predicate QueueOk(cat: Collection, list: seq<Query>)
  {
    NoDup(list) && forall x :: x in list ==> x in cat.Values && Eligible(x)
  }

  /** Queuing one more eligible query of the collection keeps a queue well kept. */
  lemma QueueOkCons(cat: Collection, q: Query, list: seq<Query>)
    requires QueueOk(cat, list) && q in cat.Values && Eligible(q) && q !in list
    ensures QueueOk(cat, [q] + list) && QueueOk(cat, list + [q])
  {
  }

  // ---------------------------------------------------------------------
  // insertQueryToList

  /** insertQueryToList: an eligible query that is not yet queued goes to
      the front, and then each dependency in scope that is not yet queued
      is inserted in front of it, recursively. */
  function InsertQuery(cat: Collection, q: Query, list: seq<Query>): (r: seq<Query>)
    requires Closed(cat) && q in cat.Values
    ensures EndsWith(r, list)
    ensures !(Eligible(q) && q !in list) ==> r == list
    ensures Eligible(q) && q !in list ==> EndsWith(r, [q] + list)
    ensures Eligible(q) ==> q in r
    decreases |cat.Values - Elems(list)|, 0, 0
  {
    if Eligible(q) && q !in list then
      CardShrinks(cat.Values - Elems(list), cat.Values - Elems([q] + list), q);
      var r := InsertDeps(cat, q, q.dependencies, [q] + list);
      EndsWithTrans(r, [q] + list, list);
      EndsWithElems(r, [q] + list);
      r
    else list
  }

  /** The loop of insertQueryToList over the dependencies `deps` of `q`. */
  function InsertDeps(cat: Collection, q: Query, deps: seq<nat>, list: seq<Query>): (r: seq<Query>)
    requires Closed(cat) && forall d :: d in deps ==> d in cat
    ensures EndsWith(r, list)
    decreases |cat.Values - Elems(list)|, 1, |deps|
  {
    if deps == [] then list
    else
      var dep := cat[deps[0]];
      var next := if InsertScope(dep, q) && dep !in list then InsertQuery(cat, dep, list) else list;
      EndsWithElems(next, list);
      SubsetCard(cat.Values - Elems(next), cat.Values - Elems(list));
      var r := InsertDeps(cat, q, deps[1..], next);
      EndsWithTrans(r, next, list);
      r
  }

  /** One turn of the loop of insertQueryToList. */
  lemma InsertDepsStep(cat: Collection, q: Query, deps: seq<nat>, i: nat, list: seq<Query>)
    requires Closed(cat) && (forall d :: d in deps ==> d in cat) && i < |deps|
    ensures var dep := cat[deps[i]];
            var next := if InsertScope(dep, q) && dep !in list then InsertQuery(cat, dep, list) else list;
            InsertDeps(cat, q, deps[i..], list) == InsertDeps(cat, q, deps[i + 1..], next)
  {
    assert deps[i..][1..] == deps[i + 1..];
  }

  /** insertQueryToList keeps a queue well kept. */
  lemma {:induction false} InsertQueryKeepsQueue(cat: Collection, q: Query, list: seq<Query>)
    requires Closed(cat) && q in cat.Values && QueueOk(cat, list)
    ensures QueueOk(cat, InsertQuery(cat, q, list))
    decreases |cat.Values - Elems(list)|, 0, 0
  {
    if Eligible(q) && q !in list {
      CardShrinks(cat.Values - Elems(list), cat.Values - Elems([q] + list), q);
      QueueOkCons(cat, q, list);
      InsertDepsKeepsQueue(cat, q, q.dependencies, [q] + list);
    }
  }

  lemma {:induction false} InsertDepsKeepsQueue(cat: Collection, q: Query, deps: seq<nat>, list: seq<Query>)
    requires Closed(cat) && (forall d :: d in deps ==> d in cat) && QueueOk(cat, list)
    ensures QueueOk(cat, InsertDeps(cat, q, deps, list))
    decreases |cat.Values - Elems(list)|, 1, |deps|
  {
    if deps != [] {
      var dep := cat[deps[0]];
      var next := if InsertScope(dep, q) && dep !in list then InsertQuery(cat, dep, list) else list;
      if InsertScope(dep, q) && dep !in list {
        InsertQueryKeepsQueue(cat, dep, list);
      }
      EndsWithElems(next, list);
      SubsetCard(cat.Values - Elems(next), cat.Values - Elems(list));
      InsertDepsKeepsQueue(cat, q, deps[1..], next);
    }
  }

  /** Every eligible dependency in scope of a query insertQueryToList
      queues is queued as well. */
  lemma {:induction false} InsertQueryCoversDeps(cat: Collection, q: Query, list: seq<Query>)
    requires Closed(cat) && q in cat.Values && Eligible(q) && q !in list
    ensures forall d :: d in q.dependencies && InsertScope(cat[d], q) && Eligible(cat[d]) ==>
              cat[d] in InsertQuery(cat, q, list)
  {
    InsertDepsCover(cat, q, q.dependencies, [q] + list);
  }

  lemma {:induction false} InsertDepsCover(cat: Collection, q: Query, deps: seq<nat>, list: seq<Query>)
    requires Closed(cat) && forall d :: d in deps ==> d in cat
    ensures forall d :: d in deps && InsertScope(cat[d], q) && Eligible(cat[d]) ==>
              cat[d] in InsertDeps(cat, q, deps, list)
    decreases |deps|
  {
    if deps != [] {
      var dep := cat[deps[0]];
      var next := if InsertScope(dep, q) && dep !in list then InsertQuery(cat, dep, list) else list;
      var r := InsertDeps(cat, q, deps[1..], next);
      assert r == InsertDeps(cat, q, deps, list);
      EndsWithElems(r, next);
      EndsWithElems(next, list);
      InsertDepsCover(cat, q, deps[1..], next);
      forall d | d in deps && InsertScope(cat[d], q) && Eligible(cat[d]) ensures cat[d] in r {
        if d != deps[0] {
          assert d in deps[1..];
        }
      }
    }
  }

  /** A dependency that insertQueryToList brings in ends up before the query. */
  lemma InsertedDependencyFirst(cat: Collection, q: Query, list: seq<Query>, d: nat)
    requires Closed(cat) && q in cat.Values && QueueOk(cat, list)
    requires Eligible(q) && q !in list
    requires d in q.dependencies && InsertScope(cat[d], q) && Eligible(cat[d])
    requires cat[d] !in list && cat[d] != q
    ensures var r := InsertQuery(cat, q, list);
            cat[d] in r && q in r && IndexOf(r, cat[d]) < IndexOf(r, q)
  {
    var r := InsertQuery(cat, q, list);
    InsertQueryCoversDeps(cat, q, list);
    InsertQueryKeepsQueue(cat, q, list);
    var n := |r| - |list| - 1;
    assert r[n..] == [q] + list;
    assert r[n] == q;
    var i := IndexOf(r, cat[d]);
    assert i < n;
    assert IndexOf(r, q) == n;
  }

  // ---------------------------------------------------------------------
  // appendQueryToList

  /** One dependency of appendQueryToList: one in the same project or team
      that is not yet queued is inserted at the front. */
  function DepStep(cat: Collection, q: Query, d: nat, list: seq<Query>): (r: seq<Query>)
    requires Closed(cat) && d in cat
    ensures EndsWith(r, list)
  {
    var dep := cat[d];
    if dep !in list && AppendScope(dep, q) then InsertQuery(cat, dep, list) else list
  }

  /** A dependency that appendQueryToList hands to AppendCorp: not queued,
      not in the same project or team, and owned by the corp level. */
  predicate RoutesToCorp(cat: Collection, q: Query, d: nat, list: seq<Query>)
    requires d in cat
  {
    cat[d] !in list && !AppendScope(cat[d], q) && cat[d].owner.packageType == PackageType.Corp
  }

  /** The list part of the loop of appendQueryToList over `deps`. */
  function AppendDeps(cat: Collection, q: Query, deps: seq<nat>, list: seq<Query>): (r: seq<Query>)
    requires Closed(cat) && forall d :: d in deps ==> d in cat
    ensures EndsWith(r, list)
    decreases |deps|
  {
    if deps == [] then list
    else
      var next := DepStep(cat, q, deps[0], list);
      var r := AppendDeps(cat, q, deps[1..], next);
      EndsWithTrans(r, next, list);
      r
  }

  /** appendQueryToList: an eligible query that is not yet queued goes to
      the end, and its dependencies in the same project or team that are
      not yet queued are inserted at the front. */
  function AppendList(cat: Collection, q: Query, list: seq<Query>): (r: seq<Query>)
    requires Closed(cat) && q in cat.Values
    ensures !(Eligible(q) && q !in list) ==> r == list
    ensures Eligible(q) && q !in list ==> EndsWith(r, list + [q])
  {
    if Eligible(q) && q !in list then AppendDeps(cat, q, q.dependencies, list + [q]) else list
  }

  lemma {:induction false} AppendDepsKeepsQueue(cat: Collection, q: Query, deps: seq<nat>, list: seq<Query>)
    requires Closed(cat) && (forall d :: d in deps ==> d in cat) && QueueOk(cat, list)
    ensures QueueOk(cat, AppendDeps(cat, q, deps, list))
    decreases |deps|
  {
    if deps != [] {
      var dep := cat[deps[0]];
      if dep !in list && AppendScope(dep, q) {
        InsertQueryKeepsQueue(cat, dep, list);
      }
      AppendDepsKeepsQueue(cat, q, deps[1..], DepStep(cat, q, deps[0], list));
    }
  }

  /** appendQueryToList keeps a queue well kept. */
  lemma AppendListKeepsQueue(cat: Collection, q: Query, list: seq<Query>)
    requires Closed(cat) && q in cat.Values && QueueOk(cat, list)
    ensures QueueOk(cat, AppendList(cat, q, list))
  {
    if Eligible(q) && q !in list {
      QueueOkCons(cat, q, list);
      AppendDepsKeepsQueue(cat, q, q.dependencies, list + [q]);
    }
  }

  /** Every eligible dependency of a query appendQueryToList queues that
      belongs to its project or team is queued as well. */
  lemma AppendListCoversDeps(cat: Collection, q: Query, list: seq<Query>)
    requires Closed(cat) && q in cat.Values && Eligible(q) && q !in list
    ensures forall d :: d in q.dependencies && AppendScope(cat[d], q) && Eligible(cat[d]) ==>
              cat[d] in AppendList(cat, q, list)
  {
    AppendDepsCover(cat, q, q.dependencies, list + [q]);
  }

  lemma {:induction false} AppendDepsCover(cat: Collection, q: Query, deps: seq<nat>, list: seq<Query>)
    requires Closed(cat) && forall d :: d in deps ==> d in cat
    ensures forall d :: d in deps && AppendScope(cat[d], q) && Eligible(cat[d]) ==>
              cat[d] in AppendDeps(cat, q, deps, list)
    decreases |deps|
  {
    if deps != [] {
      var next := DepStep(cat, q, deps[0], list);
      var r := AppendDeps(cat, q, deps[1..], next);
      EndsWithElems(r, next);
      EndsWithElems(next, list);
      AppendDepsCover(cat, q, deps[1..], next);
      forall d | d in deps && AppendScope(cat[d], q) && Eligible(cat[d]) ensures cat[d] in r {
        if d != deps[0] {
          assert d in deps[1..];
        }
      }
    }
  }

  /** The net effect of AppendCorp on the corp queue: a queued query is
      skipped; otherwise the queue becomes what appendQueryToList returns
      for it, which also overwrites whatever the nested AppendCorp calls of
      that appendQueryToList had queued. */
  function CorpNet(cat: Collection, q: Query, corp: seq<Query>): seq<Query>
    requires Closed(cat) && q in cat.Values
  {
    if q in corp then corp else AppendList(cat, q, corp)
  }

  /** The corp queue after the loop of appendQueryToList over `deps`,
      starting from the queue `list` and the corp queue `corp`. */
  function CorpAfter(cat: Collection, q: Query, deps: seq<nat>, list: seq<Query>, corp: seq<Query>): seq<Query>
    requires Closed(cat) && forall d :: d in deps ==> d in cat
    decreases |deps|
  {
    if deps == [] then corp
    else
      var corp' := if RoutesToCorp(cat, q, deps[0], list) then CorpNet(cat, cat[deps[0]], corp) else corp;
      CorpAfter(cat, q, deps[1..], DepStep(cat, q, deps[0], list), corp')
  }

  /** The corp queue after appendQueryToList(q) on `list`. */
  function CorpAfterAppend(cat: Collection, q: Query, list: seq<Query>, corp: seq<Query>): seq<Query>
    requires Closed(cat) && q in cat.Values
  {
    if Eligible(q) && q !in list then CorpAfter(cat, q, q.dependencies, list + [q], corp) else corp
  }

  /** The corp queue that appendQueryToList leaves behind is well kept, and
      keeps every query it held. */
  lemma {:induction false} CorpAfterKeepsQueue(cat: Collection, q: Query, deps: seq<nat>, list: seq<Query>, corp: seq<Query>)
    requires Closed(cat) && (forall d :: d in deps ==> d in cat) && QueueOk(cat, corp)
    ensures var r := CorpAfter(cat, q, deps, list, corp);
            QueueOk(cat, r) && Elems(corp) <= Elems(r)
    decreases |deps|
  {
    if deps != [] {
      var corp' := if RoutesToCorp(cat, q, deps[0], list) then CorpNet(cat, cat[deps[0]], corp) else corp;
      if RoutesToCorp(cat, q, deps[0], list) && cat[deps[0]] !in corp {
        var dep := cat[deps[0]];
        AppendListKeepsQueue(cat, dep, corp);
        if Eligible(dep) {
          EndsWithElems(corp', corp + [dep]);
        }
      }
      CorpAfterKeepsQueue(cat, q, deps[1..], DepStep(cat, q, deps[0], list), corp');
    }
  }

  lemma CorpAfterAppendKeepsQueue(cat: Collection, q: Query, list: seq<Query>, corp: seq<Query>)
    requires Closed(cat) && q in cat.Values && QueueOk(cat, corp)
    ensures var r := CorpAfterAppend(cat, q, list, corp);
            QueueOk(cat, r) && Elems(corp) <= Elems(r)
  {
    if Eligible(q) && q !in list {
      CorpAfterKeepsQueue(cat, q, q.dependencies, list + [q], corp);
    }
  }

  /** The create queue after AppendNewCorp(q). */
  function CreateAfter(cat: Collection, q: Query, create: seq<Query>): seq<Query>
    requires Closed(cat) && q in cat.Values
  {
    if q in create then create else AppendList(cat, q, create)
  }

  /** The corp migrate queue after AppendNewCorp(q). */
  function MigrateAfterCreate(cat: Collection, q: Query, create: seq<Query>, corp: seq<Query>): seq<Query>
    requires Closed(cat) && q in cat.Values
  {
    if q in create then corp else CorpAfterAppend(cat, q, create, corp)
  }

  /** The queue of a team or project, empty when it has none yet. */
  function Bucket(m: map<nat, seq<Query>>, key: nat): seq<Query>
  {
    if key in m then m[key] else []
  }

  /** Along a dependency on a corp query, the rank decreases: with this,
      the mutual recursion of AppendCorp and appendQueryToList ends. */
  ghost predicate CorpRanked(cat: Collection, rank: Query -> nat)
  {
    forall q, d ::
      (q in cat.Values && d in q.dependencies && d in cat && cat[d].owner.packageType == PackageType.Corp)
      ==> rank(cat[d]) < rank(q)
  }

  // ---------------------------------------------------------------------
  // FixGroups

  predicate Known(cat: Collection, list: seq<Query>)
  {
    forall k :: 0 <= k < |list| ==> list[k].id in cat
  }

  /** Every queued query with the owning group the collection has for it. */
  function Fixed(cat: Collection, list: seq<Query>): (r: seq<Query>)
    requires Known(cat, list)
    ensures |r| == |list|
    ensures forall k :: 0 <= k < |list| ==> r[k] == list[k].(owner := cat[list[k].id].owner)
  {
    seq(|list|, k requires 0 <= k < |list| => list[k].(owner := cat[list[k].id].owner))
  }

  /** Queues of the collection itself are left as they are. */
  lemma FixedOwnQueries(cat: Collection, list: seq<Query>)
    requires Keyed(cat) && forall x :: x in list ==> x in cat.Values
    ensures Known(cat, list) && Fixed(cat, list) == list
  {
    forall k | 0 <= k < |list| ensures list[k].id in cat && cat[list[k].id] == list[k] {
      assert list[k] in cat.Values;
    }
  }

  /** Fixing twice is fixing once. */
  lemma FixedIdempotent(cat: Collection, list: seq<Query>)
    requires Known(cat, list)
    ensures Known(cat, Fixed(cat, list)) && Fixed(cat, Fixed(cat, list)) == Fixed(cat, list)
  {
  }

  /** Fixing one more query of the list. */
  lemma FixedSnoc(cat: Collection, list: seq<Query>, i: nat)
    requires i < |list| && Known(cat, list[..i + 1])
    ensures Known(cat, list[..i])
    ensures Fixed(cat, list[..i + 1]) == Fixed(cat, list[..i]) + [list[i].(owner := cat[list[i].id].owner)]
  {
    assert list[..i + 1][..i] == list[..i];
  }

  /** One more query of a partly fixed list gets its owning group. */
  lemma FixedStep(cat: Collection, list: seq<Query>, i: nat, r: seq<Query>)
    requires i < |list| && Known(cat, list[..i]) && list[i].id in cat
    requires r == Fixed(cat, list[..i]) + list[i..]
    ensures Known(cat, list[..i + 1])
    ensures r[i := list[i].(owner := cat[list[i].id].owner)] == Fixed(cat, list[..i + 1]) + list[i + 1..]
  {
    assert list[..i + 1] == list[..i] + [list[i]];
    FixedSnoc(cat, list, i);
  }

  predicate KnownMap(cat: Collection, m: map<nat, seq<Query>>)
  {
    forall key :: key in m ==> Known(cat, m[key])
  }

  function FixedMap(cat: Collection, m: map<nat, seq<Query>>): map<nat, seq<Query>>
    requires KnownMap(cat, m)
  {
    map key | key in m :: Fixed(cat, m[key])
  }

  /** The first queued query missing from the collection, if any. */
  function FirstMissing(cat: Collection, list: seq<Query>): (r: Option<nat>)
    ensures r.None? <==> Known(cat, list)
    ensures r.Some? ==> r.value < |list| && list[r.value].id !in cat && Known(cat, list[..r.value])
  {
    if list == [] then None
    else if list[0].id !in cat then Some(0)
    else match FirstMissing(cat, list[1..])
      case None => None
      case Some(k) => assert list[1..][..k] == list[1..k + 1]; Some(k + 1)
  }

  /** The first query the collection lacks is the one after a known prefix. */
  lemma FirstMissingAt(cat: Collection, list: seq<Query>, i: nat)
    requires i < |list| && Known(cat, list[..i]) && list[i].id !in cat
    ensures FirstMissing(cat, list) == Some(i)
  {
  }

  // ---------------------------------------------------------------------
  // The queues.

  class QueriesList {
    var corpToCreate: seq<Query>
    var corpToMigrate: seq<Query>
    var teamToMigrate: map<nat, seq<Query>>
    var projectToMigrate: map<nat, seq<Query>>

    /** Every queue holds eligible queries of the collection, each once. */
    predicate Valid(cat: Collection)
      reads this
    {
      QueueOk(cat, corpToCreate) && QueueOk(cat, corpToMigrate)
      && (forall t :: t in teamToMigrate ==> QueueOk(cat, teamToMigrate[t]))
      && (forall p :: p in projectToMigrate ==> QueueOk(cat, projectToMigrate[p]))
    }

    /** NewQueriesList: four empty queues. */
    constructor (ghost cat: Collection)
      ensures corpToCreate == [] && corpToMigrate == []
      ensures teamToMigrate == map[] && projectToMigrate == map[]
      ensures Valid(cat)
    {
      corpToCreate := [];
      corpToMigrate := [];
      teamToMigrate := map[];
      projectToMigrate := map[];
    }

    /** insertQueryToList */
    static method InsertQueryToList(cat: Collection, q: Query, list: seq<Query>) returns (r: seq<Query>)
      requires Closed(cat) && q in cat.Values
      ensures r == InsertQuery(cat, q, list)
      decreases |cat.Values - Elems(list)|, 0
    {
      r := list;
      if Eligible(q) {
        if q !in r {
          r := [q] + r;
          CardShrinks(cat.Values - Elems(list), cat.Values - Elems(r), q);
          r := InsertDepsOf(cat, q, r);
        }
      }
    }

    /** The loop of insertQueryToList over the dependencies of `q`, once
        `q` is at the front of `list`. */
    static method InsertDepsOf(cat: Collection, q: Query, list: seq<Query>) returns (r: seq<Query>)
      requires Closed(cat) && q in cat.Values
      ensures r == InsertDeps(cat, q, q.dependencies, list)
      decreases |cat.Values - Elems(list)|, 1
    {
      r := list;
      var deps := q.dependencies;
      var i := 0;
      while i < |deps|
        invariant 0 <= i <= |deps|
        invariant EndsWith(r, list)
        invariant InsertDeps(cat, q, deps[i..], r) == InsertDeps(cat, q, deps, list)
      {
        var dep := cat[deps[i]];
        ghost var before := r;
        if (dep.owner.owningProjectId == q.owner.owningProjectId || dep.owner.owningTeamId > 0) && dep !in r {
          EndsWithElems(r, list);
          SubsetCard(cat.Values - Elems(r), cat.Values - Elems(list));
          var r' := InsertQueryToList(cat, dep, r);
          EndsWithTrans(r', r, list);
          r := r';
        }
        InsertDepsStep(cat, q, deps, i, before);
        i := i + 1;
      }
      assert deps[i..] == [];
    }

    /** AppendCorp: a corp query not yet in the corp migrate queue is
        appended to it with appendQueryToList. */
    method AppendCorp(cat: Collection, q: Query, ghost rank: Query -> nat)
      requires Closed(cat) && q in cat.Values && CorpRanked(cat, rank)
      modifies this
      ensures corpToMigrate == CorpNet(cat, q, old(corpToMigrate))
      ensures corpToCreate == old(corpToCreate) && teamToMigrate == old(teamToMigrate)
      ensures projectToMigrate == old(projectToMigrate)
      decreases rank(q), 1
    {
      if q !in corpToMigrate {
        var l := AppendQueryToList(cat, q, corpToMigrate, rank);
        corpToMigrate := l;
      }
    }

    /** appendQueryToList. It returns the new queue; the corp dependencies
        it meets go to AppendCorp, which changes the corp migrate queue. */
    method AppendQueryToList(cat: Collection, q: Query, list: seq<Query>, ghost rank: Query -> nat)
      returns (r: seq<Query>)
      requires Closed(cat) && q in cat.Values && CorpRanked(cat, rank)
      modifies this
      ensures r == AppendList(cat, q, list)
      ensures corpToMigrate == CorpAfterAppend(cat, q, list, old(corpToMigrate))
      ensures corpToCreate == old(corpToCreate) && teamToMigrate == old(teamToMigrate)
      ensures projectToMigrate == old(projectToMigrate)
      decreases rank(q), 0
    {
      r := list;
      if Eligible(q) {
        if q !in list {
          r := list + [q];
          var deps := q.dependencies;
          var i := 0;
          while i < |deps|
            invariant 0 <= i <= |deps|
            invariant AppendDeps(cat, q, deps[i..], r) == AppendList(cat, q, list)
            invariant CorpAfter(cat, q, deps[i..], r, corpToMigrate)
                      == CorpAfter(cat, q, deps, list + [q], old(corpToMigrate))
            invariant corpToCreate == old(corpToCreate) && teamToMigrate == old(teamToMigrate)
            invariant projectToMigrate == old(projectToMigrate)
          {
            var dep := cat[deps[i]];
            assert deps[i..][1..] == deps[i + 1..];
            if dep !in r {
              if AppendScope(dep, q) {
                r := InsertQueryToList(cat, dep, r);
              } else if dep.owner.packageType == PackageType.Corp {
                AppendCorp(cat, dep, rank);
              }
            }
            i := i + 1;
          }
          assert deps[i..] == [];
        }
      }
    }

    /** AppendNewCorp: a root query not yet in the create queue is appended
        to it with appendQueryToList. */
    method AppendNewCorp(cat: Collection, q: Query, ghost rank: Query -> nat)
      requires Closed(cat) && q in cat.Values && CorpRanked(cat, rank) && Valid(cat)
      modifies this
      ensures corpToCreate == CreateAfter(cat, q, old(corpToCreate))
      ensures corpToMigrate == MigrateAfterCreate(cat, q, old(corpToCreate), old(corpToMigrate))
      ensures teamToMigrate == old(teamToMigrate) && projectToMigrate == old(projectToMigrate)
      ensures Valid(cat)
    {
      if q !in corpToCreate {
        AppendListKeepsQueue(cat, q, corpToCreate);
        CorpAfterAppendKeepsQueue(cat, q, corpToCreate, corpToMigrate);
        var l := AppendQueryToList(cat, q, corpToCreate, rank);
        corpToCreate := l;
      }
    }

    /** AppendTeam: the query is appended to the queue of team `teamId`; a
        root query is also queued to be created at the corp level. */
    method AppendTeam(cat: Collection, q: Query, teamId: nat, ghost rank: Query -> nat)
      requires Closed(cat) && q in cat.Values && CorpRanked(cat, rank) && Valid(cat)
      modifies this
      ensures teamToMigrate == old(teamToMigrate)[teamId := AppendList(cat, q, Bucket(old(teamToMigrate), teamId))]
      ensures projectToMigrate == old(projectToMigrate)
      ensures var corp := CorpAfterAppend(cat, q, Bucket(old(teamToMigrate), teamId), old(corpToMigrate));
              if IsRoot(q) then
                corpToCreate == CreateAfter(cat, q, old(corpToCreate))
                && corpToMigrate == MigrateAfterCreate(cat, q, old(corpToCreate), corp)
              else corpToCreate == old(corpToCreate) && corpToMigrate == corp
      ensures Valid(cat)
    {
      if teamId !in teamToMigrate {
        teamToMigrate := teamToMigrate[teamId := []];
      }
      var list := teamToMigrate[teamId];
      AppendListKeepsQueue(cat, q, list);
      CorpAfterAppendKeepsQueue(cat, q, list, corpToMigrate);
      var newList := AppendQueryToList(cat, q, list, rank);
      if newList != list {
        teamToMigrate := teamToMigrate[teamId := newList];
      }
      if IsRoot(q) {
        AppendNewCorp(cat, q, rank);
      }
    }

    /** InsertTeam: the query is inserted at the front of the queue of team
        `teamId`; a root query is also queued to be created. */
    method InsertTeam(cat: Collection, q: Query, teamId: nat, ghost rank: Query -> nat)
      requires Closed(cat) && q in cat.Values && CorpRanked(cat, rank) && Valid(cat)
      modifies this
      ensures teamToMigrate == old(teamToMigrate)[teamId := InsertQuery(cat, q, Bucket(old(teamToMigrate), teamId))]
      ensures projectToMigrate == old(projectToMigrate)
      ensures if IsRoot(q) then
                corpToCreate == CreateAfter(cat, q, old(corpToCreate))
                && corpToMigrate == MigrateAfterCreate(cat, q, old(corpToCreate), old(corpToMigrate))
              else corpToCreate == old(corpToCreate) && corpToMigrate == old(corpToMigrate)
      ensures Valid(cat)
    {
      if teamId !in teamToMigrate {
        teamToMigrate := teamToMigrate[teamId := []];
      }
      var list := teamToMigrate[teamId];
      InsertQueryKeepsQueue(cat, q, list);
      var newList := InsertQueryToList(cat, q, list);
      if newList != list {
        teamToMigrate := teamToMigrate[teamId := newList];
      }
      if IsRoot(q) {
        AppendNewCorp(cat, q, rank);
      }
    }

    /** AppendProject: the query is appended to the queue of project
        `projectId`; a root query is also queued to be created. */
    method AppendProject(cat: Collection, q: Query, projectId: nat, ghost rank: Query -> nat)
      requires Closed(cat) && q in cat.Values && CorpRanked(cat, rank) && Valid(cat)
      modifies this
      ensures projectToMigrate == old(projectToMigrate)[projectId := AppendList(cat, q, Bucket(old(projectToMigrate), projectId))]
      ensures teamToMigrate == old(teamToMigrate)
      ensures var corp := CorpAfterAppend(cat, q, Bucket(old(projectToMigrate), projectId), old(corpToMigrate));
              if IsRoot(q) then
                corpToCreate == CreateAfter(cat, q, old(corpToCreate))
                && corpToMigrate == MigrateAfterCreate(cat, q, old(corpToCreate), corp)
              else corpToCreate == old(corpToCreate) && corpToMigrate == corp
      ensures Valid(cat)
    {
      if projectId !in projectToMigrate {
        projectToMigrate := projectToMigrate[projectId := []];
      }
      var list := projectToMigrate[projectId];
      AppendListKeepsQueue(cat, q, list);
      CorpAfterAppendKeepsQueue(cat, q, list, corpToMigrate);
      var newList := AppendQueryToList(cat, q, list, rank);
      if newList != list {
        projectToMigrate := projectToMigrate[projectId := newList];
      }
      if IsRoot(q) {
        AppendNewCorp(cat, q, rank);
      }
    }

    /** One loop of FixGroups over a queue: each query gets the owning group
        the collection has for it, up to the first one the collection lacks. */
    static method FixList(cat: Collection, list: seq<Query>) returns (r: seq<Query>, missing: Option<Query>)
      ensures missing.None? <==> Known(cat, list)
      ensures missing.None? ==> r == Fixed(cat, list)
      ensures missing.Some? ==>
                var k := FirstMissing(cat, list).value;
                missing.value == list[k] && missing.value.id !in cat
                && r == Fixed(cat, list[..k]) + list[k..]
    {
      r := list;
      var i := 0;
      while i < |list|
        invariant 0 <= i <= |list|
        invariant Known(cat, list[..i])
        invariant r == Fixed(cat, list[..i]) + list[i..]
      {
        if list[i].id !in cat {
          FirstMissingAt(cat, list, i);
          return r, Some(list[i]);
        }
        var fixed := list[i].(owner := cat[list[i].id].owner);
        FixedStep(cat, list, i, r);
        r := r[i := fixed];
        i := i + 1;
      }
      assert list[..i] == list;
      missing := None;
    }

    /** The loops of FixGroups over the team or the project queues, in the
        order the map happens to yield its keys. */
    static method FixMap(cat: Collection, m: map<nat, seq<Query>>) returns (r: map<nat, seq<Query>>, missing: Option<Query>)
      ensures r.Keys == m.Keys
      ensures missing.None? <==> KnownMap(cat, m)
      ensures missing.None? ==> r == FixedMap(cat, m)
      ensures missing.Some? ==> missing.value.id !in cat && exists key :: key in m && missing.value in m[key]
    {
      r := m;
      var todo := m.Keys;
      while todo != {}
        invariant todo <= m.Keys && r.Keys == m.Keys
        invariant forall key :: key in m && key !in todo ==> Known(cat, m[key]) && r[key] == Fixed(cat, m[key])
        invariant forall key :: key in todo ==> r[key] == m[key]
        decreases todo
      {
        var key :| key in todo;
        var l, miss := FixList(cat, m[key]);
        r := r[key := l];
        if miss.Some? {
          return r, miss;
        }
        todo := todo - {key};
      }
      missing := None;
      assert r == FixedMap(cat, m);
    }

    /** FixGroups: every queued query gets the owning group the collection
        has for it; the first queued query the collection lacks is returned
        as the error. */
    method FixGroups(cat: Collection) returns (missing: Option<Query>)
      modifies this
      ensures missing.None? <==>
                Known(cat, old(corpToCreate)) && Known(cat, old(corpToMigrate))
                && KnownMap(cat, old(teamToMigrate)) && KnownMap(cat, old(projectToMigrate))
      ensures missing.None? ==>
                corpToCreate == Fixed(cat, old(corpToCreate)) && corpToMigrate == Fixed(cat, old(corpToMigrate))
                && teamToMigrate == FixedMap(cat, old(teamToMigrate))
                && projectToMigrate == FixedMap(cat, old(projectToMigrate))
      ensures missing.Some? ==>
                missing.value.id !in cat
                && (missing.value in old(corpToCreate) || missing.value in old(corpToMigrate)
                    || (exists t :: t in old(teamToMigrate) && missing.value in old(teamToMigrate)[t])
                    || (exists p :: p in old(projectToMigrate) && missing.value in old(projectToMigrate)[p]))
    {
      var l, miss := FixList(cat, corpToCreate);
      corpToCreate := l;
      if miss.Some? {
        return miss;
      }
      l, miss := FixList(cat, corpToMigrate);
      corpToMigrate := l;
      if miss.Some? {
        return miss;
      }
      var m, missM := FixMap(cat, teamToMigrate);
      teamToMigrate := m;
      if missM.Some? {
        return missM;
      }
      m, missM := FixMap(cat, projectToMigrate);
      projectToMigrate := m;
      return missM;
    }
  }
}
