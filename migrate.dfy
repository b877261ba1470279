/**
 * The walks of migrate.go: the ancestors of a team, the override chain of
 * a team query that makeMergedQuery hands to the merger, and the choice
 * MigrateCorpQuery makes between a brand-new corp query and an override.
 */
module Migrate {
  import opened Wrappers
  import opened Catalog
  import opened Lists
  import QueryMerge

  // ---------------------------------------------------------------------
  // makeTeamHierarchy

  /** Teams by id. */
  type Teams = map<nat, Team>

  /** Going from a team to its parent the rank drops: parentage has no cycle. */
  ghost predicate ParentsRanked(teams: Teams, rank: nat -> nat)
  {
    forall t :: t in teams && teams[t].parentId > 0 ==> rank(teams[t].parentId) < rank(t)
  }

  /** The ancestors of team `t`, nearest parent first: the walk stops at a
      team without parent (parent id 0) or at an id the map lacks. */
  function Ancestors(teams: Teams, t: nat, ghost rank: nat -> nat): seq<nat>
    requires ParentsRanked(teams, rank)
    decreases rank(t)
  {
    if t in teams && teams[t].parentId > 0 then [teams[t].parentId] + Ancestors(teams, teams[t].parentId, rank)
    else []
  }

  /** The ancestors start at the parent of `t`. */
  lemma AncestorsStart(teams: Teams, t: nat, rank: nat -> nat)
    requires ParentsRanked(teams, rank)
    ensures var r := Ancestors(teams, t, rank);
            (|r| > 0 <==> t in teams && teams[t].parentId > 0)
            && (|r| > 0 ==> r[0] == teams[t].parentId)
  {
  }

  /** Each id of `r` is the parent of the one before it. */
  predicate ParentLinked(teams: Teams, r: seq<nat>)
  {
    |r| <= 1 || (r[0] in teams && r[1] == teams[r[0]].parentId && ParentLinked(teams, r[1..]))
  }

  /** Each ancestor is the parent of the one before it. */
  lemma {:induction false} AncestorsLinked(teams: Teams, t: nat, rank: nat -> nat)
    requires ParentsRanked(teams, rank)
    ensures ParentLinked(teams, Ancestors(teams, t, rank))
    decreases rank(t)
  {
    if t in teams && teams[t].parentId > 0 {
      var p := teams[t].parentId;
      AncestorsLinked(teams, p, rank);
      var rest := Ancestors(teams, p, rank);
      assert Ancestors(teams, t, rank)[1..] == rest;
    }
  }

  /** Every ancestor is a real team id ranked below `t`. */
  lemma {:induction false} AncestorsBelow(teams: Teams, t: nat, rank: nat -> nat)
    requires ParentsRanked(teams, rank)
    ensures forall x :: x in Ancestors(teams, t, rank) ==> x > 0 && rank(x) < rank(t)
    decreases rank(t)
  {
    if t in teams && teams[t].parentId > 0 {
      AncestorsBelow(teams, teams[t].parentId, rank);
    }
  }

  /** The walk stops where there is no parent to follow. */
  lemma {:induction false} AncestorsEnd(teams: Teams, t: nat, rank: nat -> nat)
    requires ParentsRanked(teams, rank)
    ensures var r := Ancestors(teams, t, rank);
            |r| > 0 ==> !(r[|r| - 1] in teams && teams[r[|r| - 1]].parentId > 0)
    decreases rank(t)
  {
    if t in teams && teams[t].parentId > 0 {
      var p := teams[t].parentId;
      AncestorsEnd(teams, p, rank);
      assert Ancestors(teams, t, rank) == [p] + Ancestors(teams, p, rank);
    }
  }

  /** A team is never its own ancestor, and no ancestor is listed twice. */
  lemma {:induction false} AncestorsAcyclic(teams: Teams, t: nat, rank: nat -> nat)
    requires ParentsRanked(teams, rank)
    ensures var r := Ancestors(teams, t, rank);
            t !in r && NoDup(r)
    decreases rank(t)
  {
    AncestorsBelow(teams, t, rank);
    if t in teams && teams[t].parentId > 0 {
      var p := teams[t].parentId;
      AncestorsAcyclic(teams, p, rank);
      var r := Ancestors(teams, t, rank);
      assert r == [p] + Ancestors(teams, p, rank);
    }
  }

  /** makeTeamHierarchy */
  method MakeTeamHierarchy(teamId: nat, teams: Teams, ghost rank: nat -> nat) returns (ret: seq<nat>)
    requires ParentsRanked(teams, rank)
    ensures ret == Ancestors(teams, teamId, rank)
  {
    ret := [];
    var current := teamId;
    while current in teams && teams[current].parentId > 0
      invariant ret + Ancestors(teams, current, rank) == Ancestors(teams, teamId, rank)
      decreases rank(current)
    {
      var parent := teams[current].parentId;
      ret := ret + [parent];
      current := parent;
    }
  }

  // ---------------------------------------------------------------------
  // makeMergedQuery

  /** The walk of makeMergedQuery from `q` ends within `n` steps: where it
      goes on to a base, that base is in the collection (the Go code
      dereferences the lookup) and its own walk ends within n-1 steps. */
  predicate WalkEnds(cat: Collection, teams: Teams, q: Query, n: nat)
    decreases n
  {
    q.owner.owningTeamId !in teams || IsRoot(q)
    || (q.baseId in cat
        && (cat[q.baseId].owner.packageType != PackageType.Team
            || (n > 0 && WalkEnds(cat, teams, cat[q.baseId], n - 1))))
  }

  /** The queries makeMergedQuery visits, starting at `q`: a query whose team
      is known is visited; then the walk goes on to its base, unless it is
      the root of its chain or the base is not a team query. */
  function Walk(cat: Collection, teams: Teams, q: Query, ghost n: nat): seq<Query>
    requires WalkEnds(cat, teams, q, n)
    decreases n
  {
    if q.owner.owningTeamId !in teams then []
    else if q.baseId != q.id && cat[q.baseId].owner.packageType == PackageType.Team then
      [q] + Walk(cat, teams, cat[q.baseId], n - 1)
    else [q]
  }

  /** The walk starts at `q` when its team is known, and is empty otherwise. */
  lemma WalkStart(cat: Collection, teams: Teams, q: Query, n: nat)
    requires WalkEnds(cat, teams, q, n)
    ensures var w := Walk(cat, teams, q, n);
            (|w| == 0 <==> q.owner.owningTeamId !in teams) && (|w| > 0 ==> w[0] == q)
  {
  }

  /** Each query of `w` after the first is the base of the one before it,
      which is not a root, and is a team query. */
  predicate BaseLinked(cat: Collection, w: seq<Query>)
  {
    |w| <= 1
    || (w[0].baseId != w[0].id && w[0].baseId in cat && w[1] == cat[w[0].baseId]
        && w[1].owner.packageType == PackageType.Team && BaseLinked(cat, w[1..]))
  }

  /** The visited queries follow the base chain of `q`. */
  lemma {:induction false} WalkLinked(cat: Collection, teams: Teams, q: Query, n: nat)
    requires WalkEnds(cat, teams, q, n)
    ensures BaseLinked(cat, Walk(cat, teams, q, n))
    decreases n
  {
    if q.owner.owningTeamId in teams && q.baseId != q.id && cat[q.baseId].owner.packageType == PackageType.Team {
      var b := cat[q.baseId];
      WalkLinked(cat, teams, b, n - 1);
      WalkStart(cat, teams, b, n - 1);
      assert Walk(cat, teams, q, n)[1..] == Walk(cat, teams, b, n - 1);
    }
  }

  /** The walk ends where makeMergedQuery breaks out: at a root, at a base
      that is not a team query, or at a base whose team is unknown. */
  lemma {:induction false} WalkEnd(cat: Collection, teams: Teams, q: Query, n: nat)
    requires WalkEnds(cat, teams, q, n)
    ensures var w := Walk(cat, teams, q, n);
            |w| > 0 ==>
              var last := w[|w| - 1];
              IsRoot(last)
              || (last.baseId in cat
                  && (cat[last.baseId].owner.packageType != PackageType.Team
                      || cat[last.baseId].owner.owningTeamId !in teams))
    decreases n
  {
    if q.owner.owningTeamId in teams && q.baseId != q.id && cat[q.baseId].owner.packageType == PackageType.Team {
      var b := cat[q.baseId];
      WalkEnd(cat, teams, b, n - 1);
      var rest := Walk(cat, teams, b, n - 1);
      assert Walk(cat, teams, q, n) == [q] + rest;
    }
  }

  /** The display name of the team owning `x`; the walk only asks for it
      when the team is known. */
  function OwnerName(teams: Teams, x: Query): string
  {
    if x.owner.owningTeamId in teams then teams[x.owner.owningTeamId].display else ""
  }

  /** The record Insert builds for a visited query, owned by its team. */
  function Owned(teams: Teams, timestamp: string): Query -> QueryMerge.CxQuery
  {
    x => QueryMerge.RecordOf(x, OwnerName(teams, x), timestamp)
  }

  /** Owned builds the records Insert files. */
  lemma OwnedBuildsRecords(teams: Teams, timestamp: string)
    ensures BuildsRecords(Owned(teams, timestamp), teams, timestamp)
  {
  }

  /** The outcome makeMergedQuery promises: the source itself when there is
      nothing to merge and no rename; the source and the merge error when
      the merge fails; otherwise the source with only its code replaced by
      the merged code. */
  function MergedQuery(cat: Collection, teams: Teams, source: Query, destName: string, timestamp: string,
                       ghost n: nat): (Query, Option<string>)
    requires WalkEnds(cat, teams, source, n)
  {
    var chain := Walk(cat, teams, source, n);
    MergeOutcome(source, Stacked(Owned(teams, timestamp), chain), |chain|, destName)
  }

  /** The end of makeMergedQuery, once `visited` queries are stacked as
      `stack`: nothing to do for a lone query that keeps its name, an error
      for a failed merge, and otherwise the source with the merged code. */
  function MergeOutcome(source: Query, stack: seq<QueryMerge.CxQuery>, visited: nat, destName: string)
    : (Query, Option<string>)
  {
    if visited <= 1 && destName == source.name then (source, None)
    else
      var m := QueryMerge.MergeSpec(stack, destName);
      if m.status.Code() > 1 then (source, Some(m.message))
      else (source.(source := m.code), None)
  }

  /** Only the code of the source ever changes, and an error leaves the
      source as it was. */
  lemma MergedQueryKeepsSource(cat: Collection, teams: Teams, source: Query, destName: string, timestamp: string,
                               n: nat)
    requires WalkEnds(cat, teams, source, n)
    ensures var (result, err) := MergedQuery(cat, teams, source, destName, timestamp, n);
            result.(source := source.source) == source && (err.Some? ==> result == source)
  {
  }

  /** When the source's team is known, the merged code starts with the tag
      of the root-most query of the chain. */
  lemma MergedCodeStartsWithRootTag(cat: Collection, teams: Teams, source: Query, destName: string, timestamp: string,
                                    n: nat)
    requires WalkEnds(cat, teams, source, n)
    requires source.owner.owningTeamId in teams
    ensures var chain := Walk(cat, teams, source, n);
            var qs := Stacked(Owned(teams, timestamp), chain);
            |qs| > 0 && QueryMerge.Text.HasPrefix(QueryMerge.MergeSpec(qs, destName).code, qs[0].tag)
  {
    WalkStart(cat, teams, source, n);
    var qs := Stacked(Owned(teams, timestamp), Walk(cat, teams, source, n));
    QueryMerge.MergeSpecHead(qs, destName);
  }

  /** One step of the walk from `q`, as the loop of makeMergedQuery takes
      it: with `seen` visited before `q`, the walk of the source is `seen`
      followed by the walk of `q`, and so on from the base of `q`. */
  lemma {:induction false} WalkAdvance(cat: Collection, teams: Teams, q: Query, fuel: nat,
                                       seen: seq<Query>, source: Query, n: nat)
    requires WalkEnds(cat, teams, q, fuel) && WalkEnds(cat, teams, source, n)
    requires seen + Walk(cat, teams, q, fuel) == Walk(cat, teams, source, n)
    ensures q.owner.owningTeamId !in teams ==> seen == Walk(cat, teams, source, n)
    ensures q.owner.owningTeamId in teams && q.baseId != q.id ==> q.baseId in cat
    ensures q.owner.owningTeamId in teams && !(q.baseId != q.id && cat[q.baseId].owner.packageType == PackageType.Team)
            ==> seen + [q] == Walk(cat, teams, source, n)
    ensures q.owner.owningTeamId in teams && q.baseId != q.id && cat[q.baseId].owner.packageType == PackageType.Team
            ==> fuel > 0 && WalkEnds(cat, teams, cat[q.baseId], fuel - 1)
                && (seen + [q]) + Walk(cat, teams, cat[q.baseId], fuel - 1) == Walk(cat, teams, source, n)
  {
    if q.owner.owningTeamId !in teams {
      assert seen + [] == seen;
    } else if q.baseId != q.id && cat[q.baseId].owner.packageType == PackageType.Team {
      assert (seen + [q]) + Walk(cat, teams, cat[q.baseId], fuel - 1) == seen + Walk(cat, teams, q, fuel);
    }
  }

  /** `record` builds the record Insert files for a visited query. */
  ghost predicate BuildsRecords(record: Query -> QueryMerge.CxQuery, teams: Teams, timestamp: string)
  {
    forall x {:trigger OwnerName(teams, x)} :: record(x) == QueryMerge.RecordOf(x, OwnerName(teams, x), timestamp)
  }

  /** One step of the loop: the visited query goes in front of the merger,
      owned by its team. */
  method Push(merger: QueryMerge.QueryMerger, q: Query, teams: Teams, timestamp: string,
              ghost record: Query -> QueryMerge.CxQuery, ghost seen: seq<Query>)
    requires q.owner.owningTeamId in teams && BuildsRecords(record, teams, timestamp)
    requires merger.queries == Stacked(record, seen)
    modifies merger
    ensures merger.queries == Stacked(record, seen + [q])
  {
    var owner := teams[q.owner.owningTeamId].display;
    assert owner == OwnerName(teams, q);
    merger.Insert(q, owner, timestamp);
    StackedPush(record, seen, q);
  }

  /** The loop of makeMergedQuery: it walks the chain from the source and
      puts each visited query in front of the merger. */
  method StackChain(cat: Collection, teams: Teams, source: Query, timestamp: string,
                    ghost record: Query -> QueryMerge.CxQuery, ghost n: nat)
    returns (merger: QueryMerge.QueryMerger, visited: nat)
    requires WalkEnds(cat, teams, source, n) && BuildsRecords(record, teams, timestamp)
    ensures fresh(merger)
    ensures merger.queries == Stacked(record, Walk(cat, teams, source, n))
    ensures visited == |Walk(cat, teams, source, n)|
  {
    merger := new QueryMerge.QueryMerger();
    var q := source;
    visited := 0;
    ghost var walk := Walk(cat, teams, source, n);
    ghost var seen: seq<Query> := [];
    ghost var fuel := n;
    while true
      invariant fresh(merger)
      invariant WalkEnds(cat, teams, q, fuel)
      invariant seen + Walk(cat, teams, q, fuel) == walk
      invariant merger.queries == Stacked(record, seen)
      invariant visited == |seen|
      decreases fuel
    {
      WalkAdvance(cat, teams, q, fuel, seen, source, n);
      if q.owner.owningTeamId !in teams {
        assert seen == walk;
        break;
      }
      Push(merger, q, teams, timestamp, record, seen);
      seen := seen + [q];
      visited := visited + 1;
      if q.baseId != q.id {
        q := cat[q.baseId];
        if q.owner.packageType != PackageType.Team {
          assert seen == walk;
          break;
        }
        fuel := fuel - 1;
      } else {
        assert seen == walk;
        break;
      }
    }
  }

  /** makeMergedQuery, with the timestamp of its records passed in. */
  method MakeMergedQuery(cat: Collection, teams: Teams, source: Query, destName: string, timestamp: string,
                         ghost n: nat)
    returns (result: Query, err: Option<string>)
    requires WalkEnds(cat, teams, source, n)
    ensures (result, err) == MergedQuery(cat, teams, source, destName, timestamp, n)
  {
    OwnedBuildsRecords(teams, timestamp);
    var merger, visited := StackChain(cat, teams, source, timestamp, Owned(teams, timestamp), n);
    result, err := FinishMerge(merger, visited, source, destName);
  }

  /** The end of makeMergedQuery, on the stacked merger. */
  method FinishMerge(merger: QueryMerge.QueryMerger, visited: nat, source: Query, destName: string)
    returns (result: Query, err: Option<string>)
    modifies merger
    ensures (result, err) == MergeOutcome(source, old(merger.queries), visited, destName)
  {
    if visited <= 1 && destName == source.name {
      return source, None;
    }
    var code, mergeErr := merger.Merge(destName);
    if mergeErr.Some? {
      return source, mergeErr;
    }
    return source.(source := code), None;
  }

  // ---------------------------------------------------------------------
  // MigrateCorpQuery

  /** What MigrateCorpQuery does with a corp query. */
  datatype CorpMigration = CreateNewCorp | CreateCorpOverride

  /** A query that is its own base is brand new at the corp level and is
      created; any other overrides its base. */
  function CorpDispatch(q: Query): (r: CorpMigration)
    ensures r == CreateNewCorp <==> IsRoot(q)
    ensures r == CreateCorpOverride <==> q.baseId != q.id
  {
    if q.baseId == q.id then CreateNewCorp else CreateCorpOverride
  }
}
