/**
 * The CxSAST query collection the migrator reads: every query with the
 * group that owns it, its base query and the queries it depends on, plus
 * the teams and projects of the instance. The collection is read-only; a
 * query is looked up by its id, as QueryCollection.GetQueryByID does.
 */
module Catalog {

  /** The package level of a query: shipped by the product, or a corporate,
      team or project override. */
  datatype PackageType = Product | Corp | Team | Project

  datatype OwningGroup = OwningGroup(
    packageId: nat,
    packageType: PackageType,
    owningTeamId: nat,
    owningProjectId: nat)

  /** A CxSAST query. `custom` stands for Query.IsCustom(). */
  datatype Query = Query(
    id: nat,
    baseId: nat,
    name: string,
    language: string,
    group: string,
    severity: int,
    valid: bool,
    custom: bool,
    owner: OwningGroup,
    dependencies: seq<nat>,
    source: string)

  /** A team; `display` is what Team.String() renders for it. */
  datatype Team = Team(id: nat, parentId: nat, display: string)

  datatype Project = Project(id: nat, teamId: nat)

  /** Queries by id. */
  type Collection = map<nat, Query>

  /** Every query is filed under its own id. */
  predicate Keyed(cat: Collection)
  {
    forall id :: id in cat ==> cat[id].id == id
  }

  /** A query of a keyed collection is filed under its id. */
  lemma FiledUnderId(cat: Collection, q: Query)
    requires Keyed(cat) && q in cat.Values
    ensures q.id in cat && cat[q.id] == q
  {
    var k :| k in cat && cat[k] == q;
  }

  /** Every dependency of a query is itself in the collection (the Go code
      dereferences the lookup without a nil check). */
  predicate Closed(cat: Collection)
  {
    forall q :: q in cat.Values ==> forall d :: d in q.dependencies ==> d in cat
  }

  /** Every base query is itself in the collection. */
  predicate BasesKnown(cat: Collection)
  {
    forall q :: q in cat.Values ==> q.baseId in cat
  }

  /** A query the migrator moves: valid and custom. */
  predicate Eligible(q: Query)
  {
    q.valid && q.custom
  }

  /** The query is the root of its override chain. */
  predicate IsRoot(q: Query)
  {
    q.baseId == q.id
  }
}
