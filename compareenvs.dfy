/**
 * compare_cx1_envs: the roles named on the command line are looked up in
 * two tenants and their sub-roles compared by name; the tool reports how
 * many roles differ.
 */
module CompareEnvs {
  import opened Wrappers
  import opened Lists

  /** A role as looked up in one tenant, with the names of its sub-roles
      (fetched when the role is composite). */
  datatype Role = Role(name: string, composite: bool, subRoles: seq<string>)

  /** What compareRoles finds: whether the roles are the same, and the
      sub-role names only the first has, both have, and only the second has. */
  datatype Comparison = Comparison(same: bool, extra: seq<string>, common: seq<string>, missing: seq<string>)

  /** The names of `s` that are (`present`) or are not (`!present`) in
      `other`, in the order of `s`. */
  function Keep(s: seq<string>, other: seq<string>, present: bool): seq<string>
  {
    if s == [] then []
    else (if (s[0] in other) == present then [s[0]] else []) + Keep(s[1..], other, present)
  }

  /** A name is kept exactly when it is in `s` and qualifies. */
  lemma {:induction false} KeepMember(s: seq<string>, other: seq<string>, present: bool)
    ensures forall x :: x in Keep(s, other, present) <==> x in s && ((x in other) == present)
  {
    if s != [] {
      KeepMember(s[1..], other, present);
      assert s == [s[0]] + s[1..];
    }
  }

  /** Two roles match: neither holds sub-roles, or both hold the same set
      of sub-role names. */
  predicate Match(role1: Role, role2: Role)
  {
    (!role1.composite && !role2.composite) || Elems(role1.subRoles) == Elems(role2.subRoles)
  }

  /** The first loop of compareRoles: the names of r1 that r2 lacks are
      extra, the others common, and any extra name makes the roles differ. */
  method ExtraAndCommon(r1: seq<string>, r2: seq<string>) returns (extra: seq<string>, common: seq<string>, same: bool)
    ensures extra == Keep(r1, r2, false) && common == Keep(r1, r2, true)
    ensures same <==> extra == []
  {
    extra, common := [], [];
    same := true;
    var i := 0;
    while i < |r1|
      invariant 0 <= i <= |r1|
      invariant extra + Keep(r1[i..], r2, false) == Keep(r1, r2, false)
      invariant common + Keep(r1[i..], r2, true) == Keep(r1, r2, true)
      invariant same <==> extra == []
    {
      assert r1[i..][1..] == r1[i + 1..];
      if r1[i] !in r2 {
        extra := extra + [r1[i]];
        same := false;
      } else {
        common := common + [r1[i]];
      }
      i := i + 1;
    }
  }

  /** The second loop of compareRoles: the names of r2 that r1 lacks are
      missing, and any missing name makes the roles differ. */
  method Missing(r1: seq<string>, r2: seq<string>, same0: bool) returns (missing: seq<string>, same: bool)
    ensures missing == Keep(r2, r1, false)
    ensures same <==> same0 && missing == []
  {
    missing := [];
    same := same0;
    var j := 0;
    while j < |r2|
      invariant 0 <= j <= |r2|
      invariant missing + Keep(r2[j..], r1, false) == Keep(r2, r1, false)
      invariant same <==> same0 && missing == []
    {
      assert r2[j..][1..] == r2[j + 1..];
      if r2[j] !in r1 {
        missing := missing + [r2[j]];
        same := false;
      }
      j := j + 1;
    }
  }

  /** compareRoles, without its logging. */
  method CompareRoles(role1: Role, role2: Role) returns (c: Comparison)
    ensures c.same <==> Match(role1, role2)
    ensures !role1.composite && !role2.composite ==> c == Comparison(true, [], [], [])
    ensures role1.composite || role2.composite ==>
              c.extra == Keep(role1.subRoles, role2.subRoles, false)
              && c.common == Keep(role1.subRoles, role2.subRoles, true)
              && c.missing == Keep(role2.subRoles, role1.subRoles, false)
  {
    if !role1.composite && !role2.composite {
      return Comparison(true, [], [], []);
    }
    var r1, r2 := role1.subRoles, role2.subRoles;
    var extra, common, same := ExtraAndCommon(r1, r2);
    var missing;
    missing, same := Missing(r1, r2, same);
    SameIffNoDifference(r1, r2);
    c := Comparison(same, extra, common, missing);
  }

  /** Nothing is kept when no name of `s` qualifies. */
  lemma {:induction false} KeepNone(s: seq<string>, other: seq<string>, present: bool)
    requires forall x :: x in s ==> (x in other) != present
    ensures Keep(s, other, present) == []
  {
    if s != [] {
      KeepNone(s[1..], other, present);
    }
  }

  /** The sub-roles match exactly when none is only in one of the roles. */
  lemma SameIffNoDifference(r1: seq<string>, r2: seq<string>)
    ensures Keep(r1, r2, false) == [] && Keep(r2, r1, false) == [] <==> Elems(r1) == Elems(r2)
  {
    if Elems(r1) == Elems(r2) {
      forall x | x in r1 ensures x in r2 {
        assert x in Elems(r1);
      }
      forall x | x in r2 ensures x in r1 {
        assert x in Elems(r2);
      }
      KeepNone(r1, r2, false);
      KeepNone(r2, r1, false);
    }
    if Keep(r1, r2, false) == [] && Keep(r2, r1, false) == [] {
      KeepMember(r1, r2, false);
      KeepMember(r2, r1, false);
      forall x ensures x in Elems(r1) <==> x in Elems(r2) {
        assert x !in Keep(r1, r2, false) && x !in Keep(r2, r1, false);
      }
    }
  }

  /** Every sub-role name of the first role is either extra or common, never both. */
  lemma {:induction false} ExtraAndCommonSplit(r1: seq<string>, r2: seq<string>)
    ensures multiset(Keep(r1, r2, false)) + multiset(Keep(r1, r2, true)) == multiset(r1)
  {
    if r1 != [] {
      ExtraAndCommonSplit(r1[1..], r2);
      assert r1 == [r1[0]] + r1[1..];
    }
  }

  /** Comparing the other way round gives the same verdict. */
  lemma CompareSymmetric(role1: Role, role2: Role)
    ensures Match(role1, role2) <==> Match(role2, role1)
  {
  }

  // ---------------------------------------------------------------------
  // mainRunner

  /** The outcome of looking a role up in both tenants: None where the
      lookup failed. */
  datatype Lookup = Lookup(role1: Option<Role>, role2: Option<Role>)

  /** The role counts as a difference: it differs between the tenants, or
      only one tenant has it. A role neither tenant has is only warned about. */
  predicate Differs(l: Lookup)
  {
    match (l.role1, l.role2)
    case (Some(a), Some(b)) => !Match(a, b)
    case (None, None) => false
    case _ => true
  }

  /** The number of looked-up roles that differ. */
  function DiffCount(lookups: seq<Lookup>): (n: nat)
    ensures n <= |lookups|
  {
    if lookups == [] then 0
    else (if Differs(lookups[0]) then 1 else 0) + DiffCount(lookups[1..])
  }

  /** No difference is reported exactly when every role either matches in
      both tenants or is missing from both. */
  lemma {:induction false} NoDiffsIff(lookups: seq<Lookup>)
    ensures DiffCount(lookups) == 0 <==> forall k :: 0 <= k < |lookups| ==> !Differs(lookups[k])
  {
    if lookups != [] {
      NoDiffsIff(lookups[1..]);
      assert forall k :: 1 <= k < |lookups| ==> lookups[k] == lookups[1..][k - 1];
    }
  }

  /** The diff count of mainRunner, over the results of the lookups. */
  method CountDiffs(lookups: seq<Lookup>) returns (diffs: nat)
    ensures diffs == DiffCount(lookups)
  {
    diffs := 0;
    var i := 0;
    while i < |lookups|
      invariant 0 <= i <= |lookups|
      invariant diffs + DiffCount(lookups[i..]) == DiffCount(lookups)
    {
      assert lookups[i..][1..] == lookups[i + 1..];
      var l := lookups[i];
      if l.role1.Some? && l.role2.Some? {
        var c := CompareRoles(l.role1.value, l.role2.value);
        if !c.same {
          diffs := diffs + 1;
        }
      } else if l.role1.Some? || l.role2.Some? {
        diffs := diffs + 1;
      }
      i := i + 1;
    }
  }
}
