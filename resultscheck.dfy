/**
 * sast-results-api-check: the findings of a scan are fetched twice, once
 * per results API, paired by similarity id and result hash, and compared;
 * where the two disagree the finding's triage is rewritten so that both
 * APIs report it alike.
 */
module ResultsCheck {
  import opened Wrappers
  import opened Lists
  import opened Ordering

  /** A SAST finding as one of the two APIs reports it. */
  datatype Finding = Finding(simId: string, hash: string, severity: string, state: string, status: string)

  /** The two reports of one finding: from api/sast-results and from
      api/results. */
  datatype Pair = Pair(sastResult: Option<Finding>, result: Option<Finding>)

  /** Pairs by similarity id, then by result hash. */
  type Pairs = map<string, map<string, Pair>>

  /** The pair filed under `sim` and `hash`, if any. */
  function Lookup(m: Pairs, sim: string, hash: string): Option<Pair>
  {
    if sim in m && hash in m[sim] then Some(m[sim][hash]) else None
  }

  /** The pairs of `sim`, none when the similarity id is new. */
  function Inner(m: Pairs, sim: string): map<string, Pair>
  {
    if sim in m then m[sim] else map[]
  }

  // ---------------------------------------------------------------------
  // Pairing

  /** A finding from api/sast-results opens a pair, unless one is already
      filed under its ids: the first such finding is kept. */
  function AddSastResult(m: Pairs, r: Finding): Pairs
  {
    var inner := Inner(m, r.simId);
    if r.hash in inner then m
    else m[r.simId := inner[r.hash := Pair(Some(r), None)]]
  }

  /** A finding from api/results opens a pair when none is filed under its
      ids, completes a pair that has no such finding yet, and is ignored
      otherwise. */
  function AddApiResult(m: Pairs, r: Finding): Pairs
  {
    var inner := Inner(m, r.simId);
    if r.hash !in inner then m[r.simId := inner[r.hash := Pair(None, Some(r))]]
    else if inner[r.hash].result.Some? then m
    else m[r.simId := inner[r.hash := inner[r.hash].(result := Some(r))]]
  }

  function AddSastResults(m: Pairs, rs: seq<Finding>): Pairs
    decreases |rs|
  {
    if rs == [] then m else AddSastResults(AddSastResult(m, rs[0]), rs[1..])
  }

  function AddApiResults(m: Pairs, rs: seq<Finding>): Pairs
    decreases |rs|
  {
    if rs == [] then m else AddApiResults(AddApiResult(m, rs[0]), rs[1..])
  }

  /** The pairs ProcessScanResults builds from both lists. */
  function Pairing(sast: seq<Finding>, api: seq<Finding>): Pairs
  {
    AddApiResults(AddSastResults(map[], sast), api)
  }

  /** Every finding among the pairs of `sim` is filed under its own ids. */
  predicate KeyedInner(sim: string, inner: map<string, Pair>)
  {
    forall hash :: hash in inner ==>
      (inner[hash].sastResult.Some? ==> inner[hash].sastResult.value.simId == sim
                                        && inner[hash].sastResult.value.hash == hash)
      && (inner[hash].result.Some? ==> inner[hash].result.value.simId == sim
                                       && inner[hash].result.value.hash == hash)
  }

  /** Every finding of a pair is filed under its own ids. */
  predicate Keyed(m: Pairs)
  {
    forall sim :: sim in m ==> KeyedInner(sim, m[sim])
  }

  /** Adding findings keeps every pair filed under the ids of its findings. */
  lemma {:induction false} PairingKeyed(m: Pairs, sast: seq<Finding>, api: seq<Finding>)
    requires Keyed(m)
    ensures Keyed(AddSastResults(m, sast))
    ensures Keyed(AddApiResults(m, api))
    decreases |sast| + |api|
  {
    if sast != [] {
      PairingKeyed(AddSastResult(m, sast[0]), sast[1..], []);
    }
    if api != [] {
      PairingKeyed(AddApiResult(m, api[0]), [], api[1..]);
    }
  }

  /** A pair already filed under `sim` and `hash` is left alone by later
      api/sast-results findings. */
  lemma {:induction false} SastKeepsFiled(m: Pairs, rs: seq<Finding>, sim: string, hash: string)
    requires Lookup(m, sim, hash).Some?
    ensures Lookup(AddSastResults(m, rs), sim, hash) == Lookup(m, sim, hash)
    decreases |rs|
  {
    if rs != [] {
      SastKeepsFiled(AddSastResult(m, rs[0]), rs[1..], sim, hash);
    }
  }

  /** The first api/sast-results finding with given ids is the one kept. */
  lemma {:induction false} FirstSastResultKept(m: Pairs, rs: seq<Finding>, i: nat)
    requires i < |rs| && Lookup(m, rs[i].simId, rs[i].hash).None?
    requires forall j :: 0 <= j < i ==> rs[j].simId != rs[i].simId || rs[j].hash != rs[i].hash
    ensures Lookup(AddSastResults(m, rs), rs[i].simId, rs[i].hash) == Some(Pair(Some(rs[i]), None))
    decreases i
  {
    var m1 := AddSastResult(m, rs[0]);
    if i == 0 {
      SastKeepsFiled(m1, rs[1..], rs[0].simId, rs[0].hash);
    } else {
      assert rs[1..][i - 1] == rs[i];
      FirstSastResultKept(m1, rs[1..], i - 1);
    }
  }

  /** A pair that already has its api/results finding is left alone by
      later api/results findings. */
  lemma {:induction false} ApiKeepsComplete(m: Pairs, rs: seq<Finding>, sim: string, hash: string)
    requires Lookup(m, sim, hash).Some? && Lookup(m, sim, hash).value.result.Some?
    ensures Lookup(AddApiResults(m, rs), sim, hash) == Lookup(m, sim, hash)
    decreases |rs|
  {
    if rs != [] {
      ApiKeepsComplete(AddApiResult(m, rs[0]), rs[1..], sim, hash);
    }
  }

  /** The first api/results finding with given ids completes the pair filed
      under them when it has no such finding, or opens a pair of its own;
      the api/sast-results finding of the pair stays as it was. */
  lemma {:induction false} FirstApiResultAttached(m: Pairs, rs: seq<Finding>, i: nat)
    requires i < |rs|
    requires Lookup(m, rs[i].simId, rs[i].hash).None? || Lookup(m, rs[i].simId, rs[i].hash).value.result.None?
    requires forall j :: 0 <= j < i ==> rs[j].simId != rs[i].simId || rs[j].hash != rs[i].hash
    ensures var before := Lookup(m, rs[i].simId, rs[i].hash);
            Lookup(AddApiResults(m, rs), rs[i].simId, rs[i].hash)
            == Some(Pair(if before.Some? then before.value.sastResult else None, Some(rs[i])))
    decreases i
  {
    var m1 := AddApiResult(m, rs[0]);
    if i == 0 {
      ApiKeepsComplete(m1, rs[1..], rs[0].simId, rs[0].hash);
    } else {
      assert rs[1..][i - 1] == rs[i];
      FirstApiResultAttached(m1, rs[1..], i - 1);
    }
  }

  /** A pair is filed under a similarity id exactly when it was before or
      some api/sast-results finding has that id. */
  lemma {:induction false} SastPairingKeys(m: Pairs, rs: seq<Finding>)
    ensures forall sim :: sim in AddSastResults(m, rs) <==>
              sim in m || exists k :: 0 <= k < |rs| && rs[k].simId == sim
    decreases |rs|
  {
    if rs != [] {
      SastPairingKeys(AddSastResult(m, rs[0]), rs[1..]);
      assert forall k :: 1 <= k < |rs| ==> rs[k] == rs[1..][k - 1];
    }
  }

  /** A pair is filed under a similarity id exactly when it was before or
      some api/results finding has that id. */
  lemma {:induction false} ApiPairingKeys(m: Pairs, rs: seq<Finding>)
    ensures forall sim :: sim in AddApiResults(m, rs) <==>
              sim in m || exists k :: 0 <= k < |rs| && rs[k].simId == sim
    decreases |rs|
  {
    if rs != [] {
      ApiPairingKeys(AddApiResult(m, rs[0]), rs[1..]);
      assert forall k :: 1 <= k < |rs| ==> rs[k] == rs[1..][k - 1];
    }
  }

  // ---------------------------------------------------------------------
  // Similarity ids

  /** `ids` with `x` appended when it is not there yet. */
  function AddId(ids: seq<string>, x: string): seq<string>
  {
    if x in ids then ids else ids + [x]
  }

  /** Appending ids keeps them distinct and collects every one. */
  lemma AddIdSpec(ids: seq<string>, x: string)
    requires NoDup(ids)
    ensures NoDup(AddId(ids, x)) && Elems(AddId(ids, x)) == Elems(ids) + {x}
  {
  }

  // ---------------------------------------------------------------------
  // ProcessScanResults, first part

  /** The two loops of ProcessScanResults that pair the findings and list
      their similarity ids, each once. */
  method BuildPairs(sast: seq<Finding>, api: seq<Finding>) returns (simIds: seq<string>, pairs: Pairs)
    ensures pairs == Pairing(sast, api)
    ensures NoDup(simIds) && Elems(simIds) == pairs.Keys
    ensures Keyed(pairs)
  {
    simIds := [];
    pairs := map[];
    var i := 0;
    while i < |sast|
      invariant 0 <= i <= |sast|
      invariant AddSastResults(pairs, sast[i..]) == AddSastResults(map[], sast)
      invariant NoDup(simIds) && Elems(simIds) == pairs.Keys
    {
      assert sast[i..][1..] == sast[i + 1..];
      AddIdSpec(simIds, sast[i].simId);
      simIds := AddId(simIds, sast[i].simId);
      pairs := AddSastResult(pairs, sast[i]);
      i := i + 1;
    }
    var j := 0;
    while j < |api|
      invariant 0 <= j <= |api|
      invariant AddApiResults(pairs, api[j..]) == Pairing(sast, api)
      invariant NoDup(simIds) && Elems(simIds) == pairs.Keys
    {
      assert api[j..][1..] == api[j + 1..];
      AddIdSpec(simIds, api[j].simId);
      simIds := AddId(simIds, api[j].simId);
      pairs := AddApiResult(pairs, api[j]);
      j := j + 1;
    }
    PairingKeyed(map[], sast, []);
    PairingKeyed(AddSastResults(map[], sast), [], api);
  }

  // ---------------------------------------------------------------------
  // compareResults

  /** The fields compareResults checks. */
  datatype Field = Severity | State | Status

  /** The fields on which the two reports of a finding disagree, in the
      order compareResults lists them. */
  function Differences(a: Finding, b: Finding): seq<Field>
  {
    (if a.severity != b.severity then [Severity] else [])
    + (if a.state != b.state then [State] else [])
    + (if a.status != b.status then [Status] else [])
  }

  /** Each differing field is listed, once, and no other. */
  lemma DifferencesListed(a: Finding, b: Finding)
    ensures NoDup(Differences(a, b))
    ensures Severity in Differences(a, b) <==> a.severity != b.severity
    ensures State in Differences(a, b) <==> a.state != b.state
    ensures Status in Differences(a, b) <==> a.status != b.status
  {
  }

  /** compareResults: the two reports agree when no field differs. */
  function CompareResults(a: Finding, b: Finding): (same: bool)
    ensures same <==> a.severity == b.severity && a.state == b.state && a.status == b.status
  {
    |Differences(a, b)| == 0
  }

  /** Agreement does not depend on which report is given first. */
  lemma CompareResultsSymmetric(a: Finding, b: Finding)
    ensures CompareResults(a, b) == CompareResults(b, a)
    ensures Elems(Differences(a, b)) == Elems(Differences(b, a))
  {
  }

  // ---------------------------------------------------------------------
  // ProcessScanResults, second part

  /** A pair with both reports. */
  predicate Complete(p: Pair)
  {
    p.sastResult.Some? && p.result.Some?
  }

  /** `x` is the api/sast-results finding of a complete pair among `inner`
      whose reports disagree, and updates are on: its triage is rewritten. */
  predicate FlaggedIn(inner: map<string, Pair>, update: bool, x: Finding)
  {
    update && x.hash in inner
    && Complete(inner[x.hash])
    && inner[x.hash].sastResult.value == x
    && !CompareResults(x, inner[x.hash].result.value)
  }

  /** `x` is flagged among the pairs of its similarity id. */
  predicate Flagged(pairs: Pairs, update: bool, x: Finding)
  {
    x.simId in pairs && FlaggedIn(pairs[x.simId], update, x)
  }

  /** The strict order of similarity ids and hashes. */
  predicate Less(a: string, b: string)
  {
    LessEq(a, b) && a != b
  }

  /** `x` is handled before `y`: by similarity id, then by result hash. */
  predicate Before(x: Finding, y: Finding)
  {
    Less(x.simId, y.simId) || (x.simId == y.simId && Less(x.hash, y.hash))
  }

  /** Each finding comes strictly before the next, so none is handled twice. */
  predicate InOrder(s: seq<Finding>)
  {
    forall i, j :: 0 <= i < j < |s| ==> Before(s[i], s[j])
  }

  /** The inner loop over the pairs of one similarity id: the hashes of its
      complete pairs, each once, in the order the map yields them. */
  method CompleteHashes(inner: map<string, Pair>) returns (hashes: seq<string>)
    requires forall h :: h in inner && inner[h].sastResult.Some? ==> inner[h].sastResult.value.hash == h
    ensures NoDup(hashes)
    ensures Elems(hashes) == set h | h in inner && Complete(inner[h])
  {
    hashes := [];
    var todo := inner.Keys;
    while todo != {}
      invariant todo <= inner.Keys
      invariant NoDup(hashes)
      invariant Elems(hashes) == set h | h in inner.Keys - todo && Complete(inner[h])
      decreases todo
    {
      var h :| h in todo;
      var p := inner[h];
      var resultHash := "";
      if p.sastResult.Some? {
        resultHash := p.sastResult.value.hash;
      } else if p.result.Some? {
        resultHash := p.result.value.hash;
      }
      ghost var before := hashes;
      if Complete(p) {
        assert resultHash == h && h !in Elems(hashes);
      }
      if Complete(p) && resultHash !in hashes {
        hashes := hashes + [resultHash];
      }
      assert Elems(hashes) == Elems(before) + (if Complete(p) then {h} else {});
      todo := todo - {h};
    }
  }

  /** A list that holds every element at most once has no repeats. */
  lemma {:induction false} OnceNoDup(s: seq<string>)
    requires forall x :: multiset(s)[x] <= 1
    ensures NoDup(s)
  {
    if s != [] {
      assert s == [s[0]] + s[1..];
      assert multiset(s) == multiset{s[0]} + multiset(s[1..]);
      forall x ensures multiset(s[1..])[x] <= 1 {
        assert multiset(s)[x] == multiset{s[0]}[x] + multiset(s[1..])[x];
      }
      OnceNoDup(s[1..]);
      assert multiset(s)[s[0]] == 1 + multiset(s[1..])[s[0]];
      forall i, j | 0 <= i < j < |s| ensures s[i] != s[j] {
        assert s[j] == s[1..][j - 1];
        if i > 0 {
          assert s[i] == s[1..][i - 1];
        }
      }
    }
  }

  /** A list without repeats holds every element at most once. */
  lemma {:induction false} NoDupOnce(s: seq<string>)
    requires NoDup(s)
    ensures forall x :: multiset(s)[x] <= 1
  {
    if s != [] {
      assert s == [s[0]] + s[1..];
      assert multiset(s) == multiset{s[0]} + multiset(s[1..]);
      assert forall k :: 0 <= k < |s[1..]| ==> s[1..][k] == s[k + 1];
      NoDupOnce(s[1..]);
      assert s[0] !in s[1..];
    }
  }

  /** slices.Sort on a list without repeats orders it strictly and keeps
      its elements. */
  lemma SortStrict(s: seq<string>)
    requires NoDup(s)
    ensures Elems(Sort(s)) == Elems(s)
    ensures forall i, j :: 0 <= i < j < |Sort(s)| ==> Less(Sort(s)[i], Sort(s)[j])
  {
    var r := Sort(s);
    forall x ensures x in r <==> x in s {
      assert x in multiset(r) <==> x in multiset(s);
    }
    NoDupOnce(s);
    OnceNoDup(r);
  }

  /** The hashes `hs` name complete pairs of `inner`. */
  predicate CompleteKeys(inner: map<string, Pair>, hs: seq<string>)
  {
    forall k :: 0 <= k < |hs| ==> hs[k] in inner && Complete(inner[hs[k]])
  }

  /** A complete pair whose two reports disagree. */
  predicate Disagrees(p: Pair)
  {
    Complete(p) && !CompareResults(p.sastResult.value, p.result.value)
  }

  /** The api/sast-results findings of the pairs filed under `hs` whose
      reports disagree, in the order of `hs`, when updates are on. */
  function FixesOf(inner: map<string, Pair>, update: bool, hs: seq<string>): seq<Finding>
  {
    if hs == [] then []
    else
      (if update && hs[0] in inner && Disagrees(inner[hs[0]]) then [inner[hs[0]].sastResult.value] else [])
      + FixesOf(inner, update, hs[1..])
  }

  /** A finding is listed exactly when it is flagged and its hash is in `hs`. */
  lemma {:induction false} FixesOfMember(sim: string, inner: map<string, Pair>, update: bool, hs: seq<string>)
    requires KeyedInner(sim, inner) && CompleteKeys(inner, hs)
    ensures forall x :: x in FixesOf(inner, update, hs) <==> x.simId == sim && FlaggedIn(inner, update, x) && x.hash in hs
  {
    if hs != [] {
      FixesOfMember(sim, inner, update, hs[1..]);
      assert hs == [hs[0]] + hs[1..];
    }
  }

  /** Hashes in increasing order give findings in increasing hash order. */
  lemma {:induction false} FixesOfOrder(sim: string, inner: map<string, Pair>, update: bool, hs: seq<string>)
    requires KeyedInner(sim, inner) && CompleteKeys(inner, hs)
    requires forall i, j :: 0 <= i < j < |hs| ==> Less(hs[i], hs[j])
    ensures forall x :: x in FixesOf(inner, update, hs) ==> x.hash in hs
    ensures forall i, j :: 0 <= i < j < |FixesOf(inner, update, hs)| ==>
              Less(FixesOf(inner, update, hs)[i].hash, FixesOf(inner, update, hs)[j].hash)
  {
    if hs != [] {
      var tail := hs[1..];
      assert forall i, j :: 0 <= i < j < |tail| ==> tail[i] == hs[i + 1] && tail[j] == hs[j + 1];
      FixesOfOrder(sim, inner, update, tail);
      var rest := FixesOf(inner, update, tail);
      forall x | x in rest ensures Less(hs[0], x.hash) {
        var m :| 0 <= m < |tail| && tail[m] == x.hash;
        assert hs[m + 1] == x.hash;
      }
    }
  }

  /** One step of the loop over `hs`. */
  lemma FixesOfStep(inner: map<string, Pair>, update: bool, hs: seq<string>, k: nat)
    requires k < |hs|
    ensures FixesOf(inner, update, hs[k..])
            == (if update && hs[k] in inner && Disagrees(inner[hs[k]]) then [inner[hs[k]].sastResult.value] else [])
               + FixesOf(inner, update, hs[k + 1..])
  {
    assert hs[k..][1..] == hs[k + 1..];
  }

  /** The loop over given hashes: each pair's reports are compared, and the
      api/sast-results finding of a pair that disagrees is listed when
      updates are on. */
  method CheckHashes(inner: map<string, Pair>, update: bool, hs: seq<string>) returns (fixes: seq<Finding>)
    requires CompleteKeys(inner, hs)
    ensures fixes == FixesOf(inner, update, hs)
  {
    fixes := [];
    var k := 0;
    while k < |hs|
      invariant 0 <= k <= |hs|
      invariant fixes + FixesOf(inner, update, hs[k..]) == FixesOf(inner, update, hs)
    {
      var p := inner[hs[k]];
      FixesOfStep(inner, update, hs, k);
      if !CompareResults(p.sastResult.value, p.result.value) && update {
        fixes := fixes + [p.sastResult.value];
      }
      k := k + 1;
    }
  }

  /** The loop over the sorted hashes of one similarity id: the
      api/sast-results findings of its complete pairs whose reports
      disagree, in increasing hash order. */
  method SimFixes(sim: string, inner: map<string, Pair>, update: bool) returns (fixes: seq<Finding>)
    requires KeyedInner(sim, inner)
    ensures forall x :: x in fixes <==> x.simId == sim && FlaggedIn(inner, update, x)
    ensures forall i, j :: 0 <= i < j < |fixes| ==> Less(fixes[i].hash, fixes[j].hash)
  {
    var hashes := CompleteHashes(inner);
    SortStrict(hashes);
    var sorted := Sort(hashes);
    assert CompleteKeys(inner, sorted) by {
      forall h | h in sorted ensures h in inner && Complete(inner[h]) {
        assert h in Elems(sorted);
      }
    }
    fixes := CheckHashes(inner, update, sorted);
    forall x | FlaggedIn(inner, update, x) ensures x.hash in sorted {
      assert x.hash in Elems(sorted);
    }
    FixesOfMember(sim, inner, update, sorted);
    FixesOfOrder(sim, inner, update, sorted);
  }

  /** Appending the fixes of a later similarity id keeps the order. */
  lemma InOrderAppend(a: seq<Finding>, b: seq<Finding>, sim: string)
    requires InOrder(a)
    requires forall k :: 0 <= k < |a| ==> Less(a[k].simId, sim)
    requires forall k :: 0 <= k < |b| ==> b[k].simId == sim
    requires forall i, j :: 0 <= i < j < |b| ==> Less(b[i].hash, b[j].hash)
    ensures InOrder(a + b)
  {
  }

  /** The findings listed once the similarity ids before `i` are done. */
  ghost predicate ListedUpTo(pairs: Pairs, update: bool, sorted: seq<string>, i: nat, toFix: seq<Finding>)
    requires i <= |sorted|
  {
    (forall x :: x in toFix <==> Flagged(pairs, update, x) && x.simId in sorted[..i])
    && (forall k :: 0 <= k < |toFix| ==> toFix[k].simId in sorted[..i])
    && InOrder(toFix)
  }

  /** One pass of the loop over the similarity ids: the fixes of id i join
      those of the ids before it. */
  lemma ListedStep(pairs: Pairs, update: bool, sorted: seq<string>, i: nat, toFix: seq<Finding>, fixes: seq<Finding>)
    requires i < |sorted| && sorted[i] in pairs
    requires forall a, b :: 0 <= a < b < |sorted| ==> Less(sorted[a], sorted[b])
    requires ListedUpTo(pairs, update, sorted, i, toFix)
    requires forall x :: x in fixes <==> x.simId == sorted[i] && FlaggedIn(pairs[sorted[i]], update, x)
    requires forall a, b :: 0 <= a < b < |fixes| ==> Less(fixes[a].hash, fixes[b].hash)
    ensures ListedUpTo(pairs, update, sorted, i + 1, toFix + fixes)
  {
    var sim := sorted[i];
    forall k | 0 <= k < |toFix| ensures Less(toFix[k].simId, sim) {
      assert toFix[k].simId in sorted[..i];
      var m :| 0 <= m < i && sorted[..i][m] == toFix[k].simId;
      assert sorted[m] == toFix[k].simId;
    }
    forall k | 0 <= k < |fixes| ensures fixes[k].simId == sim {
      assert fixes[k] in fixes;
    }
    InOrderAppend(toFix, fixes, sim);
    assert sorted[..i + 1] == sorted[..i] + [sim];
  }

  /** The loop of ProcessScanResults over the sorted similarity ids: the
      findings whose triage is rewritten, each once, by similarity id and
      then result hash. */
  method ProcessPairs(simIds: seq<string>, pairs: Pairs, update: bool) returns (toFix: seq<Finding>)
    requires Keyed(pairs)
    requires NoDup(simIds) && Elems(simIds) == pairs.Keys
    ensures forall x :: x in toFix <==> Flagged(pairs, update, x)
    ensures InOrder(toFix)
  {
    SortStrict(simIds);
    var sorted := Sort(simIds);
    toFix := [];
    var i := 0;
    while i < |sorted|
      invariant 0 <= i <= |sorted|
      invariant ListedUpTo(pairs, update, sorted, i, toFix)
    {
      var sim := sorted[i];
      assert sim in Elems(sorted);
      var fixes := SimFixes(sim, pairs[sim], update);
      ListedStep(pairs, update, sorted, i, toFix, fixes);
      toFix := toFix + fixes;
      i := i + 1;
    }
    assert sorted[..i] == sorted;
    forall x | Flagged(pairs, update, x) ensures x.simId in sorted {
      assert x.simId in Elems(sorted);
    }
  }

  /** ProcessScanResults over the two lists the scan's findings were fetched
      as: the findings whose triage it rewrites. */
  method ProcessScanResults(sast: seq<Finding>, api: seq<Finding>, update: bool) returns (toFix: seq<Finding>)
    ensures forall x :: x in toFix <==> Flagged(Pairing(sast, api), update, x)
    ensures InOrder(toFix)
  {
    var simIds, pairs := BuildPairs(sast, api);
    toFix := ProcessPairs(simIds, pairs, update);
  }

  /** With updates off, nothing is rewritten. */
  lemma NoUpdateNoFix(pairs: Pairs, x: Finding)
    ensures !Flagged(pairs, false, x)
  {
  }

  /** A finding reported alike by both APIs is never rewritten; one the
      first api/sast-results report of which disagrees with the first
      api/results report is, when updates are on. */
  lemma FlaggedFirstReports(sast: seq<Finding>, api: seq<Finding>, i: nat, j: nat)
    requires i < |sast| && j < |api|
    requires sast[i].simId == api[j].simId && sast[i].hash == api[j].hash
    requires forall k :: 0 <= k < i ==> sast[k].simId != sast[i].simId || sast[k].hash != sast[i].hash
    requires forall k :: 0 <= k < j ==> api[k].simId != api[j].simId || api[k].hash != api[j].hash
    ensures Flagged(Pairing(sast, api), true, sast[i]) <==> !CompareResults(sast[i], api[j])
  {
    var m := AddSastResults(map[], sast);
    FirstSastResultKept(map[], sast, i);
    FirstApiResultAttached(m, api, j);
  }

  // ---------------------------------------------------------------------
  // addResultPredicate

  /** The state the triage is first moved to. */
  const ProposedNotExploitable := "PROPOSED_NOT_EXPLOITABLE"

  /** The comment of the restoring write when the last predicate had none. */
  const TriageFixComment := "Importer Triage Fix"

  /** A triage predicate written for a finding. */
  datatype Predicate = Predicate(simId: string, state: string, comment: string)

  /** Where a rewrite of the triage stopped. */
  datatype RepairError = LookupFailed | PneFailed | RestoreFailed

  /** The predicates written, in order, and the error reported, if any. */
  datatype Repair = Repair(writes: seq<Predicate>, err: Option<RepairError>)

  /** addResultPredicate: the triage is moved to PROPOSED_NOT_EXPLOITABLE,
      then, if that write succeeded, back to the original state. The
      outcome of each write is a parameter, and so is the comment the
      client library gives a new predicate. */
  function AddResultPredicate(x: Finding, originalState: string, originalComment: string,
                              pneComment: string, newComment: string,
                              firstOk: bool, secondOk: bool): (r: Repair)
  {
    var pne := Predicate(x.simId, ProposedNotExploitable, if pneComment != "" then pneComment else newComment);
    if !firstOk then Repair([pne], Some(PneFailed))
    else
      var restore := Predicate(x.simId, originalState, if originalComment != "" then originalComment else TriageFixComment);
      Repair([pne, restore], if secondOk then None else Some(RestoreFailed))
  }

  /** The rewrite of one flagged finding: its last predicate is fetched,
      and when that succeeds the triage is rewritten from the finding's own
      state and the last predicate's comment. */
  function FixFinding(x: Finding, lastComment: Option<string>, pneComment: string, newComment: string,
                      firstOk: bool, secondOk: bool): (r: Repair)
    ensures lastComment.None? ==> r == Repair([], Some(LookupFailed))
  {
    if lastComment.None? then Repair([], Some(LookupFailed))
    else AddResultPredicate(x, x.state, lastComment.value, pneComment, newComment, firstOk, secondOk)
  }

  /** The first write always moves the triage to PROPOSED_NOT_EXPLOITABLE,
      with the configured comment when there is one; the second write is
      attempted only after the first succeeded. */
  lemma RepairWrites(x: Finding, originalState: string, originalComment: string,
                     pneComment: string, newComment: string, firstOk: bool, secondOk: bool)
    ensures var r := AddResultPredicate(x, originalState, originalComment, pneComment, newComment, firstOk, secondOk);
            |r.writes| >= 1 && r.writes[0].state == ProposedNotExploitable
            && (pneComment != "" ==> r.writes[0].comment == pneComment)
            && (|r.writes| == 2 <==> firstOk)
            && (forall w :: w in r.writes ==> w.simId == x.simId)
  {
  }

  /** The rewrite succeeds exactly when both writes do, and then the last
      write restores the original state, with the original comment or,
      when there was none, a fixed one: the triage ends as it began. */
  lemma RepairRestores(x: Finding, originalState: string, originalComment: string,
                       pneComment: string, newComment: string, firstOk: bool, secondOk: bool)
    ensures var r := AddResultPredicate(x, originalState, originalComment, pneComment, newComment, firstOk, secondOk);
            (r.err.None? <==> firstOk && secondOk)
            && (firstOk ==> r.writes[|r.writes| - 1].state == originalState
                            && r.writes[|r.writes| - 1].comment
                               == (if originalComment != "" then originalComment else TriageFixComment))
  {
  }

  /** A rewrite that ends without error leaves the finding in the state
      api/sast-results reported for it. */
  lemma FixKeepsState(x: Finding, lastComment: Option<string>, pneComment: string, newComment: string,
                      firstOk: bool, secondOk: bool)
    ensures var r := FixFinding(x, lastComment, pneComment, newComment, firstOk, secondOk);
            r.err.None? <==> lastComment.Some? && firstOk && secondOk
    ensures var r := FixFinding(x, lastComment, pneComment, newComment, firstOk, secondOk);
            r.err.None? ==> |r.writes| == 2 && r.writes[1].state == x.state
  {
  }
}
