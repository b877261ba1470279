/**
 * query-creator: queries are read from a folder laid out as
 * <Language>/<Group>/<Name>.cs, and created or updated in the tenant
 * group by group. The model keeps how a file path becomes a query, which
 * files are loaded, the order in which groups are handled, and the rules
 * that decide which API calls are made for each query.
 */
module QueryCreator {
  import opened Wrappers
  import opened Text

  /** A SAST query as the creator knows it. */
  datatype SastQuery = SastQuery(
    language: string,
    group: string,
    name: string,
    isExecutable: bool,
    source: string,
    severity: string,
    level: string,
    levelId: string)

  /** What every loaded query copies from the command line: the lower-cased
      severity and the level it is created at. */
  datatype Defaults = Defaults(severity: string, level: string, levelId: string)

  /** The group whose queries are library code, not executable queries. */
  const General := "General"

  // ---------------------------------------------------------------------
  // LoadQueryFromFile

  /** filepath.Ext: the suffix of `p` from its last '.', provided no '/'
      follows that dot; "" when there is none. */
  function Ext(p: string): (e: string)
    ensures HasSuffix(p, e)
  {
    if p == [] || p[|p| - 1] == '/' then []
    else if p[|p| - 1] == '.' then "."
    else
      var front := p[..|p| - 1];
      var e := Ext(front);
      if e == [] then []
      else
        assert p == front + [p[|p| - 1]];
        e + [p[|p| - 1]]
  }

  /** The extension is empty, or a dot followed by neither dot nor slash;
      it is empty only when no dot follows the last slash. */
  lemma {:induction false} ExtShape(p: string)
    ensures var e := Ext(p);
            e == [] || (e[0] == '.' && '.' !in e[1..] && '/' !in e)
    ensures Ext(p) == [] ==> forall k :: 0 <= k < |p| && '/' !in p[k..] ==> p[k] != '.'
  {
    if p != [] && p[|p| - 1] != '/' && p[|p| - 1] != '.' {
      var front := p[..|p| - 1];
      ExtShape(front);
      var e := Ext(front);
      if e == [] {
        forall k | 0 <= k < |p| && '/' !in p[k..] ensures p[k] != '.' {
          if k < |p| - 1 {
            assert front[k..] == p[k..|p| - 1];
            assert p[k] == front[k];
          }
        }
      } else {
        assert (e + [p[|p| - 1]])[1..] == e[1..] + [p[|p| - 1]];
      }
    }
  }

  /** strings.TrimSuffix */
  function TrimSuffix(s: string, suffix: string): (r: string)
    ensures HasSuffix(s, suffix) ==> r + suffix == s
    ensures !HasSuffix(s, suffix) ==> r == s
  {
    if HasSuffix(s, suffix) then s[..|s| - |suffix|] else s
  }

  /** A file name with its extension removed. */
  function Stem(file: string): string
  {
    TrimSuffix(file, Ext(file))
  }

  /** The extension of a name ending in '.' and a dot-free, slash-free
      tail is that tail with its dot. */
  lemma {:induction false} ExtOfTail(front: string, tail: string)
    requires '.' !in tail && '/' !in tail
    ensures Ext(front + "." + tail) == "." + tail
    decreases |tail|
  {
    if tail != [] {
      var init, c := tail[..|tail| - 1], tail[|tail| - 1];
      assert tail == init + [c];
      ExtOfTail(front, init);
      ExtSnoc(front + "." + init, c);
      assert front + "." + tail == (front + "." + init) + [c];
    }
  }

  /** A character that is neither dot nor slash lengthens a non-empty
      extension. */
  lemma ExtSnoc(q: string, c: char)
    requires c != '.' && c != '/' && Ext(q) != []
    ensures Ext(q + [c]) == Ext(q) + [c]
  {
    assert (q + [c])[..|q|] == q;
  }

  /** The name of `stem.ext` is `stem`, whatever dots the stem holds. */
  lemma StemOfFileName(stem: string, ext: string)
    requires '.' !in ext && '/' !in ext
    ensures Ext(stem + "." + ext) == "." + ext
    ensures Stem(stem + "." + ext) == stem
  {
    ExtOfTail(stem, ext);
    var p := stem + "." + ext;
    assert p[..|p| - |"." + ext|] == stem;
  }

  /** LoadQueryFromFile, for a path already made relative to the queries
      folder and written with '/' separators, the header to put in front,
      and the file's contents or the error reading it gave. */
  function LoadQueryFromFile(relPath: string, header: string, data: Result<string, string>, d: Defaults)
    : (r: Result<SastQuery, string>)
    ensures r.Err? <==> |Split(relPath, "/")| != 3 || data.Err?
    ensures r.Ok? ==> HasPrefix(r.value.source, header + "\n") && HasSuffix(r.value.source, data.value)
    ensures r.Ok? ==> (r.value.isExecutable <==> r.value.group != General)
    ensures r.Ok? ==> r.value.severity == d.severity && r.value.level == d.level && r.value.levelId == d.levelId
  {
    var parts := Split(relPath, "/");
    if |parts| != 3 then Err("invalid query file path: " + relPath)
    else if data.Err? then Err(data.error)
    else
      var source := header + "\n" + data.value;
      assert source[..|header + "\n"|] == header + "\n";
      assert source[|source| - |data.value|..] == data.value;
      Ok(SastQuery(parts[0], parts[1], Stem(parts[2]), parts[1] != General, source,
                   d.severity, d.level, d.levelId))
  }

  /** A file at <language>/<group>/<stem>.<ext> loads as the query of that
      language, group and name. */
  lemma LoadQueryFromPath(language: string, group: string, stem: string, ext: string,
                          header: string, contents: string, d: Defaults)
    requires '/' !in language && '/' !in group && '/' !in stem
    requires '.' !in ext && '/' !in ext
    ensures var r := LoadQueryFromFile(Join([language, group, stem + "." + ext], "/"), header, Ok(contents), d);
            r == Ok(SastQuery(language, group, stem, group != General, header + "\n" + contents,
                              d.severity, d.level, d.levelId))
  {
    var file := stem + "." + ext;
    assert '/' !in file by {
      assert forall k :: 0 <= k < |file| ==> file[k] == (if k < |stem| then stem[k] else if k == |stem| then '.' else ext[k - |stem| - 1]);
    }
    var parts := [language, group, file];
    JoinSplit(parts, '/');
    StemOfFileName(stem, ext);
  }

  /** A path with more or fewer than two '/' is rejected, however the file reads. */
  lemma LoadQueryRejectsDepth(parts: seq<string>, header: string, data: Result<string, string>, d: Defaults)
    requires |parts| >= 1 && |parts| != 3
    requires forall k :: 0 <= k < |parts| ==> '/' !in parts[k]
    ensures LoadQueryFromFile(Join(parts, "/"), header, data, d).Err?
  {
    JoinSplit(parts, '/');
  }

  // ---------------------------------------------------------------------
  // LoadQueriesFromFolder

  /** What filepath.Walk hands to its callback: a file or directory with its
      path below the queries folder and the contents a read of it gives,
      or the error the walk met. */
  datatype Visit =
    | Entry(relPath: string, name: string, isDir: bool, data: Result<string, string>)
    | WalkError(message: string)

  /** Only regular files whose name ends in ".cs" are query files. */
  predicate IsQueryFile(v: Visit)
    requires v.Entry?
  {
    !v.isDir && HasSuffix(v.name, ".cs")
  }

  /** The queries the walk adds, in the order it visits them: every query
      file that loads, up to the first walk error; a file that fails to load
      is skipped. */
  function Loaded(visits: seq<Visit>, header: string, d: Defaults): seq<SastQuery>
  {
    if visits == [] then []
    else
      var v := visits[0];
      if v.WalkError? then []
      else if !IsQueryFile(v) then Loaded(visits[1..], header, d)
      else
        match LoadQueryFromFile(v.relPath, header, v.data, d)
        case Ok(q) => [q] + Loaded(visits[1..], header, d)
        case Err(_) => Loaded(visits[1..], header, d)
  }

  /** The walk met an error. */
  predicate WalkFailed(visits: seq<Visit>)
  {
    exists k :: 0 <= k < |visits| && visits[k].WalkError?
  }

  /** Every loaded query is what one of the visited query files loads as. */
  lemma {:induction false} LoadedFromQueryFiles(visits: seq<Visit>, header: string, d: Defaults)
    ensures forall q :: q in Loaded(visits, header, d) ==>
              exists k :: 0 <= k < |visits| && visits[k].Entry? && IsQueryFile(visits[k])
                          && LoadQueryFromFile(visits[k].relPath, header, visits[k].data, d) == Ok(q)
  {
    if visits != [] && visits[0].Entry? {
      var rest := visits[1..];
      LoadedFromQueryFiles(rest, header, d);
      forall q | q in Loaded(visits, header, d)
        ensures exists k :: 0 <= k < |visits| && visits[k].Entry? && IsQueryFile(visits[k])
                            && LoadQueryFromFile(visits[k].relPath, header, visits[k].data, d) == Ok(q)
      {
        if q !in Loaded(rest, header, d) {
          assert visits[0].Entry? && IsQueryFile(visits[0]);
        } else {
          var k :| 0 <= k < |rest| && rest[k].Entry? && IsQueryFile(rest[k])
                   && LoadQueryFromFile(rest[k].relPath, header, rest[k].data, d) == Ok(q);
          assert visits[k + 1] == rest[k];
        }
      }
    }
  }

  /** A file that fails to load, or any other entry that is not a query
      file, changes nothing: the walk goes on past it. */
  lemma SkippedEntry(v: Visit, rest: seq<Visit>, header: string, d: Defaults)
    requires v.Entry? && (!IsQueryFile(v) || LoadQueryFromFile(v.relPath, header, v.data, d).Err?)
    ensures Loaded([v] + rest, header, d) == Loaded(rest, header, d)
  {
    assert ([v] + rest)[1..] == rest;
  }

  /** LoadQueriesFromFolder, over the visits of the walk: the queries it
      collected and, after a walk error, the error. */
  method LoadQueriesFromFolder(visits: seq<Visit>, header: string, d: Defaults)
    returns (collection: seq<SastQuery>, err: Option<string>)
    ensures collection == Loaded(visits, header, d)
    ensures err.Some? <==> WalkFailed(visits)
  {
    collection := [];
    err := None;
    var i := 0;
    while i < |visits|
      invariant 0 <= i <= |visits|
      invariant collection + Loaded(visits[i..], header, d) == Loaded(visits, header, d)
      invariant forall k :: 0 <= k < i ==> visits[k].Entry?
    {
      var v := visits[i];
      if v.WalkError? {
        assert collection == Loaded(visits, header, d);
        return collection, Some("error walking through queries folder: " + v.message);
      }
      assert visits[i..][1..] == visits[i + 1..];
      if IsQueryFile(v) {
        var query := LoadQueryFromFile(v.relPath, header, v.data, d);
        if query.Ok? {
          collection := collection + [query.value];
        }
      }
      i := i + 1;
    }
  }

  // ---------------------------------------------------------------------
  // CreateQueriesFromLanguage

  /** A query group of one language, with its queries. */
  datatype QueryGroup = QueryGroup(name: string, queries: seq<SastQuery>)

  /** The groups of `groups` that are General (`general`) or that are not
      (`!general`), in their order. */
  function Select(groups: seq<QueryGroup>, general: bool): seq<QueryGroup>
  {
    if groups == [] then []
    else (if (groups[0].name == General) == general then [groups[0]] else []) + Select(groups[1..], general)
  }

  /** Only groups of the kind asked for are selected. */
  lemma {:induction false} SelectOnly(groups: seq<QueryGroup>, general: bool)
    ensures forall k :: 0 <= k < |Select(groups, general)| ==> (Select(groups, general)[k].name == General) == general
  {
    if groups != [] {
      SelectOnly(groups[1..], general);
      var head := if (groups[0].name == General) == general then [groups[0]] else [];
      var r, t := Select(groups, general), Select(groups[1..], general);
      assert r == head + t;
      forall k | 0 <= k < |r| ensures (r[k].name == General) == general {
        if k >= |head| {
          assert r[k] == t[k - |head|];
        }
      }
    }
  }

  /** The order createQueriesFromGroup is called in: when creating, the
      General groups first, so the queries the others call exist; when
      deleting, the General groups last. */
  function ProcessingOrder(groups: seq<QueryGroup>, delete: bool): seq<QueryGroup>
  {
    Select(groups, !delete) + Select(groups, delete)
  }

  /** The two selections split the groups: each is in exactly one. */
  lemma {:induction false} SelectSplits(groups: seq<QueryGroup>, general: bool)
    ensures multiset(Select(groups, general)) + multiset(Select(groups, !general)) == multiset(groups)
  {
    if groups != [] {
      var g, rest := groups[0], groups[1..];
      SelectSplits(rest, general);
      assert groups == [g] + rest;
      if (g.name == General) == general {
        assert Select(groups, general) == [g] + Select(rest, general);
        assert Select(groups, !general) == Select(rest, !general);
      } else {
        assert Select(groups, general) == Select(rest, general);
        assert Select(groups, !general) == [g] + Select(rest, !general);
      }
    }
  }

  /** Every group is handled exactly once. */
  lemma ProcessingOrderIsPermutation(groups: seq<QueryGroup>, delete: bool)
    ensures multiset(ProcessingOrder(groups, delete)) == multiset(groups)
  {
    SelectSplits(groups, !delete);
  }

  /** When creating, no General group comes after another group; when
      deleting, no other group comes after a General one. */
  lemma ProcessingOrderGeneralPlace(groups: seq<QueryGroup>, delete: bool)
    ensures var order := ProcessingOrder(groups, delete);
            forall i, j :: 0 <= i < j < |order| && (order[i].name == General) == delete ==>
              (order[j].name == General) == delete
  {
    var first, second := Select(groups, !delete), Select(groups, delete);
    var order := ProcessingOrder(groups, delete);
    SelectOnly(groups, !delete);
    SelectOnly(groups, delete);
    forall i | 0 <= i < |first| ensures (order[i].name == General) != delete {
      assert order[i] == first[i];
    }
    forall j | |first| <= j < |order| ensures (order[j].name == General) == delete {
      assert order[j] == second[j - |first|];
    }
  }

  /** One pass of CreateQueriesFromLanguage over the groups: the General
      groups, or the others, in their order. */
  method Pass(groups: seq<QueryGroup>, general: bool) returns (handled: seq<QueryGroup>)
    ensures handled == Select(groups, general)
  {
    handled := [];
    var i := 0;
    while i < |groups|
      invariant 0 <= i <= |groups|
      invariant handled + Select(groups[i..], general) == Select(groups, general)
    {
      assert groups[i..][1..] == groups[i + 1..];
      if (groups[i].name == General) == general {
        handled := handled + [groups[i]];
      }
      i := i + 1;
    }
  }

  /** CreateQueriesFromLanguage: the groups in the order they are handed to
      createQueriesFromGroup. */
  method CreateQueriesFromLanguage(groups: seq<QueryGroup>, delete: bool) returns (order: seq<QueryGroup>)
    ensures order == ProcessingOrder(groups, delete)
  {
    var first := Pass(groups, !delete);
    var second := Pass(groups, delete);
    order := first + second;
  }

  // ---------------------------------------------------------------------
  // createQueriesFromGroup

  /** The source a brand-new tenant query is created with before its real
      source is written. */
  const Placeholder := "result = All.NewCxList();"

  /** An API call the creation pass makes for a query that is missing at
      its level. */
  datatype CreateStep =
    | CreateTenantQuery(query: SastQuery)
    | CreateOverride(level: string, base: SastQuery)

  /** The calls the creation pass makes for `query`: none when it already
      exists at its level; otherwise, from the closest tenant query or else
      from a new tenant query holding the placeholder source (`created` is
      what the API returned, None when the creation failed), an override at
      the query's level when the base is at another level. */
  function CreateSteps(query: SastQuery, existsAtLevel: bool, closest: Option<SastQuery>,
                       created: Option<SastQuery>): (steps: seq<CreateStep>)
    ensures existsAtLevel ==> steps == []
    ensures forall k :: 0 <= k < |steps| && steps[k].CreateOverride? ==>
              steps[k].level == query.level && steps[k].base.level != query.level
    ensures forall k :: 0 <= k < |steps| && steps[k].CreateTenantQuery? ==>
              closest.None? && steps[k].query == query.(source := Placeholder)
  {
    if existsAtLevel then []
    else
      var (tenant, base) :=
        match closest
        case Some(b) => ([], Some(b))
        case None => ([CreateTenantQuery(query.(source := Placeholder))], created);
      tenant + (if base.Some? && base.value.level != query.level then [CreateOverride(query.level, base.value)] else [])
  }

  /** A query missing at its level gets an override from the closest tenant
      query exactly when that query is at another level, and nothing new is
      created at tenant level. */
  lemma CreateFromClosest(query: SastQuery, closest: SastQuery, created: Option<SastQuery>)
    ensures var steps := CreateSteps(query, false, Some(closest), created);
            (|steps| == 1 <==> closest.level != query.level) && (|steps| == 0 <==> closest.level == query.level)
  {
  }

  /** The update pass: the source is rewritten only when it differs. */
  predicate NeedsSourceUpdate(existing: SastQuery, wanted: SastQuery)
  {
    existing.source != wanted.source
  }

  /** The update pass: severity and executability are rewritten only when
      the severities differ ignoring case. */
  predicate NeedsMetadataUpdate(existing: SastQuery, wanted: SastQuery)
  {
    !EqualFoldAscii(existing.severity, wanted.severity)
  }

  /** The query after the update pass, when every call it makes succeeds. */
  function Updated(existing: SastQuery, wanted: SastQuery): (r: SastQuery)
    ensures r.source == wanted.source
    ensures EqualFoldAscii(r.severity, wanted.severity)
    ensures r.language == existing.language && r.group == existing.group && r.name == existing.name
    ensures r.level == existing.level && r.levelId == existing.levelId
  {
    var s := existing.(source := wanted.source);
    if NeedsMetadataUpdate(s, wanted) then s.(severity := wanted.severity, isExecutable := wanted.isExecutable)
    else s
  }

  /** After an update pass that succeeded, a second pass makes no call. */
  lemma UpdateIsIdempotent(existing: SastQuery, wanted: SastQuery)
    ensures !NeedsSourceUpdate(Updated(existing, wanted), wanted)
    ensures !NeedsMetadataUpdate(Updated(existing, wanted), wanted)
    ensures Updated(Updated(existing, wanted), wanted) == Updated(existing, wanted)
  {
  }

  /** A query that already matches is left alone: no call is made and
      nothing changes, even when its executability differs. */
  lemma MatchingQueryUntouched(existing: SastQuery, wanted: SastQuery)
    requires existing.source == wanted.source && EqualFoldAscii(existing.severity, wanted.severity)
    ensures !NeedsSourceUpdate(existing, wanted) && !NeedsMetadataUpdate(existing, wanted)
    ensures Updated(existing, wanted) == existing
  {
  }
}
