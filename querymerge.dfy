/**
 * The CxQL merge engine of the migrator (querymerge.go): a QueryMerger
 * holds one override chain of a query, outermost level first, checks that
 * the chain can be merged, and folds the bodies into one query whose
 * pieces are tagged, indented, commented out before the last entry that
 * does not call its base, and rewritten after it so that every entry
 * works on `result` instead of calling `base.<name>()`.
 */
module QueryMerge {
  import opened Wrappers
  import opened Text
  import Catalog
  import opened CodeAnalysis

  /** The status codes STATUS_OK (0), STATUS_REMERGE (1), STATUS_EMPTY (8)
      and STATUS_INVALID (9). */
  datatype Status = StatusOk | StatusRemerge | StatusEmpty | StatusInvalid
  {
    function Code(): int
    {
      match this
      case StatusOk => 0
      case StatusRemerge => 1
      case StatusEmpty => 8
      case StatusInvalid => 9
    }
  }

  /** One entry of the chain; the last three fields are internal to the merge. */
  datatype CxQuery = CxQuery(
    sourceCode: string,
    queryId: nat,
    queryName: string,
    language: string,
    packageId: nat,
    packageName: string,
    severity: int,
    level: Catalog.PackageType,
    teamOrProjId: nat,
    teamOrProjName: string,
    tag: string,
    callsBase: bool,
    isSafe: bool)

  // ---------------------------------------------------------------------
  // The fixed texts the engine writes.

  const Separator: string := "// ======================================================\n"
  const NoteSeparator: string := "// ======================================================= \n"
  const CorpMarker: string := "// MERGED - CORPORATE LEVEL\n"
  const TeamMarker: string := "// MERGED - TEAM LEVEL\n"
  const ProjectMarker: string := "// MERGED - PROJECT LEVEL\n"
  const BrokenNote: string := "// BASE CALL CHAIN BROKEN - QUERY DOES NOT CALL BASE\n"
  const UnsafeNote: string := "// DIRECT RESULT ASSIGNMENT UNDETECTED - result = base.<x> \n"
  const ClearPrelude: string :=
    "\n// ---------- >> AUTO ADDED BY MERGE\nresult.Clear();\n// << ---------- AUTO ADDED BY MERGE\n\n"
  const CommentedIndent: string := "\t//NO-BASE//\t "
  const PlainIndent: string := "\t"
  const BlockSeparator: string := "\n\n\n"

  function RenameNote(from: string, to: string): string
  {
    "// QUERY RENAMED FROM " + from + " TO " + to + "\n"
  }

  /** The prelude for an entry whose base call is not assigned to `result`:
      the incoming results are saved in `temp` and `result` starts empty. */
  function ClonePrelude(temp: string): string
  {
    "\n// ---------- >> AUTO ADDED BY MERGE\nCxList " + temp + " = result.Clone();\nresult.Clear();\n// << ---------- AUTO ADDED BY MERGE\n\n"
  }

  /** The stem of the temporary variable. */
  function TempBase(to: string): string
  {
    "_merged_base_" + to
  }

  // ---------------------------------------------------------------------
  // Records and their tags (constructqueryrecord).

  /** The severity as the tag writes it: a digit and a name for 0..3,
      "Invalid (n)" for anything else. */
  function SeverityLabel(severity: int): (r: string)
    ensures 0 <= severity <= 3 ==> |r| > 0 && r[0] == DigitChar(severity)
    ensures !(0 <= severity <= 3) ==> HasPrefix(r, "Invalid (")
  {
    match severity
    case 0 => "0 - Info"
    case 1 => "1 - Low"
    case 2 => "2 - Medium"
    case 3 => "3 - High"
    case _ => "Invalid (" + IntToString(severity) + ")"
  }

  /** The marker of a merged corp, team or project override; none for a
      product query. */
  function LevelMarker(level: Catalog.PackageType): string
  {
    match level
    case Product => ""
    case Corp => CorpMarker
    case Team => TeamMarker
    case Project => ProjectMarker
  }

  /** The owner line that follows the marker of a team or project override. */
  function OwnerLine(level: Catalog.PackageType, ownerId: nat, ownerName: string): string
  {
    match level
    case Team => "// TEAM: " + NatToString(ownerId) + " - " + ownerName + "\n"
    case Project => "// PROJECT: " + NatToString(ownerId) + " - " + ownerName + "\n"
    case _ => ""
  }

  /** The description lines of the tag. `timestamp` stands for the
      formatted time.Now() of the original. */
  function Details(queryId: nat, queryName: string, language: string, packageId: nat,
                   packageName: string, severity: int, timestamp: string): string
  {
    "// QUERY: " + NatToString(queryId) + " - " + queryName + "\n"
    + "// LANGUAGE: " + language + "\n"
    + "// PACKAGE: " + NatToString(packageId) + " - " + packageName + "\n"
    + "// SEVERITY: " + SeverityLabel(severity) + "\n"
    + "// TIMESTAMP: " + timestamp + "\n"
  }

  /** The comment block written above an entry: framed by separator lines,
      and opened by the level marker. */
  function Tag(queryId: nat, queryName: string, language: string, packageId: nat, packageName: string,
               severity: int, level: Catalog.PackageType, ownerId: nat, ownerName: string,
               timestamp: string): (t: string)
    ensures HasPrefix(t, Separator + LevelMarker(level)) && HasSuffix(t, Separator)
  {
    var head := Separator + LevelMarker(level);
    var body := OwnerLine(level, ownerId, ownerName)
                + Details(queryId, queryName, language, packageId, packageName, severity, timestamp);
    assert (head + (body + Separator))[..|head|] == head;
    head + (body + Separator)
  }

  /** constructqueryrecord: the names are trimmed, the source is kept as
      it is, the tag is composed, and the analysis flags start as "does
      not call base" and "safe". */
  function ConstructQueryRecord(sourceCode: string, queryId: nat, queryName: string, language: string,
                                packageId: nat, packageName: string, severity: int,
                                level: Catalog.PackageType, ownerId: nat, ownerName: string,
                                timestamp: string): (r: CxQuery)
    ensures r.sourceCode == sourceCode && r.severity == severity && r.level == level
    ensures r.queryId == queryId && r.packageId == packageId && r.teamOrProjId == ownerId
    ensures |r.queryName| <= |queryName| && |r.language| <= |language|
    ensures r.queryName == [] || (!IsSpace(r.queryName[0]) && !IsSpace(r.queryName[|r.queryName| - 1]))
    ensures HasPrefix(r.tag, Separator + LevelMarker(level)) && HasSuffix(r.tag, Separator)
    ensures !r.callsBase && r.isSafe
  {
    var name := TrimSpace(queryName);
    var lang := TrimSpace(language);
    var pkg := TrimSpace(packageName);
    var owner := TrimSpace(ownerName);
    var tag := Tag(queryId, name, lang, packageId, pkg, severity, level, ownerId, owner, timestamp);
    CxQuery(sourceCode, queryId, name, lang, packageId, pkg, severity, level, ownerId, owner, tag, false, true)
  }

  /** Add and Insert file a query under its project when it has one, and
      under its team otherwise. */
  function OwningId(owner: Catalog.OwningGroup): nat
  {
    if owner.owningProjectId > 0 then owner.owningProjectId else owner.owningTeamId
  }

  /** The record Add and Insert build from a catalog query; `owner` is the
      display name of the owning team or project. */
  function RecordOf(query: Catalog.Query, owner: string, timestamp: string): CxQuery
  {
    ConstructQueryRecord(query.source, query.id, query.name, query.language, query.owner.packageId,
                         query.group, query.severity, query.owner.packageType, OwningId(query.owner),
                         owner, timestamp)
  }

  // ---------------------------------------------------------------------
  // Validation (validate_queries_struct).

  /** The text carries the marker of an earlier merge. */
  predicate Marked(s: string)
  {
    Contains(s, ProjectMarker) || Contains(s, TeamMarker) || Contains(s, CorpMarker)
  }

  /** Entry i agrees with the head of the chain on name and language, has
      a severity in 0..3, is not a corp override, and is a project
      override only in the last place. */
  predicate EntryOk(qs: seq<CxQuery>, i: nat)
    requires i < |qs|
  {
    qs[i].queryName == qs[0].queryName
    && qs[i].language == qs[0].language
    && 0 <= qs[i].severity <= 3
    && qs[i].level != Catalog.PackageType.Corp
    && !(qs[i].level == Catalog.PackageType.Project && i < |qs| - 1)
  }

  predicate WellFormedChain(qs: seq<CxQuery>)
  {
    forall i :: 0 <= i < |qs| ==> EntryOk(qs, i)
  }

  /** What validate_queries_struct says about an entry that is not in
      order, checking name, language, severity, corp level and project
      position in that order. */
  function Complaint(qs: seq<CxQuery>, i: nat): string
    requires i < |qs|
  {
    if qs[i].queryName != qs[0].queryName then "Query name must be the same"
    else if qs[i].language != qs[0].language then "Query language must be the same"
    else if qs[i].severity < 0 || qs[i].severity > 3 then "Query severity out of range"
    else if qs[i].level == Catalog.PackageType.Corp then "Corp level queries cannot be merged"
    else "Project level query must be the last on the list"
  }

  /** The complaint about the first entry from i on that is not in order. */
  function FirstProblem(qs: seq<CxQuery>, i: nat): (r: Option<string>)
    requires 0 < |qs| && i <= |qs|
    ensures r.None? <==> forall j :: i <= j < |qs| ==> EntryOk(qs, j)
    ensures r.Some? ==> exists j :: i <= j < |qs| && !EntryOk(qs, j) && r.value == Complaint(qs, j)
    decreases |qs| - i
  {
    if i == |qs| then None
    else if !EntryOk(qs, i) then Some(Complaint(qs, i))
    else FirstProblem(qs, i + 1)
  }

  datatype Check = Check(status: Status, message: string)

  /** validate_queries_struct */
  function Validate(qs: seq<CxQuery>): (r: Check)
    ensures r.status == StatusEmpty <==> qs == []
    ensures |qs| == 1 ==> (r.status == StatusInvalid <==> !(0 <= qs[0].severity <= 3))
    ensures |qs| >= 2 ==> (r.status == StatusInvalid <==> !WellFormedChain(qs))
    ensures r.status == StatusOk || r.status == StatusRemerge ==> r.message == ""
    ensures r.status == StatusOk || r.status == StatusRemerge ==> (r.status == StatusRemerge <==> Marked(qs[0].sourceCode))
  {
    if |qs| < 1 then Check(StatusEmpty, "Cannot process an empty set of queries")
    else
      var remerge := Marked(qs[0].sourceCode);
      if |qs| == 1 && (qs[0].severity < 0 || qs[0].severity > 3) then
        Check(StatusInvalid, "Query severity out of range")
      else if |qs| == 1 then
        Check(if remerge then StatusRemerge else StatusOk, "")
      else match FirstProblem(qs, 0)
        case Some(m) => Check(StatusInvalid, m)
        case None => Check(if remerge then StatusRemerge else StatusOk, "")
  }

  // ---------------------------------------------------------------------
  // Analysis of the chain.

  /** The entry with the flags codecallsbase computes for it. */
  function Analyzed(q: CxQuery): CxQuery
  {
    var use := CodeCallsBase(q.sourceCode, q.queryName);
    q.(callsBase := use.callsBase, isSafe := use.isSafe)
  }

  function AnalyzeAll(qs: seq<CxQuery>): (r: seq<CxQuery>)
    ensures |r| == |qs|
  {
    seq(|qs|, k requires 0 <= k < |qs| => Analyzed(qs[k]))
  }

  /** The anchor of the merge among the first n entries: the last one that
      does not call its base, or 0 when all of them call it. */
  function FirstIndexUpTo(qs: seq<CxQuery>, n: nat): (r: nat)
    requires n <= |qs|
    ensures n == 0 ==> r == 0
    ensures n > 0 ==> r < n
    ensures forall j :: r < j < n ==> qs[j].callsBase
    ensures r == 0 || !qs[r].callsBase
  {
    if n == 0 then 0
    else if !qs[n - 1].callsBase then n - 1
    else FirstIndexUpTo(qs, n - 1)
  }

  function FirstIndex(qs: seq<CxQuery>): nat
  {
    FirstIndexUpTo(qs, |qs|)
  }

  // ---------------------------------------------------------------------
  // The pieces of a merged entry.

  /** The k-th name tried for the temporary variable: the stem, then the
      stem with 1, 2, … appended. */
  function Candidate(stem: string, k: nat): (r: string)
    ensures k > 0 ==> |r| > |stem| + |NatToString(k)| - 1
  {
    if k == 0 then stem else stem + IntToString(k)
  }

  /** The smallest counter from k on whose candidate name the code does not
      contain. It exists: a candidate longer than the code cannot occur in it. */
  function FreshCounter(code: string, stem: string, k: nat): (r: nat)
    ensures k <= r
    ensures !Contains(code, Candidate(stem, r))
    ensures forall j :: k <= j < r ==> Contains(code, Candidate(stem, j))
    decreases Pow10(|code|) - k
  {
    if !Contains(code, Candidate(stem, k)) then k
    else
      assert k < Pow10(|code|) by {
        if k >= Pow10(|code|) {
          DecimalLength(k, |code|);
        }
      }
      FreshCounter(code, stem, k + 1)
  }

  /** The temporary variable an unsafe entry gets. */
  function TempName(code: string, to: string): string
  {
    Candidate(TempBase(to), FreshCounter(code, TempBase(to), 0))
  }

  /** The body with `base.<from>()` turned into `base.<to>()` when the query
      is renamed. */
  function RenamedCode(code: string, from: string, to: string): string
  {
    if from != to then ReplaceAll(code, BaseCall(from), BaseCall(to)) else code
  }

  /** The notes above an entry's body. */
  function ExtraTag(q: CxQuery, i: nat, first: nat, from: string, to: string): string
  {
    var rename := if from != to then RenameNote(from, to) else "";
    var notes := if i >= first then
                   (if !q.callsBase then BrokenNote else if !q.isSafe then UnsafeNote else "")
                 else "";
    if rename + notes != "" then rename + notes + NoteSeparator else ""
  }

  /** The rewrite an entry gets. */
  datatype Fix = Untouched | ClearFix | CloneFix(temp: string) | ResultFix

  function FixOf(q: CxQuery, i: nat, first: nat, code: string, to: string): Fix
  {
    if i <= first then Untouched
    else if !q.callsBase then ClearFix
    else if !q.isSafe then CloneFix(TempName(code, to))
    else ResultFix
  }

  function ApplyFix(fix: Fix, code: string, to: string): string
  {
    match fix
    case Untouched => code
    case ClearFix => ClearPrelude + code
    case CloneFix(t) => ClonePrelude(t) + ReplaceAll(code, BaseCall(to), t)
    case ResultFix => ReplaceAll(code, BaseCall(to), "result")
  }

  function Indent(commented: bool): string
  {
    if commented then CommentedIndent else PlainIndent
  }

  /** The lines, each indented (and commented) and ended by a newline. */
  function ArrangeLines(lines: seq<string>, commented: bool): string
  {
    if lines == [] then "" else Indent(commented) + lines[0] + "\n" + ArrangeLines(lines[1..], commented)
  }

  /** arrangecode */
  function ArrangeCode(code: string, commented: bool): string
  {
    ArrangeLines(Lines(TrimSpace(code)), commented)
  }

  /** Reading back arranged lines gives each line behind its indentation. */
  lemma {:induction false} ArrangedLines(lines: seq<string>, commented: bool)
    requires forall k :: 0 <= k < |lines| ==> '\n' !in lines[k]
    ensures Lines(ArrangeLines(lines, commented))
            == seq(|lines|, k requires 0 <= k < |lines| => DropCR(Indent(commented) + lines[k]))
    decreases |lines|
  {
    if lines != [] {
      var x := Indent(commented) + lines[0];
      assert '\n' !in x by {
        assert forall c :: c in Indent(commented) ==> c != '\n';
      }
      ArrangedLines(lines[1..], commented);
      assert ArrangeLines(lines, commented) == x + "\n" + ArrangeLines(lines[1..], commented);
      LinesCons(x, ArrangeLines(lines[1..], commented));
    }
  }

  /** arrangecode keeps every line of the trimmed code, in order, behind
      the indentation. */
  lemma ArrangeCodeLines(code: string, commented: bool)
    ensures var lines := Lines(TrimSpace(code));
            Lines(ArrangeCode(code, commented))
            == seq(|lines|, k requires 0 <= k < |lines| => DropCR(Indent(commented) + lines[k]))
  {
    ArrangedLines(Lines(TrimSpace(code)), commented);
  }

  /** The merged text of entry i: its tag, its notes and its rewritten,
      arranged body in braces. */
  function Block(q: CxQuery, i: nat, first: nat, from: string, to: string): string
  {
    var code := RenamedCode(q.sourceCode, from, to);
    q.tag + (ExtraTag(q, i, first, from, to) + "{\n"
             + ArrangeCode(ApplyFix(FixOf(q, i, first, code, to), code, to), i < first) + "\n}")
  }

  /** A block opens with the tag of its entry, and has a body after it. */
  lemma BlockTagged(q: CxQuery, i: nat, first: nat, from: string, to: string)
    ensures HasPrefix(Block(q, i, first, from, to), q.tag) && |Block(q, i, first, from, to)| > |q.tag|
  {
    var b := Block(q, i, first, from, to);
    assert b[..|q.tag|] == q.tag;
  }

  /** The blocks of a chain, entry k written as the k-th. */
  function Blocks(qs: seq<CxQuery>, first: nat, from: string, to: string): (r: seq<string>)
    ensures |r| == |qs|
    decreases |qs|
  {
    if qs == [] then []
    else Blocks(qs[..|qs| - 1], first, from, to) + [Block(qs[|qs| - 1], |qs| - 1, first, from, to)]
  }

  /** Block k of a chain is entry k written as the k-th. */
  lemma {:induction false} BlockAt(qs: seq<CxQuery>, first: nat, from: string, to: string, k: nat)
    requires k < |qs|
    ensures Blocks(qs, first, from, to)[k] == Block(qs[k], k, first, from, to)
    decreases |qs|
  {
    if k < |qs| - 1 {
      BlockAt(qs[..|qs| - 1], first, from, to, k);
    }
  }

  /** The merged text with one more block: blank lines separate it from
      the text before it, if there is any. */
  function Glue(code: string, block: string): string
  {
    if code != "" then code + BlockSeparator + block else block
  }

  /** The blocks glued together in order, as the rewriting loop of
      merge_queries does. */
  function Merged(blocks: seq<string>): string
    decreases |blocks|
  {
    if blocks == [] then "" else Glue(Merged(blocks[..|blocks| - 1]), blocks[|blocks| - 1])
  }

  /** One more entry of the chain glues one more block onto the text. */
  lemma MergedStep(chain: seq<CxQuery>, i: nat, first: nat, from: string, to: string)
    requires i < |chain|
    ensures Merged(Blocks(chain[..i + 1], first, from, to))
            == Glue(Merged(Blocks(chain[..i], first, from, to)), Block(chain[i], i, first, from, to))
  {
    assert chain[..i + 1][..i] == chain[..i];
  }

  /** Glued blocks start with the first block. */
  lemma {:induction false} MergedHead(blocks: seq<string>)
    requires |blocks| >= 1
    ensures HasPrefix(Merged(blocks), blocks[0])
    decreases |blocks|
  {
    if |blocks| > 1 {
      var front := blocks[..|blocks| - 1];
      MergedHead(front);
      var m := Merged(front);
      if m != "" {
        assert (m + BlockSeparator + blocks[|blocks| - 1])[..|m|] == m;
      }
    }
  }

  /** Gluing non-empty blocks is joining them with blank lines. */
  lemma {:induction false} MergedJoin(blocks: seq<string>)
    requires forall k :: 0 <= k < |blocks| ==> blocks[k] != ""
    ensures Merged(blocks) == Join(blocks, BlockSeparator)
    decreases |blocks|
  {
    if |blocks| > 1 {
      var front := blocks[..|blocks| - 1];
      MergedJoin(front);
      JoinSnoc(front, blocks[|blocks| - 1], BlockSeparator);
      assert front + [blocks[|blocks| - 1]] == blocks;
      assert Merged(front) != "" by {
        MergedHead(front);
      }
    }
  }

  /** The name the merged query gets: the destination name, or the name of
      the head of the chain when none is given. */
  function DestName(qs: seq<CxQuery>, dest: string): string
    requires |qs| > 0
  {
    if dest == "" then qs[0].queryName else dest
  }

  datatype MergeResult = MergeResult(code: string, status: Status, message: string)

  /** merge_queries: an empty chain gives nothing; a single entry is tagged
      and renamed but otherwise kept; a longer chain is its blocks glued
      together, with the validation status. */
  function MergeSpec(qs: seq<CxQuery>, dest: string): MergeResult
  {
    var check := Validate(qs);
    if qs == [] then MergeResult("", StatusEmpty, check.message)
    else
      var from := qs[0].queryName;
      var to := DestName(qs, dest);
      if |qs| == 1 then
        var extra := if from != to then RenameNote(from, to) + NoteSeparator else "";
        MergeResult(qs[0].tag + (extra + "\n" + RenamedCode(qs[0].sourceCode, from, to) + "\n"),
                    StatusOk, check.message)
      else
        var analyzed := AnalyzeAll(qs);
        MergeResult(Merged(Blocks(analyzed, FirstIndex(analyzed), from, to)), check.status, check.message)
  }

  /** The merge reports the validation message, and an empty chain gives no
      code. */
  lemma MergeSpecMessage(qs: seq<CxQuery>, dest: string)
    ensures MergeSpec(qs, dest).message == Validate(qs).message
    ensures qs == [] ==> MergeSpec(qs, dest).code == ""
  {
  }

  /** The merge fails (a status above re-merge) exactly for an empty chain
      and for a longer chain that is not well formed; a single entry is
      always OK. */
  lemma MergeSpecStatus(qs: seq<CxQuery>, dest: string)
    ensures MergeSpec(qs, dest).status.Code() > 1 <==> qs == [] || (|qs| >= 2 && !WellFormedChain(qs))
    ensures |qs| == 1 ==> MergeSpec(qs, dest).status == StatusOk
  {
  }

  /** The merged code opens with the tag of the head of the chain. */
  lemma MergeSpecHead(qs: seq<CxQuery>, dest: string)
    requires |qs| >= 1
    ensures HasPrefix(MergeSpec(qs, dest).code, qs[0].tag)
  {
    if |qs| >= 2 {
      var analyzed := AnalyzeAll(qs);
      MergedChainHead(analyzed, FirstIndex(analyzed), qs[0].queryName, DestName(qs, dest));
    } else {
      var r := MergeSpec(qs, dest);
      assert r.code[..|qs[0].tag|] == qs[0].tag;
    }
  }

  /** The glued blocks of a chain start with the tag of its first entry. */
  lemma MergedChainHead(chain: seq<CxQuery>, first: nat, from: string, to: string)
    requires |chain| >= 1
    ensures HasPrefix(Merged(Blocks(chain, first, from, to)), chain[0].tag)
  {
    var blocks := Blocks(chain, first, from, to);
    BlockAt(chain, first, from, to, 0);
    BlockTagged(chain[0], 0, first, from, to);
    MergedHead(blocks);
    PrefixOfPrefix(Merged(blocks), blocks[0], chain[0].tag);
  }

  /** A single entry kept under its own name comes back as its tag, a blank
      line and its source unchanged. */
  lemma SingleEntryVerbatim(q: CxQuery, dest: string)
    requires dest == "" || dest == q.queryName
    ensures MergeSpec([q], dest).code == q.tag + "\n" + q.sourceCode + "\n"
    ensures MergeSpec([q], dest).status == StatusOk
  {
  }

  /** A renamed single entry is its tag, the rename note, a blank line and
      its source with every `base.<from>()` turned into `base.<to>()`. */
  lemma SingleEntryRenamed(q: CxQuery, dest: string)
    requires dest != "" && dest != q.queryName
    ensures MergeSpec([q], dest).code
            == q.tag + RenameNote(q.queryName, dest) + NoteSeparator + "\n"
               + ReplaceAll(q.sourceCode, BaseCall(q.queryName), BaseCall(dest)) + "\n"
    ensures MergeSpec([q], dest).status == StatusOk
  {
  }

  /** The base call of a name without `result` in it holds no `result`. */
  lemma CallHoldsNoResult(to: string)
    requires !Contains(to, "result")
    ensures !Contains(BaseCall(to), "result")
  {
    var c := BaseCall(to);
    forall j | 0 <= j ensures !OccursAt(c, "result", j) {
      if j + 6 <= |c| {
        if j < 5 {
          assert c[j..j + 6][0] == c[j];
        } else if j + 6 > 5 + |to| {
          assert c[j..j + 6][5 + |to| - j] == c[5 + |to|] == '(';
        } else {
          assert c[j..j + 6] == to[j - 5..j + 1];
          assert !OccursAt(to, "result", j - 5);
        }
      }
    }
  }

  /** A safe entry after the anchor gets `result` for every base call, and
      no base call is left in its body. */
  lemma SafeEntryDropsBaseCall(q: CxQuery, i: nat, first: nat, from: string, to: string)
    requires i > first && q.callsBase && q.isSafe
    requires !Contains(to, "result")
    ensures var code := RenamedCode(q.sourceCode, from, to);
            FixOf(q, i, first, code, to) == ResultFix
            && !Contains(ApplyFix(FixOf(q, i, first, code, to), code, to), BaseCall(to))
  {
    var code := RenamedCode(q.sourceCode, from, to);
    var pat := BaseCall(to);
    CallHoldsNoResult(to);
    assert pat[0] == 'b' && pat[|pat| - 1] == ')';
    ReplaceAllRemoves(code, pat, "result");
  }

  /** An unsafe entry after the anchor saves the incoming results in a
      temporary the renamed body does not mention, and its body opens with
      the prelude that does so. */
  lemma UnsafeEntryCloned(q: CxQuery, i: nat, first: nat, from: string, to: string)
    requires i > first && q.callsBase && !q.isSafe
    ensures var code := RenamedCode(q.sourceCode, from, to);
            var t := TempName(code, to);
            FixOf(q, i, first, code, to) == CloneFix(t)
            && HasPrefix(ApplyFix(CloneFix(t), code, to), ClonePrelude(t))
            && HasPrefix(t, TempBase(to))
            && !Contains(code, t)
  {
  }

  /** No entry after the anchor lacks the base call, so the Clear-only
      rewrite of merge_queries is never chosen. */
  lemma ClearInjectionUnreachable(qs: seq<CxQuery>, dest: string, i: nat)
    requires |qs| >= 2 && i < |qs|
    ensures var a := AnalyzeAll(qs);
            var code := RenamedCode(a[i].sourceCode, qs[0].queryName, DestName(qs, dest));
            FixOf(a[i], i, FirstIndex(a), code, DestName(qs, dest)) != ClearFix
  {
  }

  /** A tag of a corp, team or project override carries the merge marker. */
  lemma TagMarked(queryId: nat, queryName: string, language: string, packageId: nat, packageName: string,
                  severity: int, level: Catalog.PackageType, ownerId: nat, ownerName: string,
                  timestamp: string)
    requires level != Catalog.PackageType.Product
    ensures Marked(Tag(queryId, queryName, language, packageId, packageName, severity, level, ownerId,
                       ownerName, timestamp))
  {
    var t := Tag(queryId, queryName, language, packageId, packageName, severity, level, ownerId,
                 ownerName, timestamp);
    var m := LevelMarker(level);
    assert t[|Separator|..|Separator| + |m|] == m;
    ContainsAt(t, m, |Separator|);
  }

  /** A text that starts with a marked text is marked. */
  lemma MarkedPrefix(t: string, s: string)
    requires Marked(t) && HasPrefix(s, t)
    ensures Marked(s)
  {
    assert s == t + s[|t|..];
    if Contains(t, ProjectMarker) {
      ContainsExtend(t, s[|t|..], ProjectMarker);
    } else if Contains(t, TeamMarker) {
      ContainsExtend(t, s[|t|..], TeamMarker);
    } else {
      ContainsExtend(t, s[|t|..], CorpMarker);
    }
  }

  /** The output of a merge whose head is marked is marked too. */
  lemma MergedOutputMarked(qs: seq<CxQuery>, dest: string)
    requires |qs| >= 1 && Marked(qs[0].tag)
    ensures Marked(MergeSpec(qs, dest).code)
  {
    MergeSpecHead(qs, dest);
    MarkedPrefix(qs[0].tag, MergeSpec(qs, dest).code);
  }

  /** Merged code of an override chain, fed back as the head of a new
      chain, is never accepted as a plain merge: it is reported as a
      re-merge, or rejected. */
  lemma RemergeDetected(qs: seq<CxQuery>, dest: string, next: seq<CxQuery>)
    requires |qs| >= 1 && Marked(qs[0].tag)
    requires |next| >= 1 && next[0].sourceCode == MergeSpec(qs, dest).code
    ensures Validate(next).status != StatusOk
  {
    MergedOutputMarked(qs, dest);
  }

  /** The record of a corp, team or project override is marked, so its merge is. */
  lemma RecordMarked(query: Catalog.Query, owner: string, timestamp: string)
    requires query.owner.packageType != Catalog.PackageType.Product
    ensures Marked(RecordOf(query, owner, timestamp).tag)
  {
    var r := RecordOf(query, owner, timestamp);
    TagMarked(r.queryId, r.queryName, r.language, r.packageId, r.packageName, r.severity, r.level,
              r.teamOrProjId, r.teamOrProjName, timestamp);
  }

  // ---------------------------------------------------------------------
  // Severities.

  /** The maximum of 0 and every severity. */
  function MaxSeverity(qs: seq<CxQuery>): (r: int)
    ensures r >= 0
    ensures forall k :: 0 <= k < |qs| ==> qs[k].severity <= r
    ensures r == 0 || exists k :: 0 <= k < |qs| && qs[k].severity == r
  {
    if qs == [] then 0
    else
      var m := MaxSeverity(qs[..|qs| - 1]);
      var s := qs[|qs| - 1].severity;
      if s > m then s else m
  }

  /** The severity of the last entry, or 0 for an empty list. */
  function LastSeverity(qs: seq<CxQuery>): int
  {
    if qs == [] then 0 else qs[|qs| - 1].severity
  }

  // ---------------------------------------------------------------------
  // The merger.

  /** A QueryMerger: the chain, outermost level first. */
  class QueryMerger {
    var queries: seq<CxQuery>

    /** Merger() */
    constructor ()
      ensures queries == []
    {
      queries := [];
    }

    /** Appends a record for `query` at the end. */
    method Add(query: Catalog.Query, owner: string, timestamp: string)
      modifies this
      ensures queries == old(queries) + [RecordOf(query, owner, timestamp)]
    {
      queries := queries + [RecordOf(query, owner, timestamp)];
    }

    /** Puts a record for `query` in front of the others. */
    method Insert(query: Catalog.Query, owner: string, timestamp: string)
      modifies this
      ensures queries == [RecordOf(query, owner, timestamp)] + old(queries)
    {
      queries := [RecordOf(query, owner, timestamp)] + queries;
    }

    method Clear()
      modifies this
      ensures queries == []
    {
      if |queries| > 0 {
        queries := [];
      }
    }

    method Count() returns (n: int)
      ensures n == |queries|
    {
      n := |queries|;
    }

    /** Drops the last record, if there is one. */
    method Delete()
      modifies this
      ensures old(queries) == [] ==> queries == []
      ensures old(queries) != [] ==> queries == old(queries)[..|old(queries)| - 1]
    {
      var n := Count();
      if n > 0 {
        queries := queries[..n - 1];
      }
    }

    /** The record at `index`, or an error when there is none. */
    method Query(index: int) returns (r: Result<CxQuery, string>)
      ensures r.Err? <==> index < 0 || index > |queries| - 1
      ensures r.Err? ==> r.error == "Query index out of bounds"
      ensures r.Ok? ==> 0 <= index < |queries| && r.value == queries[index]
    {
      var n := Count();
      if index < 0 || index > n - 1 {
        return Err("Query index out of bounds");
      }
      return Ok(queries[index]);
    }

    /** The highest severity (at least 0), or the severity of the last record. */
    method Severity(highest: bool) returns (severity: int)
      ensures highest ==> severity == MaxSeverity(queries)
      ensures !highest ==> severity == LastSeverity(queries)
    {
      severity := 0;
      var i := 0;
      while i < |queries|
        invariant 0 <= i <= |queries|
        invariant highest ==> severity == MaxSeverity(queries[..i])
        invariant !highest ==> severity == LastSeverity(queries[..i])
      {
        assert queries[..i + 1][..i] == queries[..i];
        if !highest || queries[i].severity > severity {
          severity := queries[i].severity;
        }
        i := i + 1;
      }
      assert queries[..i] == queries;
    }

    /** The temporary-name search of merge_queries: the stem, then the stem
        numbered 1, 2, … until a name the code does not contain. */
    static method FreshTempName(code: string, stem: string) returns (t: string)
      ensures !Contains(code, t)
      ensures t == Candidate(stem, FreshCounter(code, stem, 0))
    {
      var counter: nat := 0;
      t := stem;
      while Contains(code, t)
        invariant t == Candidate(stem, counter)
        invariant FreshCounter(code, stem, counter) == FreshCounter(code, stem, 0)
        decreases Pow10(|code|) - counter
      {
        assert counter < Pow10(|code|) by {
          if counter >= Pow10(|code|) {
            DecimalLength(counter, |code|);
          }
        }
        counter := counter + 1;
        t := stem + IntToString(counter);
      }
    }

    /** The analysis loop of merge_queries: the flags of every entry are
        set in place, and the anchor is the last entry without a base call. */
    method AnalyzeChain() returns (first: nat)
      modifies this
      ensures queries == AnalyzeAll(old(queries))
      ensures first == FirstIndex(queries)
    {
      first := 0;
      var i := 0;
      while i < |queries|
        invariant 0 <= i <= |queries| == |old(queries)|
        invariant forall k :: 0 <= k < i ==> queries[k] == Analyzed(old(queries)[k])
        invariant forall k :: i <= k < |queries| ==> queries[k] == old(queries)[k]
        invariant first == FirstIndexUpTo(AnalyzeAll(old(queries)), i)
      {
        var use := CodeCallsBase(queries[i].sourceCode, queries[i].queryName);
        queries := queries[i := queries[i].(callsBase := use.callsBase, isSafe := use.isSafe)];
        if !use.callsBase {
          first := i;
        }
        i := i + 1;
      }
      assert queries == AnalyzeAll(old(queries));
    }

    /** One pass of the rewriting loop of merge_queries: the notes, the
        rename, the fix and the arrangement of entry i. */
    static method MergeBlock(q: CxQuery, i: nat, first: nat, from: string, to: string) returns (block: string)
      ensures block == Block(q, i, first, from, to)
    {
      var extra := "";
      var body := q.sourceCode;
      if from != to {
        extra := RenameNote(from, to);
        body := ReplaceAll(body, BaseCall(from), BaseCall(to));
      }
      assert body == RenamedCode(q.sourceCode, from, to);
      ghost var code := body;
      if i >= first {
        if !q.callsBase {
          extra := extra + BrokenNote;
        } else if !q.isSafe {
          extra := extra + UnsafeNote;
        }
      }
      if extra != "" {
        extra := extra + NoteSeparator;
      }
      assert extra == ExtraTag(q, i, first, from, to);
      if i > first {
        if !q.callsBase {
          body := ClearPrelude + body;
        } else if !q.isSafe {
          var t := FreshTempName(body, TempBase(to));
          body := ClonePrelude(t) + ReplaceAll(body, BaseCall(to), t);
        } else {
          body := ReplaceAll(body, BaseCall(to), "result");
        }
      }
      assert body == ApplyFix(FixOf(q, i, first, code, to), code, to);
      block := q.tag + (extra + "{\n" + ArrangeCode(body, i < first) + "\n}");
    }

    /** merge_queries. For a chain of two or more entries it also records
        the analysis flags in the entries, as the original does through the
        shared slice. */
    method MergeQueries(dest: string) returns (code: string, status: Status, message: string)
      modifies this
      ensures MergeResult(code, status, message) == MergeSpec(old(queries), dest)
      ensures |old(queries)| >= 2 ==> queries == AnalyzeAll(old(queries))
      ensures |old(queries)| < 2 ==> queries == old(queries)
    {
      var check := Validate(queries);
      status, message := check.status, check.message;
      if |queries| == 0 {
        return "", StatusEmpty, message;
      }
      var from := queries[0].queryName;
      var to := if dest == "" then from else dest;
      if |queries| == 1 {
        var extra := "";
        var body := queries[0].sourceCode;
        if from != to {
          extra := RenameNote(from, to) + NoteSeparator;
          body := ReplaceAll(body, BaseCall(from), BaseCall(to));
        }
        assert body == RenamedCode(queries[0].sourceCode, from, to);
        return queries[0].tag + (extra + "\n" + body + "\n"), StatusOk, message;
      }
      assert to == DestName(queries, dest);
      ghost var spec := MergeSpec(queries, dest);
      var first := AnalyzeChain();
      code := MergeBlocks(queries, first, from, to);
    }

    /** The rewriting loop of merge_queries: the blocks of the analyzed
        chain, glued together. */
    static method MergeBlocks(chain: seq<CxQuery>, first: nat, from: string, to: string) returns (code: string)
      ensures code == Merged(Blocks(chain, first, from, to))
    {
      code := "";
      var i := 0;
      while i < |chain|
        invariant 0 <= i <= |chain|
        invariant code == Merged(Blocks(chain[..i], first, from, to))
      {
        code := AppendBlock(code, chain, i, first, from, to);
        MergedStep(chain, i, first, from, to);
        i := i + 1;
      }
      assert chain[..i] == chain;
    }

    /** One pass of the rewriting loop: a separator unless nothing is
        written yet, then the block of entry i. */
    static method AppendBlock(code0: string, chain: seq<CxQuery>, i: nat, first: nat, from: string, to: string) returns (code: string)
      requires i < |chain|
      ensures code == Glue(code0, Block(chain[i], i, first, from, to))
    {
      code := code0;
      if code != "" {
        code := code + BlockSeparator;
      }
      var block := MergeBlock(chain[i], i, first, from, to);
      code := code + block;
    }

    /** Merge: the merged code, and an error carrying the status message
        exactly when the status is worse than a re-merge. */
    method Merge(dest: string) returns (code: string, err: Option<string>)
      modifies this
      ensures var m := MergeSpec(old(queries), dest);
              code == m.code && err == (if m.status.Code() > 1 then Some(m.message) else None)
    {
      var status, message;
      code, status, message := MergeQueries(dest);
      if status.Code() > StatusRemerge.Code() {
        return code, Some(message);
      }
      return code, None;
    }

    /** CheckStatus */
    method CheckStatus() returns (status: Status, message: string)
      ensures Check(status, message) == Validate(queries)
    {
      var check := Validate(queries);
      status, message := check.status, check.message;
    }

    /** UncommentedCode: the chain merged under its own name, with the
        comments removed; whatever the status, as the original ignores it. */
    method UncommentedCode() returns (code: string)
      modifies this
      ensures var merged := MergeSpec(old(queries), "").code;
              code == (if merged != "" then Uncommented(merged) else "")
      ensures NoLineComment(code)
    {
      var status, message;
      code, status, message := MergeQueries("");
      if code != "" {
        code := Uncommented(code);
      }
    }
  }
}
