/**
 * How the merge engine reads a CxQL body: the comment stripper
 * (uncommentedcode), the word search (wordindex) and the test of whether a
 * body calls `base.<name>()` and assigns that call straight to `result`
 * (codecallsbase).
 */
module CodeAnalysis {
  import opened Text

  /** No "//" anywhere in the text. */
  predicate NoLineComment(s: string)
  {
    forall i :: 0 <= i < |s| - 1 ==> !(s[i] == '/' && s[i + 1] == '/')
  }

  // No opener of a C-style comment ("/*") anywhere in the text.
  predicate NoBlockOpener(s: string)
  {
    forall i :: 0 <= i < |s| - 1 ==> !(s[i] == '/' && s[i + 1] == '*')
  }

  // The C-style comment pass: each "/*" is removed together with the text
  // up to and including the first "*/" that starts at least two characters
  // later, scanning left to right. An opener that is never closed leaves the
  // rest of the text as it is (no later opener can be closed either).
  function StripBlockComments(s: string): (r: string)
    ensures |r| <= |s|
    decreases |s|
  {
    if |s| < 2 then s
    else if s[0] == '/' && s[1] == '*' then
      var k := IndexFrom(s, "*/", 2);
      if k < 0 then s else StripBlockComments(s[k + 2..])
    else [s[0]] + StripBlockComments(s[1..])
  }

  // A text without any "/*" goes through the C-style pass unchanged.
  lemma {:induction false} StripBlockCommentsIdentity(s: string)
    requires NoBlockOpener(s)
    ensures StripBlockComments(s) == s
    decreases |s|
  {
    if |s| >= 2 {
      assert NoBlockOpener(s[1..]) by {
        forall i | 0 <= i < |s[1..]| - 1 ensures !(s[1..][i] == '/' && s[1..][i + 1] == '*') {
          assert s[1..][i] == s[i + 1] && s[1..][i + 1] == s[i + 2];
        }
      }
      StripBlockCommentsIdentity(s[1..]);
      assert s == [s[0]] + s[1..];
    }
  }

  /** The line-comment pass: each "//" is removed together with the rest of
      its line; the newline itself stays. */
  function StripLineComments(s: string): (r: string)
    ensures |r| <= |s|
    ensures NoLineComment(r)
    ensures |s| > 0 && r != [] ==> r[0] == s[0] || r[0] == '\n'
    ensures |s| > 0 && s[0] != '/' ==> r != [] && r[0] == s[0]
    decreases |s|
  {
    if |s| < 2 then s
    else if s[0] == '/' && s[1] == '/' then
      var k := IndexOf(s, "\n");
      if k < 0 then ""
      else
        assert s[k..k + 1] == "\n";
        StripLineComments(s[k..])
    else
      var t := StripLineComments(s[1..]);
      assert s[1] != '/' || s[0] != '/';
      [s[0]] + t
  }

  /** A text without "//" goes through the line-comment pass unchanged, so
      the pass is idempotent. */
  lemma {:induction false} StripLineCommentsIdentity(s: string)
    requires NoLineComment(s)
    ensures StripLineComments(s) == s
    decreases |s|
  {
    if |s| >= 2 {
      assert NoLineComment(s[1..]) by {
        forall i | 0 <= i < |s[1..]| - 1 ensures !(s[1..][i] == '/' && s[1..][i + 1] == '/') {
          assert s[1..][i] == s[i + 1] && s[1..][i + 1] == s[i + 2];
        }
      }
      StripLineCommentsIdentity(s[1..]);
      assert s == [s[0]] + s[1..];
    }
  }

  lemma StripLineCommentsIdempotent(s: string)
    ensures StripLineComments(StripLineComments(s)) == StripLineComments(s)
  {
    StripLineCommentsIdentity(StripLineComments(s));
  }

  /** uncommentedcode: the source with C-style comments removed first and
      then line comments. */
  function Uncommented(s: string): (r: string)
    ensures |r| <= |s|
    ensures NoLineComment(r)
  {
    StripLineComments(StripBlockComments(s))
  }

  /** Code without a slash has no comment to remove. */
  lemma UncommentedWithoutSlash(s: string)
    requires '/' !in s
    ensures Uncommented(s) == s
  {
    StripBlockCommentsIdentity(s);
    StripLineCommentsIdentity(s);
  }

  /** What wordindex accepts: a word with the given prefix, or the word itself. */
  predicate WordMatches(w: string, t: string, prefixed: bool)
  {
    if prefixed then HasPrefix(w, t) else w == t
  }

  function WordIndexFrom(words: seq<string>, t: string, prefixed: bool, i: nat): (r: int)
    requires i <= |words|
    ensures r == -1 || (i <= r < |words| && WordMatches(words[r], t, prefixed))
    ensures forall j :: i <= j < |words| && (r < 0 || j < r) ==> !WordMatches(words[j], t, prefixed)
    decreases |words| - i
  {
    if i == |words| then -1
    else if WordMatches(words[i], t, prefixed) then i
    else WordIndexFrom(words, t, prefixed, i + 1)
  }

  /** wordindex: the first word that matches, or -1. */
  function WordIndex(words: seq<string>, t: string, prefixed: bool): (r: int)
    ensures r == -1 || (0 <= r < |words| && WordMatches(words[r], t, prefixed))
    ensures forall j :: 0 <= j < |words| && (r < 0 || j < r) ==> !WordMatches(words[j], t, prefixed)
  {
    WordIndexFrom(words, t, prefixed, 0)
  }

  /** The call the analysis looks for. */
  function BaseCall(name: string): string
  {
    "base." + name + "()"
  }

  /** The characters the word test turns into blanks: newline, carriage
      return, tab and backspace. */
  predicate Blankable(c: char)
  {
    c == '\n' || c == '\r' || c == '\t' || c == '\U{8}'
  }

  /** Every blankable character becomes a blank; this is what the four
      single-character strings.ReplaceAll calls do. */
  function Blank(s: string): (r: string)
    ensures |r| == |s|
    ensures forall i :: 0 <= i < |s| ==> r[i] == ' ' || r[i] == s[i]
    ensures forall i :: 0 <= i < |s| ==> !Blankable(r[i])
  {
    if s == [] then []
    else [if Blankable(s[0]) then ' ' else s[0]] + Blank(s[1..])
  }

  lemma {:induction false} BlankIdentity(s: string)
    requires forall i :: 0 <= i < |s| ==> !Blankable(s[i])
    ensures Blank(s) == s
  {
    if s != [] {
      BlankIdentity(s[1..]);
      assert s == [s[0]] + s[1..];
    }
  }

  /** The text the word test looks at: everything up to ten characters past
      the end of the first base call, but at most all characters save the
      last (the clamp to len-1 of querymerge.go). */
  function Window(u: string, tb: string): (w: string)
    requires Contains(u, tb) && |tb| > 0
    ensures HasPrefix(u, w) && |w| < |u|
  {
    var pos := IndexOf(u, tb) + |tb| + 10;
    var cut := if pos >= |u| then |u| - 1 else pos;
    u[..cut]
  }

  /** The words of the window, split on single blanks as strings.Split does. */
  function Words(u: string, tb: string): seq<string>
    requires Contains(u, tb) && |tb| > 0
  {
    Split(Blank(Window(u, tb)), " ")
  }

  /** The recognised direct assignments around the first word starting
      with the base call: `result = base…` or `result= base…`. */
  predicate DirectAssignment(words: seq<string>, tb: string)
  {
    var p := WordIndex(words, tb, true);
    (p >= 2 && words[p - 2] == "result" && words[p - 1] == "=")
    || (p >= 1 && words[p - 1] == "result=")
  }

  /** How a scan can end. */
  datatype Scan = Crash | Seen(found: bool)

  /** The last-chance loop AS WRITTEN: a word "result" is accepted when the
      word BEFORE it starts with "=" followed by the base call. At position
      0 that reads the word at index -1, which in Go is a run-time panic. */
  function LastChanceAsWritten(words: seq<string>, tb: string, pos: nat): Scan
    decreases |words| - pos
  {
    if pos > |words| - 2 then Seen(false)
    else if words[pos] == "result" then
      if pos == 0 then Crash
      else if HasPrefix(words[pos - 1], "=" + tb) then Seen(true)
      else LastChanceAsWritten(words, tb, pos + 1)
    else LastChanceAsWritten(words, tb, pos + 1)
  }

  /** The last-chance loop as evidently intended: "result" followed by a word
      that starts with "=" and the base call, i.e. `result =base.<name>()`.
      The loop bound (pos <= len-2) already keeps the next word in range. */
  function LastChance(words: seq<string>, tb: string, pos: nat): (found: bool)
    ensures found <==> exists p :: pos <= p && p + 1 < |words|
                                 && words[p] == "result" && HasPrefix(words[p + 1], "=" + tb)
    decreases |words| - pos
  {
    if pos + 1 >= |words| then false
    else if words[pos] == "result" && HasPrefix(words[pos + 1], "=" + tb) then true
    else LastChance(words, tb, pos + 1)
  }

  /** The two flags the merge engine keeps per query. */
  datatype BaseUse = BaseUse(callsBase: bool, isSafe: bool)

  /** codecallsbase AS WRITTEN, with the panic as an outcome. */
  datatype Verdict = Panic | Decided(use: BaseUse)

  /** The decision on the comment-free text `u` and the call `tb`. */
  function AnalyzeAsWritten(u: string, tb: string): Verdict
    requires |tb| > 0
  {
    if !Contains(u, tb) then Decided(BaseUse(false, true))
    else if Contains(u, "result=" + tb) then Decided(BaseUse(true, true))
    else
      var words := Words(u, tb);
      if DirectAssignment(words, tb) then Decided(BaseUse(true, true))
      else match LastChanceAsWritten(words, tb, 0)
        case Crash => Panic
        case Seen(f) => Decided(BaseUse(true, f))
  }

  function CodeCallsBaseAsWritten(source: string, name: string): Verdict
  {
    AnalyzeAsWritten(Uncommented(source), BaseCall(name))
  }

  /** The corrected decision on the comment-free text `u` and the call `tb`. */
  function Analyze(u: string, tb: string): (r: BaseUse)
    requires |tb| > 0
    ensures r.callsBase <==> Contains(u, tb)
    ensures !r.callsBase ==> r.isSafe
    ensures Contains(u, "result=" + tb) ==> r.isSafe
  {
    if !Contains(u, tb) then BaseUse(false, true)
    else if Contains(u, "result=" + tb) then BaseUse(true, true)
    else
      var words := Words(u, tb);
      BaseUse(true, DirectAssignment(words, tb) || LastChance(words, tb, 0))
  }

  /** codecallsbase with the last-chance loop corrected; the merge engine of
      this model uses this one. */
  function CodeCallsBase(source: string, name: string): (r: BaseUse)
    ensures r.callsBase <==> Contains(Uncommented(source), BaseCall(name))
    ensures !r.callsBase ==> r.isSafe
    ensures Contains(Uncommented(source), "result=" + BaseCall(name)) ==> r.isSafe
  {
    Analyze(Uncommented(source), BaseCall(name))
  }

  /** The corrected analysis accepts `result =base.<name>()`: a word "result"
      followed in the window by a word made of "=" and the base call. */
  lemma AssignmentWithoutBlankIsSafe(source: string, name: string, p: nat)
    requires Contains(Uncommented(source), BaseCall(name))
    requires var words := Words(Uncommented(source), BaseCall(name));
             p + 1 < |words| && words[p] == "result" && HasPrefix(words[p + 1], "=" + BaseCall(name))
    ensures CodeCallsBase(source, name) == BaseUse(true, true)
  {
  }

  /** `result = base.<name>()`: the two words before the first word that
      starts with the base call are `result` and `=`. */
  lemma SpacedAssignmentIsSafe(source: string, name: string)
    requires Contains(Uncommented(source), BaseCall(name))
    requires var words := Words(Uncommented(source), BaseCall(name));
             var p := WordIndex(words, BaseCall(name), true);
             p >= 2 && words[p - 2] == "result" && words[p - 1] == "="
    ensures CodeCallsBase(source, name) == BaseUse(true, true)
  {
  }

  /** `result= base.<name>()`: the word before the first word that starts
      with the base call is `result=`. */
  lemma GluedAssignmentIsSafe(source: string, name: string)
    requires Contains(Uncommented(source), BaseCall(name))
    requires var words := Words(Uncommented(source), BaseCall(name));
             var p := WordIndex(words, BaseCall(name), true);
             p >= 1 && words[p - 1] == "result="
    ensures CodeCallsBase(source, name) == BaseUse(true, true)
  {
  }

  /** The converse: a base call that is not written `result=base.<name>()`
      and whose window holds no word `result` or `result=` is unsafe. */
  lemma UnassignedCallIsUnsafe(source: string, name: string)
    requires Contains(Uncommented(source), BaseCall(name))
    requires !Contains(Uncommented(source), "result=" + BaseCall(name))
    requires var words := Words(Uncommented(source), BaseCall(name));
             forall k :: 0 <= k < |words| ==> words[k] != "result" && words[k] != "result="
    ensures CodeCallsBase(source, name) == BaseUse(true, false)
  {
  }

  /** The window of `x=base.Q();result=x;` is all of it but the final
      semicolon. */
  lemma WindowOfCopiedResult()
    ensures Contains("x=base.Q();result=x;", BaseCall("Q"))
    ensures Window("x=base.Q();result=x;", BaseCall("Q")) == "x=base.Q();result=x"
  {
    var u := "x=base.Q();result=x;";
    var tb := BaseCall("Q");
    assert u == "x=" + tb + ";result=x;";
    assert u[2..10] == tb;
    IndexOfAt(u, tb, 2);
  }

  /** That window has no blank, so it is a single word. */
  lemma WordsOfCopiedResult()
    ensures Contains("x=base.Q();result=x;", BaseCall("Q"))
    ensures Words("x=base.Q();result=x;", BaseCall("Q")) == ["x=base.Q();result=x"]
  {
    WindowOfCopiedResult();
    BlankOfCopiedWindow();
    SplitOfCopiedWindow();
  }

  lemma BlankOfCopiedWindow()
    ensures Blank("x=base.Q();result=x") == "x=base.Q();result=x"
  {
    BlankIdentity("x=base.Q();result=x");
  }

  lemma SplitOfCopiedWindow()
    ensures Split("x=base.Q();result=x", " ") == ["x=base.Q();result=x"]
  {
    NoCharNoOccurrence("x=base.Q();result=x", ' ');
  }

  /** That body has no `result=base.Q()`. */
  lemma CopiedResultHasNoJoinedAssignment()
    ensures !Contains("x=base.Q();result=x;", "result=" + BaseCall("Q"))
  {
    var u := "x=base.Q();result=x;";
    var pat := "result=" + BaseCall("Q");
    assert |pat| == 15 && pat[0] == 'r';
    assert 'r' !in u[..6];
    forall j | 0 <= j ensures !OccursAt(u, pat, j) {
      if j + 15 <= |u| {
        assert u[j] == u[..6][j];
        assert u[j..j + 15][0] == u[j];
      }
    }
  }

  /** A body that copies the base result into a variable and only then
      assigns that variable to `result` is flagged as unsafe. */
  lemma CopiedResultIsUnsafe(source: string)
    requires Uncommented(source) == "x=base.Q();result=x;"
    ensures CodeCallsBase(source, "Q") == BaseUse(true, false)
  {
    WordsOfCopiedResult();
    CopiedResultHasNoJoinedAssignment();
    UnassignedCallIsUnsafe(source, "Q");
  }

  /** In particular the body itself. */
  lemma CopiedResultBodyIsUnsafe()
    ensures CodeCallsBase("x=base.Q();result=x;", "Q") == BaseUse(true, false)
  {
    UncommentedWithoutSlash("x=base.Q();result=x;");
    CopiedResultIsUnsafe("x=base.Q();result=x;");
  }

  /** Where the source has no panic, both versions agree on `callsBase`. */
  lemma AsWrittenAgreesOnCallsBase(source: string, name: string)
    requires CodeCallsBaseAsWritten(source, name).Decided?
    ensures CodeCallsBaseAsWritten(source, name).use.callsBase == CodeCallsBase(source, name).callsBase
  {
  }

  /** The window of the body `result =base.Q();` is all of it but the
      final semicolon. */
  lemma WindowOfDocumentedPattern()
    ensures Contains("result =base.Q();", BaseCall("Q"))
    ensures Window("result =base.Q();", BaseCall("Q")) == "result =base.Q()"
  {
    var u := "result =base.Q();";
    var tb := BaseCall("Q");
    assert u[8..16] == tb;
    IndexOfAt(u, tb, 8);
  }

  /** Its words. */
  lemma WordsOfDocumentedPattern()
    ensures Contains("result =base.Q();", BaseCall("Q"))
    ensures Words("result =base.Q();", BaseCall("Q")) == ["result", "=base.Q()"]
  {
    WindowOfDocumentedPattern();
    var w := "result =base.Q()";
    BlankIdentity(w);
    SplitOfDocumentedWindow();
  }

  lemma SplitOfDocumentedWindow()
    ensures Split("result =base.Q()", " ") == ["result", "=base.Q()"]
  {
    var parts := ["result", "=base.Q()"];
    assert Join(parts, " ") == parts[0] + " " + Join(parts[1..], " ");
    assert parts[1..] == ["=base.Q()"];
    assert Join(parts, " ") == "result =base.Q()";
    assert ' ' !in parts[0] && ' ' !in parts[1];
    JoinSplit(parts, ' ');
  }

  /** That body does not hold `result=base.Q()`. */
  lemma DocumentedPatternHasNoJoinedAssignment()
    ensures !Contains("result =base.Q();", "result=" + BaseCall("Q"))
  {
    var u := "result =base.Q();";
    var pat := "result=" + BaseCall("Q");
    forall j | 0 <= j ensures !OccursAt(u, pat, j) {
      if j == 0 {
        assert u[6] != pat[6];
      }
    }
  }

  /** Neither word of that body starts with the base call. */
  lemma NoWordStartsWithTheCall()
    ensures WordIndex(["result", "=base.Q()"], BaseCall("Q"), true) == -1
  {
    var words := ["result", "=base.Q()"];
    var tb := BaseCall("Q");
    assert !WordMatches(words[1], tb, true) by {
      assert words[1][..|tb|][0] != tb[0];
    }
    var r := WordIndex(words, tb, true);
    assert r != 0 && r != 1;
  }

  /** The source lists `result =base.<name>` among the accepted patterns; on
      exactly that body the last-chance loop as written reads word -1. */
  lemma DocumentedPatternPanics()
    ensures CodeCallsBaseAsWritten("result =base.Q();", "Q") == Panic
  {
    var u := "result =base.Q();";
    var tb := BaseCall("Q");
    var words := ["result", "=base.Q()"];
    UncommentedWithoutSlash(u);
    WordsOfDocumentedPattern();
    DocumentedPatternHasNoJoinedAssignment();
    NoWordStartsWithTheCall();
    assert !DirectAssignment(words, tb);
    assert LastChanceAsWritten(words, tb, 0) == Crash;
    assert AnalyzeAsWritten(u, tb) == Panic;
  }

  /** The corrected last-chance rule finds `result` followed by `=base.Q()`. */
  lemma LastChanceOnDocumentedWords()
    ensures LastChance(["result", "=base.Q()"], BaseCall("Q"), 0)
  {
    var words := ["result", "=base.Q()"];
    assert words[0] == "result" && HasPrefix(words[1], "=" + BaseCall("Q"));
  }

  /** Any body whose comment-free text is `result =base.Q();` is a safe
      base call for the corrected analysis. */
  lemma DocumentedPatternAccepted(source: string)
    requires Uncommented(source) == "result =base.Q();"
    ensures CodeCallsBase(source, "Q") == BaseUse(true, true)
  {
    WordsOfDocumentedPattern();
    LastChanceOnDocumentedWords();
    assert Analyze("result =base.Q();", BaseCall("Q")).isSafe;
  }

  /** In particular the body itself. */
  lemma DocumentedBodyAccepted()
    ensures CodeCallsBase("result =base.Q();", "Q") == BaseUse(true, true)
  {
    UncommentedWithoutSlash("result =base.Q();");
    DocumentedPatternAccepted("result =base.Q();");
  }
}
