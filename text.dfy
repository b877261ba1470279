/**
 * The Go standard-library string operations the tools rely on, on `string`
 * (a sequence of characters): strings.Index/Contains/HasPrefix/HasSuffix,
 * strings.Split/Join/Replace, strings.TrimSpace, bufio.ScanLines, and the
 * decimal formatting of strconv.
 */
module Text {

  /** `sub` occurs in `s` starting at position `i`. */
  predicate OccursAt(s: string, sub: string, i: int)
  {
    0 <= i && i + |sub| <= |s| && s[i..i + |sub|] == sub
  }

  /** strings.Index searching from position `i` on. */
  function IndexFrom(s: string, sub: string, i: nat): (r: int)
    ensures r == -1 || (i <= r && OccursAt(s, sub, r))
    ensures forall j :: i <= j && (r < 0 || j < r) ==> !OccursAt(s, sub, j)
    decreases |s| - i
  {
    if i + |sub| > |s| then -1
    else if s[i..i + |sub|] == sub then i
    else IndexFrom(s, sub, i + 1)
  }

  /** strings.Index: the first position of `sub` in `s`, or -1. */
  function IndexOf(s: string, sub: string): (r: int)
    ensures r == -1 || OccursAt(s, sub, r)
    ensures forall j :: 0 <= j && (r < 0 || j < r) ==> !OccursAt(s, sub, j)
  {
    IndexFrom(s, sub, 0)
  }

  /** strings.Contains */
  predicate Contains(s: string, sub: string)
  {
    IndexOf(s, sub) >= 0
  }

  lemma ContainsAt(s: string, sub: string, i: int)
    requires OccursAt(s, sub, i)
    ensures Contains(s, sub)
  {
  }

  /** Whatever surrounds it, a string contains itself. */
  lemma ContainsInfix(a: string, sub: string, b: string)
    ensures Contains(a + sub + b, sub)
  {
    assert (a + sub + b)[|a|..|a| + |sub|] == sub;
    ContainsAt(a + sub + b, sub, |a|);
  }

  /** A string found in a prefix is found in any extension of it. */
  lemma ContainsExtend(a: string, b: string, sub: string)
    requires Contains(a, sub)
    ensures Contains(a + b, sub)
  {
    var i := IndexOf(a, sub);
    assert (a + b)[i..i + |sub|] == a[i..i + |sub|];
    ContainsAt(a + b, sub, i);
  }

  /** strings.HasPrefix */
  predicate HasPrefix(s: string, p: string)
  {
    |p| <= |s| && s[..|p|] == p
  }

  /** A prefix of a prefix is a prefix. */
  lemma PrefixOfPrefix(s: string, p: string, q: string)
    requires HasPrefix(s, p) && HasPrefix(p, q)
    ensures HasPrefix(s, q)
  {
    assert s[..|q|] == s[..|p|][..|q|];
  }

  /** strings.HasSuffix */
  predicate HasSuffix(s: string, p: string)
  {
    |p| <= |s| && s[|s| - |p|..] == p
  }

  /** strings.Split for a non-empty separator: the pieces between the
      non-overlapping occurrences of `sep`, scanned left to right. */
  function Split(s: string, sep: string): (r: seq<string>)
    requires |sep| > 0
    ensures |r| >= 1
    ensures forall k :: 0 <= k < |r| ==> !Contains(r[k], sep)
    decreases |s|
  {
    var i := IndexOf(s, sep);
    if i < 0 then [s]
    else
      assert !Contains(s[..i], sep) by {
        forall j | 0 <= j ensures !OccursAt(s[..i], sep, j) {
          if OccursAt(s[..i], sep, j) {
            assert s[..i][j..j + |sep|] == s[j..j + |sep|];
            assert OccursAt(s, sep, j);
          }
        }
      }
      [s[..i]] + Split(s[i + |sep|..], sep)
  }

  /** The first occurrence of `sub` is at `i` when `sub` occurs there and its
      first character does not occur earlier. */
  lemma IndexOfAt(s: string, sub: string, i: nat)
    requires OccursAt(s, sub, i) && |sub| > 0
    requires forall j :: 0 <= j < i ==> s[j] != sub[0]
    ensures IndexOf(s, sub) == i
  {
    forall j | 0 <= j < i ensures !OccursAt(s, sub, j) {
      if j + |sub| <= |s| {
        assert s[j..j + |sub|][0] == s[j];
      }
    }
  }

  /** strings.Join */
  function Join(parts: seq<string>, sep: string): string
  {
    if |parts| == 0 then ""
    else if |parts| == 1 then parts[0]
    else parts[0] + sep + Join(parts[1..], sep)
  }

  /** Joining back the pieces of a split gives the original string. */
  lemma {:induction false} SplitJoin(s: string, sep: string)
    requires |sep| > 0
    ensures Join(Split(s, sep), sep) == s
    decreases |s|
  {
    var i := IndexOf(s, sep);
    if i >= 0 {
      var rest := s[i + |sep|..];
      var parts := Split(rest, sep);
      SplitJoin(rest, sep);
      assert Split(s, sep) == [s[..i]] + parts;
      assert ([s[..i]] + parts)[1..] == parts;
      assert Join([s[..i]] + parts, sep) == s[..i] + sep + Join(parts, sep);
      assert s == s[..i] + sep + rest by {
        assert s[i..i + |sep|] == sep;
      }
    }
  }

  /** A prefix one longer is the prefix and the next element. */
  lemma TakeSnoc<T>(s: seq<T>, i: nat)
    requires i < |s|
    ensures s[..i + 1] == s[..i] + [s[i]]
  {
  }

  /** A join starts with its first piece. */
  lemma JoinHead(parts: seq<string>, sep: string)
    requires |parts| >= 1
    ensures HasPrefix(Join(parts, sep), parts[0])
  {
    if |parts| > 1 {
      assert Join(parts, sep) == parts[0] + (sep + Join(parts[1..], sep));
    }
  }

  /** Appending one more piece to a non-empty join. */
  lemma {:induction false} JoinSnoc(parts: seq<string>, x: string, sep: string)
    requires |parts| > 0
    ensures Join(parts + [x], sep) == Join(parts, sep) + sep + x
    decreases |parts|
  {
    if |parts| == 1 {
      assert Join(parts + [x], sep) == parts[0] + sep + Join([x], sep);
    } else {
      assert (parts + [x])[1..] == parts[1..] + [x];
      JoinSnoc(parts[1..], x, sep);
    }
  }

  /** A string without the character `c` holds no one-character separator [c]. */
  lemma NoCharNoOccurrence(p: string, c: char)
    requires c !in p
    ensures IndexOf(p, [c]) == -1
  {
    forall j | 0 <= j ensures !OccursAt(p, [c], j) {
      if j < |p| {
        assert p[j..j + 1] == [p[j]];
      }
    }
  }

  /** Splitting a join on a one-character separator that none of the parts
      holds gives the parts back. */
  lemma {:induction false} JoinSplit(parts: seq<string>, c: char)
    requires |parts| >= 1
    requires forall k :: 0 <= k < |parts| ==> c !in parts[k]
    ensures Split(Join(parts, [c]), [c]) == parts
    decreases |parts|
  {
    var s := Join(parts, [c]);
    if |parts| == 1 {
      NoCharNoOccurrence(parts[0], c);
    } else {
      var p0, rest := parts[0], Join(parts[1..], [c]);
      assert s == p0 + [c] + rest;
      assert OccursAt(s, [c], |p0|) by {
        assert s[|p0|..|p0| + 1] == [c];
      }
      forall j | 0 <= j < |p0| ensures !OccursAt(s, [c], j) {
        assert s[j] == p0[j];
      }
      var i := IndexOf(s, [c]);
      assert i == |p0|;
      assert s[..i] == p0;
      assert s[i + 1..] == rest;
      JoinSplit(parts[1..], c);
    }
  }

  /** strings.Replace(s, old, new, -1) for a non-empty `old`: every
      non-overlapping occurrence, left to right, is replaced. */
  function ReplaceAll(s: string, pat: string, rep: string): (r: string)
    requires |pat| > 0
    ensures !Contains(s, pat) ==> r == s
  {
    Join(Split(s, pat), rep)
  }

  /** A slice inside the left part of a concatenation. */
  lemma SliceLeft(a: string, b: string, j: nat, k: nat)
    requires j <= k <= |a|
    ensures (a + b)[j..k] == a[j..k]
  {
  }

  /** A slice inside the right part of a concatenation. */
  lemma SliceRight(a: string, b: string, j: nat, k: nat)
    requires |a| <= j <= k <= |a| + |b|
    ensures (a + b)[j..k] == b[j - |a|..k - |a|]
  {
  }

  /** An occurrence of `pat` in `a + rep + x` that overlaps `rep` starts
      in it, ends in it or spans it. */
  lemma OccurrenceOverlapping(a: string, rep: string, x: string, pat: string, j: nat)
    requires |pat| > 0 && |a| < j + |pat| && j < |a| + |rep|
    requires pat[0] !in rep && pat[|pat| - 1] !in rep && !Contains(pat, rep)
    ensures !OccursAt(a + rep + x, pat, j)
  {
    var ar := a + rep;
    var s := ar + x;
    var m := |pat|;
    if j + m <= |s| {
      if j >= |a| {
        assert s[j] == ar[j] == rep[j - |a|];
        assert s[j..j + m][0] == s[j];
      } else if j + m <= |ar| {
        assert s[j + m - 1] == ar[j + m - 1] == rep[j + m - 1 - |a|];
        assert s[j..j + m][m - 1] == s[j + m - 1];
      } else {
        var o := |a| - j;
        SliceLeft(ar, x, |a|, |ar|);
        SliceRight(a, rep, |a|, |ar|);
        assert s[j..j + m][o..o + |rep|] == s[|a|..|ar|];
        assert !OccursAt(pat, rep, o);
      }
    }
  }

  /** An occurrence of `pat` in `a + rep + x` that lies in `a` or in `x`
      is one in that part. */
  lemma OccurrenceOutside(a: string, rep: string, x: string, pat: string, j: nat)
    requires !Contains(a, pat) && !Contains(x, pat)
    requires j + |pat| <= |a| || |a| + |rep| <= j
    ensures !OccursAt(a + rep + x, pat, j)
  {
    var ar := a + rep;
    var m := |pat|;
    if j + m <= |ar + x| {
      if j + m <= |a| {
        SliceLeft(ar, x, j, j + m);
        SliceLeft(a, rep, j, j + m);
        assert !OccursAt(a, pat, j);
      } else {
        SliceRight(ar, x, j, j + m);
        assert !OccursAt(x, pat, j - |ar|);
      }
    }
  }

  /** Gluing two strings free of `pat` around `rep` creates no occurrence
      of `pat` when `rep` holds neither its first nor its last character and
      does not occur inside it. */
  lemma NoOccurrenceAcross(a: string, rep: string, x: string, pat: string)
    requires |pat| > 0
    requires !Contains(a, pat) && !Contains(x, pat)
    requires pat[0] !in rep && pat[|pat| - 1] !in rep && !Contains(pat, rep)
    ensures !Contains(a + rep + x, pat)
  {
    forall j | 0 <= j ensures !OccursAt(a + rep + x, pat, j) {
      if j + |pat| <= |a| || |a| + |rep| <= j {
        OccurrenceOutside(a, rep, x, pat, j);
      } else {
        OccurrenceOverlapping(a, rep, x, pat, j);
      }
    }
  }

  /** Replacing every occurrence of `pat` leaves none behind when the
      replacement cannot take part in a new one. */
  lemma {:induction false} ReplaceAllRemoves(s: string, pat: string, rep: string)
    requires |pat| > 0
    requires pat[0] !in rep && pat[|pat| - 1] !in rep && !Contains(pat, rep)
    ensures !Contains(ReplaceAll(s, pat, rep), pat)
    decreases |s|
  {
    var i := IndexOf(s, pat);
    if i >= 0 {
      var rest := s[i + |pat|..];
      var ps := Split(rest, pat);
      assert Split(s, pat) == [s[..i]] + ps;
      assert ([s[..i]] + ps)[1..] == ps;
      assert ReplaceAll(s, pat, rep) == s[..i] + rep + ReplaceAll(rest, pat, rep);
      ReplaceAllRemoves(rest, pat, rep);
      assert !Contains(s[..i], pat) by {
        assert Split(s, pat)[0] == s[..i];
      }
      NoOccurrenceAcross(s[..i], rep, ReplaceAll(rest, pat, rep), pat);
    }
  }

  /** Replacing a pattern with itself changes nothing. */
  lemma ReplaceWithItself(s: string, pat: string)
    requires |pat| > 0
    ensures ReplaceAll(s, pat, pat) == s
  {
    SplitJoin(s, pat);
  }

  /** unicode.IsSpace */
  predicate IsSpace(c: char)
  {
    var n := c as int;
    (9 <= n <= 13) || n == 32 || n == 0x85 || n == 0xA0 || n == 0x1680
    || (0x2000 <= n <= 0x200A) || n == 0x2028 || n == 0x2029 || n == 0x202F
    || n == 0x205F || n == 0x3000
  }

  /** `s` without its leading white space. */
  function TrimLeftSpace(s: string): (r: string)
    ensures |r| <= |s| && r == s[|s| - |r|..]
    ensures r == [] || !IsSpace(r[0])
  {
    if |s| > 0 && IsSpace(s[0]) then TrimLeftSpace(s[1..]) else s
  }

  /** Only white space is dropped on the left. */
  lemma {:induction false} TrimLeftDropsSpace(s: string)
    ensures forall k :: 0 <= k < |s| - |TrimLeftSpace(s)| ==> IsSpace(s[k])
  {
    if |s| > 0 && IsSpace(s[0]) {
      TrimLeftDropsSpace(s[1..]);
      assert forall k :: 1 <= k < |s| ==> s[k] == s[1..][k - 1];
    }
  }

  /** `s` without its trailing white space. */
  function TrimRightSpace(s: string): (r: string)
    ensures |r| <= |s| && r == s[..|r|]
    ensures r == [] || !IsSpace(r[|r| - 1])
  {
    if |s| > 0 && IsSpace(s[|s| - 1]) then TrimRightSpace(s[..|s| - 1]) else s
  }

  /** Only white space is dropped on the right. */
  lemma {:induction false} TrimRightDropsSpace(s: string)
    ensures forall k :: |TrimRightSpace(s)| <= k < |s| ==> IsSpace(s[k])
  {
    if |s| > 0 && IsSpace(s[|s| - 1]) {
      TrimRightDropsSpace(s[..|s| - 1]);
    }
  }

  /** strings.TrimSpace: `s` without its leading and trailing white space. */
  function TrimSpace(s: string): (r: string)
    ensures |r| <= |s|
    ensures r == [] || (!IsSpace(r[0]) && !IsSpace(r[|r| - 1]))
  {
    TrimRightSpace(TrimLeftSpace(s))
  }

  /** Trimming twice is trimming once. */
  lemma TrimSpaceIdempotent(s: string)
    ensures TrimSpace(TrimSpace(s)) == TrimSpace(s)
  {
    var t := TrimSpace(s);
    if t != [] {
      assert TrimLeftSpace(t) == t;
      assert TrimRightSpace(t) == t;
    }
  }

  /** bufio.ScanLines drops one carriage return at the end of a line. */
  function DropCR(line: string): string
  {
    if |line| > 0 && line[|line| - 1] == '\r' then line[..|line| - 1] else line
  }

  /** The first occurrence of a one-character string: nothing before it is that character. */
  lemma BeforeFirstChar(s: string, c: char, i: int)
    requires IndexOf(s, [c]) == i
    ensures forall j :: 0 <= j < |s| && (i < 0 || j < i) ==> s[j] != c
  {
    forall j | 0 <= j < |s| && (i < 0 || j < i) ensures s[j] != c {
      if s[j] == c {
        assert s[j..j + 1] == [c];
        assert OccursAt(s, [c], j);
      }
    }
  }

  /** The tokens bufio.Scanner yields with ScanLines: the text is cut at each
      newline, a final empty line is not a token, and an empty text has none. */
  function Lines(s: string): (r: seq<string>)
    ensures s != [] ==> |r| >= 1
    ensures forall k :: 0 <= k < |r| ==> '\n' !in r[k]
    decreases |s|
  {
    if s == [] then []
    else
      var i := IndexOf(s, "\n");
      BeforeFirstChar(s, '\n', i);
      if i < 0 then [DropCR(s)] else [DropCR(s[..i])] + Lines(s[i + 1..])
  }

  /** A line without a newline, a newline, and the rest: the line is the
      first token and the rest gives the others. */
  lemma LinesCons(x: string, rest: string)
    requires '\n' !in x
    ensures Lines(x + "\n" + rest) == [DropCR(x)] + Lines(rest)
  {
    var s := x + "\n" + rest;
    assert s[|x|..|x| + 1] == "\n";
    forall j | 0 <= j < |x| ensures !OccursAt(s, "\n", j) {
      assert s[j..j + 1] == [x[j]];
    }
    var i := IndexOf(s, "\n");
    assert OccursAt(s, "\n", |x|);
    assert 0 <= i <= |x|;
    assert !(i < |x|);
    assert s[..i] == x;
    assert s[i + 1..] == rest;
  }

  /** Every line of a text that has no newline is the text itself (less a final CR). */
  lemma LinesOfOneLine(s: string)
    requires s != [] && '\n' !in s
    ensures Lines(s) == [DropCR(s)]
  {
    NoCharNoOccurrence(s, '\n');
  }

  function DigitChar(d: nat): char
    requires d < 10
  {
    (48 + d) as char
  }

  /** strconv.FormatUint(n, 10) */
  function NatToString(n: nat): (r: string)
    ensures |r| >= 1
    ensures forall k :: 0 <= k < |r| ==> '0' <= r[k] <= '9'
  {
    if n < 10 then [DigitChar(n)] else NatToString(n / 10) + [DigitChar(n % 10)]
  }

  /** strconv.Itoa */
  function IntToString(i: int): string
  {
    if i < 0 then "-" + NatToString(-i) else NatToString(i)
  }

  function Pow10(k: nat): (r: nat)
    ensures r >= 1
  {
    if k == 0 then 1 else 10 * Pow10(k - 1)
  }

  /** A number of at least 10^k has more than k digits. */
  lemma {:induction false} DecimalLength(n: nat, k: nat)
    requires n >= Pow10(k)
    ensures |NatToString(n)| > k
  {
    if k > 0 {
      assert n / 10 >= Pow10(k - 1);
      DecimalLength(n / 10, k - 1);
    }
  }

  /** ASCII case folding, the part of strings.EqualFold the model keeps. */
  function ToLowerAscii(c: char): char
  {
    if 'A' <= c <= 'Z' then (c as int + 32) as char else c
  }

  predicate EqualFoldAscii(a: string, b: string)
  {
    |a| == |b| && forall k :: 0 <= k < |a| ==> ToLowerAscii(a[k]) == ToLowerAscii(b[k])
  }
}
