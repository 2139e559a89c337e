/**
 * The Python string operations the record-shaping code relies on: strip, find,
 * replace, split, join and lower, with the facts about them the other modules use.
 */
module Text {
  import opened Results

  /** A character Python's str.isspace accepts, that is, one str.strip() removes. */
  predicate IsSpace(c: char) {
    || c == ' ' || c == '\t' || c == '\n' || c == '\r' || c == '\U{0B}' || c == '\U{0C}'
    || ('\U{1C}' <= c <= '\U{1F}') || c == '\U{85}' || c == '\U{A0}' || c == '\U{1680}'
    || ('\U{2000}' <= c <= '\U{200A}') || c == '\U{2028}' || c == '\U{2029}'
    || c == '\U{202F}' || c == '\U{205F}' || c == '\U{3000}'
  }

  /** Drops the leading whitespace. */
  function TrimSpaceStart(s: string): (r: string)
    ensures |r| <= |s| && r == s[|s| - |r|..]
    ensures r == [] || !IsSpace(r[0])
    ensures forall i :: 0 <= i < |s| - |r| ==> IsSpace(s[i])
    decreases |s|
  {
    if |s| > 0 && IsSpace(s[0]) then TrimSpaceStart(s[1..]) else s
  }

  /** Drops the trailing whitespace. */
  function TrimSpaceEnd(s: string): (r: string)
    ensures |r| <= |s| && r == s[..|r|]
    ensures r == [] || !IsSpace(r[|r| - 1])
    ensures forall i :: |r| <= i < |s| ==> IsSpace(s[i])
    decreases |s|
  {
    if |s| > 0 && IsSpace(s[|s| - 1]) then TrimSpaceEnd(s[..|s| - 1]) else s
  }

  /** Drops the leading copies of c. */
  function TrimCharStart(s: string, c: char): (r: string)
    ensures |r| <= |s| && r == s[|s| - |r|..]
    ensures r == [] || r[0] != c
    decreases |s|
  {
    if |s| > 0 && s[0] == c then TrimCharStart(s[1..], c) else s
  }

  /** Drops the trailing copies of c. */
  function TrimCharEnd(s: string, c: char): (r: string)
    ensures |r| <= |s| && r == s[..|r|]
    ensures r == [] || r[|r| - 1] != c
    decreases |s|
  {
    if |s| > 0 && s[|s| - 1] == c then TrimCharEnd(s[..|s| - 1], c) else s
  }

  /** Python's s.strip(): no whitespace is left at either end. */
  function Strip(s: string): (r: string)
    ensures r == [] || (!IsSpace(r[0]) && !IsSpace(r[|r| - 1]))
    ensures |r| <= |s|
  {
    TrimSpaceEnd(TrimSpaceStart(s))
  }

  /** Stripping adds no character. */
  lemma StripKeepsOut(s: string, c: char)
    requires c !in s
    ensures c !in Strip(s)
  {
    var t := TrimSpaceStart(s);
    var r := TrimSpaceEnd(t);
    assert forall i :: 0 <= i < |r| ==> r[i] == s[|s| - |t| + i];
  }

  /** Python's s.strip(c) for a single character c. */
  function StripChar(s: string, c: char): (r: string)
    ensures r == [] || (r[0] != c && r[|r| - 1] != c)
    ensures |r| <= |s|
  {
    TrimCharEnd(TrimCharStart(s, c), c)
  }

  /** Stripping c from a text that neither starts nor ends with c changes nothing. */
  lemma StripCharKeeps(s: string, c: char)
    requires s == [] || (s[0] != c && s[|s| - 1] != c)
    ensures StripChar(s, c) == s
  {
  }

  /** Stripping twice is stripping once. */
  lemma StripIdempotent(s: string)
    ensures Strip(Strip(s)) == Strip(s)
  {
    var r := Strip(s);
    assert TrimSpaceStart(r) == r;
    if r != [] {
      assert TrimSpaceEnd(r) == r;
    }
  }

  /** `p` occurs in `s` at position `i`. */
  predicate OccursAt(s: string, p: string, i: int) {
    0 <= i && i + |p| <= |s| && s[i..i + |p|] == p
  }

  lemma OccursAtTail(s: string, p: string)
    requires |s| > 0
    ensures forall j :: 1 <= j ==> (OccursAt(s, p, j) <==> OccursAt(s[1..], p, j - 1))
  {
    forall j | 1 <= j ensures OccursAt(s, p, j) <==> OccursAt(s[1..], p, j - 1) {
      if j + |p| <= |s| {
        assert s[1..][j - 1..j - 1 + |p|] == s[j..j + |p|];
      }
    }
  }

  /** Python's s.find(p), with None standing for -1: the first position where p occurs. */
  function Find(s: string, p: string): (r: Option<nat>)
    ensures r.Some? ==> OccursAt(s, p, r.value)
    ensures r.Some? ==> forall j :: 0 <= j < r.value ==> !OccursAt(s, p, j)
    ensures r.None? ==> forall j :: !OccursAt(s, p, j)
    decreases |s|
  {
    if |s| < |p| then None
    else if s[..|p|] == p then Some(0)
    else
      assert !OccursAt(s, p, 0) by { assert s[0..|p|] == s[..|p|]; }
      OccursAtTail(s, p);
      match Find(s[1..], p)
      case None => None
      case Some(i) => Some(i + 1)
  }

  /** Python's `p in s`. */
  predicate Contains(s: string, p: string) {
    Find(s, p).Some?
  }

  lemma ContainsChar(s: string, c: char)
    ensures Contains(s, [c]) <==> c in s
  {
    if c in s {
      var i :| 0 <= i < |s| && s[i] == c;
      assert s[i..i + 1] == [c];
      assert OccursAt(s, [c], i);
    }
    if Contains(s, [c]) {
      var i := Find(s, [c]).value;
      assert s[i] == s[i..i + 1][0];
    }
  }

  /** Python's s.replace(pat, rep): every occurrence, scanning left to right, non-overlapping. */
  function Replace(s: string, pat: string, rep: string): string
    requires |pat| > 0
    decreases |s|
  {
    if |s| < |pat| then s
    else if s[..|pat|] == pat then rep + Replace(s[|pat|..], pat, rep)
    else [s[0]] + Replace(s[1..], pat, rep)
  }

  /** Replacing a pattern that does not occur changes nothing. */
  lemma {:induction false} ReplaceAbsent(s: string, pat: string, rep: string)
    requires |pat| > 0 && !Contains(s, pat)
    ensures Replace(s, pat, rep) == s
    decreases |s|
  {
    if |s| >= |pat| {
      assert !OccursAt(s, pat, 0);
      OccursAtTail(s, pat);
      ReplaceAbsent(s[1..], pat, rep);
    }
  }

  /** Replacing a character by a text that lacks it leaves none of it behind. */
  lemma {:induction false} ReplaceCharGone(s: string, c: char, rep: string)
    requires c !in rep
    ensures c !in Replace(s, [c], rep)
    decreases |s|
  {
    if |s| >= 1 {
      ReplaceCharGone(s[1..], c, rep);
      if s[..1] != [c] {
        assert s[0] != c;
      }
    }
  }

  /** Replacing never brings in a character that neither the text nor the replacement has. */
  lemma {:induction false} ReplaceKeepsOut(s: string, pat: string, rep: string, c: char)
    requires |pat| > 0 && c !in s && c !in rep
    ensures c !in Replace(s, pat, rep)
    decreases |s|
  {
    if |s| >= |pat| {
      if s[..|pat|] == pat {
        ReplaceKeepsOut(s[|pat|..], pat, rep, c);
      } else {
        ReplaceKeepsOut(s[1..], pat, rep, c);
      }
    }
  }

  /** Replacing a character leaves the characters that differ from it in place. */
  lemma {:induction false} ReplaceCharCount(s: string, c: char)
    requires c !in s
    ensures Replace(s, [c], "") == s
  {
    ContainsChar(s, c);
    ReplaceAbsent(s, [c], "");
  }

  /** A text that lacks a pattern's first character does not contain the pattern. */
  lemma FreeOfHead(s: string, p: string)
    requires |p| > 0 && p[0] !in s
    ensures !Contains(s, p)
  {
    forall j | 0 <= j ensures !OccursAt(s, p, j) {
      if j + |p| <= |s| {
        assert s[j..j + |p|][0] == s[j];
      }
    }
  }

  /** Replacing in a text that lacks the pattern's first character changes nothing. */
  lemma ReplaceFree(s: string, pat: string, rep: string)
    requires |pat| > 0 && pat[0] !in s
    ensures Replace(s, pat, rep) == s
  {
    FreeOfHead(s, pat);
    ReplaceAbsent(s, pat, rep);
  }

  /** The first occurrence of a pattern, after a text lacking its first character, is replaced. */
  lemma {:induction false} ReplaceAfterFree(a: string, pat: string, rep: string, rest: string)
    requires |pat| > 0 && pat[0] !in a
    ensures Replace(a + pat + rest, pat, rep) == a + rep + Replace(rest, pat, rep)
    decreases |a|
  {
    var s := a + pat + rest;
    if a == [] {
      assert s == pat + rest;
      assert s[..|pat|] == pat && s[|pat|..] == rest;
    } else {
      assert s[..|pat|][0] == a[0];
      assert s[..|pat|] != pat;
      var tail := a[1..] + pat + rest;
      assert s[1..] == tail;
      assert Replace(s, pat, rep) == [s[0]] + Replace(tail, pat, rep);
      ReplaceAfterFree(a[1..], pat, rep, rest);
      var r := Replace(rest, pat, rep);
      assert [a[0]] + (a[1..] + rep + r) == a + rep + r by {
        assert a == [a[0]] + a[1..];
      }
    }
  }

  /** No word of the text (a character after a space) starts with c. */
  predicate NoWordStarts(s: string, c: char) {
    forall j :: 0 <= j < |s| - 1 && s[j] == ' ' ==> s[j + 1] != c
  }

  /** A pattern made of a space and c cannot occur where no word starts with c. */
  lemma NoWordStartsFree(s: string, p: string)
    requires |p| >= 2 && p[0] == ' ' && NoWordStarts(s, p[1])
    ensures !Contains(s, p)
  {
    forall j | 0 <= j ensures !OccursAt(s, p, j) {
      if j + |p| <= |s| {
        assert s[j..j + |p|][0] == s[j];
        assert s[j..j + |p|][1] == s[j + 1];
      }
    }
  }

  /** Words of a concatenation: the two parts', plus the one that may start at the seam. */
  lemma NoWordStartsJoin(a: string, b: string, c: char)
    requires NoWordStarts(a, c) && NoWordStarts(b, c)
    requires a == [] || a[|a| - 1] != ' ' || b == [] || b[0] != c
    ensures NoWordStarts(a + b, c)
  {
    var s := a + b;
    forall j | 0 <= j < |s| - 1 && s[j] == ' ' ensures s[j + 1] != c {
      if j < |a| - 1 {
        assert s[j] == a[j] && s[j + 1] == a[j + 1];
      } else if j >= |a| {
        assert s[j] == b[j - |a|] && s[j + 1] == b[j - |a| + 1];
      }
    }
  }

  /** Python's sep.join(parts). */
  function Join(parts: seq<string>, sep: string): string
    decreases |parts|
  {
    if |parts| == 0 then ""
    else if |parts| == 1 then parts[0]
    else parts[0] + sep + Join(parts[1..], sep)
  }

  lemma {:induction false} JoinSnoc(parts: seq<string>, sep: string, last: string)
    requires |parts| >= 1
    ensures Join(parts + [last], sep) == Join(parts, sep) + sep + last
    decreases |parts|
  {
    if |parts| == 1 {
      assert parts + [last] == [parts[0], last];
    } else {
      assert (parts + [last])[1..] == parts[1..] + [last];
      JoinSnoc(parts[1..], sep, last);
    }
  }

  /** Python's s.split(sep) with an explicit, non-empty separator. */
  function Split(s: string, sep: string): (r: seq<string>)
    requires |sep| > 0
    ensures |r| >= 1
    decreases |s|
  {
    match Find(s, sep)
    case None => [s]
    case Some(i) => [s[..i]] + Split(s[i + |sep|..], sep)
  }

  /** Joining the pieces of a split with the same separator gives the text back. */
  lemma {:induction false} SplitJoin(s: string, sep: string)
    requires |sep| > 0
    ensures Join(Split(s, sep), sep) == s
    decreases |s|
  {
    var f := Find(s, sep);
    if f.Some? {
      var i := f.value;
      var rest := s[i + |sep|..];
      assert Split(s, sep) == [s[..i]] + Split(rest, sep);
      SplitJoin(rest, sep);
      assert s == s[..i] + sep + rest by {
        assert s[i..i + |sep|] == sep;
      }
    }
  }

  /** No piece of a split contains the separator. */
  lemma {:induction false} SplitPiecesFree(s: string, sep: string)
    requires |sep| > 0
    ensures forall k :: 0 <= k < |Split(s, sep)| ==> !Contains(Split(s, sep)[k], sep)
    decreases |s|
  {
    match Find(s, sep)
    case None =>
    case Some(i) =>
      SplitPiecesFree(s[i + |sep|..], sep);
      var head := s[..i];
      forall j | OccursAt(head, sep, j) ensures false {
        assert head[j..j + |sep|] == s[j..j + |sep|];
        assert OccursAt(s, sep, j);
      }
  }

  /** The first piece of a split is the text before the first occurrence of the separator. */
  lemma SplitFirst(s: string, sep: string)
    requires |sep| > 0
    ensures Find(s, sep).None? ==> Split(s, sep) == [s]
    ensures Find(s, sep).Some? ==> Split(s, sep)[0] == s[..Find(s, sep).value] && |Split(s, sep)| >= 2
  {
  }

  /** A one-character separator that a text lacks is first found right after that text. */
  lemma FindAfterFree(a: string, c: char, rest: string)
    requires c !in a
    ensures Find(a + [c] + rest, [c]) == Some(|a|)
  {
    var s := a + [c] + rest;
    assert s[|a|..|a| + 1] == [c];
    assert OccursAt(s, [c], |a|);
    forall j | 0 <= j < |a| ensures !OccursAt(s, [c], j) {
      assert s[j..j + 1][0] == a[j];
    }
  }

  /** A separator whose first character a text lacks is first found right after that text. */
  lemma FindAfterText(a: string, sep: string, rest: string)
    requires |sep| > 0 && sep[0] !in a
    ensures Find(a + sep + rest, sep) == Some(|a|)
  {
    var s := a + sep + rest;
    assert s[|a|..|a| + |sep|] == sep;
    assert OccursAt(s, sep, |a|);
    forall j | 0 <= j < |a| ensures !OccursAt(s, sep, j) {
      if j + |sep| <= |s| {
        assert s[j..j + |sep|][0] == a[j];
      }
    }
  }

  /** Splitting a text at a separator whose first character it lacks, followed by more text. */
  lemma SplitAfterText(a: string, sep: string, rest: string)
    requires |sep| > 0 && sep[0] !in a
    ensures Split(a + sep + rest, sep) == [a] + Split(rest, sep)
  {
    FindAfterText(a, sep, rest);
    var s := a + sep + rest;
    assert s[..|a|] == a;
    assert s[|a| + |sep|..] == rest;
  }

  /** A text that lacks a separator's first character is not split. */
  lemma SplitWithoutFirst(a: string, sep: string)
    requires |sep| > 0 && sep[0] !in a
    ensures Split(a, sep) == [a]
  {
    forall j | 0 <= j ensures !OccursAt(a, sep, j) {
      if j + |sep| <= |a| {
        assert a[j..j + |sep|][0] == a[j];
      }
    }
  }

  /** The first piece of a split: the text up to the first separator, or all of it. */
  lemma SplitHeadShape(s: string, c: char)
    ensures var h := Split(s, [c])[0];
      |h| <= |s| && s[..|h|] == h && c !in h && (|h| == |s| || s[|h|] == c)
  {
    SplitFirst(s, [c]);
    SplitPiecesFree(s, [c]);
    ContainsChar(Split(s, [c])[0], c);
    if Find(s, [c]).Some? {
      var j := Find(s, [c]).value;
      assert s[j..j + 1] == [c];
    }
  }

  /** The second piece of a split at a character the text has: the first piece of what follows it. */
  lemma SplitSecondPiece(s: string, c: char)
    requires c in s
    ensures Find(s, [c]).Some?
    ensures var i := Find(s, [c]).value;
      c !in s[..i] && s[i] == c && |Split(s, [c])| >= 2 &&
      Split(s, [c])[1] == Split(s[i + 1..], [c])[0]
  {
    ContainsChar(s, c);
    var i := Find(s, [c]).value;
    assert s[i..i + 1] == [c];
    var pre, tail := s[..i], s[i + 1..];
    SplitFirst(s, [c]);
    SplitPiecesFree(s, [c]);
    ContainsChar(pre, c);
    assert s == pre + [c] + tail;
    SplitAfterText(pre, [c], tail);
  }

  /** Splitting a join on a one-character separator that no part contains gives the parts back. */
  lemma {:induction false} JoinSplit(parts: seq<string>, c: char)
    requires |parts| >= 1
    requires forall k :: 0 <= k < |parts| ==> c !in parts[k]
    ensures Split(Join(parts, [c]), [c]) == parts
    decreases |parts|
  {
    if |parts| == 1 {
      ContainsChar(parts[0], c);
    } else {
      var rest := Join(parts[1..], [c]);
      FindAfterFree(parts[0], c, rest);
      var s := parts[0] + [c] + rest;
      assert s[..|parts[0]|] == parts[0];
      assert s[|parts[0]| + 1..] == rest;
      JoinSplit(parts[1..], c);
    }
  }

  /** Splitting a join on a separator whose first character no part contains gives the parts back. */
  lemma {:induction false} JoinSplitText(parts: seq<string>, sep: string)
    requires |parts| >= 1 && |sep| > 0
    requires forall k :: 0 <= k < |parts| ==> sep[0] !in parts[k]
    ensures Split(Join(parts, sep), sep) == parts
    decreases |parts|
  {
    if |parts| == 1 {
      SplitWithoutFirst(parts[0], sep);
    } else {
      SplitAfterText(parts[0], sep, Join(parts[1..], sep));
      JoinSplitText(parts[1..], sep);
    }
  }

  /** Python's s.split(sep, 1): the text before the first separator and, if there is one, the rest. */
  function SplitOnce(s: string, sep: string): (r: seq<string>)
    requires |sep| > 0
    ensures 1 <= |r| <= 2
    ensures |r| == 1 <==> !Contains(s, sep)
    ensures |r| == 1 ==> r[0] == s
    ensures |r| == 2 ==> r[0] + sep + r[1] == s && !Contains(r[0], sep)
  {
    match Find(s, sep)
    case None => [s]
    case Some(i) =>
      assert s == s[..i] + sep + s[i + |sep|..] by {
        assert s[i..i + |sep|] == sep;
      }
      assert !Contains(s[..i], sep) by {
        forall j | OccursAt(s[..i], sep, j) ensures false {
          assert s[..i][j..j + |sep|] == s[j..j + |sep|];
          assert OccursAt(s, sep, j);
        }
      }
      [s[..i], s[i + |sep|..]]
  }

  /** ASCII lower-casing of one character. */
  function LowerChar(c: char): char {
    if 'A' <= c <= 'Z' then (c as int + 32) as char else c
  }

  /** Python's s.lower(), restricted to ASCII letters. */
  function Lower(s: string): (r: string)
    ensures |r| == |s|
    ensures forall i :: 0 <= i < |r| ==> !('A' <= r[i] <= 'Z')
    ensures forall i :: 0 <= i < |r| && !('A' <= s[i] <= 'Z') ==> r[i] == s[i]
  {
    seq(|s|, i requires 0 <= i < |s| => LowerChar(s[i]))
  }
}
