/**
 * The parts of Python's `str` and slicing semantics that the modelled code relies on:
 * `startswith`, `endswith`, `find`, `split`, `replace(old, "")`, `join`, `splitlines`
 * (on '\n' only) and slices with negative bounds (`s[k:]`, `s[:k]`).
 */
module PyText {
  import opened Wrappers

  predicate StartsWith(s: string, prefix: string) {
    |prefix| <= |s| && s[..|prefix|] == prefix
  }

  predicate EndsWith(s: string, suffix: string) {
    |suffix| <= |s| && s[|s| - |suffix|..] == suffix
  }

  predicate OccursAt(s: string, sep: string, i: nat) {
    i + |sep| <= |s| && s[i..i + |sep|] == sep
  }

  /** `s.find(sep)`, with -1 as None: the index of the leftmost occurrence. */
  function Find(s: string, sep: string): (r: Option<nat>)
    requires |sep| > 0
    ensures r.Some? ==> OccursAt(s, sep, r.value)
    decreases |s|
  {
    if |s| < |sep| then None
    else if StartsWith(s, sep) then Some(0)
    else
      match Find(s[1..], sep)
      case Some(i) => Some(i + 1)
      case None => None
  }

  /** `find` returns the leftmost occurrence: there is none before it. */
  lemma {:induction false} FindIsLeftmost(s: string, sep: string, j: nat)
    requires |sep| > 0 && Find(s, sep).Some? && j < Find(s, sep).value
    ensures !OccursAt(s, sep, j)
    decreases |s|
  {
    if j > 0 {
      var t := s[1..];
      assert !StartsWith(s, sep);
      assert Find(s, sep).value == Find(t, sep).value + 1;
      FindIsLeftmost(t, sep, j - 1);
      if j + |sep| <= |s| {
        assert s[j..j + |sep|] == t[j - 1..j - 1 + |sep|];
      }
    } else {
      assert !StartsWith(s, sep);
    }
  }

  /** Joining one more part appends the separator and that part. */
  lemma {:induction false} JoinAppend(sep: string, parts: seq<string>, last: string)
    requires |parts| >= 1
    ensures Join(sep, parts + [last]) == Join(sep, parts) + sep + last
    decreases |parts|
  {
    var all := parts + [last];
    assert all[0] == parts[0] && all[1..] == parts[1..] + [last];
    if |parts| > 1 {
      JoinAppend(sep, parts[1..], last);
    }
  }

  /** `s.split(sep)`: the pieces between the non-overlapping occurrences, scanned left to right. */
  function Split(s: string, sep: string): (r: seq<string>)
    requires |sep| > 0
    ensures |r| >= 1
    decreases |s|
  {
    match Find(s, sep)
    case Some(i) => [s[..i]] + Split(s[i + |sep|..], sep)
    case None => [s]
  }

  /** `s.replace(pattern, "")`: every non-overlapping occurrence removed, left to right. */
  function RemoveAll(s: string, pattern: string): string
    requires |pattern| > 0
    decreases |s|
  {
    match Find(s, pattern)
    case Some(i) => s[..i] + RemoveAll(s[i + |pattern|..], pattern)
    case None => s
  }

  /** `sep.join(parts)`. */
  function Join(sep: string, parts: seq<string>): string {
    if |parts| == 0 then ""
    else if |parts| == 1 then parts[0]
    else parts[0] + sep + Join(sep, parts[1..])
  }

  /**
   * `s.splitlines()` for text whose only line separator is '\n': the pieces between
   * newlines, with no final empty piece when the text ends in a newline, and no lines at
   * all for the empty text.
   */
  function SplitLines(s: string): seq<string> {
    if s == "" then []
    else
      var pieces := Split(s, "\n");
      if pieces[|pieces| - 1] == "" then pieces[..|pieces| - 1] else pieces
  }

  /** How Python normalises a slice bound `k` against a sequence of length n. */
  function Clamp(k: int, n: nat): (r: nat)
    ensures r <= n
  {
    if k < 0 then (if k + n < 0 then 0 else k + n)
    else if k > n then n else k
  }

  /** Python's `s[k:]`. */
  function SliceFrom<T>(s: seq<T>, k: int): seq<T> {
    s[Clamp(k, |s|)..]
  }

  /** Python's `s[:k]`. */
  function SliceTo<T>(s: seq<T>, k: int): seq<T> {
    s[..Clamp(k, |s|)]
  }

  function Min(a: int, b: int): int {
    if a <= b then a else b
  }

  /** There is no occurrence of sep in t when one of sep's characters is missing from t. */
  lemma {:induction false} FindAbsent(t: string, sep: string, k: nat)
    requires k < |sep| && sep[k] !in t
    ensures Find(t, sep) == None
    decreases |t|
  {
    if |t| >= |sep| {
      assert t[k] == t[..|sep|][k];
      assert t[1..] <= t || sep[k] !in t[1..] by {
        forall c | c in t[1..] ensures c in t { }
      }
      FindAbsent(t[1..], sep, k);
    }
  }

  /** The first occurrence of sep in p + sep + rest is the one right after p, when p lacks sep[0]. */
  lemma {:induction false} FindAfter(p: string, sep: string, rest: string)
    requires |sep| > 0 && sep[0] !in p
    ensures Find(p + sep + rest, sep) == Some(|p|)
    decreases |p|
  {
    var s := p + sep + rest;
    if |p| == 0 {
      assert s[..|sep|] == sep;
    } else {
      assert s[0] == p[0];
      assert s[1..] == p[1..] + sep + rest;
      assert sep[0] !in p[1..] by {
        forall c | c in p[1..] ensures c in p { }
      }
      FindAfter(p[1..], sep, rest);
    }
  }

  /** Splitting p + sep + rest, when p lacks sep's first character, gives p and then the pieces of rest. */
  lemma SplitStep(p: string, sep: string, rest: string)
    requires |sep| > 0 && sep[0] !in p
    ensures Split(p + sep + rest, sep) == [p] + Split(rest, sep)
  {
    var s := p + sep + rest;
    FindAfter(p, sep, rest);
    assert s[..|p|] == p;
    assert s[|p| + |sep|..] == rest;
  }

  /** Splitting a join gives back the parts, when no part contains the separator's first character. */
  lemma {:induction false} SplitJoin(sep: string, parts: seq<string>)
    requires |sep| > 0 && |parts| >= 1
    requires forall p <- parts :: sep[0] !in p
    ensures Split(Join(sep, parts), sep) == parts
    decreases |parts|
  {
    if |parts| == 1 {
      FindAbsent(parts[0], sep, 0);
    } else {
      var rest := Join(sep, parts[1..]);
      assert Join(sep, parts) == parts[0] + sep + rest;
      SplitStep(parts[0], sep, rest);
      assert forall p <- parts[1..] :: p in parts;
      SplitJoin(sep, parts[1..]);
      assert parts == [parts[0]] + parts[1..];
    }
  }

  /** Splitting on a one-character separator leaves that character in no piece. */
  lemma {:induction false} SplitPiecesLackSeparator(s: string, c: char)
    ensures forall p <- Split(s, [c]) :: c !in p
    decreases |s|
  {
    match Find(s, [c])
    case None =>
      if c in s {
        var i :| 0 <= i < |s| && s[i] == c;
        FindAbsentConverse(s, c, i);
      }
    case Some(i) =>
      assert c !in s[..i] by {
        forall j | 0 <= j < i ensures s[..i][j] != c {
          FindIsLeftmost(s, [c], j);
          assert s[j..j + 1] == [s[j]];
        }
      }
      SplitPiecesLackSeparator(s[i + 1..], c);
  }

  /** A character that occurs in s is found by `find`. */
  lemma {:induction false} FindAbsentConverse(s: string, c: char, i: nat)
    requires i < |s| && s[i] == c
    ensures Find(s, [c]).Some?
    decreases |s|
  {
    if !StartsWith(s, [c]) {
      assert i > 0;
      FindAbsentConverse(s[1..], c, i - 1);
    }
  }

  /** `splitlines` yields lines without newline characters. */
  lemma SplitLinesHaveNoNewline(s: string)
    ensures forall line <- SplitLines(s) :: '\n' !in line
  {
    if s != "" {
      SplitPiecesLackSeparator(s, '\n');
      var pieces := Split(s, "\n");
      forall line <- SplitLines(s) ensures line in pieces { }
    }
  }

  /**
   * `"\n".join(lines).splitlines()` gives back the lines, except that a final empty line
   * is lost (it turns into a trailing newline).
   */
  lemma {:induction false} SplitLinesOfJoin(lines: seq<string>)
    requires forall line <- lines :: '\n' !in line
    ensures SplitLines(Join("\n", lines)) ==
      if lines == [] then []
      else if lines[|lines| - 1] == "" then lines[..|lines| - 1]
      else lines
  {
    if lines != [] {
      var s := Join("\n", lines);
      if |lines| == 1 {
        if lines[0] != "" {
          SplitJoin("\n", lines);
        }
      } else {
        assert s == lines[0] + "\n" + Join("\n", lines[1..]);
        SplitJoin("\n", lines);
      }
    }
  }

  /** `"\n".join(lines).splitlines()` never has more lines than `lines`. */
  lemma SplitLinesOfJoinBound(lines: seq<string>)
    requires forall line <- lines :: '\n' !in line
    ensures |SplitLines(Join("\n", lines))| <= |lines|
    ensures forall line <- SplitLines(Join("\n", lines)) :: line in lines
  {
    SplitLinesOfJoin(lines);
  }

  /** Removing a leading pattern that occurs nowhere else leaves the rest. */
  lemma RemoveLeading(pattern: string, rest: string)
    requires |pattern| > 0 && pattern[0] !in rest
    ensures RemoveAll(pattern + rest, pattern) == rest
  {
    var s := pattern + rest;
    assert s[..|pattern|] == pattern && s[..0] == [] && s[|pattern|..] == rest;
    FindAbsent(rest, pattern, 0);
  }

  /** Removing a trailing pattern that occurs nowhere else leaves what precedes it. */
  lemma RemoveTrailing(stem: string, pattern: string)
    requires |pattern| > 0 && pattern[0] !in stem
    ensures RemoveAll(stem + pattern, pattern) == stem
  {
    var s := stem + pattern;
    FindAfter(stem, pattern, []);
    assert stem + pattern + [] == s;
    assert s[..|stem|] == stem && s[|stem| + |pattern|..] == [];
  }

  /** Splitting `a + sep + b` gives `[a, b]` when neither part holds sep's first character. */
  lemma SplitPair(a: string, sep: string, b: string)
    requires |sep| > 0 && sep[0] !in a && sep[0] !in b
    ensures Split(a + sep + b, sep) == [a, b]
  {
    assert Join(sep, [a, b]) == a + sep + b;
    SplitJoin(sep, [a, b]);
  }

  /** When x followed by c starts y followed by c, and c occurs in neither, x and y are equal. */
  lemma PrefixBeforeMark(x: string, y: string, c: char, rest: string)
    requires c !in x && c !in y
    requires StartsWith(y + [c] + rest, x + [c])
    ensures x == y
  {
    var t := y + [c] + rest;
    assert t[..|x| + 1] == x + [c];
    assert t[|x|] == c;
    assert forall i :: 0 <= i < |y| ==> t[i] == y[i];
    assert t[|y|] == c;
    if |x| != |y| {
      assert false;
    }
    assert x == t[..|x|];
  }

  /** A string starts with any of its prefixes. */
  lemma StartsWithConcat(p: string, rest: string)
    ensures StartsWith(p + rest, p)
  {
    assert (p + rest)[..|p|] == p;
  }

  /** A common leading part can be dropped from both sides of `startswith`. */
  lemma StartsWithDropCommon(a: string, t: string, q: string)
    requires StartsWith(a + t, a + q)
    ensures StartsWith(t, q)
  {
    assert (a + t)[..|a| + |q|] == a + q;
    assert t[..|q|] == (a + t)[|a|..|a| + |q|] == (a + q)[|a|..];
  }

  /** After a common leading part, x followed by c starts y followed by c only when x and y are equal. */
  lemma StartsWithMarkedPrefix(a: string, x: string, y: string, c: char, rest: string)
    requires c !in x && c !in y
    requires StartsWith(a + (y + [c] + rest), a + (x + [c]))
    ensures x == y
  {
    StartsWithDropCommon(a, y + [c] + rest, x + [c]);
    PrefixBeforeMark(x, y, c, rest);
  }
}
