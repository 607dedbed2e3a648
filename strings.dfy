/**
 * The string operations the configuration renderer relies on, written out the
 * way Python's built-ins behave on them: `str.split(sep)`, `os.path.basename`,
 * `str.replace(pat, "")` and `str.lower()` (ASCII letters only).
 */
module Strings {

  // ---------------------------------------------------------------------------
  // str.split(sep)
  // ---------------------------------------------------------------------------

  /** Python's `s.split(sep)` for a one-character separator: the pieces between
      separators, including empty ones; there is always at least one piece. */
  function Split(s: string, sep: char): (r: seq<string>)
    ensures |r| == Count(s, sep) + 1
    ensures forall i :: 0 <= i < |r| ==> sep !in r[i]
    decreases |s|
  {
    if s == [] then [""]
    else
      var rest := Split(s[1..], sep);
      if s[0] == sep then [""] + rest
      else [[s[0]] + rest[0]] + rest[1..]
  }

  /** The number of occurrences of `x` in `s`. */
  function Count<T(==)>(s: seq<T>, x: T): nat
    decreases |s|
  {
    if s == [] then 0 else (if s[0] == x then 1 else 0) + Count(s[1..], x)
  }

  /** Occurrences in a concatenation add up. */
  lemma {:induction false} CountAppend<T>(a: seq<T>, b: seq<T>, x: T)
    ensures Count(a + b, x) == Count(a, x) + Count(b, x)
    decreases |a|
  {
    if a == [] {
      assert a + b == b;
    } else {
      assert (a + b)[1..] == a[1..] + b;
      CountAppend(a[1..], b, x);
    }
  }

  /** Occurrences in a prefix: those before `i` and those from `i` on. */
  lemma CountPrefix<T>(s: seq<T>, i: nat, j: nat, x: T)
    requires i <= j <= |s|
    ensures Count(s[..j], x) == Count(s[..i], x) + Count(s[i..j], x)
  {
    assert s[..j] == s[..i] + s[i..j];
    CountAppend(s[..i], s[i..j], x);
  }

  /** `sep.join(parts)`: the inverse of Split. */
  function Join(parts: seq<string>, sep: char): string
    requires |parts| > 0
  {
    if |parts| == 1 then parts[0] else parts[0] + [sep] + Join(parts[1..], sep)
  }

  /** The text a program prints when it prints each of `lines` on a line of its own. */
  function Terminated(lines: seq<string>, sep: char): string
  {
    if lines == [] then [] else lines[0] + [sep] + Terminated(lines[1..], sep)
  }

  /** Splitting and joining again gives back the original text. */
  lemma {:induction false} JoinSplit(s: string, sep: char)
    ensures Join(Split(s, sep), sep) == s
    decreases |s|
  {
    if s != [] {
      var t := s[1..];
      var rest := Split(t, sep);
      JoinSplit(t, sep);
      if s[0] == sep {
        var r := [""] + rest;
        assert r[1..] == rest;
        calc {
          Join(Split(s, sep), sep);
          Join(r, sep);
          [sep] + Join(rest, sep);
          [s[0]] + t;
        }
      } else {
        var r := [[s[0]] + rest[0]] + rest[1..];
        assert r[1..] == rest[1..];
        calc {
          Join(Split(s, sep), sep);
          Join(r, sep);
          [s[0]] + Join(rest, sep);
          [s[0]] + t;
        }
      }
      assert [s[0]] + t == s;
    }
  }

  /** A piece without separators followed by a separator splits off as one piece. */
  lemma {:induction false} SplitPiece(a: string, sep: char, b: string)
    requires sep !in a
    ensures Split(a + [sep] + b, sep) == [a] + Split(b, sep)
    decreases |a|
  {
    if a == [] {
      assert a + [sep] + b == [sep] + b;
      assert ([sep] + b)[1..] == b;
    } else {
      var s := a + [sep] + b;
      assert s[1..] == a[1..] + [sep] + b;
      SplitPiece(a[1..], sep, b);
      assert [s[0]] + a[1..] == a;
    }
  }

  /** Text without separators is a single piece. */
  lemma {:induction false} SplitWhole(a: string, sep: char)
    requires sep !in a
    ensures Split(a, sep) == [a]
    decreases |a|
  {
    if a != [] {
      SplitWhole(a[1..], sep);
      assert [a[0]] + a[1..] == a;
    }
  }

  /** Lines each printed with a terminating separator, followed by an unterminated
      tail, split into those lines and then the tail. */
  lemma {:induction false} SplitTerminated(lines: seq<string>, tail: string, sep: char)
    requires forall i :: 0 <= i < |lines| ==> sep !in lines[i]
    requires sep !in tail
    ensures Split(Terminated(lines, sep) + tail, sep) == lines + [tail]
    decreases |lines|
  {
    if lines == [] {
      assert Terminated(lines, sep) + tail == tail;
      SplitWhole(tail, sep);
    } else {
      var more := Terminated(lines[1..], sep) + tail;
      calc {
        Terminated(lines, sep) + tail;
        (lines[0] + [sep] + Terminated(lines[1..], sep)) + tail;
        lines[0] + [sep] + more;
      }
      assert sep !in lines[0];
      SplitPiece(lines[0], sep, more);
      SplitTerminated(lines[1..], tail, sep);
      assert [lines[0]] + (lines[1..] + [tail]) == lines + [tail];
    }
  }

  // ---------------------------------------------------------------------------
  // os.path.basename
  // ---------------------------------------------------------------------------

  /** `os.path.basename(p)` on POSIX: the text after the last '/', or all of
      `p` when it has none. */
  function Basename(p: string): string
    decreases |p|
  {
    if p == [] then []
    else if p[|p| - 1] == '/' then []
    else Basename(p[..|p| - 1]) + [p[|p| - 1]]
  }

  /** The basename holds no '/', is a suffix of the path, and is either the
      whole path or preceded by a '/'. */
  lemma {:induction false} BasenameSuffix(p: string)
    ensures var r := Basename(p);
      && '/' !in r
      && |r| <= |p| && r == p[|p| - |r|..]
      && (|r| < |p| ==> p[|p| - |r| - 1] == '/')
    decreases |p|
  {
    if p != [] && p[|p| - 1] != '/' {
      var q := p[..|p| - 1];
      var b := Basename(q);
      BasenameSuffix(q);
      assert p[|p| - |b| - 1..] == q[|q| - |b|..] + [p[|p| - 1]];
    }
  }

  /** The basename of `dir/file` is `file` whenever `file` holds no '/'. */
  lemma BasenameOfJoin(dir: string, file: string)
    requires '/' !in file
    ensures Basename(dir + "/" + file) == file
  {
    var p := dir + "/" + file;
    BasenameSuffix(p);
    assert p[|dir|] == '/';
    assert p[|p| - |file|..] == file;
  }

  // ---------------------------------------------------------------------------
  // str.replace(pat, "")
  // ---------------------------------------------------------------------------

  /** `s.replace(pat, "")`: every occurrence of `pat`, found left to right
      without overlap, is removed. */
  function RemoveAll(s: string, pat: string): (r: string)
    requires pat != []
    ensures |r| <= |s|
    decreases |s|
  {
    if |s| < |pat| then s
    else if s[..|pat|] == pat then RemoveAll(s[|pat|..], pat)
    else [s[0]] + RemoveAll(s[1..], pat)
  }

  /** Removing never introduces a character. */
  lemma {:induction false} RemoveAllKeeps(s: string, pat: string, c: char)
    requires pat != [] && c !in s
    ensures c !in RemoveAll(s, pat)
    decreases |s|
  {
    if |s| >= |pat| {
      if s[..|pat|] == pat {
        RemoveAllKeeps(s[|pat|..], pat, c);
      } else {
        RemoveAllKeeps(s[1..], pat, c);
      }
    }
  }

  /** `pat` occurs in `s` at index `i`. */
  predicate OccursAt(s: string, pat: string, i: nat)
  {
    i + |pat| <= |s| && s[i..i + |pat|] == pat
  }

  /** Text in which `pat` does not occur is left unchanged. */
  lemma {:induction false} RemoveAllAbsent(s: string, pat: string)
    requires pat != []
    requires forall i: nat :: !OccursAt(s, pat, i)
    ensures RemoveAll(s, pat) == s
    decreases |s|
  {
    if |s| >= |pat| {
      assert !OccursAt(s, pat, 0);
      forall i: nat ensures !OccursAt(s[1..], pat, i) {
        assert !OccursAt(s, pat, i + 1);
        if i + |pat| <= |s[1..]| {
          assert s[1..][i..i + |pat|] == s[i + 1..i + 1 + |pat|];
        }
      }
      RemoveAllAbsent(s[1..], pat);
      assert [s[0]] + s[1..] == s;
    }
  }

  /** A trailing `pat` is removed when its first character does not occur before it. */
  lemma {:induction false} RemoveTrailing(a: string, pat: string)
    requires pat != [] && pat[0] !in a
    ensures RemoveAll(a + pat, pat) == a
    decreases |a|
  {
    var s := a + pat;
    if a == [] {
      assert s[..|pat|] == pat;
      assert s[|pat|..] == [];
    } else {
      assert s[0] == a[0] != pat[0];
      assert s[..|pat|] != pat;
      assert s[1..] == a[1..] + pat;
      RemoveTrailing(a[1..], pat);
      assert [a[0]] + a[1..] == a;
    }
  }

  // ---------------------------------------------------------------------------
  // str.lower(), ASCII letters only
  // ---------------------------------------------------------------------------

  function LowerChar(c: char): char
  {
    if 'A' <= c <= 'Z' then (c as int + 32) as char else c
  }

  /** `s.lower()` restricted to ASCII: each upper-case letter maps to its
      lower-case form, every other character to itself. */
  function Lower(s: string): (r: string)
    ensures |r| == |s|
    ensures forall i :: 0 <= i < |s| ==> r[i] == LowerChar(s[i])
    decreases |s|
  {
    if s == [] then [] else [LowerChar(s[0])] + Lower(s[1..])
  }
}
