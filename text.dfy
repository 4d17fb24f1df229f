/** Shared result types and the failures the scripts can raise. */
module Outcomes {

  datatype Option<+T> = None | Some(value: T)

  datatype Result<+T, +E> = Ok(value: T) | Err(error: E)

  /** The contents of a file. */
  type Bytes = seq<int>

  /** The exceptions (and the one early `return False`) that end a call in the scripts. */
  datatype Failure =
    | FileMissing(path: string)      // FileNotFoundError from open, copyfile or os.remove
    | SameFile(path: string)         // shutil.SameFileError: copying a file onto itself
    | CorruptArchive(path: string)   // gzip.BadGzipFile (or zlib.error) while decompressing
    | BadDate(token: string)         // ValueError from datetime.strptime
    | BadPort(text: string)          // ValueError from int() on the month with its zeros removed
    | DirMissing(path: string)       // FileNotFoundError from os.listdir
    | Refused(port: int)             // the q process did not accept the connection
    | NotConnected                   // a query on a connection that is not open
    | QueryFailed                    // the q process signalled an error for a query
    | NoAttribute                    // AttributeError: 'str' object has no attribute ...
}

/** Character classes, Python's str.replace, digit strings and Python's ordering of str. */
module Text {

  /** `[0-9]` in a pattern: the ASCII digits only. */
  predicate IsDigit(c: char) { '0' <= c <= '9' }

  predicate AllDigits(s: string) { forall i :: 0 <= i < |s| ==> IsDigit(s[i]) }

  /** Python's str.isspace(), which is what `\s` matches and `\S` refuses in a str pattern. */
  predicate IsSpace(c: char) {
    ('\t' <= c <= '\r') || ('\U{1C}' <= c <= ' ') || c == '\U{85}' || c == '\U{A0}'
    || c == '\U{1680}' || ('\U{2000}' <= c <= '\U{200A}') || c == '\U{2028}' || c == '\U{2029}'
    || c == '\U{202F}' || c == '\U{205F}' || c == '\U{3000}'
  }

  predicate NoSpace(s: string) { forall i :: 0 <= i < |s| ==> !IsSpace(s[i]) }

  function DigitValue(c: char): (n: nat)
    requires IsDigit(c)
    ensures n < 10
  {
    c as int - '0' as int
  }

  /** The number a string of ASCII digits spells, as int() reads it. */
  function Value(s: string): nat
    requires AllDigits(s)
    decreases |s|
  {
    if s == [] then 0 else 10 * Value(s[..|s| - 1]) + DigitValue(s[|s| - 1])
  }

  /** `n` written with exactly `w` decimal digits, zero-padded on the left (higher digits dropped). */
  function Pad(n: nat, w: nat): (r: string)
    ensures |r| == w && AllDigits(r)
  {
    if w == 0 then [] else Pad(n / 10, w - 1) + [('0' as int + n % 10) as char]
  }

  /** Reading a digit string and writing it back at the same width gives it back. */
  lemma {:induction false} PadValue(s: string)
    requires AllDigits(s)
    ensures Pad(Value(s), |s|) == s
  {
    if s != [] {
      var init := s[..|s| - 1];
      PadValue(init);
      assert (10 * Value(init) + DigitValue(s[|s| - 1])) / 10 == Value(init);
      assert (10 * Value(init) + DigitValue(s[|s| - 1])) % 10 == DigitValue(s[|s| - 1]);
      assert s == init + [s[|s| - 1]];
    }
  }

  /** Python's `s.replace(pat, rep)`: every leftmost, non-overlapping occurrence, scanning left to right. */
  function Replace(s: string, pat: string, rep: string): (r: string)
    requires pat != []
    ensures |rep| <= |pat| ==> |r| <= |s|
    ensures rep == [] ==> forall i :: 0 <= i < |r| ==> r[i] in s
    decreases |s|
  {
    if |s| < |pat| then s
    else if s[..|pat|] == pat then rep + Replace(s[|pat|..], pat, rep)
    else [s[0]] + Replace(s[1..], pat, rep)
  }

  /** `pat in s`. */
  predicate Occurs(s: string, pat: string)
    requires pat != []
    decreases |s|
  {
    |s| >= |pat| && (s[..|pat|] == pat || Occurs(s[1..], pat))
  }

  /** Without an occurrence, replacing changes nothing. */
  lemma {:induction false} ReplaceAbsent(s: string, pat: string, rep: string)
    requires pat != [] && !Occurs(s, pat)
    ensures Replace(s, pat, rep) == s
    decreases |s|
  {
    if |s| >= |pat| {
      ReplaceAbsent(s[1..], pat, rep);
    }
  }

  /** A pattern whose first character does not start any place in `s` where it would fit does not occur. */
  lemma {:induction false} NoStart(s: string, pat: string)
    requires pat != [] && forall i :: 0 <= i <= |s| - |pat| ==> s[i] != pat[0]
    ensures !Occurs(s, pat)
    decreases |s|
  {
    if |s| >= |pat| {
      assert s[..|pat|][0] == s[0];
      NoStart(s[1..], pat);
    }
  }

  /** A pattern does not occur when, at every place it would fit, its first two characters are
      not both there. */
  lemma {:induction false} NoStartPair(s: string, pat: string)
    requires |pat| >= 2
    requires forall i :: 0 <= i <= |s| - |pat| ==> s[i] != pat[0] || s[i + 1] != pat[1]
    ensures !Occurs(s, pat)
    decreases |s|
  {
    if |s| >= |pat| {
      assert s[..|pat|][0] == s[0] && s[..|pat|][1] == s[1];
      forall i | 0 <= i <= |s[1..]| - |pat|
        ensures s[1..][i] != pat[0] || s[1..][i + 1] != pat[1]
      {
        assert s[1..][i] == s[i + 1] && s[1..][i + 1] == s[i + 2];
      }
      NoStartPair(s[1..], pat);
    }
  }

  /** A one-character pattern occurs exactly where its character does. */
  lemma {:induction false} OccursChar(s: string, c: char)
    ensures Occurs(s, [c]) <==> c in s
    decreases |s|
  {
    if s != [] {
      OccursChar(s[1..], c);
      assert s == [s[0]] + s[1..];
    }
  }

  /** Removing an occurring pattern makes the string strictly shorter. */
  lemma {:induction false} RemoveShortens(s: string, pat: string)
    requires pat != [] && Occurs(s, pat)
    ensures |Replace(s, pat, [])| < |s|
    decreases |s|
  {
    if s[..|pat|] != pat {
      RemoveShortens(s[1..], pat);
    }
  }

  /** Replacing a one-character pattern by text without it leaves no occurrence of that character. */
  lemma {:induction false} ReplaceCharGone(s: string, c: char, rep: string)
    requires c !in rep
    ensures c !in Replace(s, [c], rep)
    decreases |s|
  {
    if s != [] {
      ReplaceCharGone(s[1..], c, rep);
    }
  }

  /** No occurrence straddles the seam between `a` and `b` when a character next to the seam is not
      in the pattern, so the two halves are replaced independently. */
  lemma {:induction false} ReplaceSplits(a: string, b: string, pat: string, rep: string)
    requires pat != []
    requires a == [] || |pat| == 1 || a[|a| - 1] !in pat || (b != [] && b[0] !in pat)
    ensures Replace(a + b, pat, rep) == Replace(a, pat, rep) + Replace(b, pat, rep)
    decreases |a|
  {
    var s := a + b;
    if a == [] {
      assert s == b;
    } else if |s| < |pat| {
      assert Replace(s, pat, rep) == s;
    } else if s[..|pat|] == pat {
      Straddle(a, b, pat);
      ReplaceSplits(a[|pat|..], b, pat, rep);
      SplitsAtOccurrence(a, b, pat, rep);
    } else {
      ReplaceSplits(a[1..], b, pat, rep);
      SplitsPastFirst(a, b, pat, rep);
    }
  }

  /** The step of ReplaceSplits where an occurrence starts `a`. */
  lemma SplitsAtOccurrence(a: string, b: string, pat: string, rep: string)
    requires pat != [] && |a| >= |pat| && a[..|pat|] == pat
    requires Replace(a[|pat|..] + b, pat, rep) == Replace(a[|pat|..], pat, rep) + Replace(b, pat, rep)
    ensures Replace(a + b, pat, rep) == Replace(a, pat, rep) + Replace(b, pat, rep)
  {
    var s := a + b;
    assert s[..|pat|] == pat;
    assert s[|pat|..] == a[|pat|..] + b;
  }

  /** The step of ReplaceSplits where no occurrence starts `a + b`. */
  lemma SplitsPastFirst(a: string, b: string, pat: string, rep: string)
    requires pat != [] && a != [] && |a + b| >= |pat| && (a + b)[..|pat|] != pat
    requires Replace(a[1..] + b, pat, rep) == Replace(a[1..], pat, rep) + Replace(b, pat, rep)
    ensures Replace(a + b, pat, rep) == Replace(a, pat, rep) + Replace(b, pat, rep)
  {
    var s := a + b;
    assert s[1..] == a[1..] + b;
    if |a| >= |pat| {
      assert a[..|pat|] == s[..|pat|];
    } else {
      assert a == [a[0]] + a[1..];
    }
  }

  /** An occurrence at the start of `a + b` that does not fit in `a` covers both sides of the seam. */
  lemma Straddle(a: string, b: string, pat: string)
    requires pat != [] && a != []
    requires |a + b| >= |pat| && (a + b)[..|pat|] == pat
    ensures |a| < |pat| ==> a[|a| - 1] in pat && b != [] && b[0] in pat
  {
    if |a| < |pat| {
      var s := a + b;
      assert s[|a| - 1] == a[|a| - 1] && s[|a|] == b[0];
      assert pat[|a| - 1] == s[|a| - 1] && pat[|a|] == s[|a|];
    }
  }

  /** A string shorter than the pattern is left alone. */
  lemma ReplaceAbsentShort(s: string, pat: string, rep: string)
    requires pat != [] && |s| < |pat|
    ensures Replace(s, pat, rep) == s
  {
  }

  /** Python's `a <= b` on str: code point by code point, a proper prefix first. */
  predicate NotAfter(a: string, b: string)
    decreases |a|
  {
    a == [] || (b != [] && (a[0] < b[0] || (a[0] == b[0] && NotAfter(a[1..], b[1..]))))
  }

  lemma {:induction false} NotAfterTotal(a: string, b: string)
    ensures NotAfter(a, b) || NotAfter(b, a)
    decreases |a|
  {
    if a != [] && b != [] && a[0] == b[0] {
      NotAfterTotal(a[1..], b[1..]);
    }
  }

  lemma {:induction false} NotAfterTransitive(a: string, b: string, c: string)
    requires NotAfter(a, b) && NotAfter(b, c)
    ensures NotAfter(a, c)
    decreases |a|
  {
    if a != [] && a[0] == b[0] && b[0] == c[0] {
      NotAfterTransitive(a[1..], b[1..], c[1..]);
    }
  }

  lemma {:induction false} NotAfterAntisymmetric(a: string, b: string)
    requires NotAfter(a, b) && NotAfter(b, a)
    ensures a == b
    decreases |a|
  {
    if a != [] {
      NotAfterAntisymmetric(a[1..], b[1..]);
      assert a == [a[0]] + a[1..];
      assert b == [b[0]] + b[1..];
    }
  }
}
