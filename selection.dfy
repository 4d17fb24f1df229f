/** Which directory entries a month's book or trade pattern selects, and the ascending sort that
    orders a shard's files. */
module Selection {
  import opened Text

  datatype Kind = Book | Trade

  /** The fixed text between the free run and the ".csv.gz" tail. */
  function Marker(kind: Kind): string {
    match kind
    case Book => "_Book"
    case Trade => "_MKtrade"
  }

  /** The length of the fixed tail: the marker, an any-character dot, "csv", another, "gz". */
  function TailLength(kind: Kind): nat { |Marker(kind)| + 7 }

  /** The text `$` closes on: `$` also matches just before one final newline. */
  function Body(name: string): string {
    if name != [] && name[|name| - 1] == '\n' then name[..|name| - 1] else name
  }

  /** `re.compile("^" + month + "[0-9]{2}_\S+" + marker + ".csv.gz$").match(name) is not None`.
      The month is literal text (it is always digits); each unescaped '.' matches any character
      but a newline; `\S+` is a non-empty run without whitespace. Because everything after the
      run has a fixed length, the run is whatever lies between "_" and the tail. */
  predicate Matches(name: string, month: string, kind: Kind) {
    BodyMatches(Body(name), month, kind)
  }

  /** The pattern's conditions on the text `$` closes on. */
  predicate BodyMatches(b: string, month: string, kind: Kind) {
    var m := |month|;
    var t := TailLength(kind);
    var k := |Marker(kind)|;
    && |b| >= m + 4 + t
    && b[..m] == month && IsDigit(b[m]) && IsDigit(b[m + 1]) && b[m + 2] == '_'
    && NoSpace(b[m + 3..|b| - t])
    && b[|b| - t..|b| - t + k] == Marker(kind)
    && b[|b| - t + k] != '\n'
    && b[|b| - t + k + 1..|b| - 3] == "csv"
    && b[|b| - 3] != '\n'
    && b[|b| - 2..] == "gz"
  }

  /** A name put together from the pattern's pieces: the month, two digits, "_", the free run,
      the marker, any character, "csv", any character, "gz", and possibly one final newline. */
  function Spell(month: string, day: string, run: string, kind: Kind, dot1: char, dot2: char, newline: bool): string {
    month + day + "_" + run + Tail(kind, dot1, dot2) + (if newline then "\n" else "")
  }

  /** The fixed tail with its two any-character dots filled in. */
  function Tail(kind: Kind, dot1: char, dot2: char): string {
    Marker(kind) + [dot1] + "csv" + [dot2] + "gz"
  }

  /** The constraints the pattern puts on the pieces. */
  predicate ArePieces(day: string, run: string, dot1: char, dot2: char) {
    |day| == 2 && AllDigits(day) && run != [] && NoSpace(run) && dot1 != '\n' && dot2 != '\n'
  }

  /** Every name spelled from admissible pieces is selected. */
  lemma SpellingMatches(month: string, day: string, run: string, kind: Kind, dot1: char, dot2: char, newline: bool)
    requires ArePieces(day, run, dot1, dot2)
    ensures Matches(Spell(month, day, run, kind, dot1, dot2, newline), month, kind)
  {
    var core := Spell(month, day, run, kind, dot1, dot2, false);
    CoreMatches(month, day, run, kind, dot1, dot2);
    if newline {
      assert Spell(month, day, run, kind, dot1, dot2, newline) == core + "\n";
      assert Body(core + "\n") == core;
    }
  }

  lemma CoreMatches(month: string, day: string, run: string, kind: Kind, dot1: char, dot2: char)
    requires ArePieces(day, run, dot1, dot2)
    ensures var core := Spell(month, day, run, kind, dot1, dot2, false);
            Body(core) == core && Matches(core, month, kind)
  {
    var tail := Tail(kind, dot1, dot2);
    var core := Spell(month, day, run, kind, dot1, dot2, false);
    assert core == month + day + "_" + run + tail;
    TailParts(kind, dot1, dot2);
    HeadFacts(month, day, run, tail, core);
    TailFacts(core, kind, dot1, dot2);
    MatchesIntro(core, month, kind);
  }

  /** Where the month, the day, the run and the tail sit in a spelled name. */
  lemma HeadFacts(month: string, day: string, run: string, tail: string, core: string)
    requires |day| == 2 && tail != [] && core == month + day + "_" + run + tail
    ensures var m := |month|;
            && |core| == m + 3 + |run| + |tail|
            && core[..m] == month && core[m] == day[0] && core[m + 1] == day[1] && core[m + 2] == '_'
            && core[m + 3..|core| - |tail|] == run && core[|core| - |tail|..] == tail
  {
    var head := month + day + "_";
    assert core == head + run + tail;
    assert core[..|head|] == head;
    assert head[..|month|] == month;
  }

  lemma TailParts(kind: Kind, dot1: char, dot2: char)
    ensures var tail := Tail(kind, dot1, dot2);
            var k := |Marker(kind)|;
            && |tail| == k + 7
            && tail[..k] == Marker(kind) && tail[k] == dot1 && tail[k + 1..k + 4] == "csv"
            && tail[k + 4] == dot2 && tail[k + 5..] == "gz" && tail[k + 6] == 'z'
  {
  }

  /** The fixed tail read back at the end of a spelled name. */
  lemma TailFacts(core: string, kind: Kind, dot1: char, dot2: char)
    requires |core| >= |Tail(kind, dot1, dot2)| && core[|core| - |Tail(kind, dot1, dot2)|..] == Tail(kind, dot1, dot2)
    ensures var t, k := TailLength(kind), |Marker(kind)|;
            && |core| >= t
            && core[|core| - t..|core| - t + k] == Marker(kind)
            && core[|core| - t + k] == dot1
            && core[|core| - t + k + 1..|core| - 3] == "csv"
            && core[|core| - 3] == dot2
            && core[|core| - 2..] == "gz"
            && core[|core| - 1] == 'z'
  {
    var tail := Tail(kind, dot1, dot2);
    TailParts(kind, dot1, dot2);
    var t, k, n := TailLength(kind), |Marker(kind)|, |core|;
    assert core[n - t..n - t + k] == tail[..k];
    assert core[n - t + k + 1..n - 3] == tail[k + 1..k + 4];
    assert core[n - 2..] == tail[k + 5..];
  }

  /** The pattern's conditions, one by one, on a name without a final newline. */
  lemma MatchesIntro(b: string, month: string, kind: Kind)
    requires var m, t, k := |month|, TailLength(kind), |Marker(kind)|;
             && |b| >= m + 4 + t && b[|b| - 1] != '\n'
             && b[..m] == month && IsDigit(b[m]) && IsDigit(b[m + 1]) && b[m + 2] == '_'
             && NoSpace(b[m + 3..|b| - t])
             && b[|b| - t..|b| - t + k] == Marker(kind)
             && b[|b| - t + k] != '\n'
             && b[|b| - t + k + 1..|b| - 3] == "csv"
             && b[|b| - 3] != '\n'
             && b[|b| - 2..] == "gz"
    ensures Body(b) == b && Matches(b, month, kind)
  {
  }

  /** Every selected name is spelled from admissible pieces: together with SpellingMatches, the
      pattern selects exactly the spellings. */
  lemma MatchIsSpelling(name: string, month: string, kind: Kind)
    requires Matches(name, month, kind)
    ensures var b := Body(name);
            var m, t, k := |month|, TailLength(kind), |Marker(kind)|;
            && ArePieces(b[m..m + 2], b[m + 3..|b| - t], b[|b| - t + k], b[|b| - 3])
            && name == Spell(month, b[m..m + 2], b[m + 3..|b| - t], kind, b[|b| - t + k], b[|b| - 3], b != name)
  {
    var b := Body(name);
    MatchPieces(name, month, kind);
    BodySpelling(b, month, kind);
    if b != name {
      assert name == b + "\n";
    } else {
      assert b == b + "";
    }
  }

  /** A text the pattern's conditions hold on is spelled from its pieces, without a newline. */
  lemma BodySpelling(b: string, month: string, kind: Kind)
    requires BodyMatches(b, month, kind)
    ensures var m, t, k := |month|, TailLength(kind), |Marker(kind)|;
            b == month + b[m..m + 2] + "_" + b[m + 3..|b| - t] + Tail(kind, b[|b| - t + k], b[|b| - 3])
  {
    var m, t, k := |month|, TailLength(kind), |Marker(kind)|;
    HeadSplit(b, m, t);
    var tail := b[|b| - t..];
    assert tail[..k] == b[|b| - t..|b| - t + k] && tail[k] == b[|b| - t + k];
    assert tail[k + 1..k + 4] == b[|b| - t + k + 1..|b| - 3] && tail[k + 4] == b[|b| - 3];
    assert tail[k + 5..] == b[|b| - 2..];
    TailSplit(tail, kind);
  }

  /** The pieces a selected name is cut into are admissible. */
  lemma MatchPieces(name: string, month: string, kind: Kind)
    requires Matches(name, month, kind)
    ensures var b := Body(name);
            var m, t, k := |month|, TailLength(kind), |Marker(kind)|;
            ArePieces(b[m..m + 2], b[m + 3..|b| - t], b[|b| - t + k], b[|b| - 3])
  {
    var b := Body(name);
    var m := |month|;
    assert b[m..m + 2] == [b[m], b[m + 1]];
  }

  /** A text long enough for the head and a tail of length `t` is its month, its day, '_', its
      run and its tail. */
  lemma HeadSplit(b: string, m: nat, t: nat)
    requires |b| >= m + 4 + t && b[m + 2] == '_'
    ensures b == b[..m] + b[m..m + 2] + "_" + b[m + 3..|b| - t] + b[|b| - t..]
  {
  }

  /** A tail with the marker, "csv" and "gz" in their places is spelled from them and its two
      free characters. */
  lemma TailSplit(tail: string, kind: Kind)
    requires var k := |Marker(kind)|;
             && |tail| == TailLength(kind)
             && tail[..k] == Marker(kind) && tail[k + 1..k + 4] == "csv" && tail[k + 5..] == "gz"
    ensures tail == Tail(kind, tail[|Marker(kind)|], tail[|Marker(kind)| + 4])
  {
    var k := |Marker(kind)|;
    assert tail == tail[..k] + [tail[k]] + tail[k + 1..k + 4] + [tail[k + 4]] + tail[k + 5..];
  }

  /** The character eight places from the end of the matched text: 'k' of "Book", 'e' of "MKtrade". */
  lemma EighthFromEnd(name: string, month: string, kind: Kind)
    ensures Matches(name, month, kind) ==>
              Body(name)[|Body(name)| - 8] == (if kind == Book then 'k' else 'e')
  {
  }

  /** A name is never selected both as a book file and as a trade file, whatever the months. */
  lemma KindsDisjoint(name: string, month1: string, month2: string)
    ensures !(Matches(name, month1, Book) && Matches(name, month2, Trade))
  {
    EighthFromEnd(name, month1, Book);
    EighthFromEnd(name, month2, Trade);
  }

  /** A selected name starts with its month and two digits, then '_'. */
  lemma Leading(name: string, month: string, kind: Kind)
    requires AllDigits(month)
    ensures Matches(name, month, kind) ==>
              && Body(name)[..|month|] == month
              && (forall i :: 0 <= i < |month| + 2 ==> IsDigit(Body(name)[i]))
              && Body(name)[|month| + 2] == '_'
  {
  }

  /** Two different digit months never select the same name, whatever the kinds: the comment at
      the selection ("make sure the file patterns are mutually exclusive") holds across shards. */
  lemma MonthsDisjoint(name: string, month1: string, month2: string, kind1: Kind, kind2: Kind)
    requires AllDigits(month1) && AllDigits(month2) && month1 != month2
    ensures !(Matches(name, month1, kind1) && Matches(name, month2, kind2))
  {
    Leading(name, month1, kind1);
    Leading(name, month2, kind2);
    assert Matches(name, month1, kind1) && Matches(name, month2, kind2) && |month1| == |month2|
           ==> month1 == month2;
  }

  /** `[x for x in entries if pattern.match(x) is not None]`. */
  function Select(entries: seq<string>, month: string, kind: Kind): (r: seq<string>)
    ensures forall x :: x in r <==> x in entries && Matches(x, month, kind)
    ensures |r| <= |entries|
  {
    if entries == [] then []
    else (if Matches(entries[0], month, kind) then [entries[0]] else []) + Select(entries[1..], month, kind)
  }

  /** The book and trade selections of any two months share no file. */
  lemma SelectionsDisjoint(entries: seq<string>, month1: string, month2: string)
    ensures forall x :: x in Select(entries, month1, Book) ==> x !in Select(entries, month2, Trade)
  {
    forall x | x in Select(entries, month1, Book)
      ensures x !in Select(entries, month2, Trade)
    {
      KindsDisjoint(x, month1, month2);
    }
  }

  /** Ascending in Python's order of str, stated on neighbours. */
  predicate Ascending(s: seq<string>) {
    forall k :: 0 < k < |s| ==> NotAfter(s[k - 1], s[k])
  }

  /** Neighbour order gives the order of every pair. */
  lemma {:induction false} AscendingPairwise(s: seq<string>)
    requires Ascending(s)
    ensures forall i, j :: 0 <= i < j < |s| ==> NotAfter(s[i], s[j])
    decreases |s|
  {
    if |s| > 1 {
      var s' := s[..|s| - 1];
      assert Ascending(s');
      AscendingPairwise(s');
      forall i | 0 <= i < |s| - 1
        ensures NotAfter(s[i], s[|s| - 1])
      {
        assert s[i] == s'[i];
        if i < |s| - 2 {
          NotAfterTransitive(s[i], s[|s| - 2], s[|s| - 1]);
        }
      }
    }
  }

  /** The sorted order of a collection is unique: two ascending sequences holding the same strings
      are equal, so the sort's result is determined by the selection alone. */
  lemma {:induction false} AscendingUnique(s: seq<string>, t: seq<string>)
    requires Ascending(s) && Ascending(t) && multiset(s) == multiset(t)
    ensures s == t
    decreases |s|
  {
    if s != [] {
      assert |t| == |s| by {
        assert |multiset(s)| == |multiset(t)|;
      }
      FirstIsLeast(s, t[0]);
      FirstIsLeast(t, s[0]);
      NotAfterAntisymmetric(s[0], t[0]);
      DropFirst(s, t);
      AscendingUnique(s[1..], t[1..]);
    }
  }

  /** The first of an ascending sequence comes no later than any of its members. */
  lemma FirstIsLeast(s: seq<string>, x: string)
    requires Ascending(s) && x in multiset(s)
    ensures NotAfter(s[0], x)
  {
    AscendingPairwise(s);
    var i :| 0 <= i < |s| && s[i] == x;
    if i == 0 {
      NotAfterTotal(x, x);
    }
  }

  /** Removing equal first elements keeps equal multisets and the order. */
  lemma DropFirst(s: seq<string>, t: seq<string>)
    requires s != [] && t != [] && s[0] == t[0] && multiset(s) == multiset(t)
    requires Ascending(s) && Ascending(t)
    ensures multiset(s[1..]) == multiset(t[1..]) && Ascending(s[1..]) && Ascending(t[1..])
  {
    assert s == [s[0]] + s[1..] && t == [t[0]] + t[1..];
    calc {
      multiset(s[1..]);
      multiset(s) - multiset{s[0]};
      multiset(t) - multiset{t[0]};
      multiset(t[1..]);
    }
    TailAscending(s);
    TailAscending(t);
  }

  /** An ascending sequence stays ascending without its first element. */
  lemma TailAscending(s: seq<string>)
    requires s != [] && Ascending(s)
    ensures Ascending(s[1..])
  {
    var u := s[1..];
    forall k | 0 < k < |u| ensures NotAfter(u[k - 1], u[k]) {
      assert u[k - 1] == s[k] && u[k] == s[k + 1];
    }
  }

  /** The inner loop's state while the element that started at `i` moves left: it sits at `j`,
      the parts before it and from it to `i` are ascending, and its neighbours are in order. */
  predicate Inserting(s: seq<string>, j: int, i: int) {
    && 0 <= j <= i < |s|
    && Ascending(s[..j]) && Ascending(s[j..i + 1])
    && (0 < j < i ==> NotAfter(s[j - 1], s[j + 1]))
  }

  /** Swapping the moving element with a larger left neighbour keeps the loop's state. */
  lemma InsertStep(s: seq<string>, j: int, i: int)
    requires Inserting(s, j, i) && j > 0 && !NotAfter(s[j - 1], s[j])
    ensures Inserting(s[j - 1 := s[j]][j := s[j - 1]], j - 1, i)
  {
    NotAfterTotal(s[j - 1], s[j]);
    var s' := s[j - 1 := s[j]][j := s[j - 1]];
    assert s'[..j - 1] == s[..j - 1];
    assert s'[j + 1..i + 1] == s[j + 1..i + 1];
    assert s'[j - 1..i + 1] == [s[j], s[j - 1]] + s[j + 1..i + 1];
    var u, v := s'[j - 1..i + 1], s[j..i + 1];
    forall k | 0 < k < |u|
      ensures NotAfter(u[k - 1], u[k])
    {
      if k >= 3 {
        assert u[k - 1] == v[k - 2] && u[k] == v[k - 1];
      }
    }
    if 0 < j - 1 {
      assert s[..j][j - 2] == s[j - 2] && s[..j][j - 1] == s[j - 1];
    }
  }

  /** Once the moving element has no larger left neighbour, the first `i + 1` are ascending. */
  lemma InsertDone(s: seq<string>, j: int, i: int)
    requires Inserting(s, j, i) && (j == 0 || NotAfter(s[j - 1], s[j]))
    ensures Ascending(s[..i + 1])
  {
    var u := s[..i + 1];
    forall k | 0 < k < |u|
      ensures NotAfter(u[k - 1], u[k])
    {
      if k < j {
        assert s[..j][k - 1] == s[k - 1] && s[..j][k] == s[k];
      } else if k > j {
        assert s[j..i + 1][k - 1 - j] == s[k - 1] && s[j..i + 1][k - j] == s[k];
      }
    }
  }

  /** Swapping two neighbours keeps the multiset. */
  lemma SwapKeeps(s: seq<string>, j: int)
    requires 0 < j < |s|
    ensures multiset(s[j - 1 := s[j]][j := s[j - 1]]) == multiset(s)
  {
  }

  /** `list.sort()` on a list of str: insertion into an ascending prefix, in place. */
  method SortInPlace(a: array<string>)
    modifies a
    ensures Ascending(a[..])
    ensures multiset(a[..]) == multiset(old(a[..]))
  {
    var i := 0;
    while i < a.Length
      invariant 0 <= i <= a.Length
      invariant Ascending(a[..i])
      invariant multiset(a[..]) == multiset(old(a[..]))
    {
      var j := i;
      assert a[..j] == a[..i] && a[j..i + 1] == [a[i]];
      while j > 0 && !NotAfter(a[j - 1], a[j])
        invariant Inserting(a[..], j, i)
        invariant multiset(a[..]) == multiset(old(a[..]))
      {
        ghost var s := a[..];
        InsertStep(s, j, i);
        SwapKeeps(s, j);
        a[j - 1], a[j] := a[j], a[j - 1];
        assert a[..] == s[j - 1 := s[j]][j := s[j - 1]];
        j := j - 1;
      }
      InsertDone(a[..], j, i);
      i := i + 1;
    }
    assert a[..a.Length] == a[..];
  }

  /** Lines 167-174 of setup_kdb.py (and 94-112 of the example): the entries the month's pattern
      selects, sorted ascending. */
  method SortedSelection(entries: seq<string>, month: string, kind: Kind) returns (files: seq<string>)
    ensures Ascending(files)
    ensures multiset(files) == multiset(Select(entries, month, kind))
  {
    var selected := Select(entries, month, kind);
    var a := new string[|selected|](i requires 0 <= i < |selected| => selected[i]);
    assert a[..] == selected;
    SortInPlace(a);
    files := a[..];
  }
}
