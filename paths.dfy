/** Windows path handling as the scripts use it: ntpath.join, ntpath.basename, the rewrite of
    backslashes to slashes, and `split("_")[0]`. */
module Paths {
  import opened Text

  predicate IsSep(c: char) { c == '/' || c == '\\' }

  /** A bare drive such as `I:`, which ntpath.join does not follow with a separator. */
  predicate IsDrive(d: string) { |d| == 2 && d[1] == ':' && !IsSep(d[0]) }

  /** What a directory listing can return on Windows: no separator and no ':' in the name. */
  predicate IsEntryName(name: string) {
    forall i :: 0 <= i < |name| ==> !IsSep(name[i]) && name[i] != ':'
  }

  /** The text ntpath.join puts before a drive-less, root-less second component. */
  function JoinPrefix(dir: string): string {
    if dir == [] || IsSep(dir[|dir| - 1]) || IsDrive(dir) then dir else dir + "\\"
  }

  /** `os.path.join(dir, name)` on Windows, for a `name` with no drive and no root. */
  function Join(dir: string, name: string): string {
    JoinPrefix(dir) + name
  }

  /** `p.replace("\\", "/")`. */
  function ToSlashes(p: string): (r: string)
    ensures '\\' !in r && |r| == |p|
  {
    ReplaceCharGone(p, '\\', "/");
    ReplaceLength(p);
    Replace(p, "\\", "/")
  }

  lemma {:induction false} ReplaceLength(p: string)
    ensures |Replace(p, "\\", "/")| == |p|
    decreases |p|
  {
    if p != [] {
      ReplaceLength(p[1..]);
    }
  }

  /** The part of `p` after its last separator. */
  function AfterLastSep(p: string): (r: string)
    ensures |r| <= |p| && r == p[|p| - |r|..]
    ensures forall i :: 0 <= i < |r| ==> !IsSep(r[i])
    ensures |r| < |p| ==> IsSep(p[|p| - |r| - 1])
    decreases |p|
  {
    if p == [] || IsSep(p[|p| - 1]) then [] else AfterLastSep(p[..|p| - 1]) + [p[|p| - 1]]
  }

  /** ntpath.basename: drop a leading drive, then keep what follows the last separator. */
  function Basename(p: string): string {
    AfterLastSep(if |p| >= 2 && p[1] == ':' && !IsSep(p[0]) then p[2..] else p)
  }

  /** `s.split("_")[0]`. */
  function FirstToken(s: string): (t: string)
    ensures |t| <= |s| && t == s[..|t|] && '_' !in t
    ensures |t| < |s| ==> s[|t|] == '_'
    decreases |s|
  {
    if s == [] || s[0] == '_' then [] else [s[0]] + FirstToken(s[1..])
  }

  /** What ntpath.join puts before the name, once slashed, is empty, a drive, or ends in '/'. */
  predicate IsDirText(q: string) {
    q == [] || IsDrive(q) || q[|q| - 1] == '/'
  }

  /** Slashing a joined path slashes the directory part and leaves a directory entry alone. */
  lemma SlashedJoin(dir: string, name: string)
    requires IsEntryName(name)
    ensures ToSlashes(Join(dir, name)) == ToSlashes(JoinPrefix(dir)) + name
    ensures IsDirText(ToSlashes(JoinPrefix(dir)))
  {
    ReplaceSplits(JoinPrefix(dir), name, "\\", "/");
    OccursChar(name, '\\');
    ReplaceAbsent(name, "\\", "/");
    var j := JoinPrefix(dir);
    if j != [] {
      if IsDrive(dir) && j == dir {
        assert ToSlashes(j) == j;
      } else {
        var init := j[..|j| - 1];
        assert j == init + [j[|j| - 1]];
        ReplaceSplits(init, [j[|j| - 1]], "\\", "/");
      }
    }
  }

  /** Removing ".gz" from a path whose directory part has the shape above removes it from the name
      alone, and the directory part keeps its shape. */
  lemma RemoveGzFromEntryPath(q: string, name: string)
    requires IsDirText(q)
    ensures Replace(q + name, ".gz", []) == Replace(q, ".gz", []) + Replace(name, ".gz", [])
    ensures IsDirText(Replace(q, ".gz", []))
  {
    ReplaceSplits(q, name, ".gz", []);
    if q != [] && !IsDrive(q) {
      var init := q[..|q| - 1];
      assert q == init + "/";
      ReplaceSplits(init, "/", ".gz", []);
    }
  }

  /** The basename of a directory text followed by a directory entry is the entry. */
  lemma BasenameOfEntry(q: string, name: string)
    requires IsDirText(q) && IsEntryName(name)
    ensures Basename(q + name) == name
  {
    var p := q + name;
    var rest := if |p| >= 2 && p[1] == ':' && !IsSep(p[0]) then p[2..] else p;
    // rest is name, or a tail of q ending in '/' followed by name
    assert rest == name || (|rest| > |name| && rest[|rest| - |name| - 1] == '/' && rest[|rest| - |name|..] == name) by {
      if IsDrive(q) {
        assert rest == name;
      } else if q == [] {
        assert |name| >= 2 ==> name[1] != ':';
        assert rest == name;
      }
    }
    AfterLastSepOfEntry(rest, name);
  }

  lemma {:induction false} AfterLastSepOfEntry(p: string, name: string)
    requires IsEntryName(name)
    requires p == name || (|p| > |name| && p[|p| - |name| - 1] == '/' && p[|p| - |name|..] == name)
    ensures AfterLastSep(p) == name
    decreases |name|
  {
    if name != [] {
      var p', name' := p[..|p| - 1], name[..|name| - 1];
      assert p[|p| - 1] == name[|name| - 1];
      if p != name {
        assert p'[|p'| - |name'|..] == name';
      }
      AfterLastSepOfEntry(p', name');
      assert name == name' + [name[|name| - 1]];
    }
  }
}
