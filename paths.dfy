/** The parts of Node's `path` module and of string handling that the services
    use: `basename`, `extname`, `join`, `toLowerCase` and `endsWith`. */
module Paths {
  import opened Wrappers

  /** `s.endsWith(suffix)`. */
  predicate EndsWith(s: string, suffix: string) {
    |suffix| <= |s| && s[|s| - |suffix|..] == suffix
  }

  /** A string ends with whatever is appended to it. */
  lemma EndsWithAppend(a: string, b: string)
    ensures EndsWith(a + b, b)
  {
    assert (a + b)[|a|..] == b;
  }

  /** Appending two strings without a separator gives none. */
  lemma NoSeparatorAppend(a: string, b: string)
    requires '/' !in a && '/' !in b
    ensures '/' !in a + b
  {
  }

  /** ASCII lower-casing of one character. */
  function LowerChar(c: char): (r: char)
    ensures 'A' <= c <= 'Z' ==> r as int == c as int + 32
    ensures !('A' <= c <= 'Z') ==> r == c
  {
    if 'A' <= c <= 'Z' then (c as int + 32) as char else c
  }

  /** `s.toLowerCase()` restricted to ASCII letters; no other character lowers
      to one of the ASCII letters compared against. */
  function ToLower(s: string): (r: string)
    ensures |r| == |s|
    ensures forall k :: 0 <= k < |s| ==> r[k] == LowerChar(s[k])
  {
    seq(|s|, k requires 0 <= k < |s| => LowerChar(s[k]))
  }

  /** `path.join(dir, name)` for a directory and a plain file name. */
  function Join(dir: string, name: string): (r: string)
    ensures |r| == |dir| + 1 + |name|
    ensures r[..|dir|] == dir && r[|dir|] == '/' && r[|dir| + 1..] == name
  {
    dir + "/" + name
  }

  /** Drops the separators at the end of a path, as `basename` ignores them. */
  function StripTrailingSlashes(p: string): (r: string)
    ensures |r| <= |p| && r == p[..|r|]
    ensures r == [] || r[|r| - 1] != '/'
    ensures forall k :: |r| <= k < |p| ==> p[k] == '/'
  {
    if |p| > 0 && p[|p| - 1] == '/' then StripTrailingSlashes(p[..|p| - 1]) else p
  }

  /** The longest suffix of `q` that holds no separator. */
  function AfterLastSlash(q: string): (r: string)
    ensures |r| <= |q| && r == q[|q| - |r|..]
    ensures '/' !in r
    ensures |r| < |q| ==> q[|q| - |r| - 1] == '/'
  {
    if q == [] || q[|q| - 1] == '/' then []
    else AfterLastSlash(q[..|q| - 1]) + [q[|q| - 1]]
  }

  /** `path.basename(p)` (POSIX): the last component, trailing separators ignored. */
  function Basename(p: string): (r: string)
    ensures '/' !in r
    ensures |r| <= |p|
  {
    AfterLastSlash(StripTrailingSlashes(p))
  }

  /** The index of the last '.' of `b`, if any. */
  function LastDot(b: string): (r: Option<nat>)
    ensures r.Some? ==> r.value < |b| && b[r.value] == '.' &&
                        forall j :: r.value < j < |b| ==> b[j] != '.'
    ensures r.None? ==> '.' !in b
  {
    if b == [] then None
    else if b[|b| - 1] == '.' then Some(|b| - 1)
    else LastDot(b[..|b| - 1])
  }

  /** The extension of a base name: from its last '.' to its end; empty
      when there is no '.', when the name starts with its only '.', or for "..". */
  function BaseExtension(b: string): (r: string)
    ensures r == [] || (r[0] == '.' && '.' !in r[1..])
    ensures r != [] ==> EndsWith(b, r) && |r| < |b|
    ensures LastDot(b).Some? && LastDot(b).value > 0 && b != ".." ==> r == b[LastDot(b).value..]
    ensures LastDot(b).None? || LastDot(b).value == 0 || b == ".." ==> r == []
  {
    var dot := LastDot(b);
    if dot.None? || dot.value == 0 || b == ".." then [] else b[dot.value..]
  }

  /** `path.extname(p)`: the extension of the base name. */
  function Extname(p: string): (r: string)
    ensures r == [] || (r[0] == '.' && '.' !in r[1..] && '/' !in r)
    ensures r != [] ==> EndsWith(Basename(p), r) && |r| < |Basename(p)|
    ensures var b := Basename(p);
            LastDot(b).Some? && LastDot(b).value > 0 && b != ".." ==> r == b[LastDot(b).value..]
    ensures var b := Basename(p);
            LastDot(b).None? || LastDot(b).value == 0 || b == ".." ==> r == []
  {
    var b := Basename(p);
    var e := BaseExtension(b);
    assert e != [] ==> e == b[|b| - |e|..];
    e
  }
}

/** Lower-casing commutes with the path functions: they only look for '/'
    and '.', which no other character lowers to. */
module PathsProofs {
  import opened Wrappers
  import opened Paths

  lemma LowerKeepsSeparators(c: char)
    ensures LowerChar(c) == '/' <==> c == '/'
    ensures LowerChar(c) == '.' <==> c == '.'
  {
  }

  lemma ToLowerAppend(a: string, b: string)
    ensures ToLower(a + b) == ToLower(a) + ToLower(b)
  {
  }

  lemma ToLowerSlice(s: string, i: nat, j: nat)
    requires i <= j <= |s|
    ensures ToLower(s[i..j]) == ToLower(s)[i..j]
  {
  }

  lemma {:induction false} StripTrailingSlashesLower(p: string)
    ensures StripTrailingSlashes(ToLower(p)) == ToLower(StripTrailingSlashes(p))
  {
    if |p| > 0 {
      LowerKeepsSeparators(p[|p| - 1]);
      ToLowerSlice(p, 0, |p| - 1);
      if p[|p| - 1] == '/' {
        StripTrailingSlashesLower(p[..|p| - 1]);
      }
    }
  }

  lemma {:induction false} AfterLastSlashLower(q: string)
    ensures AfterLastSlash(ToLower(q)) == ToLower(AfterLastSlash(q))
  {
    if q != [] {
      var n := |q|;
      var c := q[n - 1];
      var p := q[..n - 1];
      LowerKeepsSeparators(c);
      if c != '/' {
        assert q == p + [c];
        assert ToLower([c]) == [LowerChar(c)];
        calc {
          AfterLastSlash(ToLower(q));
          { ToLowerAppend(p, [c]); }
          AfterLastSlash(ToLower(p) + [LowerChar(c)]);
          { AfterLastSlashSnoc(ToLower(p), LowerChar(c)); }
          AfterLastSlash(ToLower(p)) + [LowerChar(c)];
          { AfterLastSlashLower(p); }
          ToLower(AfterLastSlash(p)) + ToLower([c]);
          { ToLowerAppend(AfterLastSlash(p), [c]); }
          ToLower(AfterLastSlash(p) + [c]);
          { AfterLastSlashSnoc(p, c); }
          ToLower(AfterLastSlash(q));
        }
      }
    }
  }

  /** One step of `AfterLastSlash` on a string ending in a non-separator. */
  lemma AfterLastSlashSnoc(p: string, c: char)
    requires c != '/'
    ensures AfterLastSlash(p + [c]) == AfterLastSlash(p) + [c]
  {
    assert (p + [c])[..|p|] == p;
  }

  /** A string without separators is its own last component. */
  lemma {:induction false} AfterLastSlashWhole(q: string)
    requires '/' !in q
    ensures AfterLastSlash(q) == q
  {
    if q != [] {
      AfterLastSlashWhole(q[..|q| - 1]);
      assert q == q[..|q| - 1] + [q[|q| - 1]];
    }
  }

  /** The base name is the last component: the longest suffix without a
      separator of the path with its trailing separators removed. */
  lemma BasenameIsLastComponent(p: string)
    ensures var q := StripTrailingSlashes(p);
            var r := Basename(p);
            |r| <= |q| && r == q[|q| - |r|..] && (|r| < |q| ==> q[|q| - |r| - 1] == '/')
  {
    var q := StripTrailingSlashes(p);
    var r := AfterLastSlash(q);
    assert Basename(p) == r;
  }

  /** A path without separators is its own base name. */
  lemma BasenameWhole(q: string)
    requires '/' !in q
    ensures Basename(q) == q
  {
    assert StripTrailingSlashes(q) == q;
    AfterLastSlashWhole(q);
  }

  /** The last '.' is at `k` when `b[k]` is one and none follows it. */
  lemma LastDotAt(b: string, k: nat)
    requires k < |b| && b[k] == '.'
    requires forall j :: k < j < |b| ==> b[j] != '.'
    ensures LastDot(b) == Some(k)
  {
    assert b[k] in b;
  }

  lemma {:induction false} LastDotLower(b: string)
    ensures LastDot(ToLower(b)) == LastDot(b)
  {
    if b != [] {
      LowerKeepsSeparators(b[|b| - 1]);
      if b[|b| - 1] != '.' {
        ToLowerSlice(b, 0, |b| - 1);
        LastDotLower(b[..|b| - 1]);
      }
    }
  }

  lemma BasenameLower(p: string)
    ensures Basename(ToLower(p)) == ToLower(Basename(p))
  {
    StripTrailingSlashesLower(p);
    AfterLastSlashLower(StripTrailingSlashes(p));
  }

  /** Only ".." lowers to "..". */
  lemma DotDotLower(b: string)
    ensures ToLower(b) == ".." <==> b == ".."
  {
    if |b| == 2 {
      LowerKeepsSeparators(b[0]);
      LowerKeepsSeparators(b[1]);
      assert ToLower(b) == [LowerChar(b[0]), LowerChar(b[1])];
    }
  }

  lemma BaseExtensionLower(b: string)
    ensures BaseExtension(ToLower(b)) == ToLower(BaseExtension(b))
  {
    var lb := ToLower(b);
    LastDotLower(b);
    DotDotLower(b);
    var dot := LastDot(b);
    if dot.None? || dot.value == 0 || b == ".." {
      assert BaseExtension(lb) == [];
      assert BaseExtension(b) == [];
    } else {
      assert BaseExtension(lb) == lb[dot.value..];
      assert BaseExtension(b) == b[dot.value..];
      ToLowerSlice(b, dot.value, |b|);
    }
  }

  /** `extname` of a lower-cased path is the lower-cased `extname`. */
  lemma ExtnameLower(p: string)
    ensures Extname(ToLower(p)) == ToLower(Extname(p))
  {
    BasenameLower(p);
    BaseExtensionLower(Basename(p));
  }

  lemma ToLowerIdempotent(s: string)
    ensures ToLower(ToLower(s)) == ToLower(s)
  {
  }
}
