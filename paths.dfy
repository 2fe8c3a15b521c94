/** The POSIX `os.path` functions the core uses: `basename`, `join` and
    `splitext`. */
module Paths {
  import opened Text

  /** `e` is a suffix of `s`. */
  predicate IsSuffix(e: string, s: string)
  {
    |e| <= |s| && s[|s| - |e|..] == e
  }

  lemma SuffixTransitive(a: string, b: string, c: string)
    requires IsSuffix(a, b) && IsSuffix(b, c)
    ensures IsSuffix(a, c)
  {
    assert c[|c| - |a|..] == c[|c| - |b|..][|b| - |a|..];
  }

  /** `os.path.basename(p)`: everything after the last '/', all of `p` when
      it has none, and "" when `p` ends with '/'. */
  function Basename(p: string): (b: string)
    ensures IsSuffix(b, p)
    ensures '/' !in b
    ensures |b| < |p| ==> p[|p| - |b| - 1] == '/'
  {
    if p == [] || p[|p| - 1] == '/' then []
    else Basename(p[..|p| - 1]) + [p[|p| - 1]]
  }

  /** A name without '/' is its own basename. */
  lemma {:induction false} BasenameOfName(name: string)
    requires '/' !in name
    ensures Basename(name) == name
  {
    if name != [] {
      BasenameOfName(name[..|name| - 1]);
      assert name == name[..|name| - 1] + [name[|name| - 1]];
    }
  }

  /** The basename of `dir/name` is `name`. */
  lemma {:induction false} BasenameAfterSlash(dir: string, name: string)
    requires '/' !in name
    ensures Basename(dir + "/" + name) == name
  {
    if name != [] {
      var p := dir + "/" + name;
      assert p[..|p| - 1] == dir + "/" + name[..|name| - 1];
      assert name[..|name| - 1] + [name[|name| - 1]] == name;
      BasenameAfterSlash(dir, name[..|name| - 1]);
    }
  }

  /** `os.path.join(dir, name)` for two components: an absolute `name`
      replaces `dir`; otherwise exactly one '/' separates them, none being
      added after a `dir` that is empty or already ends with '/'. */
  function Join(dir: string, name: string): (p: string)
    ensures IsSuffix(name, p)
    ensures (name == [] || name[0] != '/') ==> dir <= p
    ensures name != [] && name[0] == '/' ==> p == name
  {
    if name != [] && name[0] == '/' then name
    else if dir == [] || dir[|dir| - 1] == '/' then dir + name
    else dir + "/" + name
  }

  /** Joining a plain file name onto a directory and taking the basename
      gives the file name back. */
  lemma JoinBasename(dir: string, name: string)
    requires '/' !in name
    ensures Basename(Join(dir, name)) == name
  {
    if dir == [] {
      BasenameOfName(name);
    } else if dir[|dir| - 1] == '/' {
      assert dir + name == dir[..|dir| - 1] + "/" + name;
      BasenameAfterSlash(dir[..|dir| - 1], name);
    } else {
      BasenameAfterSlash(dir, name);
    }
  }

  // ---------------------------------------------------------------------------
  // os.path.splitext(p)[1]

  /** `s` without the dots it starts with. */
  function DropLeadingDots(s: string): (r: string)
    ensures IsSuffix(r, s)
    ensures r == [] || r[0] != '.'
  {
    if s != [] && s[0] == '.' then
      var r := DropLeadingDots(s[1..]);
      assert s[|s| - |r|..] == s[1..][|s| - 1 - |r|..];
      r
    else s
  }

  /** The suffix of `s` from its last '.', or "" when `s` has no '.'. */
  function FromLastDot(s: string): (r: string)
    ensures r == [] <==> '.' !in s
    ensures r != [] ==> r[0] == '.' && '.' !in r[1..]
    ensures IsSuffix(r, s)
  {
    if s == [] then []
    else
      var init, c := s[..|s| - 1], s[|s| - 1];
      assert s == init + [c];
      if c == '.' then "."
      else
        var r := FromLastDot(init);
        if r == [] then []
        else SuffixSnoc(r, init, c); r + [c]
  }

  /** A suffix of `s` followed by `c` ends `s + [c]`, and keeps its head. */
  lemma SuffixSnoc(r: string, s: string, c: char)
    requires r != [] && IsSuffix(r, s)
    ensures IsSuffix(r + [c], s + [c])
    ensures (r + [c])[1..] == r[1..] + [c]
  {
    assert (s + [c])[|s| - |r|..] == s[|s| - |r|..] + [c];
  }

  lemma NoSlashInSuffix(e: string, b: string)
    requires IsSuffix(e, b) && '/' !in b
    ensures '/' !in e
  {
    forall i | 0 <= i < |e|
      ensures e[i] != '/'
    {
      assert e[i] == b[|b| - |e| + i];
    }
  }

  /** `os.path.splitext(p)[1]`: within the last path component, ignoring the
      dots it starts with, the text from the last '.', or "" when there is
      no such dot. */
  function Ext(p: string): (e: string)
    ensures e == [] || (e[0] == '.' && '.' !in e[1..])
    ensures '/' !in e
    ensures IsSuffix(e, p)
  {
    var b := Basename(p);
    var d := DropLeadingDots(b);
    var e := FromLastDot(d);
    SuffixTransitive(e, d, b);
    SuffixTransitive(e, b, p);
    NoSlashInSuffix(e, b);
    e
  }

  lemma {:induction false} FromLastDotAfterDot(s: string, e: string)
    requires '.' !in e
    ensures FromLastDot(s + "." + e) == "." + e
  {
    if e != [] {
      var init, c := e[..|e| - 1], e[|e| - 1];
      var t := s + "." + init;
      assert e == init + [c];
      assert s + "." + e == t + [c];
      assert (t + [c])[..|t|] == t;
      FromLastDotAfterDot(s, init);
    }
  }

  /** A plain name `stem.e` whose stem does not start with a dot has
      extension `.e`. */
  lemma ExtOfName(stem: string, e: string)
    requires stem != [] && stem[0] != '.' && '/' !in stem
    requires '.' !in e && '/' !in e
    ensures Ext(stem + "." + e) == "." + e
  {
    var name := stem + "." + e;
    assert '/' !in name by {
      assert forall i :: 0 <= i < |name| ==> name[i] in stem || name[i] == '.' || name[i] in e;
    }
    BasenameOfName(name);
    FromLastDotAfterDot(stem, e);
  }

  // ---------------------------------------------------------------------------
  // Lower-casing commutes with taking the extension

  lemma {:induction false} BasenameLower(p: string)
    ensures Basename(Lower(p)) == Lower(Basename(p))
  {
    if p != [] && p[|p| - 1] != '/' {
      LowerInit(p);
      BasenameLower(p[..|p| - 1]);
      LowerSnoc(Basename(p[..|p| - 1]), p[|p| - 1]);
    }
  }

  lemma {:induction false} DropLeadingDotsLower(s: string)
    ensures DropLeadingDots(Lower(s)) == Lower(DropLeadingDots(s))
  {
    if s != [] && s[0] == '.' {
      assert Lower(s)[1..] == Lower(s[1..]);
      DropLeadingDotsLower(s[1..]);
    }
  }

  lemma {:induction false} FromLastDotLower(s: string)
    ensures FromLastDot(Lower(s)) == Lower(FromLastDot(s))
  {
    if s != [] && s[|s| - 1] != '.' {
      LowerInit(s);
      FromLastDotLower(s[..|s| - 1]);
      LowerSnoc(FromLastDot(s[..|s| - 1]), s[|s| - 1]);
    }
  }

  /** Taking the extension of the lower-cased name is lower-casing the
      extension. */
  lemma ExtLower(p: string)
    ensures Ext(Lower(p)) == Lower(Ext(p))
  {
    BasenameLower(p);
    DropLeadingDotsLower(Basename(p));
    FromLastDotLower(DropLeadingDots(Basename(p)));
  }
}
