/** Relative POSIX paths: the parts a text names, the text a path prints as, and which texts are spelled that way. */
module Paths {
  import opened Text

  /** One component of a path. */
  type Name = s: string | s != "" && s != "." && '/' !in s witness "a"

  type Path = seq<Name>

  predicate StartsWith(s: string, prefix: string) { prefix <= s }

  predicate EndsWith(s: string, suffix: string) { |suffix| <= |s| && s[|s| - |suffix|..] == suffix }

  function Part(part: string): Path
    requires '/' !in part
  {
    if part == "" || part == "." then [] else [part]
  }

  function PartsFrom(part: string, rest: string): Path
    requires '/' !in part
    decreases |rest|
  {
    if rest == "" then Part(part)
    else if rest[0] == '/' then Part(part) + PartsFrom("", rest[1..])
    else PartsFrom(part + [rest[0]], rest[1..])
  }

  /** `Path(s)`: empty components and dots are dropped, so many texts name one path. */
  function Parts(s: string): Path { PartsFrom("", s) }

  /** `path.as_posix()` of anything but the root itself. */
  function Posix(p: Path): string { Join("/", p) }

  /** Spelled the way the path it names prints. */
  predicate Normal(s: string) { Posix(Parts(s)) == s }

  predicate Absolute(s: string) { StartsWith(s, "/") }

  lemma {:induction false} PartsFromName(part: string, name: string, rest: string)
    requires '/' !in part && '/' !in name
    ensures '/' !in part + name && PartsFrom(part, name + rest) == PartsFrom(part + name, rest)
    decreases |name|
  {
    if name == "" {
      assert name + rest == rest && part + name == part;
    } else {
      assert (name + rest)[1..] == name[1..] + rest;
      assert part + [name[0]] + name[1..] == part + name;
      PartsFromName(part + [name[0]], name[1..], rest);
    }
  }

  /** Printing a path loses nothing. */
  lemma {:induction false} PartsOfPosix(p: Path)
    ensures Parts(Posix(p)) == p
  {
    if p != [] {
      var tail := if |p| == 1 then "" else "/" + Posix(p[1..]);
      assert Posix(p) == p[0] + tail;
      PartsFromName("", p[0], tail);
      assert "" + p[0] == p[0];
      if 1 < |p| {
        assert tail[1..] == Posix(p[1..]);
        PartsOfPosix(p[1..]);
      }
    }
  }

  /** A trailing slash names nothing more. */
  lemma {:induction false} TrailingSlash(part: string, rest: string)
    requires '/' !in part
    ensures PartsFrom(part, rest + "/") == PartsFrom(part, rest)
    decreases |rest|
  {
    if rest == "" {
      assert (rest + "/")[1..] == "" && PartsFrom("", "") == [];
    } else {
      assert (rest + "/")[1..] == rest[1..] + "/";
      TrailingSlash(if rest[0] == '/' then "" else part + [rest[0]], rest[1..]);
    }
  }

  lemma FirstSlash(a: string, x: string)
    requires '/' !in a
    ensures var s := a + "/" + x; s[|a|] == '/' && forall i :: 0 <= i < |a| ==> s[i] != '/'
  {
    assert forall i :: 0 <= i < |a| ==> (a + "/" + x)[i] == a[i];
  }

  lemma FirstComponent(a: string, x: string, b: string, y: string)
    requires '/' !in a && '/' !in b
    ensures a + "/" + x <= b + "/" + y <==> a == b && x <= y
  {
    var s, t := a + "/" + x, b + "/" + y;
    FirstSlash(a, x);
    FirstSlash(b, y);
    if s <= t {
      assert forall i :: 0 <= i < |s| ==> s[i] == t[i];
      assert |a| == |b| && s[..|a|] == a && t[..|a|] == b && s[..|a|] == t[..|a|];
      assert s[|a| + 1..] == x && t[|a| + 1..] == y && s[|a| + 1..] <= t[|a| + 1..];
    }
    if a == b && x <= y { assert t[..|s|] == s; }
  }

  lemma NoSlash(a: string, x: string, b: string)
    requires '/' !in b
    ensures !(a + "/" + x <= b)
  {
    var s := a + "/" + x;
    assert s[|a|] == '/';
  }

  /** A path prints below a directory exactly when it is below it, and what follows is the rest of it. */
  lemma {:induction false} Below(d: Path, p: Path)
    requires d != []
    ensures Posix(d) + "/" <= Posix(p) <==> d < p
    ensures d < p ==> Posix(p)[|Posix(d)| + 1..] == Posix(p[|d|..])
  {
    var tail := if |d| == 1 then "" else Posix(d[1..]) + "/";
    assert Posix(d) + "/" == d[0] + "/" + tail;
    if |p| <= 1 {
      NoSlash(d[0], tail, Posix(p));
    } else {
      FirstComponent(d[0], tail, p[0], Posix(p[1..]));
      assert d < p <==> d[0] == p[0] && d[1..] < p[1..];
      if 1 < |d| {
        Below(d[1..], p[1..]);
        if d < p { assert p[1..][|d| - 1..] == p[|d|..]; }
      }
    }
  }

  lemma {:induction false} PosixConcat(a: Path, b: Path)
    requires a != [] && b != []
    ensures Posix(a + b) == Posix(a) + "/" + Posix(b)
  {
    if |a| == 1 {
      assert (a + b)[1..] == b;
    } else {
      assert (a + b)[1..] == a[1..] + b;
      PosixConcat(a[1..], b);
      assert a[0] + "/" + (Posix(a[1..]) + "/" + Posix(b)) == a[0] + "/" + Posix(a[1..]) + "/" + Posix(b);
    }
  }
}
