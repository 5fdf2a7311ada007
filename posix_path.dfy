/** The two `os.path` operations the exporter relies on, for POSIX paths. */
module PosixPath {

  /** `os.path.basename`: the longest suffix of `p` that holds no '/'. */
  function Basename(p: string): string
    decreases |p|
  {
    if p == [] || p[|p| - 1] == '/' then []
    else Basename(p[..|p| - 1]) + [p[|p| - 1]]
  }

  /** The base name is a suffix of the path without '/', and it starts right after a '/' when it
      is not the whole path. */
  lemma {:induction false} BasenameIsLastComponent(p: string)
    ensures var r := Basename(p);
      && |r| <= |p| && r == p[|p| - |r|..]
      && '/' !in r
      && (|r| < |p| ==> p[|p| - |r| - 1] == '/')
    decreases |p|
  {
    if p != [] && p[|p| - 1] != '/' {
      var init := p[..|p| - 1];
      BasenameIsLastComponent(init);
      var ri := Basename(init);
      assert p == init + [p[|p| - 1]];
      assert p[|p| - |ri| - 1..] == init[|init| - |ri|..] + [p[|p| - 1]];
    }
  }

  /** `os.path.join(a, b)`: an absolute `b` replaces `a`; otherwise a single '/' separates them. */
  function Join(a: string, b: string): string
  {
    if |b| > 0 && b[0] == '/' then b
    else if a == [] || a[|a| - 1] == '/' then a + b
    else a + "/" + b
  }

  /** Behind a '/' (or at the start), a name without '/' is the whole base name. */
  lemma {:induction false} BasenameAfterSeparator(x: string, name: string)
    requires x == [] || x[|x| - 1] == '/'
    requires '/' !in name
    ensures Basename(x + name) == name
    decreases |name|
  {
    var p := x + name;
    if name != [] {
      var init := name[..|name| - 1];
      assert name[|name| - 1] in name;
      assert p[..|p| - 1] == x + init;
      assert name == init + [name[|name| - 1]];
      assert '/' !in init by {
        assert multiset(name) == multiset(init) + multiset{name[|name| - 1]};
      }
      BasenameAfterSeparator(x, init);
    }
  }

  /** A file name without '/' joined onto any directory is that path's base name again. */
  lemma BasenameOfJoin(dir: string, name: string)
    requires '/' !in name
    ensures Basename(Join(dir, name)) == name
  {
    var x := if dir == [] || dir[|dir| - 1] == '/' then dir else dir + "/";
    assert name != [] ==> name[0] != '/' by {
      if name != [] { assert name[0] in name; }
    }
    assert Join(dir, name) == x + name;
    BasenameAfterSeparator(x, name);
  }
}
