/** POSIX path handling as Python's `os.path` does it: `join`, `splitext`, and the set of
    paths that `shutil.rmtree` removes. */
module Paths {
  import opened Text

  type Path = string

  /** `os.path.join(a, b)`: an absolute `b` replaces `a`; otherwise one '/' separates them
      unless `a` is empty or already ends with one. */
  function Join(a: Path, b: Path): (r: Path)
    ensures StartsWith(b, "/") ==> r == b
    ensures !StartsWith(b, "/") ==> EndsWith(r, b) && StartsWith(r, a)
  {
    if StartsWith(b, "/") then b
    else if a == "" || EndsWith(a, "/") then a + b
    else a + "/" + b
  }

  /** `p` is `dir` itself or lies below it: exactly the paths `shutil.rmtree(dir)` deletes. */
  predicate Under(p: Path, dir: Path) {
    p == dir || StartsWith(p, dir + "/")
  }

  /** `s.rfind(c)`: the position of the last `c`, or -1. */
  function LastIndexOf(s: string, c: char): (r: int)
    ensures -1 <= r < |s|
    ensures r >= 0 ==> s[r] == c
    ensures forall i :: r < i < |s| ==> s[i] != c
  {
    if s == [] then -1
    else if s[|s| - 1] == c then |s| - 1
    else LastIndexOf(s[..|s| - 1], c)
  }

  /** `os.path.splitext(p)`: the extension runs from the last '.' of the final component to
      the end, provided that component has something other than dots before that '.';
      otherwise the extension is empty. */
  function SplitExt(p: Path): (r: (Path, string))
    ensures r.0 + r.1 == p
    ensures r.1 == "" || r.1[0] == '.'
    ensures forall i :: 0 < i < |r.1| ==> r.1[i] != '.' && r.1[i] != '/'
  {
    var sep := LastIndexOf(p, '/');
    var dot := LastIndexOf(p, '.');
    if dot > sep && exists k :: sep + 1 <= k < dot && p[k] != '.' then
      assert p[..dot] + p[dot..] == p;
      (p[..dot], p[dot..])
    else (p, "")
  }

  /** The extension `os.path.splitext` reports. */
  function Ext(p: Path): string {
    SplitExt(p).1
  }

  /** A file name made of a stem (not only dots, no '/') and a '.'-led extension without
      further dots splits back into exactly those two parts. */
  lemma SplitExtOfName(stem: string, ext: string)
    requires '/' !in stem && exists k :: 0 <= k < |stem| && stem[k] != '.'
    requires '.' !in ext && '/' !in ext
    ensures SplitExt(stem + "." + ext) == (stem, "." + ext)
  {
    var p := stem + "." + ext;
    var dot := LastIndexOf(p, '.');
    var sep := LastIndexOf(p, '/');
    assert p[|stem|] == '.';
    assert forall i :: |stem| < i < |p| ==> p[i] == ext[i - |stem| - 1];
    assert dot == |stem|;
    assert forall i :: 0 <= i < |p| ==> p[i] != '/' by {
      forall i | 0 <= i < |p| ensures p[i] != '/' {
        if i < |stem| { assert p[i] == stem[i]; }
      }
    }
    assert sep == -1;
    var k :| 0 <= k < |stem| && stem[k] != '.';
    assert p[k] == stem[k];
    assert p[..dot] == stem;
    assert p[dot..] == "." + ext;
  }

  /** A name with no '.' at all has no extension. */
  lemma SplitExtNoDot(p: Path)
    requires '.' !in p
    ensures SplitExt(p) == (p, "")
  {
    assert LastIndexOf(p, '.') == -1;
  }

  /** Renaming a file to `stem` plus its old extension keeps that extension, as long as the
      new stem is a plain name with something other than dots in it (and, when there is no
      extension to keep, no dot of its own). */
  lemma ExtKept(stem: string, oldName: Path)
    requires '/' !in stem && exists k :: 0 <= k < |stem| && stem[k] != '.'
    requires Ext(oldName) != "" || '.' !in stem
    ensures Ext(stem + Ext(oldName)) == Ext(oldName)
  {
    var e := Ext(oldName);
    if e == "" {
      assert stem + e == stem;
      SplitExtNoDot(stem);
    } else {
      var tail := e[1..];
      assert e == "." + tail;
      assert '.' !in tail && '/' !in tail by {
        forall i | 0 <= i < |tail| ensures tail[i] != '.' && tail[i] != '/' {
          assert tail[i] == e[i + 1];
        }
      }
      SplitExtOfName(stem, tail);
      assert stem + e == stem + "." + tail;
    }
  }
}
