/** The part of Node's `path` module the service uses, on clean paths: segments
    without trailing or doubled separators, so that `path.join` is plain
    concatenation with '/'. */
module NodePath {
  import opened Text

  /** path.join(dir, name) for clean segments. */
  function Join(dir: string, name: string): string
  {
    dir + "/" + name
  }

  /** s holds no occurrence of c. */
  predicate Lacks(s: string, c: char)
  {
    forall k :: 0 <= k < |s| ==> s[k] != c
  }

  /** The index of the last occurrence of c in s, or -1 when there is none. */
  function LastIndexOf(s: string, c: char): (i: int)
    ensures -1 <= i < |s|
    ensures i >= 0 ==> s[i] == c
    ensures forall k :: i < k < |s| ==> s[k] != c
  {
    if s == [] then -1
    else if s[|s| - 1] == c then |s| - 1
    else LastIndexOf(s[..|s| - 1], c)
  }

  /** path.basename(p): the last segment, which holds no separator and is
      either the whole path or the part after the last separator. */
  function Basename(p: string): (b: string)
    ensures |b| <= |p| && b == p[|p| - |b|..] && Lacks(b, '/')
    ensures |b| < |p| ==> p[|p| - |b| - 1] == '/'
  {
    p[LastIndexOf(p, '/') + 1..]
  }

  /** path.extname(p): from the last '.' of the last segment to its end, or
      empty when the segment has no '.', when its last dot is its first
      character, or when the segment is "..". */
  function ExtName(p: string): (e: string)
    ensures e != [] ==> e[0] == '.' && Lacks(e[1..], '.')
    ensures e != [] ==> |e| < |Basename(p)| && e == Basename(p)[|Basename(p)| - |e|..]
  {
    var b := Basename(p);
    var dot := LastIndexOf(b, '.');
    if dot <= 0 || b == ".." then "" else b[dot..]
  }

  /** path.basename(p, path.extname(p)): the last segment without its
      extension; never empty when the segment is not. */
  function Stem(p: string): (r: string)
    ensures r + ExtName(p) == Basename(p)
    ensures Basename(p) != "" ==> r != ""
  {
    var b := Basename(p);
    var e := ExtName(p);
    assert b == b[..|b| - |e|] + e;
    b[..|b| - |e|]
  }

  /** The last c of t + [c] + u is the one after t when u holds none. */
  lemma {:induction false} LastIndexAfter(t: string, c: char, u: string)
    requires Lacks(u, c)
    ensures LastIndexOf(t + [c] + u, c) == |t|
    decreases |u|
  {
    var s := t + [c] + u;
    if u != [] {
      var u' := u[..|u| - 1];
      assert s[..|s| - 1] == t + [c] + u';
      LastIndexAfter(t, c, u');
    }
  }

  lemma BasenameOfJoin(dir: string, name: string)
    requires Lacks(name, '/')
    ensures Basename(Join(dir, name)) == name
  {
    LastIndexAfter(dir, '/', name);
  }

  /** A file named name.ext written into any directory has extension .ext and
      stem name, as long as name and ext hold no separator and ext no dot. */
  lemma StemOfJoin(dir: string, name: string, ext: string)
    requires name != "" && Lacks(name, '/')
    requires ext != "" && Lacks(ext, '.') && Lacks(ext, '/')
    ensures ExtName(Join(dir, name + "." + ext)) == "." + ext
    ensures Stem(Join(dir, name + "." + ext)) == name
  {
    var seg := name + "." + ext;
    forall k | 0 <= k < |seg| ensures seg[k] != '/' {
      if k < |name| { assert seg[k] == name[k]; }
      else if k > |name| { assert seg[k] == ext[k - |name| - 1]; }
    }
    BasenameOfJoin(dir, seg);
    LastIndexAfter(name, '.', ext);
    assert |seg| >= 3;
    assert seg[|name|..] == "." + ext;
    assert seg[..|name|] == name;
  }

  /** Directories named by distinct separator-free identifiers under one root
      share no file: no path below one is a path below the other. */
  lemma DistinctDirsDisjoint(root: string, a: string, b: string, x: string, y: string)
    requires a != b && Lacks(a, '/') && Lacks(b, '/')
    ensures Join(Join(root, a), x) != Join(Join(root, b), y)
  {
    var p, q := Join(Join(root, a), x), Join(Join(root, b), y);
    var n := |root| + 1;
    if |a| < |b| {
      assert p[n + |a|] == '/' && q[n + |a|] == b[|a|];
    } else if |b| < |a| {
      assert q[n + |b|] == '/' && p[n + |b|] == a[|b|];
    } else {
      var k :| 0 <= k < |a| && a[k] != b[k];
      assert p[n + k] == a[k] && q[n + k] == b[k];
    }
  }
}
