/** The path arithmetic the scripts apply to object keys and file names:
    key.split('/')[-1], the folder prefix '/'.join(key.split('/')[:-1]) + '/',
    and os.path.splitext and os.path.join on POSIX paths. */
module Paths {
  import opened Common

  /** key.split('/')[-1]: the longest suffix of the path without a '/'. */
  function Basename(path: string): (name: string)
    ensures '/' !in name
    ensures EndsWith(path, name)
    ensures |name| < |path| ==> path[|path| - |name| - 1] == '/'
  {
    var i := LastIndexOf(path, '/') + 1;
    assert forall k :: 0 <= k < |path| - i ==> path[i..][k] == path[i + k];
    path[i..]
  }

  /** '/'.join(key.split('/')[:-1]) + '/' for a key holding a '/': the key
      up to and including its last '/'. */
  function Dir(path: string): (dir: string)
    requires '/' in path
    ensures EndsWith(dir, "/")
    ensures dir + Basename(path) == path
  {
    path[..LastIndexOf(path, '/') + 1]
  }

  /** Some character of s[lo..hi] is not a '.'. */
  predicate HasNonDot(s: string, lo: int, hi: int)
    requires 0 <= lo <= hi <= |s|
  {
    exists i :: lo <= i < hi && s[i] != '.'
  }

  /** os.path.splitext: split before the last '.' of the final component,
      unless nothing but dots precedes it there. */
  function SplitExt(p: string): (parts: (string, string))
    ensures parts.0 + parts.1 == p
    ensures parts.1 == [] || (parts.1[0] == '.' && '.' !in parts.1[1..] && '/' !in parts.1)
  {
    var sep := LastIndexOf(p, '/');
    var dot := LastIndexOf(p, '.');
    if dot > sep && HasNonDot(p, sep + 1, dot) then
      assert forall k :: 0 <= k < |p| - dot ==> p[dot..][k] == p[dot + k];
      (p[..dot], p[dot..])
    else
      (p, "")
  }

  /** splitext splits at the last '.' of the final component exactly when a
      non-dot precedes that '.' there: an extension starts after the last
      '/' with a non-dot before it, and without one no '.' follows a non-dot
      in the final component. */
  lemma SplitExtCharacterised(p: string)
    ensures SplitExt(p).1 != [] ==>
      LastIndexOf(p, '/') < |SplitExt(p).0| && HasNonDot(p, LastIndexOf(p, '/') + 1, |SplitExt(p).0|)
    ensures SplitExt(p).1 == [] ==>
      forall i, j :: LastIndexOf(p, '/') < i < j < |p| && p[i] != '.' ==> p[j] != '.'
  {
    var sep := LastIndexOf(p, '/');
    var dot := LastIndexOf(p, '.');
    if !(dot > sep && HasNonDot(p, sep + 1, dot)) {
      NoExtension(p, sep, dot);
    }
  }

  /** When splitext finds no extension, no '.' follows a non-dot in the
      final component, which starts after `sep`; `dot` is the last '.'. */
  lemma NoExtension(p: string, sep: int, dot: int)
    requires -1 <= sep < |p| && -1 <= dot < |p|
    requires forall j :: dot < j < |p| ==> p[j] != '.'
    requires dot <= sep || !HasNonDot(p, sep + 1, dot)
    ensures forall i, j :: sep < i < j < |p| && p[i] != '.' ==> p[j] != '.'
  {
    forall i, j | sep < i < j < |p| && p[i] != '.'
      ensures p[j] != '.'
    {
      if j <= dot {
        assert false;
      }
    }
  }

  /** Inserting text without '.' or '/' between the stem and the extension
      of a path keeps the extension: os.path.splitext splits the new path at
      the same extension. */
  lemma SplitExtInsert(p: string, t: string)
    requires '.' !in t && '/' !in t
    ensures SplitExt(SplitExt(p).0 + t + SplitExt(p).1) == (SplitExt(p).0 + t, SplitExt(p).1)
  {
    if SplitExt(p).1 == [] {
      SplitExtInsertNoExt(p, t);
    } else {
      SplitExtInsertExt(p, t);
    }
  }

  lemma SplitExtInsertNoExt(p: string, t: string)
    requires '.' !in t && '/' !in t
    requires SplitExt(p).1 == []
    ensures SplitExt(p + t) == (p + t, [])
  {
    var q := p + t;
    var sep := LastIndexOf(p, '/');
    var dot := LastIndexOf(p, '.');
    LastIndexOfAppend(p, t, '/');
    LastIndexOfAppend(p, t, '.');
    if dot > sep {
      assert !HasNonDot(p, sep + 1, dot);
      assert forall i :: sep + 1 <= i < dot ==> q[i] == p[i];
      assert !HasNonDot(q, sep + 1, dot);
    }
  }

  lemma SplitExtInsertExt(p: string, t: string)
    requires '.' !in t && '/' !in t
    requires SplitExt(p).1 != []
    ensures SplitExt(SplitExt(p).0 + t + SplitExt(p).1) == (SplitExt(p).0 + t, SplitExt(p).1)
  {
    var sep := LastIndexOf(p, '/');
    var dot := LastIndexOf(p, '.');
    var root, ext := p[..dot], p[dot..];
    assert SplitExt(p) == (root, ext);
    var r := root + t;
    var q := r + ext;
    assert p == root + ext;
    // The last '/' of the new path is the last '/' of the old one.
    LastIndexOfAppend(root, ext, '/');
    LastIndexOfAppend(root, t, '/');
    LastIndexOfAppend(r, ext, '/');
    assert LastIndexOf(q, '/') == sep;
    // The last '.' of the new path opens the extension.
    assert LastIndexOf(ext, '.') == 0;
    LastIndexOfAppend(r, ext, '.');
    assert LastIndexOf(q, '.') == |r|;
    // A non-dot still precedes it inside the final component.
    var i :| sep + 1 <= i < dot && p[i] != '.';
    assert q[i] == p[i];
    assert HasNonDot(q, sep + 1, |r|);
    assert q[..|r|] == r && q[|r|..] == ext;
  }

  /** os.path.join(a, b) for two components on POSIX. */
  function Join(a: string, b: string): (path: string)
    ensures EndsWith(path, b)
    ensures StartsWith(b, "/") ==> path == b
    ensures !StartsWith(b, "/") ==> path == a + b || path == a + "/" + b
    ensures !StartsWith(b, "/") ==> StartsWith(path, a)
  {
    if StartsWith(b, "/") then b
    else if a == [] || EndsWith(a, "/") then a + b
    else a + "/" + b
  }

  /** A file name joined under a directory is the last component of the result. */
  lemma JoinBasename(dir: string, name: string)
    requires '/' !in name
    ensures Basename(Join(dir, name)) == name
  {
    var path := Join(dir, name);
    assert name == [] || name[0] != '/';
    if !StartsWith(name, "/") && !(dir == [] || EndsWith(dir, "/")) {
      assert path == (dir + "/") + name;
      LastIndexOfAppend(dir + "/", name, '/');
      LastIndexOfAppend(dir, "/", '/');
    } else if dir != [] && EndsWith(dir, "/") {
      assert path == dir + name;
      LastIndexOfAppend(dir, name, '/');
      assert dir[|dir| - 1] == '/';
    }
  }
}
