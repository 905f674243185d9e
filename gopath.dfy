/** Go's lexical path handling on '/'-separated paths (package path and, on
    Unix, path/filepath): Clean, Join, Ext and Abs. A path is read as the
    pieces between slashes; Clean drops empty and "." pieces, lets ".."
    remove the piece before it, and writes the rest back with single
    slashes. */
module GoPath {
  import opened Wrappers
  import opened GoStrings

  /** A piece that Clean keeps as it is. */
  predicate IsName(seg: string) {
    seg != [] && seg != "." && seg != ".." && '/' !in seg
  }

  /** The pieces of a path without the empty and "." ones. */
  function Kept(parts: seq<string>): seq<string>
    decreases |parts|
  {
    if parts == [] then []
    else (if parts[0] == [] || parts[0] == "." then [] else [parts[0]]) + Kept(parts[1..])
  }

  /** The ".." processing of Clean over the kept pieces, left to right: a
      ".." removes the piece before it unless that is itself ".."; with
      nothing to remove it is dropped in a rooted path and kept otherwise. */
  function Resolve(segs: seq<string>, rooted: bool): seq<string>
    decreases |segs|
  {
    if segs == [] then []
    else
      var st := Resolve(segs[..|segs| - 1], rooted);
      var s := segs[|segs| - 1];
      if s != ".." then st + [s]
      else if st != [] && st[|st| - 1] != ".." then st[..|st| - 1]
      else if rooted then st
      else st + [".."]
  }

  /** path.Clean. */
  function Clean(p: string): string {
    if p == [] then "."
    else
      var body := Join(Resolve(Kept(Split(p, '/')), p[0] == '/'), '/');
      if p[0] == '/' then "/" + body
      else if body == [] then "."
      else body
  }

  /** filepath.Join: the non-empty elements from the first one on, joined by
      '/', cleaned; "" when every element is empty. */
  function JoinPath(elems: seq<string>): string
    decreases |elems|
  {
    if elems == [] then []
    else if elems[0] == [] then JoinPath(elems[1..])
    else Clean(Join(elems, '/'))
  }

  /** filepath.Abs with the working directory `cwd` (os.Getwd's result). */
  function Abs(p: string, cwd: Result<string>): Result<string> {
    if HasPrefix(p, "/") then Ok(Clean(p))
    else if cwd.Err? then Err(cwd.error)
    else Ok(JoinPath([cwd.value, p]))
  }

  /** filepath.Ext: the suffix from the last '.' of the last element, or "".
      A non-empty result is a suffix that starts with the last '.' and holds
      no '/'; it is empty only when every '.' has a '/' after it. */
  function Ext(p: string): (r: string)
    ensures r == [] || (r[0] == '.' && HasSuffix(p, r) && '/' !in r && '.' !in r[1..])
    ensures r == [] ==> forall k :: 0 <= k < |p| && p[k] == '.' ==> '/' in p[k + 1..]
    decreases |p|
  {
    if p == [] then []
    else if p[|p| - 1] == '/' then
      assert forall k :: 0 <= k < |p| && p[k] == '.' ==> '/' in p[k + 1..] by {
        forall k | 0 <= k < |p| && p[k] == '.'
          ensures '/' in p[k + 1..]
        {
          assert p[k + 1..][|p| - k - 2] == p[|p| - 1];
        }
      }
      []
    else if p[|p| - 1] == '.' then "."
    else
      var q := p[..|p| - 1];
      var e := Ext(q);
      if e == [] then
        assert forall k :: 0 <= k < |p| && p[k] == '.' ==> '/' in p[k + 1..] by {
          forall k | 0 <= k < |p| && p[k] == '.'
            ensures '/' in p[k + 1..]
          {
            assert q[k] == p[k];
            var m :| 0 <= m < |q[k + 1..]| && q[k + 1..][m] == '/';
            assert p[k + 1..][m] == q[k + 1..][m];
          }
        }
        []
      else e + [p[|p| - 1]]
  }

  /** The kept pieces of a split path are non-empty and slash-free. */
  lemma {:induction false} KeptPieces(parts: seq<string>)
    requires forall p <- parts :: '/' !in p
    ensures forall s <- Kept(parts) :: s != [] && s != "." && '/' !in s
    decreases |parts|
  {
    if parts != [] {
      KeptPieces(parts[1..]);
    }
  }

  /** Resolving keeps pieces non-empty and slash-free. */
  lemma {:induction false} ResolvePieces(segs: seq<string>, rooted: bool)
    requires forall s <- segs :: s != [] && '/' !in s
    ensures forall s <- Resolve(segs, rooted) :: s != [] && '/' !in s
    decreases |segs|
  {
    if segs != [] {
      var front := segs[..|segs| - 1];
      assert forall s <- front :: s in segs;
      ResolvePieces(front, rooted);
      var st := Resolve(front, rooted);
      assert segs[|segs| - 1] in segs;
      if st != [] {
        assert forall s <- st[..|st| - 1] :: s in st;
      }
    }
  }

  lemma {:induction false} KeptAppend(a: seq<string>, b: seq<string>)
    ensures Kept(a + b) == Kept(a) + Kept(b)
    decreases |a|
  {
    if a != [] {
      assert (a + b)[1..] == a[1..] + b;
      KeptAppend(a[1..], b);
    } else {
      assert a + b == b;
    }
  }

  lemma {:induction false} KeptNames(parts: seq<string>)
    requires forall p <- parts :: IsName(p)
    ensures Kept(parts) == parts
    decreases |parts|
  {
    if parts != [] {
      assert parts[0] in parts;
      KeptNames(parts[1..]);
      assert [parts[0]] + parts[1..] == parts;
    }
  }

  /** Plain names after the resolved prefix are appended as they are. */
  lemma {:induction false} ResolveNames(s: seq<string>, t: seq<string>, rooted: bool)
    requires forall n <- t :: IsName(n)
    ensures Resolve(s + t, rooted) == Resolve(s, rooted) + t
    decreases |t|
  {
    if t == [] {
      assert s + t == s;
    } else {
      var t' := t[..|t| - 1];
      assert (s + t)[..|s + t| - 1] == s + t';
      ResolveNames(s, t', rooted);
      var last := t[|t| - 1];
      assert last in t;
      assert (s + t)[|s + t| - 1] == last;
      assert Resolve(s + t, rooted) == Resolve(s + t', rooted) + [last];
      assert t == t' + [last];
    }
  }

  /** Cleaning a rooted path followed by plain names resolves the path and
      appends the names. */
  lemma CleanThenNames(dir: string, rel: string)
    requires dir != [] && dir[0] == '/'
    requires forall n <- Kept(Split(rel, '/')) :: n != ".."
    ensures Clean(dir + "/" + rel) == "/" + Join(Resolve(Kept(Split(dir, '/')), true) + Kept(Split(rel, '/')), '/')
  {
    var t := Kept(Split(rel, '/'));
    var s := Kept(Split(dir, '/'));
    var p := dir + "/" + rel;
    SplitConcat(dir, '/', rel);
    KeptAppend(Split(dir, '/'), Split(rel, '/'));
    assert Kept(Split(p, '/')) == s + t;
    KeptPieces(Split(rel, '/'));
    assert forall n <- t :: IsName(n);
    ResolveNames(s, t, true);
    assert p[0] == '/';
  }

  /** A clean absolute directory joined with a relative path whose pieces are
      all plain names (leading, doubled and "." slashes aside) is the
      directory, one slash, and those names: nothing is resolved away. */
  lemma JoinUnder(dir: string, rel: string)
    requires dir != [] && dir[0] == '/' && Clean(dir) == dir
    requires var t := Kept(Split(rel, '/')); t != [] && forall n <- t :: n != ".."
    ensures JoinPath([dir, rel]) == (if dir == "/" then "/" else dir + "/") + Join(Kept(Split(rel, '/')), '/')
  {
    var t := Kept(Split(rel, '/'));
    var st := Resolve(Kept(Split(dir, '/')), true);
    assert JoinPath([dir, rel]) == Clean(dir + "/" + rel) by {
      assert Join([dir, rel], '/') == dir + "/" + rel;
    }
    CleanThenNames(dir, rel);
    assert dir == "/" + Join(st, '/');
    if st == [] {
      assert st + t == t;
    } else {
      JoinConcat(st, t, '/');
      var js, jt := Join(st, '/'), Join(t, '/');
      Regroup("/", js, "/", jt);
      assert js != [] by {
        KeptPieces(Split(dir, '/'));
        ResolvePieces(Kept(Split(dir, '/')), true);
        JoinNoDoubleSlash(st);
      }
    }
  }

  /** A plain file name under a clean absolute directory. */
  lemma JoinName(dir: string, name: string)
    requires dir != [] && dir[0] == '/' && Clean(dir) == dir
    requires IsName(name)
    ensures JoinPath([dir, name]) == (if dir == "/" then "/" else dir + "/") + name
  {
    SplitNoSeparator(name, '/');
    assert Kept([name]) == [name];
    JoinUnder(dir, name);
  }

  lemma {:induction false} JoinNoDoubleSlash(segs: seq<string>)
    requires forall s <- segs :: s != [] && '/' !in s
    ensures var r := Join(segs, '/');
      (r == [] <==> segs == []) && (r != [] ==> r[0] != '/' && r[|r| - 1] != '/')
      && forall i :: 0 <= i < |r| - 1 ==> !(r[i] == '/' && r[i + 1] == '/')
    decreases |segs|
  {
    if |segs| > 1 {
      assert forall s <- segs[1..] :: s in segs;
      assert segs[0] in segs;
      JoinNoDoubleSlash(segs[1..]);
      var r := Join(segs, '/');
      var a, b := segs[0], Join(segs[1..], '/');
      assert r == a + "/" + b;
      forall i | 0 <= i < |r| - 1
        ensures !(r[i] == '/' && r[i + 1] == '/')
      {
        if i < |a| {
          assert r[i] == a[i];
        } else if i > |a| {
          assert r[i] == b[i - |a| - 1] && r[i + 1] == b[i - |a|];
        }
      }
    } else if |segs| == 1 {
      assert segs[0] in segs;
      assert Join(segs, '/') == segs[0];
    }
  }

  /** Clean never returns "" and never holds two slashes in a row. */
  lemma CleanNoDoubleSlash(p: string)
    ensures var r := Clean(p);
      r != [] && forall i :: 0 <= i < |r| - 1 ==> !(r[i] == '/' && r[i + 1] == '/')
  {
    if p != [] {
      KeptPieces(Split(p, '/'));
      ResolvePieces(Kept(Split(p, '/')), p[0] == '/');
      var st := Resolve(Kept(Split(p, '/')), p[0] == '/');
      JoinNoDoubleSlash(st);
      var body := Join(st, '/');
      if p[0] == '/' {
        var r := "/" + body;
        forall i | 0 <= i < |r| - 1
          ensures !(r[i] == '/' && r[i + 1] == '/')
        {
          if i > 0 {
            assert r[i] == body[i - 1] && r[i + 1] == body[i];
          }
        }
      }
    }
  }

  /** A slash followed by one plain name is already clean ("/workdir",
      "/root", "/bin"). */
  lemma CleanRootName(name: string)
    requires IsName(name)
    ensures Clean("/" + name) == "/" + name
  {
    var p := "/" + name;
    assert p == [] + "/" + name;
    SplitConcat([], '/', name);
    SplitNoSeparator(name, '/');
    assert Split(p, '/') == [[], name];
    assert [[], name][1..] == [name];
    assert Kept([name]) == [name] + Kept([]);
    assert Kept([[], name]) == [name];
    assert Resolve([name], true) == [] + [name];
  }
}
