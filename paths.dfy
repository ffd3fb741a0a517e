/**
  POSIX path strings as `os.path` treats them: `join` glues with a single
  '/', and `abspath` anchors a path at the working directory and resolves
  "", "." and ".." components lexically.
*/
module Paths {
  import opened Text

  predicate IsAbsolute(p: string) {
    |p| > 0 && p[0] == '/'
  }

  predicate EndsWithSlash(p: string) {
    |p| > 0 && p[|p| - 1] == '/'
  }

  /** The '/' `os.path.join` adds after `a`: none when `a` is empty or ends with one. */
  function Sep(a: string): string {
    if |a| == 0 || EndsWithSlash(a) then "" else "/"
  }

  /** What `os.path.join(a, b)` puts in front of `b`: nothing when `b` is absolute. */
  function JoinLead(a: string, b: string): string {
    if IsAbsolute(b) then "" else a + Sep(a)
  }

  /** `os.path.join(a, b)`. */
  function Join(a: string, b: string): (r: string)
    ensures IsAbsolute(b) ==> r == b
    ensures !IsAbsolute(b) ==> r == a + Sep(a) + b
  {
    JoinLead(a, b) + b
  }

  /** `b` is the tail of `join(a, b)`. */
  lemma JoinEndsWith(a: string, b: string)
    ensures |Join(a, b)| >= |b| && Join(a, b)[|Join(a, b)| - |b|..] == b
  {
    var lead := JoinLead(a, b);
    assert (lead + b)[|lead|..] == b;
  }

  /** A relative `b` joined to a non-empty `a` without a trailing slash gets one '/'. */
  lemma JoinRelative(a: string, b: string)
    requires |a| > 0 && !EndsWithSlash(a) && !IsAbsolute(b)
    ensures Join(a, b) == a + "/" + b
  {
  }

  /** Joining to an absolute base keeps the result absolute. */
  lemma JoinAbsolute(a: string, b: string)
    requires IsAbsolute(a)
    ensures IsAbsolute(Join(a, b))
  {
  }

  /** `join(base, p)` for a relative `p` after a base that does not end in '/'. */
  lemma JoinAfterPlainEnd(base: string, p: string)
    requires |base| > 0 && base[|base| - 1] != '/'
    requires |p| > 0 && p[0] != '/'
    ensures Join(base, p) == base + "/" + p
  {
  }

  /** `join(join(join(top, a), b), c)` for parts neither starting nor ending with '/'. */
  lemma JoinFour(top: string, a: string, b: string, c: string)
    requires |a| > 0 && a[0] != '/' && a[|a| - 1] != '/'
    requires |b| > 0 && b[0] != '/' && b[|b| - 1] != '/'
    requires |c| > 0 && c[0] != '/'
    ensures Join(Join(Join(top, a), b), c) == top + Sep(top) + a + "/" + b + "/" + c
  {
    var first := top + Sep(top) + a;
    assert Join(top, a) == first;
    assert first[|first| - 1] == a[|a| - 1];
    JoinAfterPlainEnd(first, b);
    var second := first + "/" + b;
    assert second[|second| - 1] == b[|b| - 1];
    JoinAfterPlainEnd(second, c);
  }

  /** A name that `normpath` keeps as it is. */
  predicate IsName(c: string) {
    c != "" && c != "." && c != ".." && '/' !in c
  }

  /**
    One component of `normpath`'s stack for an absolute path: "" and "."
    vanish, ".." drops the last kept name (and is dropped at the root), every
    other component is kept.
  */
  function Step(kept: seq<string>, c: string): (r: seq<string>)
    requires forall i :: 0 <= i < |kept| ==> IsName(kept[i])
    requires '/' !in c
    ensures forall i :: 0 <= i < |r| ==> IsName(r[i])
  {
    if c == "" || c == "." then kept
    else if c == ".." then (if |kept| > 0 then kept[..|kept| - 1] else kept)
    else kept + [c]
  }

  /** `normpath`'s stack after all of `parts`, starting from `kept`. */
  function Resolve(kept: seq<string>, parts: seq<string>): (r: seq<string>)
    requires forall i :: 0 <= i < |kept| ==> IsName(kept[i])
    requires forall i :: 0 <= i < |parts| ==> '/' !in parts[i]
    ensures forall i :: 0 <= i < |r| ==> IsName(r[i])
    decreases |parts|
  {
    if |parts| == 0 then kept else Resolve(Step(kept, parts[0]), parts[1..])
  }

  /** The last component is one more step on the stack of the others. */
  lemma {:induction false} ResolveAppend(kept: seq<string>, parts: seq<string>, c: string)
    requires forall i :: 0 <= i < |kept| ==> IsName(kept[i])
    requires forall i :: 0 <= i < |parts| ==> '/' !in parts[i]
    requires '/' !in c
    ensures Resolve(kept, parts + [c]) == Step(Resolve(kept, parts), c)
    decreases |parts|
  {
    var all := parts + [c];
    if |parts| == 0 {
      assert all == [c];
    } else {
      assert all[0] == parts[0] && all[1..] == parts[1..] + [c];
      ResolveAppend(Step(kept, parts[0]), parts[1..], c);
    }
  }

  /** `'/'.join(names)`, the empty string for no names. */
  function Unsplit(names: seq<string>): (r: string)
    ensures |names| == 0 ==> r == ""
  {
    if |names| == 0 then "" else JoinWith(names, '/')
  }

  /** The names an absolute path resolves to, from the root down. */
  function Locate(cwd: string, p: string): (r: seq<string>)
    ensures forall i :: 0 <= i < |r| ==> IsName(r[i])
  {
    Resolve([], SplitOn(Join(cwd, p), '/'))
  }

  /**
    The leading slashes `normpath` keeps: POSIX leaves a path that starts
    with exactly two slashes implementation-defined, so Python keeps both.
  */
  function Root(p: string): (r: string)
    ensures r == "/" || r == "//"
  {
    if |p| >= 2 && p[..2] == "//" && (|p| == 2 || p[2] != '/') then "//" else "/"
  }

  /**
    `os.path.abspath(p)` with working directory `cwd`: `normpath` of
    `join(cwd, p)`.
  */
  function AbsPath(cwd: string, p: string): (r: string)
    requires IsAbsolute(cwd)
    ensures IsAbsolute(r)
  {
    Root(Join(cwd, p)) + Unsplit(Locate(cwd, p))
  }

  lemma SepAfterJoin(a: string, b: string)
    requires |b| > 0
    ensures Sep(a + Sep(a) + b) == Sep(b)
  {
    var ab := a + Sep(a) + b;
    assert ab[|ab| - 1] == b[|b| - 1];
  }

  lemma SepTwice(a: string)
    ensures Sep(a + Sep(a)) == ""
  {
  }

  lemma IsAbsoluteJoined(b: string, s: string, c: string)
    requires |b| > 0
    ensures IsAbsolute(b + s + c) == IsAbsolute(b)
  {
    assert (b + s + c)[0] == b[0];
  }

  /** `join` regroups freely: `join(a, join(b, c)) == join(join(a, b), c)`. */
  lemma JoinAssoc(a: string, b: string, c: string)
    ensures Join(a, Join(b, c)) == Join(Join(a, b), c)
  {
    if IsAbsolute(c) {
    } else if IsAbsolute(b) {
      IsAbsoluteJoined(b, Sep(b), c);
    } else if |b| == 0 {
      assert Join(b, c) == c;
      SepTwice(a);
      assert Join(a, b) == a + Sep(a);
    } else {
      IsAbsoluteJoined(b, Sep(b), c);
      SepAfterJoin(a, b);
      assert Join(a, b + Sep(b) + c) == a + Sep(a) + (b + Sep(b) + c);
      assert Join(a + Sep(a) + b, c) == (a + Sep(a) + b) + Sep(b) + c;
    }
  }

  /** The names of `join(base, name)` are those of `base` and then `name`. */
  lemma ResolveJoinName(base: string, name: string)
    requires IsName(name)
    ensures Resolve([], SplitOn(Join(base, name), '/')) == Resolve([], SplitOn(base, '/')) + [name]
  {
    assert !IsAbsolute(name) by {
      assert name[0] in name;
    }
    if EndsWithSlash(base) {
      var stem := base[..|base| - 1];
      assert base == stem + ['/'];
      assert Join(base, name) == stem + ['/'] + name;
      ResolveJoinNameAfterSlash(stem, name);
    } else if |base| == 0 {
      assert Join(base, name) == name;
      ResolveLoneName(name);
    } else {
      assert Join(base, name) == base + ['/'] + name;
      ResolveJoinNameNoSlash(base, name);
    }
  }

  lemma ResolveLoneName(name: string)
    requires IsName(name)
    ensures Resolve([], SplitOn(name, '/')) == Resolve([], SplitOn("", '/')) + [name]
  {
    SplitJoin([name], '/');
    assert Resolve([], [""]) == [];
  }

  lemma ResolveJoinNameNoSlash(base: string, name: string)
    requires IsName(name)
    ensures Resolve([], SplitOn(base + ['/'] + name, '/')) == Resolve([], SplitOn(base, '/')) + [name]
  {
    SplitAppend(base, name, '/');
    ResolveAppend([], SplitOn(base, '/'), name);
  }

  lemma ResolveJoinNameAfterSlash(stem: string, name: string)
    requires IsName(name)
    ensures Resolve([], SplitOn(stem + ['/'] + name, '/')) == Resolve([], SplitOn(stem + ['/'], '/')) + [name]
  {
    assert stem + ['/'] == stem + ['/'] + "";
    SplitAppend(stem, "", '/');
    SplitAppend(stem, name, '/');
    ResolveAppend([], SplitOn(stem, '/'), "");
    ResolveAppend([], SplitOn(stem, '/'), name);
  }

  /** The names of `join(p, name)` are those of `p` and then `name`. */
  lemma LocateJoinName(cwd: string, p: string, name: string)
    requires IsAbsolute(cwd) && IsName(name)
    ensures Locate(cwd, Join(p, name)) == Locate(cwd, p) + [name]
  {
    JoinAssoc(cwd, p, name);
    ResolveJoinName(Join(cwd, p), name);
  }

  lemma UnsplitAppend(names: seq<string>, name: string)
    requires |names| > 0
    ensures Unsplit(names + [name]) == Unsplit(names) + "/" + name
  {
    JoinWithAppend(names, name, '/');
  }

  /** An absolute path whose last component is a name ends in '/' and that name. */
  lemma AbsPathEndsWithName(cwd: string, p: string, name: string)
    requires IsAbsolute(cwd) && IsName(name)
    ensures var r := AbsPath(cwd, Join(p, name));
            |r| > |name| && r[|r| - |name| - 1..] == "/" + name
  {
    LocateJoinName(cwd, p, name);
    RootThenNames(Root(Join(cwd, Join(p, name))), Locate(cwd, p), name);
  }

  /** A root followed by names that end with `name` ends in '/' and that name. */
  lemma RootThenNames(root: string, names: seq<string>, name: string)
    requires root == "/" || root == "//"
    ensures var r := root + Unsplit(names + [name]);
            |r| > |name| && r[|r| - |name| - 1..] == "/" + name
  {
    var head: string;
    if |names| == 0 {
      assert names + [name] == [name];
      assert Unsplit([name]) == name;
      head := root[..|root| - 1];
      assert root == head + "/";
    } else {
      UnsplitAppend(names, name);
      head := root + Unsplit(names);
    }
    assert root + Unsplit(names + [name]) == head + ("/" + name);
    DropPrefix(head, "/" + name);
  }
}
