/** Path names as the handlers use them: `os.path.join`, the entries
    `os.listdir` reports, and how the kernel resolves a path name against the
    directory tree, folding empty components, `.` and `..`. */
module Paths {
  import opened Wrappers
  import opened Text

  /** `dir` as `os.path.join` uses it for a relative second part: with a `/` after it
      unless it is empty or already ends with one. */
  function DirPrefix(dir: string): (p: string)
    ensures StartsWith(p, dir)
    ensures p == [] || EndsWith(p, "/")
  {
    if dir == [] || EndsWith(dir, "/") then dir else dir + "/"
  }

  /** `os.path.join(dir, name)`: an absolute `name` replaces `dir`. */
  function Join(dir: string, name: string): string
  {
    if StartsWith(name, "/") then name else DirPrefix(dir) + name
  }

  /** A name a directory can hold: non-empty, without `/`, and neither `.` nor `..`. */
  predicate IsName(name: string)
  {
    name != [] && '/' !in name && name != "." && name != ".."
  }

  /** `path` names an entry directly inside `dir`, as `os.listdir(dir)` reports it. */
  predicate IsEntry(dir: string, path: string)
  {
    var p := DirPrefix(dir);
    |p| <= |path| && StartsWith(path, p) && IsName(path[|p|..])
  }

  /** The name `os.listdir(dir)` gives for the entry `path`; joined back to `dir` it is `path`. */
  function EntryName(dir: string, path: string): (name: string)
    requires IsEntry(dir, path)
    ensures IsName(name)
    ensures Join(dir, name) == path && DirPrefix(dir) + name == path
  {
    var name := path[|DirPrefix(dir)|..];
    assert name[0] != '/' by { assert name[0] in name; }
    assert DirPrefix(dir) + name == path;
    name
  }

  /** Joining a name to a directory path without a trailing `/` puts one `/` between them. */
  lemma JoinName(dir: string, name: string)
    requires IsName(name)
    requires dir == "/" || (dir != [] && dir[|dir| - 1] != '/')
    ensures Join(dir, name) == if dir == "/" then "/" + name else dir + "/" + name
  {
    assert !StartsWith(name, "/") by { assert name[0] in name; }
    if dir != "/" {
      assert !EndsWith(dir, "/") by { assert dir[|dir| - 1..] != "/"; }
    }
  }

  /** The path up to its last `/`, without that `/`. */
  function DropLast(p: string): string
  {
    if p == [] then []
    else if p[|p| - 1] == '/' then p[..|p| - 1]
    else DropLast(p[..|p| - 1])
  }

  /** The directory `..` leads to from the resolved directory `p`; the root is its own parent. */
  function Parent(p: string): string
  {
    if p == "/" then "/"
    else
      var q := DropLast(p);
      if q == [] then "/" else q
  }

  /** Follows the components `cs` from the resolved directory `cur`. Every step
      needs `cur` to be a directory (otherwise the kernel reports `ENOTDIR` or
      `ENOENT`); empty components and `.` stay, `..` goes to the parent, and a
      name goes to the entry of that name. */
  function Walk(dirs: set<string>, cur: string, cs: seq<string>): Option<string>
    decreases |cs|
  {
    if cs == [] then Some(cur)
    else if cur !in dirs then None
    else if cs[0] == "" || cs[0] == "." then Walk(dirs, cur, cs[1..])
    else if cs[0] == ".." then Walk(dirs, Parent(cur), cs[1..])
    else Walk(dirs, Join(cur, cs[0]), cs[1..])
  }

  /** The path name the kernel looks up for `path`, or None when a component on
      the way is missing or not a directory. A relative path starts at `/`. */
  function Resolve(dirs: set<string>, path: string): Option<string>
  {
    if path == [] then None else Walk(dirs, "/", Split(path, '/'))
  }

  /** Walking two runs of components is walking the first and then the second. */
  lemma {:induction false} WalkAppend(dirs: set<string>, cur: string, xs: seq<string>, ys: seq<string>)
    ensures Walk(dirs, cur, xs + ys) ==
      (var w := Walk(dirs, cur, xs); if w.None? then None else Walk(dirs, w.value, ys))
    decreases |xs|
  {
    if xs == [] {
      assert xs + ys == ys;
    } else {
      assert (xs + ys)[1..] == xs[1..] + ys;
      if cur in dirs {
        var next := if xs[0] == "" || xs[0] == "." then cur
                    else if xs[0] == ".." then Parent(cur)
                    else Join(cur, xs[0]);
        WalkAppend(dirs, next, xs[1..], ys);
      }
    }
  }

  /** `os.path.join(dir, name)` resolves to the entry `name` of the directory `dir` resolves to. */
  lemma ResolveJoin(dirs: set<string>, dir: string, name: string, at: string)
    requires IsName(name)
    requires Resolve(dirs, dir) == Some(at) && at in dirs
    ensures Resolve(dirs, Join(dir, name)) == Some(Join(at, name))
  {
    assert !StartsWith(name, "/") by { assert name[0] in name; }
    SplitPlain(name, '/');
    var cs := Split(dir, '/');
    if EndsWith(dir, "/") {
      var d := dir[..|dir| - 1];
      assert dir == d + ['/'] + "";
      SplitConcat(d, "", '/');
      assert Join(dir, name) == d + ['/'] + name;
      SplitConcat(d, name, '/');
      WalkAppend(dirs, "/", Split(d, '/'), [""]);
      WalkAppend(dirs, "/", Split(d, '/'), [name]);
    } else {
      assert Join(dir, name) == dir + ['/'] + name;
      SplitConcat(dir, name, '/');
      WalkAppend(dirs, "/", cs, [name]);
    }
  }

  /** `dir + "/.."` resolves to the parent of the directory `dir` resolves to. */
  lemma ResolveUp(dirs: set<string>, dir: string, at: string)
    requires Resolve(dirs, dir) == Some(at) && at in dirs
    ensures Resolve(dirs, dir + "/..") == Some(Parent(at))
  {
    assert dir + "/.." == dir + ['/'] + "..";
    SplitPlain("..", '/');
    SplitConcat(dir, "..", '/');
    WalkAppend(dirs, "/", Split(dir, '/'), [".."]);
  }

  /** Dropping the last component of `d/name` gives `d`. */
  lemma {:induction false} DropLastName(d: string, name: string)
    requires '/' !in name
    ensures DropLast(d + "/" + name) == d
  {
    if name == [] {
      assert (d + "/" + name)[..|d + "/" + name| - 1] == d;
    } else {
      var init := name[..|name| - 1];
      assert '/' !in init by {
        forall i | 0 <= i < |init| ensures init[i] != '/' {
          assert init[i] == name[i];
        }
      }
      assert name[|name| - 1] in name;
      assert (d + "/" + name)[..|d + "/" + name| - 1] == d + "/" + init;
      DropLastName(d, init);
    }
  }

  /** The parent of the entry `name` of the resolved directory `d` is `d`. */
  lemma ParentOfJoin(d: string, name: string)
    requires IsName(name)
    requires d == "/" || (d != [] && d[|d| - 1] != '/')
    ensures Parent(Join(d, name)) == d
  {
    JoinName(d, name);
    if d == "/" {
      assert Join(d, name) == "" + "/" + name;
      DropLastName("", name);
      assert Join(d, name) != "/";
    } else {
      DropLastName(d, name);
      assert |Join(d, name)| > 1;
    }
  }

  /** The root resolves to itself whenever it is a directory. */
  lemma ResolveRoot(dirs: set<string>)
    requires "/" in dirs
    ensures Resolve(dirs, "/") == Some("/")
  {
    assert "/" == "" + ['/'] + "";
    SplitConcat("", "", '/');
    assert Split("/", '/') == ["", ""];
    assert Walk(dirs, "/", [""]) == Some("/");
  }
}
