/** Path keys.  `CleanPath` is the normaliser every table lookup goes through; `Clean` and
    `Dir` are the two functions of Go's path/filepath package it and the tree index rest on. */
module Paths {

  /** A component that names a directory entry. */
  predicate IsName(c: string) {
    c != "" && c != "." && c != ".." && '/' !in c
  }

  /** A key as the FUSE layer builds it: "." for the root, otherwise names joined by '/'. */
  predicate IsKey(p: string) {
    p == "." || forall c :: c in Split(p) ==> IsName(c)
  }

  predicate HasPrefix(s: string, prefix: string) {
    |prefix| <= |s| && s[..|prefix|] == prefix
  }

  /** strings.Split(s, "/") */
  function Split(s: string): (cs: seq<string>)
    ensures |cs| > 0
    ensures forall c :: c in cs ==> '/' !in c
  {
    if s == "" then [""]
    else
      var r := Split(s[1..]);
      if s[0] == '/' then [""] + r else [[s[0]] + r[0]] + r[1..]
  }

  /** strings.Join(cs, "/") */
  function Join(cs: seq<string>): string {
    if cs == [] then "" else if |cs| == 1 then cs[0] else cs[0] + "/" + Join(cs[1..])
  }

  lemma {:induction false} SplitNoSlash(c: string, rest: string)
    requires '/' !in c
    ensures Split(c) == [c]
    ensures Split(c + "/" + rest) == [c] + Split(rest)
  {
    if c == "" {
      assert (c + "/" + rest)[1..] == rest;
    } else {
      SplitNoSlash(c[1..], rest);
      assert (c + "/" + rest)[1..] == c[1..] + "/" + rest;
      assert [c[0]] + c[1..] == c;
    }
  }

  lemma {:induction false} SplitJoin(cs: seq<string>)
    requires cs != []
    requires forall c :: c in cs ==> '/' !in c
    ensures Split(Join(cs)) == cs
  {
    if |cs| == 1 {
      SplitNoSlash(cs[0], "");
    } else {
      SplitNoSlash(cs[0], Join(cs[1..]));
      SplitJoin(cs[1..]);
    }
  }

  lemma {:induction false} JoinSplit(s: string)
    ensures Join(Split(s)) == s
  {
    if s != "" {
      JoinSplit(s[1..]);
      var r := Split(s[1..]);
      if s[0] == '/' {
        assert ([""] + r)[1..] == r;
      } else if |r| > 1 {
        assert ([[s[0]] + r[0]] + r[1..])[1..] == r[1..];
      }
    }
  }

  /** The components of a path after one more character in front. */
  function Headed(c: char, cs: seq<string>): seq<string>
    requires cs != []
  {
    if c == '/' then [""] + cs else [[c] + cs[0]] + cs[1..]
  }

  lemma SplitHead(c: char, s: string)
    ensures Split([c] + s) == Headed(c, Split(s))
  {
    assert ([c] + s)[1..] == s;
  }

  lemma HeadedAppend(c: char, cs: seq<string>, ds: seq<string>)
    requires cs != []
    ensures Headed(c, cs + ds) == Headed(c, cs) + ds
  {
    assert (cs + ds)[0] == cs[0] && (cs + ds)[1..] == cs[1..] + ds;
  }

  lemma Regroup(c: char, q: string, rest: string, p: string)
    requires p == [c] + q
    ensures p + "/" + rest == [c] + (q + "/" + rest)
  {
  }

  lemma {:induction false} SplitAppend(p: string, rest: string)
    ensures Split(p + "/" + rest) == Split(p) + Split(rest)
  {
    if p == "" {
      assert (p + "/" + rest)[1..] == rest;
    } else {
      var c, q := p[0], p[1..];
      assert p == [c] + q;
      Regroup(c, q, rest, p);
      SplitAppend(q, rest);
      SplitHead(c, q);
      SplitHead(c, q + "/" + rest);
      HeadedAppend(c, Split(q), Split(rest));
    }
  }

  // ---- filepath.Clean ----

  /** One component met by filepath.Clean, with the components kept so far. */
  function Push(rooted: bool, kept: seq<string>, c: string): seq<string> {
    if c == "" || c == "." then kept
    else if c == ".." then
      if kept != [] && kept[|kept| - 1] != ".." then kept[..|kept| - 1]
      else if rooted then kept
      else kept + [c]
    else kept + [c]
  }

  function Normalize(rooted: bool, kept: seq<string>, cs: seq<string>): seq<string>
    decreases |cs|
  {
    if cs == [] then kept else Normalize(rooted, Push(rooted, kept, cs[0]), cs[1..])
  }

  function Clean(p: string): string {
    if p == "" then "."
    else
      var rooted := p[0] == '/';
      var kept := Normalize(rooted, [], Split(p));
      if rooted then "/" + Join(kept) else if kept == [] then "." else Join(kept)
  }

  /** filepath.Join of a non-empty directory and a name */
  function JoinPath(dir: string, name: string): string {
    Clean(dir + "/" + name)
  }

  function CleanPath(path: string): string {
    if path == "." || path == "/" || path == "" then "."
    else
      var c := Clean(path);
      if c == "/" then "."
      else
        var t := if HasPrefix(c, "/") then c[1..] else c;
        if t == "" then "." else t
  }

  /** Components that Clean leaves alone: a run of ".." and then names. */
  predicate Settled(kept: seq<string>) {
    && (forall i :: 0 <= i < |kept| ==> IsName(kept[i]) || kept[i] == "..")
    && (forall i, j :: 0 <= i < j < |kept| && kept[j] == ".." ==> kept[i] == "..")
  }

  predicate NoDotDot(kept: seq<string>) {
    forall i :: 0 <= i < |kept| ==> kept[i] != ".."
  }

  lemma {:induction false} NormalizeSettles(rooted: bool, kept: seq<string>, cs: seq<string>)
    requires Settled(kept) && (rooted ==> NoDotDot(kept))
    requires forall c :: c in cs ==> '/' !in c
    ensures Settled(Normalize(rooted, kept, cs))
    ensures rooted ==> NoDotDot(Normalize(rooted, kept, cs))
    decreases |cs|
  {
    if cs != [] {
      assert cs[0] in cs;
      NormalizeSettles(rooted, Push(rooted, kept, cs[0]), cs[1..]);
    }
  }

  lemma {:induction false} NormalizeKeeps(kept: seq<string>, cs: seq<string>)
    requires Settled(kept + cs)
    ensures Normalize(false, kept, cs) == kept + cs
    decreases |cs|
  {
    if cs == [] {
      assert kept + cs == kept;
    } else {
      var all := kept + cs;
      assert all[|kept|] == cs[0];
      if cs[0] == ".." && kept != [] {
        assert all[|kept| - 1] == kept[|kept| - 1];
      }
      assert Push(false, kept, cs[0]) == kept + [cs[0]];
      assert kept + [cs[0]] + cs[1..] == all;
      NormalizeKeeps(kept + [cs[0]], cs[1..]);
    }
  }

  lemma NoSlashPrefix(s: string)
    requires s != "" && s[0] != '/'
    ensures !HasPrefix(s, "/")
  {
    assert s[..1][0] == s[0];
  }

  lemma {:induction false} JoinSettled(kept: seq<string>)
    requires Settled(kept) && kept != []
    ensures Join(kept) != "" && Join(kept)[0] != '/' && Join(kept) != "."
    ensures Split(Join(kept)) == kept
  {
    SplitJoin(kept);
    SplitNoSlash(".", "");
    assert IsName(kept[0]) || kept[0] == "..";
    assert Join(kept)[0] == kept[0][0] && kept[0][0] in kept[0];
  }

  /** A settled relative path is its own key. */
  lemma CleanPathOfSettled(kept: seq<string>)
    requires Settled(kept) && kept != []
    ensures Clean(Join(kept)) == Join(kept)
    ensures CleanPath(Join(kept)) == Join(kept)
  {
    JoinSettled(kept);
    assert [] + kept == kept;
    NormalizeKeeps([], kept);
    assert Clean(Join(kept)) == Join(kept);
    NoSlashPrefix(Join(kept));
  }

  lemma CleanPathSettled(path: string) returns (kept: seq<string>)
    ensures Settled(kept)
    ensures CleanPath(path) == if kept == [] then "." else Join(kept)
    ensures path != "" && path[0] == '/' ==> NoDotDot(kept)
  {
    if path == "." || path == "/" || path == "" {
      kept := [];
    } else {
      var rooted := path[0] == '/';
      kept := Normalize(rooted, [], Split(path));
      NormalizeSettles(rooted, [], Split(path));
      if kept != [] {
        JoinSettled(kept);
        var s := Join(kept);
        if rooted {
          assert ("/" + s)[..1] == "/" && ("/" + s)[1..] == s;
        } else {
          NoSlashPrefix(s);
        }
      } else if rooted {
        assert "/" + Join(kept) == "/";
      }
    }
  }

  /** Looking a key up again normalises it to itself, whatever string it came from. */
  lemma CleanPathIdempotent(path: string)
    ensures CleanPath(CleanPath(path)) == CleanPath(path)
    ensures CleanPath(path) != "" && CleanPath(path)[0] != '/'
  {
    var kept := CleanPathSettled(path);
    if kept != [] {
      JoinSettled(kept);
      CleanPathOfSettled(kept);
    }
  }

  lemma KeyIsClean(p: string)
    requires IsKey(p)
    ensures CleanPath(p) == p && p != "" && p[0] != '/'
  {
    if p != "." {
      JoinSplit(p);
      assert Settled(Split(p)) by {
        forall i | 0 <= i < |Split(p)| ensures IsName(Split(p)[i]) {
          assert Split(p)[i] in Split(p);
        }
      }
      JoinSettled(Split(p));
      CleanPathOfSettled(Split(p));
    }
  }

  /** The key of entry `name` of directory `dir`. */
  function Child(dir: string, name: string): string {
    if dir == "." then name else dir + "/" + name
  }

  lemma ChildIsKey(dir: string, name: string)
    requires IsKey(dir) && IsName(name)
    ensures IsKey(Child(dir, name)) && Split(Child(dir, name)) == (if dir == "." then [] else Split(dir)) + [name]
  {
    SplitNoSlash(name, "");
    SplitAppend(dir, name);
  }

  /** Clean drops the "." that a join with the root begins with, and nothing else. */
  lemma CleanJoin(dir: string, name: string)
    requires IsKey(dir) && IsName(name)
    ensures Normalize(false, [], Split(dir + "/" + name)) == Split(Child(dir, name))
  {
    ChildIsKey(dir, name);
    SplitNoSlash(name, "");
    SplitAppend(dir, name);
    SplitNoSlash(".", "");
    if dir == "." {
      assert ["."] + [name] == [".", name] && [".", name][1..] == [name] && [name][1..] == [];
      assert Normalize(false, [], [name]) == [name];
    } else {
      KeySettles(Child(dir, name));
      assert [] + Split(Child(dir, name)) == Split(Child(dir, name));
      NormalizeKeeps([], Split(Child(dir, name)));
    }
  }

  lemma KeySettles(p: string)
    requires IsKey(p) && p != "."
    ensures Settled(Split(p))
  {
    forall i | 0 <= i < |Split(p)| ensures IsName(Split(p)[i]) { assert Split(p)[i] in Split(p); }
  }

  /** CleanPath(filepath.Join(dir, name)) is plain concatenation on keys. */
  lemma ChildKey(dir: string, name: string)
    requires IsKey(dir) && IsName(name)
    ensures IsKey(Child(dir, name))
    ensures CleanPath(JoinPath(dir, name)) == Child(dir, name)
    ensures CleanPath(Child(dir, name)) == Child(dir, name)
  {
    ChildIsKey(dir, name);
    KeyIsClean(dir);
    KeyIsClean(Child(dir, name));
    CleanJoin(dir, name);
    JoinSplit(Child(dir, name));
    assert (dir + "/" + name)[0] == dir[0];
    assert JoinPath(dir, name) == Child(dir, name);
  }

  // ---- filepath.Dir ----

  function LastSlash(p: string): (i: int)
    ensures -1 <= i < |p|
    ensures i >= 0 ==> p[i] == '/'
    ensures forall j :: i < j < |p| ==> p[j] != '/'
  {
    if p == "" then -1
    else if p[|p| - 1] == '/' then |p| - 1
    else LastSlash(p[..|p| - 1])
  }

  function Dir(p: string): string {
    Clean(p[..LastSlash(p) + 1])
  }

  function Size(cs: seq<string>): nat {
    if cs == [] then 0 else |cs[0]| + 1 + Size(cs[1..])
  }

  lemma {:induction false} SizeSnoc(cs: seq<string>, c: string)
    ensures Size(cs + [c]) == Size(cs) + |c| + 1
  {
    if cs == [] {
      assert cs + [c] == [c];
    } else {
      SizeSnoc(cs[1..], c);
      assert (cs + [c])[1..] == cs[1..] + [c];
    }
  }

  lemma {:induction false} JoinSize(cs: seq<string>)
    ensures |Join(cs)| == if cs == [] then 0 else Size(cs) - 1
  {
    if |cs| > 1 { JoinSize(cs[1..]); }
  }

  lemma {:induction false} NormalizeShrinks(rooted: bool, kept: seq<string>, cs: seq<string>)
    ensures Size(Normalize(rooted, kept, cs)) <= Size(kept) + Size(cs)
    ensures cs != [] && cs[|cs| - 1] == "" ==> Size(Normalize(rooted, kept, cs)) <= Size(kept) + Size(cs) - 1
    decreases |cs|
  {
    if cs != [] {
      var c := cs[0];
      SizeSnoc(kept, c);
      if kept != [] {
        SizeSnoc(kept[..|kept| - 1], kept[|kept| - 1]);
        assert kept[..|kept| - 1] + [kept[|kept| - 1]] == kept;
      }
      assert Size(Push(rooted, kept, c)) <= Size(kept) + |c| + 1;
      NormalizeShrinks(rooted, Push(rooted, kept, c), cs[1..]);
    }
  }

  /** Cleaning a name with a trailing slash drops at least the slash. */
  lemma CleanShrinks(body: string)
    requires body != ""
    ensures var q := body + "/"; Clean(q) == "." || Clean(q) == "/" || |Clean(q)| <= |body|
  {
    var q := body + "/";
    var cs := Split(q);
    var kept := Normalize(q[0] == '/', [], cs);
    JoinSplit(q);
    JoinSize(cs);
    JoinSize(kept);
    assert q == body + "/" + "";
    SplitAppend(body, "");
    if q[0] == '/' {
      RootedShrinks(cs);
    } else {
      NormalizeShrinks(false, [], cs);
    }
  }

  /** Of a rooted name the empty first component goes as well. */
  lemma RootedShrinks(cs: seq<string>)
    requires |cs| >= 2 && cs[0] == "" && cs[|cs| - 1] == ""
    ensures Size(Normalize(true, [], cs)) <= Size(cs) - 2
  {
    assert Push(true, [], "") == [];
    NormalizeShrinks(true, [], cs[1..]);
    assert cs[1..][|cs| - 2] == "";
  }

  /** Walking up with filepath.Dir reaches "." or "/": each other step is shorter. */
  lemma DirShrinks(d: string)
    requires d != "." && d != "/"
    ensures Dir(d) == "." || Dir(d) == "/" || |Dir(d)| < |d|
  {
    var q := d[..LastSlash(d) + 1];
    if |q| >= 2 {
      assert q == q[..|q| - 1] + "/";
      CleanShrinks(q[..|q| - 1]);
    } else if |q| == 1 {
      SlashIsClean(q);
    }
  }

  lemma SlashIsClean(q: string)
    requires q == "/"
    ensures Clean(q) == "/"
  {
    assert q == ['/'] + "";
    SplitHead('/', "");
    assert ["", ""][1..] == [""] && [""][1..] == [];
    assert Normalize(true, [], [""]) == [];
    assert Normalize(true, [], ["", ""]) == [];
    assert "/" + Join([]) == "/";
  }

  lemma LastSlashIs(p: string, i: int)
    requires -1 <= i < |p| && (i >= 0 ==> p[i] == '/') && forall j :: i < j < |p| ==> p[j] != '/'
    ensures LastSlash(p) == i
  {
  }

  /** Clean drops a trailing slash of a key. */
  lemma CleanDirKey(dir: string)
    requires IsKey(dir) && dir != "."
    ensures Clean(dir + "/") == dir
  {
    var kept := Split(dir);
    assert dir + "/" + "" == dir + "/";
    SplitAppend(dir, "");
    KeyIsClean(dir);
    JoinSplit(dir);
    assert Settled(kept) by {
      forall j | 0 <= j < |kept| ensures IsName(kept[j]) { assert kept[j] in kept; }
    }
    NormalizeAppend(false, [], kept, [""]);
    assert [] + kept == kept;
    NormalizeKeeps([], kept);
    assert Normalize(false, kept, [""]) == kept;
    assert (dir + "/")[0] == dir[0];
  }

  /** On keys, Dir cuts the last component off. */
  lemma DirOfChild(dir: string, name: string)
    requires IsKey(dir) && IsName(name)
    ensures Dir(Child(dir, name)) == dir
  {
    var p := Child(dir, name);
    forall k | 0 <= k < |name| ensures name[k] != '/' { assert name[k] in name; }
    if dir == "." {
      LastSlashIs(p, -1);
      assert p[..0] == "";
    } else {
      forall k | |dir| < k < |p| ensures p[k] != '/' { assert p[k] == name[k - |dir| - 1]; }
      LastSlashIs(p, |dir|);
      assert p[..|dir| + 1] == dir + "/";
      CleanDirKey(dir);
    }
  }

  lemma {:induction false} NormalizeAppend(rooted: bool, kept: seq<string>, cs: seq<string>, ds: seq<string>)
    ensures Normalize(rooted, kept, cs + ds) == Normalize(rooted, Normalize(rooted, kept, cs), ds)
    decreases |cs|
  {
    if cs == [] {
      assert cs + ds == ds;
    } else {
      assert (cs + ds)[1..] == cs[1..] + ds;
      NormalizeAppend(rooted, Push(rooted, kept, cs[0]), cs[1..], ds);
    }
  }

  lemma {:induction false} JoinSnoc(cs: seq<string>, last: string)
    requires cs != []
    ensures Join(cs + [last]) == Join(cs) + "/" + last
  {
    if |cs| > 1 {
      JoinSnoc(cs[1..], last);
      assert (cs + [last])[1..] == cs[1..] + [last];
    }
  }

  /** Every key other than the root is a named child of the key Dir gives. */
  lemma KeyHasParent(p: string) returns (name: string)
    requires IsKey(p) && p != "."
    ensures IsKey(Dir(p)) && IsName(name) && p == Child(Dir(p), name)
    ensures Dir(p) != p
  {
    var cs := Split(p);
    JoinSplit(p);
    name := cs[|cs| - 1];
    assert name in cs;
    var init := cs[..|cs| - 1];
    assert init + [name] == cs;
    if init == [] {
      assert cs == [name];
      DirOfChild(".", name);
    } else {
      JoinSnoc(init, name);
      SplitJoin(init);
      assert forall c :: c in init ==> c in cs;
      assert IsName(init[0]) by { assert init[0] in init; }
      ParentOfJoin(Join(init), name);
    }
  }

  lemma ParentOfJoin(dir: string, name: string)
    requires IsKey(dir) && IsName(name) && Split(dir) != ["."]
    ensures Dir(dir + "/" + name) == dir && dir != "."
  {
    SplitNoSlash(".", "");
    DirOfChild(dir, name);
  }
}
