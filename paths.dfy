/** The parts of Python's `posixpath` the core calls: `join`, `dirname`,
    `normpath` and `abspath` (the working directory is a parameter). */
module Paths {
  import opened Strings

  type Path = string

  predicate IsAbs(p: Path) {
    |p| > 0 && p[0] == '/'
  }

  /** `os.path.join(a, b)` for two components. */
  function Join(a: Path, b: Path): Path {
    if IsAbs(b) then b
    else if a == [] || a[|a| - 1] == '/' then a + b
    else a + "/" + b
  }

  /** Index just past the last '/', or 0 when there is none. */
  function AfterLastSlash(p: Path): (i: nat)
    ensures i <= |p|
    ensures i > 0 ==> p[i - 1] == '/'
    decreases |p|
  {
    if p == [] then 0
    else if p[|p| - 1] == '/' then |p|
    else AfterLastSlash(p[..|p| - 1])
  }

  predicate AllSlashes(p: Path) {
    forall k :: 0 <= k < |p| ==> p[k] == '/'
  }

  function TrimSlashes(p: Path): Path
    decreases |p|
  {
    if p != [] && p[|p| - 1] == '/' then TrimSlashes(p[..|p| - 1]) else p
  }

  /** `os.path.dirname(p)` */
  function Dirname(p: Path): Path {
    var head := p[..AfterLastSlash(p)];
    if head != [] && !AllSlashes(head) then TrimSlashes(head) else head
  }

  /** The component loop of `os.path.normpath`. */
  function NormComps(comps: seq<string>, rooted: bool, acc: seq<string>): seq<string>
    decreases |comps|
  {
    if comps == [] then acc
    else
      var c := comps[0];
      if c == "" || c == "." then NormComps(comps[1..], rooted, acc)
      else if c != ".." || (!rooted && acc == []) || (acc != [] && acc[|acc| - 1] == "..") then
        NormComps(comps[1..], rooted, acc + [c])
      else if acc != [] then NormComps(comps[1..], rooted, acc[..|acc| - 1])
      else NormComps(comps[1..], rooted, acc)
  }

  /** `os.path.normpath(p)` */
  function Normpath(p: Path): Path {
    if p == [] then "."
    else
      var slashes := LeadingSlashes(p);
      Render(slashes, NormComps(Split(p, '/'), slashes != "", []))
  }

  /** `os.path.abspath(p)` run in directory `cwd`. */
  function Abspath(cwd: Path, p: Path): Path {
    Normpath(if IsAbs(p) then p else Join(cwd, p))
  }

  /** Components `normpath` keeps: no empty or "." parts, no '/', and ".."
      only as a leading run of a relative path. */
  predicate CleanComps(cs: seq<string>, rooted: bool) {
    forall k :: 0 <= k < |cs| ==>
      cs[k] != "" && cs[k] != "." && '/' !in cs[k] &&
      (cs[k] == ".." ==> !rooted && forall j :: 0 <= j < k ==> cs[j] == "..")
  }

  lemma {:induction false} SplitPartsNoSep(s: string, sep: char)
    ensures forall k :: 0 <= k < |Split(s, sep)| ==> sep !in Split(s, sep)[k]
    decreases |s|
  {
    if s != [] {
      SplitPartsNoSep(s[1..], sep);
      if s[0] != sep {
        var rest := Split(s[1..], sep);
        assert sep !in [s[0]] + rest[0];
      }
    }
  }

  lemma {:induction false} NormCompsClean(comps: seq<string>, rooted: bool, acc: seq<string>)
    requires CleanComps(acc, rooted)
    requires forall k :: 0 <= k < |comps| ==> '/' !in comps[k]
    ensures CleanComps(NormComps(comps, rooted, acc), rooted)
    decreases |comps|
  {
    if comps != [] {
      var c := comps[0];
      if c == "" || c == "." {
        NormCompsClean(comps[1..], rooted, acc);
      } else if c != ".." || (!rooted && acc == []) || (acc != [] && acc[|acc| - 1] == "..") {
        assert CleanComps(acc + [c], rooted);
        NormCompsClean(comps[1..], rooted, acc + [c]);
      } else if acc != [] {
        NormCompsClean(comps[1..], rooted, acc[..|acc| - 1]);
      } else {
        NormCompsClean(comps[1..], rooted, acc);
      }
    }
  }

  lemma {:induction false} NormCompsFixed(cs: seq<string>, rooted: bool, acc: seq<string>)
    requires CleanComps(acc + cs, rooted)
    ensures NormComps(cs, rooted, acc) == acc + cs
    decreases |cs|
  {
    if cs != [] {
      var c := cs[0];
      assert (acc + cs)[|acc|] == c;
      if c == ".." && acc != [] {
        assert (acc + cs)[|acc| - 1] == acc[|acc| - 1];
      }
      assert acc + cs == (acc + [c]) + cs[1..];
      NormCompsFixed(cs[1..], rooted, acc + [c]);
    }
  }

  lemma JoinHead(sep: string, cs: seq<string>)
    requires cs != [] && cs[0] != ""
    ensures JoinWith(sep, cs) != [] && JoinWith(sep, cs)[0] == cs[0][0]
  {
  }

  /** What `normpath` returns, from its leading slashes and kept components. */
  function Render(slashes: string, cs: seq<string>): Path {
    var r := slashes + JoinWith("/", cs);
    if r == [] then "." else r
  }

  function LeadingSlashes(p: Path): string {
    if StartsWith(p, "//") && !StartsWith(p, "///") then "//"
    else if StartsWith(p, "/") then "/"
    else ""
  }

  lemma NormpathShape(x: Path)
    requires x != []
    ensures CleanComps(NormComps(Split(x, '/'), LeadingSlashes(x) != "", []), LeadingSlashes(x) != "")
    ensures Normpath(x) == Render(LeadingSlashes(x), NormComps(Split(x, '/'), LeadingSlashes(x) != "", []))
  {
    SplitPartsNoSep(x, '/');
    NormCompsClean(Split(x, '/'), LeadingSlashes(x) != "", []);
  }

  lemma NormpathNoComps(slashes: string)
    requires slashes == "" || slashes == "/" || slashes == "//"
    ensures Normpath(Render(slashes, [])) == Render(slashes, [])
  {
    if slashes == "" {
      assert "."[1..] == "";
      assert Split(".", '/') == [['.'] + ""] + [""][1..];
    } else if slashes == "/" {
      assert "/"[1..] == "";
      assert Split("/", '/') == [""] + Split("", '/');
      assert !StartsWith("/", "//");
      assert LeadingSlashes("/") == "/";
      assert NormComps(["", ""], true, []) == [];
    } else {
      assert "//"[1..] == "/" && "/"[1..] == "";
      assert Split("/", '/') == [""] + Split("", '/');
      assert Split("//", '/') == [""] + Split("/", '/');
      assert "//"[..2] == "//";
      assert StartsWith("//", "//") && !StartsWith("//", "///");
      assert LeadingSlashes("//") == "//";
      assert Split("//", '/') == ["", "", ""];
      assert NormComps(["", "", ""], true, []) == [];
      assert JoinWith("/", []) == "";
      assert Render("//", []) == "//";
    }
  }

  lemma NormpathComps(slashes: string, cs: seq<string>)
    requires slashes == "" || slashes == "/" || slashes == "//"
    requires cs != [] && CleanComps(cs, slashes != "")
    ensures Normpath(Render(slashes, cs)) == Render(slashes, cs)
  {
    JoinHead("/", cs);
    SplitJoin(cs, '/');
    assert [] + cs == cs;
    NormCompsFixed(cs, slashes != "", []);
    if slashes == "/" {
      NormpathRooted(cs);
    } else if slashes == "//" {
      NormpathDouble(cs);
    } else {
      assert Render(slashes, cs) == JoinWith("/", cs);
    }
  }

  /** A '/' in front of `j` adds one empty part in front of its split. */
  lemma SplitSlash(j: string)
    ensures Split("/" + j, '/') == [""] + Split(j, '/')
  {
    assert ("/" + j)[1..] == j;
  }

  lemma NormpathRooted(cs: seq<string>)
    requires cs != [] && CleanComps(cs, true)
    requires JoinWith("/", cs) != [] && JoinWith("/", cs)[0] != '/'
    requires Split(JoinWith("/", cs), '/') == cs
    requires NormComps(cs, true, []) == cs
    ensures Normpath(Render("/", cs)) == Render("/", cs)
  {
    var j := JoinWith("/", cs);
    var r := "/" + j;
    SplitSlash(j);
    assert r[1] == j[0];
    assert !StartsWith(r, "//");
    assert LeadingSlashes(r) == "/";
  }

  lemma NormpathDouble(cs: seq<string>)
    requires cs != [] && CleanComps(cs, true)
    requires JoinWith("/", cs) != [] && JoinWith("/", cs)[0] != '/'
    requires Split(JoinWith("/", cs), '/') == cs
    requires NormComps(cs, true, []) == cs
    ensures Normpath(Render("//", cs)) == Render("//", cs)
  {
    var j := JoinWith("/", cs);
    var r := "//" + j;
    assert r == "/" + ("/" + j);
    SplitSlash(j);
    SplitSlash("/" + j);
    var sp := Split(r, '/');
    assert sp == [""] + ([""] + cs);
    assert sp[1..] == [""] + cs && sp[1..][1..] == cs;
    assert NormComps(sp, true, []) == cs;
    assert r[..2] == "//" && r[2] == j[0];
    assert LeadingSlashes(r) == "//";
  }

  /** `normpath` is idempotent. */
  lemma NormpathIdempotent(x: Path)
    ensures Normpath(Normpath(x)) == Normpath(x)
  {
    if x != [] {
      NormpathShape(x);
      var cs := NormComps(Split(x, '/'), LeadingSlashes(x) != "", []);
      if cs == [] {
        NormpathNoComps(LeadingSlashes(x));
      } else {
        NormpathComps(LeadingSlashes(x), cs);
      }
    } else {
      NormpathNoComps("");
    }
  }

  /** `abspath` applied to its own result, in an absolute working directory,
      changes nothing. */
  lemma AbspathIdempotent(cwd: Path, p: Path)
    requires IsAbs(cwd)
    ensures IsAbs(Abspath(cwd, p))
    ensures Abspath(cwd, Abspath(cwd, p)) == Abspath(cwd, p)
  {
    var y := if IsAbs(p) then p else Join(cwd, p);
    assert y[0] == '/';
    assert StartsWith(y, "/");
    NormpathIdempotent(y);
  }
}
