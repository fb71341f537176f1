/**
 * The path sanitizer of the plugin lab (security.py): resolve the base
 * directory and the joined target lexically, as `os.path.abspath` does,
 * and accept the target only when the resolved path starts with the
 * resolved base. The working directory is a parameter.
 */
module PathSanitizer {
  import opened Wrappers
  import opened Strings

  datatype SecurityError = SecurityError(message: string)

  /** Index of the first slash in `p`. */
  function FirstSlash(p: string): (i: nat)
    requires '/' in p
    ensures i < |p| && p[i] == '/' && '/' !in p[..i]
  {
    if p[0] == '/' then 0
    else
      assert '/' in p[1..] by { var k :| 0 <= k < |p| && p[k] == '/'; assert p[1..][k-1] == '/'; }
      var j := FirstSlash(p[1..]);
      assert p[..j+1] == [p[0]] + p[1..][..j];
      j + 1
  }

  /** `p.split("/")`. */
  function Split(p: string): (segs: seq<string>)
    ensures |segs| >= 1
    decreases |p|
  {
    if '/' !in p then [p]
    else
      var i := FirstSlash(p);
      [p[..i]] + Split(p[i + 1..])
  }

  predicate IsAbs(p: string) {
    |p| > 0 && p[0] == '/'
  }

  /** One segment of `posixpath.normpath`: skip empty and `.`, climb on `..` (never above the root). */
  function Step(acc: seq<string>, seg: string): seq<string> {
    if seg == "" || seg == "." then acc
    else if seg == ".." then (if acc == [] then [] else acc[..|acc| - 1])
    else acc + [seg]
  }

  function Fold(acc: seq<string>, segs: seq<string>): seq<string>
    decreases |segs|
  {
    if segs == [] then acc else Fold(Step(acc, segs[0]), segs[1..])
  }

  /** The segments of a resolved path: none is empty, `.`, `..`, or holds a slash. */
  ghost predicate Clean(segs: seq<string>) {
    forall i :: 0 <= i < |segs| ==> segs[i] != "" && segs[i] != "." && segs[i] != ".." && '/' !in segs[i]
  }

  /** The segments of `os.path.abspath(p)` when the working directory is `cwd`. */
  function ResolvedSegs(cwd: string, p: string): seq<string> {
    Fold([], Split(if IsAbs(p) then p else cwd + "/" + p))
  }

  function Render(segs: seq<string>): string {
    "/" + Join(segs, "/")
  }

  /** `os.path.abspath(p)`, lexically: an absolute path that resolves to itself. */
  function AbsPath(cwd: string, p: string): (r: string)
    ensures IsAbs(r)
    ensures ResolvedSegs(cwd, r) == ResolvedSegs(cwd, p)
  {
    var c := ResolvedSegs(cwd, p);
    ResolvedIsClean(cwd, p);
    ResolveRendered(cwd, c);
    Render(c)
  }

  /** `os.path.join(a, b)`: an absolute `b` discards `a`; otherwise `b` follows `a` after one slash. */
  function PathJoin(a: string, b: string): (r: string)
    ensures IsAbs(b) ==> r == b
    ensures !IsAbs(b) ==> |a| + |b| <= |r| <= |a| + 1 + |b| && a <= r && r[|r| - |b|..] == b
    ensures !IsAbs(b) && a != "" ==> |r| > |b| && r[|r| - |b| - 1] == '/'
  {
    if IsAbs(b) then b
    else if a == "" || a[|a| - 1] == '/' then a + b
    else a + "/" + b
  }

  /**
   * `validate_safe_path(base_dir, target_path)`: the resolved join of the
   * resolved base and the target, provided it starts with the resolved base
   * as text; otherwise a SecurityError.
   */
  function ValidateSafePath(cwd: string, base: string, target: string): (r: Result<string, SecurityError>)
    ensures r.Success? <==> AbsPath(cwd, base) <= AbsPath(cwd, PathJoin(AbsPath(cwd, base), target))
    ensures r.Success? ==> r.value == AbsPath(cwd, PathJoin(AbsPath(cwd, base), target))
  {
    var root := AbsPath(cwd, base);
    var resolved := AbsPath(cwd, PathJoin(root, target));
    if root <= resolved then Success(resolved)
    else Failure(SecurityError("Path traversal detected: " + target))
  }

  // ---------------------------------------------------------------------------
  // Facts about splitting, folding and rendering

  lemma {:induction false} SplitHasNoSlash(p: string)
    ensures forall i :: 0 <= i < |Split(p)| ==> '/' !in Split(p)[i]
    decreases |p|
  {
    if '/' in p {
      SplitHasNoSlash(p[FirstSlash(p) + 1..]);
    }
  }

  lemma {:induction false} SplitConcat(a: string, b: string)
    ensures Split(a + "/" + b) == Split(a) + Split(b)
    decreases |a|
  {
    var x := a + "/" + b;
    if '/' !in a {
      SplitConcatPlain(a, b, x);
    } else {
      var i := FirstSlash(a);
      SplitConcat(a[i + 1..], b);
      SplitConcatCut(a, b, x, i);
    }
  }

  /** The first slash is the only slash with none before it. */
  lemma FirstSlashAt(x: string, i: nat)
    requires i < |x| && x[i] == '/' && '/' !in x[..i]
    ensures '/' in x && FirstSlash(x) == i
  {
  }

  /** Splitting at the first slash. */
  lemma SplitAt(x: string, i: nat)
    requires i < |x| && x[i] == '/' && '/' !in x[..i]
    ensures Split(x) == [x[..i]] + Split(x[i + 1..])
  {
    FirstSlashAt(x, i);
  }

  lemma SplitConcatPlain(a: string, b: string, x: string)
    requires '/' !in a && x == a + "/" + b
    ensures Split(x) == Split(a) + Split(b)
  {
    assert x[|a|] == '/' && x[..|a|] == a && x[|a| + 1..] == b;
    SplitAt(x, |a|);
  }

  lemma SplitConcatCut(a: string, b: string, x: string, i: nat)
    requires '/' in a && i == FirstSlash(a) && x == a + "/" + b
    requires Split(a[i + 1..] + "/" + b) == Split(a[i + 1..]) + Split(b)
    ensures Split(x) == Split(a) + Split(b)
  {
    CutSlices(a, b, x, i);
    SplitAt(x, i);
    SplitAt(a, i);
    ConsAssoc(a[..i], Split(a[i + 1..]), Split(b));
  }

  /** Cutting `a + "/" + b` at the first slash of `a`. */
  lemma CutSlices(a: string, b: string, x: string, i: nat)
    requires '/' in a && i == FirstSlash(a) && x == a + "/" + b
    ensures i < |x| && x[i] == '/' && '/' !in x[..i]
    ensures x[..i] == a[..i] && x[i + 1..] == a[i + 1..] + "/" + b
  {
    assert x[..i] == a[..i];
    assert x[i + 1..] == a[i + 1..] + "/" + b;
  }

  lemma ConsAssoc<T>(h: T, r: seq<T>, q: seq<T>)
    ensures [h] + (r + q) == ([h] + r) + q
  {
  }

  lemma {:induction false} SplitJoin(c: seq<string>)
    requires c != [] && forall i :: 0 <= i < |c| ==> '/' !in c[i]
    ensures Split(Join(c, "/")) == c
  {
    if |c| > 1 {
      SplitJoin(c[1..]);
      SplitConcat(c[0], Join(c[1..], "/"));
      assert c == [c[0]] + c[1..];
    }
  }

  lemma {:induction false} FoldConcat(acc: seq<string>, a: seq<string>, b: seq<string>)
    ensures Fold(acc, a + b) == Fold(Fold(acc, a), b)
    decreases |a|
  {
    if a != [] {
      assert (a + b)[0] == a[0] && (a + b)[1..] == a[1..] + b;
      FoldConcat(Step(acc, a[0]), a[1..], b);
    } else {
      assert a + b == b;
    }
  }

  /** Folding segments that need no normalising appends them unchanged. */
  lemma {:induction false} FoldClean(acc: seq<string>, c: seq<string>)
    requires Clean(c)
    ensures Fold(acc, c) == acc + c
    decreases |c|
  {
    if c != [] {
      assert Clean(c[1..]) by {
        forall i | 0 <= i < |c[1..]| ensures c[1..][i] != "" && c[1..][i] != "." && c[1..][i] != ".." && '/' !in c[1..][i] {
          assert c[1..][i] == c[i + 1];
        }
      }
      FoldClean(acc + [c[0]], c[1..]);
      assert acc + [c[0]] + c[1..] == acc + c;
    }
  }

  /** Folding keeps the accumulated segments clean, whatever the input segments. */
  lemma {:induction false} FoldStaysClean(acc: seq<string>, segs: seq<string>)
    requires Clean(acc)
    requires forall i :: 0 <= i < |segs| ==> '/' !in segs[i]
    ensures Clean(Fold(acc, segs))
    decreases |segs|
  {
    if segs != [] {
      FoldStaysClean(Step(acc, segs[0]), segs[1..]);
    }
  }

  lemma {:induction false} JoinAppend(c: seq<string>, d: seq<string>)
    requires c != [] && d != []
    ensures Join(c + d, "/") == Join(c, "/") + "/" + Join(d, "/")
  {
    if |c| == 1 {
      assert c + d == [c[0]] + d;
      assert (c + d)[1..] == d;
    } else {
      JoinAppend(c[1..], d);
      assert (c + d)[1..] == c[1..] + d;
    }
  }

  /** A segment-wise prefix is also a textual prefix of the rendered path. */
  lemma RenderPrefix(c: seq<string>, d: seq<string>)
    requires c <= d
    ensures Render(c) <= Render(d)
  {
    if c != [] && c != d {
      var e := d[|c|..];
      assert d == c + e;
      JoinAppend(c, e);
    } else if c == [] {
      assert Render(c) == "/";
    }
  }

  /** Every resolved path is made of clean segments. */
  lemma ResolvedIsClean(cwd: string, p: string)
    ensures Clean(ResolvedSegs(cwd, p))
  {
    SplitHasNoSlash(if IsAbs(p) then p else cwd + "/" + p);
    FoldStaysClean([], Split(if IsAbs(p) then p else cwd + "/" + p));
  }

  /** Resolving an already resolved path changes nothing. */
  lemma ResolveRendered(cwd: string, c: seq<string>)
    requires Clean(c)
    ensures ResolvedSegs(cwd, Render(c)) == c
  {
    var p := Render(c);
    assert IsAbs(p);
    assert p[1..] == Join(c, "/");
    assert Split(p) == [""] + Split(Join(c, "/"));
    if c == [] {
      assert Join(c, "/") == "";
      assert Split("") == [""];
      assert Split(p) == ["", ""];
      assert ["", ""][1..] == [""] && [""][1..] == [];
    } else {
      SplitJoin(c);
      FoldClean([], c);
    }
  }

  /** The clean segments of a relative path that never climbs: `..`, `.` and empty segments dropped. */
  function Descend(segs: seq<string>): seq<string> {
    if segs == [] then []
    else if segs[0] == "" || segs[0] == "." then Descend(segs[1..])
    else [segs[0]] + Descend(segs[1..])
  }

  lemma {:induction false} FoldDescend(acc: seq<string>, segs: seq<string>)
    requires forall i :: 0 <= i < |segs| ==> segs[i] != ".."
    ensures Fold(acc, segs) == acc + Descend(segs)
    decreases |segs|
  {
    if segs != [] {
      FoldDescend(Step(acc, segs[0]), segs[1..]);
      if segs[0] != "" && segs[0] != "." {
        assert acc + [segs[0]] + Descend(segs[1..]) == acc + ([segs[0]] + Descend(segs[1..]));
      }
    }
  }

  /** Joining a relative target onto a resolved base splits into the base's segments followed by the target's. */
  lemma SplitJoined(bc: seq<string>, target: string)
    requires Clean(bc) && !IsAbs(target)
    ensures IsAbs(PathJoin(Render(bc), target))
    ensures Split(PathJoin(Render(bc), target)) == [""] + bc + Split(target)
  {
    if bc == [] {
      JoinedAtRoot(bc, target);
    } else {
      JoinedBelowRoot(bc, target);
    }
  }

  lemma JoinedAtRoot(bc: seq<string>, target: string)
    requires bc == [] && !IsAbs(target)
    ensures IsAbs(PathJoin(Render(bc), target))
    ensures Split(PathJoin(Render(bc), target)) == [""] + bc + Split(target)
  {
    assert Render(bc) == "/";
    assert PathJoin(Render(bc), target) == "" + "/" + target;
    SplitConcat("", target);
    assert [""] + bc == [""];
  }

  /** Below the root, the rendered base ends in a segment, so the join inserts a slash. */
  lemma JoinedBelowRoot(bc: seq<string>, target: string)
    requires Clean(bc) && bc != [] && !IsAbs(target)
    ensures IsAbs(PathJoin(Render(bc), target))
    ensures Split(PathJoin(Render(bc), target)) == [""] + bc + Split(target)
  {
    var root := Render(bc);
    JoinLast(bc);
    assert root[|root| - 1] == Join(bc, "/")[|Join(bc, "/")| - 1];
    var x := root + "/" + target;
    SplitConcat(root, target);
    SplitRender(bc);
    assert Split(x) == ([""] + bc) + Split(target);
  }

  /** Resolving a relative, never-climbing target joined onto a resolved base appends its segments. */
  lemma JoinedResolves(cwd: string, bc: seq<string>, target: string)
    requires Clean(bc) && !IsAbs(target)
    requires forall i :: 0 <= i < |Split(target)| ==> Split(target)[i] != ".."
    ensures ResolvedSegs(cwd, PathJoin(Render(bc), target)) == bc + Descend(Split(target))
  {
    var joined := PathJoin(Render(bc), target);
    var t := Split(target);
    SplitJoined(bc, target);
    assert ResolvedSegs(cwd, joined) == Fold([], [""] + bc + t);
    FoldConcat([], [""] + bc, t);
    assert Fold([], [""] + bc) == Fold([], bc) by {
      assert ([""] + bc)[0] == "" && ([""] + bc)[1..] == bc;
    }
    FoldClean([], bc);
    assert [] + bc == bc;
    FoldDescend(bc, t);
  }

  /**
   * A relative target with no `..` segment is always accepted, and resolves
   * to the base's segments followed by the target's own.
   */
  lemma RelativeDescentAccepted(cwd: string, base: string, target: string)
    requires !IsAbs(target)
    requires forall i :: 0 <= i < |Split(target)| ==> Split(target)[i] != ".."
    ensures ValidateSafePath(cwd, base, target).Success?
    ensures ResolvedSegs(cwd, ValidateSafePath(cwd, base, target).value)
         == ResolvedSegs(cwd, base) + Descend(Split(target))
  {
    var bc := ResolvedSegs(cwd, base);
    ResolvedIsClean(cwd, base);
    var joined := PathJoin(Render(bc), target);
    JoinedResolves(cwd, bc, target);
    var rc := bc + Descend(Split(target));
    RenderPrefix(bc, rc);
    ResolvedIsClean(cwd, joined);
    ResolveRendered(cwd, rc);
  }

  lemma {:induction false} JoinLast(c: seq<string>)
    requires Clean(c) && c != []
    ensures Join(c, "/") != "" && Join(c, "/")[|Join(c, "/")| - 1] != '/'
  {
    if |c| > 1 {
      assert Join(c, "/") == c[0] + "/" + Join(c[1..], "/");
      assert Clean(c[1..]) by {
        forall i | 0 <= i < |c[1..]| ensures c[1..][i] != "" && c[1..][i] != "." && c[1..][i] != ".." && '/' !in c[1..][i] {
          assert c[1..][i] == c[i + 1];
        }
      }
      JoinLast(c[1..]);
    } else {
      assert c[0] != "" && '/' !in c[0];
      assert c[0][|c[0]| - 1] in c[0];
    }
  }

  /** An absolute target discards the base in the join and is then checked like any other. */
  lemma AbsoluteTargetReplacesBase(cwd: string, base: string, target: string)
    requires IsAbs(target)
    ensures ValidateSafePath(cwd, base, target).Success? <==> AbsPath(cwd, base) <= AbsPath(cwd, target)
    ensures ValidateSafePath(cwd, base, target).Success? ==> ValidateSafePath(cwd, base, target).value == AbsPath(cwd, target)
  {
  }

  /** The base `.` resolves to the working directory itself. */
  lemma DotResolves(cwd: string, bc: seq<string>)
    requires Clean(bc) && bc != [] && cwd == Render(bc)
    ensures ResolvedSegs(cwd, ".") == bc
  {
    RenderSnoc(bc, ".");
    var c := bc + ["."];
    assert forall i :: 0 <= i < |c| ==> '/' !in c[i];
    SplitRender(c);
    FoldConcat([], [""] + bc, ["."]);
    assert [""] + c == [""] + bc + ["."];
    assert Fold([], [""] + bc) == Fold([], bc) by {
      assert ([""] + bc)[0] == "" && ([""] + bc)[1..] == bc;
    }
    FoldClean([], bc);
    assert [] + bc == bc;
    assert Fold(bc, ["."]) == Fold(bc, []) by {
      assert ["."][1..] == [];
    }
  }

  /** Folding two `..` segments and then clean ones from a clean base. */
  lemma TwoUpFolds(q: seq<string>, a: string, b: string, t: seq<string>)
    requires Clean(q + [a, b]) && Clean(t)
    ensures Fold([], [""] + (q + [a, b]) + (["..", ".."] + t)) == q + t
  {
    var bc := q + [a, b];
    var u := ["..", ".."] + t;
    FoldConcat([], [""] + bc, u);
    assert Fold([], [""] + bc) == Fold([], bc) by {
      assert ([""] + bc)[0] == "" && ([""] + bc)[1..] == bc;
    }
    FoldClean([], bc);
    assert [] + bc == bc;
    assert Step(bc, "..") == q + [a];
    assert Step(q + [a], "..") == q;
    assert u[1..][1..] == t;
    assert Fold(bc, u) == Fold(q + [a], u[1..]);
    assert Fold(q + [a], u[1..]) == Fold(q, t);
    FoldClean(q, t);
  }

  /** Two `..` segments climb two levels above a resolved base before descending again. */
  lemma TwoUpResolves(cwd: string, q: seq<string>, a: string, b: string, t: seq<string>)
    requires Clean(q + [a, b]) && Clean(t) && t != []
    ensures ResolvedSegs(cwd, PathJoin(Render(q + [a, b]), Join(["..", ".."] + t, "/"))) == q + t
  {
    var bc := q + [a, b];
    var u := ["..", ".."] + t;
    assert forall i :: 0 <= i < |u| ==> '/' !in u[i];
    SplitJoin(u);
    var target := Join(u, "/");
    assert target[0] == '.' by {
      assert u[0] == ".." && |u| > 1;
    }
    SplitJoined(bc, target);
    TwoUpFolds(q, a, b, t);
  }

  /** The project directory used below, as text. */
  lemma JoinThree(a: string, b: string, c: string, sep: string)
    ensures Join([a, b, c], sep) == a + sep + (b + sep + c)
  {
    assert [b, c][1..] == [c];
    assert Join([b, c], sep) == b + sep + c;
    assert [a, b, c][1..] == [b, c];
  }

  lemma ProjectText()
    ensures Render(["home", "user", "project"]) == "/home/user/project"
  {
    JoinThree("home", "user", "project", "/");
    assert "user" + "/" + "project" == "user/project";
    assert "home" + "/" + "user/project" == "home/user/project";
  }

  lemma PasswdText()
    ensures Render(["home", "etc", "passwd"])[6] == 'e'
  {
    JoinThree("home", "etc", "passwd", "/");
    assert "etc" + "/" + "passwd" == "etc/passwd";
    assert "home" + "/" + "etc/passwd" == "home/etc/passwd";
  }

  lemma ClimbText()
    ensures Join(["..", "..", "etc", "passwd"], "/") == "../../etc/passwd"
  {
    var c := ["..", "..", "etc", "passwd"];
    JoinThree("..", "etc", "passwd", "/");
    assert c[1..] == ["..", "etc", "passwd"];
    assert ".." + "/" + ("etc" + "/" + "passwd") == "../etc/passwd";
    assert ".." + "/" + "../etc/passwd" == "../../etc/passwd";
  }

  lemma StarterText()
    ensures Join(["starter", "base.py"], "/") == "starter/base.py"
  {
    var f := ["starter", "base.py"];
    assert f[1..] == ["base.py"];
  }

  /** `starter/base.py` names a file below the base, whatever the working directory. */
  lemma StarterFileAccepted(cwd: string)
    ensures ValidateSafePath(cwd, ".", "starter/base.py").Success?
    ensures ResolvedSegs(cwd, ValidateSafePath(cwd, ".", "starter/base.py").value)
         == ResolvedSegs(cwd, ".") + ["starter", "base.py"]
  {
    var t := ["starter", "base.py"];
    StarterText();
    SplitJoin(t);
    assert Descend(t) == t by {
      assert t[1..] == ["base.py"] && t[1..][1..] == [];
    }
    RelativeDescentAccepted(cwd, ".", Join(t, "/"));
  }

  /** `../../etc/passwd` from a project directory climbs out of it and is refused. */
  lemma ClimbingOutRejected(cwd: string)
    requires cwd == "/home/user/project"
    ensures ValidateSafePath(cwd, ".", "../../etc/passwd").Failure?
  {
    var root := AbsPath(cwd, ".");
    var resolved := AbsPath(cwd, PathJoin(root, "../../etc/passwd"));
    ClimbResolves(cwd);
    PasswdText();
    ProjectText();
    assert root[6] == 'u' && resolved[6] == 'e';
    assert !(root <= resolved);
  }

  /** The segments the base `.` and the climbing target resolve to. */
  lemma ClimbResolves(cwd: string)
    requires cwd == "/home/user/project"
    ensures AbsPath(cwd, ".") == Render(["home", "user", "project"])
    ensures AbsPath(cwd, PathJoin(AbsPath(cwd, "."), "../../etc/passwd")) == Render(["home", "etc", "passwd"])
  {
    BaseResolvesToProject(cwd);
    ClimbFromProject(cwd);
  }

  /** The base `.` resolves to the working directory "/home/user/project". */
  lemma BaseResolvesToProject(cwd: string)
    requires cwd == "/home/user/project"
    ensures AbsPath(cwd, ".") == Render(["home", "user", "project"])
  {
    var bc := ["home", "user", "project"];
    ProjectText();
    assert Clean(bc);
    DotResolves(cwd, bc);
  }

  /** Two climbs from "/home/user/project" followed by "etc/passwd" resolve to "/home/etc/passwd". */
  lemma ClimbFromProject(cwd: string)
    ensures AbsPath(cwd, PathJoin(Render(["home", "user", "project"]), "../../etc/passwd")) == Render(["home", "etc", "passwd"])
  {
    var q := ["home"];
    assert q + ["user", "project"] == ["home", "user", "project"];
    ClimbText();
    var t := ["etc", "passwd"];
    assert ["..", ".."] + t == ["..", "..", "etc", "passwd"];
    TwoUpResolves(cwd, q, "user", "project", t);
    assert q + t == ["home", "etc", "passwd"];
  }

  // ---------------------------------------------------------------------------
  // Containment checked segment by segment

  /**
   * The check the docstring promises ("resolves to a location within
   * base_dir"): the resolved base must be a whole-segment prefix of the
   * resolved target, as `os.path.commonpath([root, resolved]) == root` tests.
   */
  function ValidateSafePathWithin(cwd: string, base: string, target: string): (r: Result<string, SecurityError>)
    ensures r.Success? ==> r.value == AbsPath(cwd, PathJoin(AbsPath(cwd, base), target))
  {
    var root := AbsPath(cwd, base);
    var joined := PathJoin(root, target);
    if ResolvedSegs(cwd, base) <= ResolvedSegs(cwd, joined) then Success(AbsPath(cwd, joined))
    else Failure(SecurityError("Path traversal detected: " + target))
  }

  /** Whatever the segment-wise check accepts, the textual check accepts too, with the same path. */
  lemma WithinIsStricter(cwd: string, base: string, target: string)
    ensures ValidateSafePathWithin(cwd, base, target).Success? ==> ValidateSafePath(cwd, base, target) == ValidateSafePathWithin(cwd, base, target)
  {
    var joined := PathJoin(AbsPath(cwd, base), target);
    if ResolvedSegs(cwd, base) <= ResolvedSegs(cwd, joined) {
      RenderPrefix(ResolvedSegs(cwd, base), ResolvedSegs(cwd, joined));
    }
  }

  /** Splitting a rendered non-root path gives the leading empty segment and then the segments. */
  lemma SplitRender(c: seq<string>)
    requires c != [] && forall i :: 0 <= i < |c| ==> '/' !in c[i]
    ensures Split(Render(c)) == [""] + c
  {
    assert Render(c) == "" + "/" + Join(c, "/");
    SplitConcat("", Join(c, "/"));
    SplitJoin(c);
  }

  /** A whole-segment prefix shows in the text as the path itself or the path and a slash. */
  lemma SegmentPrefixShowsInText(bc: seq<string>, rc: seq<string>)
    requires bc <= rc
    ensures bc == [] || Render(rc) == Render(bc) || Render(bc) + "/" <= Render(rc)
  {
    if bc != [] && bc != rc {
      var e := rc[|bc|..];
      assert rc == bc + e;
      JoinAppend(bc, e);
      assert Render(rc) == Render(bc) + "/" + Join(e, "/");
    }
  }

  /** Rendering is injective on non-root paths. */
  lemma RenderInjective(bc: seq<string>, rc: seq<string>)
    requires bc != [] && rc != []
    requires forall i :: 0 <= i < |bc| ==> '/' !in bc[i]
    requires forall i :: 0 <= i < |rc| ==> '/' !in rc[i]
    requires Render(rc) == Render(bc)
    ensures rc == bc
  {
    SplitRender(bc);
    SplitRender(rc);
    assert rc == ([""] + rc)[1..];
    assert bc == ([""] + bc)[1..];
  }

  lemma SlashExtendsSegments(bc: seq<string>, rc: seq<string>)
    requires bc != [] && rc != []
    requires forall i :: 0 <= i < |bc| ==> '/' !in bc[i]
    requires forall i :: 0 <= i < |rc| ==> '/' !in rc[i]
    requires Render(bc) + "/" <= Render(rc)
    ensures bc <= rc
  {
    var root := Render(bc);
    var resolved := Render(rc);
    var rest := resolved[|root| + 1..];
    assert resolved == root + "/" + rest;
    SplitConcat(root, rest);
    SplitRender(bc);
    SplitRender(rc);
    PrefixAfterHead(rc, bc, Split(rest));
  }

  lemma PrefixAfterHead(rc: seq<string>, bc: seq<string>, t: seq<string>)
    requires [""] + rc == [""] + bc + t
    ensures bc <= rc
  {
    assert rc == ([""] + rc)[1..] == ([""] + bc + t)[1..] == bc + t;
  }

  /** Conversely, a clean path equal to a clean base, or below it and a slash, extends it segment-wise. */
  lemma TextShowsSegmentPrefix(bc: seq<string>, rc: seq<string>)
    requires Clean(bc) && Clean(rc) && bc != []
    requires Render(rc) == Render(bc) || Render(bc) + "/" <= Render(rc)
    ensures bc <= rc
  {
    JoinLast(bc);
    assert |Render(bc)| >= 2;
    assert Render([]) == "/";
    assert rc != [];
    if Render(rc) == Render(bc) {
      RenderInjective(bc, rc);
    } else {
      SlashExtendsSegments(bc, rc);
    }
  }

  /**
   * In textual terms the segment-wise check accepts exactly the base itself
   * and the paths under `base + "/"` (for a base other than the root, which
   * holds everything).
   */
  lemma WithinMeansUnder(cwd: string, base: string, target: string)
    ensures var root := AbsPath(cwd, base);
            var resolved := AbsPath(cwd, PathJoin(root, target));
            ValidateSafePathWithin(cwd, base, target).Success?
            <==> (root == "/" || resolved == root || root + "/" <= resolved)
  {
    var bc := ResolvedSegs(cwd, base);
    var joined := PathJoin(Render(bc), target);
    var rc := ResolvedSegs(cwd, joined);
    ResolvedIsClean(cwd, base);
    ResolvedIsClean(cwd, joined);
    if bc <= rc {
      SegmentPrefixShowsInText(bc, rc);
    }
    if bc == [] {
      assert Render(bc) == "/";
    } else {
      JoinLast(bc);
      assert Render(bc) != "/";
      if Render(rc) == Render(bc) || Render(bc) + "/" <= Render(rc) {
        TextShowsSegmentPrefix(bc, rc);
      }
    }
  }

  /** A name without a slash splits into itself. */
  lemma SplitSegment(m: string)
    requires '/' !in m
    ensures Split(m) == [m]
  {
  }

  /** Render a path with one more segment. */
  lemma RenderSnoc(p: seq<string>, m: string)
    ensures Render(p + [m]) == if p == [] then "/" + m else Render(p) + "/" + m
  {
    if p != [] {
      JoinAppend(p, [m]);
    } else {
      assert p + [m] == [m];
    }
  }

  /** Resolving `../m` from a non-root base replaces its last segment with `m`. */
  lemma SiblingResolves(cwd: string, p: seq<string>, n: string, m: string)
    requires Clean(p + [n])
    requires m != "" && m != "." && m != ".." && '/' !in m
    ensures AbsPath(cwd, Render(p + [n])) == Render(p + [n])
    ensures ResolvedSegs(cwd, PathJoin(Render(p + [n]), "../" + m)) == p + [m]
  {
    var bc := p + [n];
    ResolveRendered(cwd, bc);
    SiblingSplit(bc, m);
    SiblingFolds(p, n, m);
  }

  /** The segments of `/bc/../m`. */
  lemma SiblingSplit(bc: seq<string>, m: string)
    requires Clean(bc) && bc != []
    requires '/' !in m
    ensures Split(PathJoin(Render(bc), "../" + m)) == [""] + bc + ["..", m]
  {
    SplitJoined(bc, "../" + m);
    ClimbSplit(m);
  }

  /** `../m` splits into a climb and the name. */
  lemma ClimbSplit(m: string)
    requires '/' !in m
    ensures Split("../" + m) == ["..", m]
  {
    assert "../" + m == ".." + "/" + m;
    SplitConcat("..", m);
    SplitSegment("..");
    SplitSegment(m);
  }

  /** Folding the segments of `/p/n/../m` leaves `p/m`. */
  lemma SiblingFolds(p: seq<string>, n: string, m: string)
    requires Clean(p + [n])
    requires m != "" && m != "." && m != ".." && '/' !in m
    ensures Fold([], [""] + (p + [n]) + ["..", m]) == p + [m]
  {
    var bc := p + [n];
    FoldConcat([], [""] + bc, ["..", m]);
    assert Fold([], [""] + bc) == Fold([], bc) by {
      assert ([""] + bc)[0] == "" && ([""] + bc)[1..] == bc;
    }
    FoldClean([], bc);
    assert [] + bc == bc;
    assert Step(bc, "..") == p;
    assert Fold(bc, ["..", m]) == Fold(p, [m]) by {
      assert ["..", m][1..] == [m];
    }
    assert Fold(p, [m]) == Fold(p + [m], []) by {
      assert [m][1..] == [];
    }
  }

  /**
   * The textual check and a sibling of the base: `../m` from `p/n` resolves
   * to `p/m`, and is accepted exactly when `n` is a prefix of `m` as text,
   * although `p/m` is never inside `p/n`. The segment-wise check refuses
   * every sibling.
   */
  lemma SiblingOfBase(cwd: string, p: seq<string>, n: string, m: string)
    requires Clean(p + [n])
    requires m != "" && m != "." && m != ".." && '/' !in m && m != n
    ensures ValidateSafePath(cwd, Render(p + [n]), "../" + m).Success? <==> n <= m
    ensures ValidateSafePath(cwd, Render(p + [n]), "../" + m).Success? ==>
              ValidateSafePath(cwd, Render(p + [n]), "../" + m).value == Render(p + [m])
    ensures ValidateSafePathWithin(cwd, Render(p + [n]), "../" + m).Failure?
  {
    var bc := p + [n];
    var rc := p + [m];
    SiblingResolves(cwd, p, n, m);
    ResolveRendered(cwd, bc);
    SiblingStaysClean(p, n, m);
    ResolveRendered(cwd, rc);
    SiblingTextPrefix(p, n, m);
    assert rc[|p|] != bc[|p|];
  }

  lemma SiblingStaysClean(p: seq<string>, n: string, m: string)
    requires Clean(p + [n])
    requires m != "" && m != "." && m != ".." && '/' !in m
    ensures Clean(p + [m])
  {
    assert forall i :: 0 <= i < |p| ==> (p + [m])[i] == (p + [n])[i];
  }

  lemma PrefixCancel(pre: string, n: string, m: string)
    requires pre + n <= pre + m
    ensures n <= m
  {
    assert |n| <= |m|;
    assert (pre + m)[..|pre + n|] == pre + n;
    assert (pre + m)[|pre|..|pre + n|] == m[..|n|];
    assert (pre + n)[|pre|..] == n;
  }

  /** As text, `p/n` is a prefix of `p/m` exactly when `n` is a prefix of `m`. */
  lemma SiblingTextPrefix(p: seq<string>, n: string, m: string)
    ensures Render(p + [n]) <= Render(p + [m]) <==> n <= m
  {
    RenderSnoc(p, n);
    RenderSnoc(p, m);
    var pre := if p == [] then "/" else Render(p) + "/";
    assert Render(p + [n]) == pre + n && Render(p + [m]) == pre + m;
    if n <= m {
      assert pre + n <= pre + m;
    }
    if pre + n <= pre + m {
      PrefixCancel(pre, n, m);
    }
  }

  lemma SrvPaths()
    ensures Render(["srv"] + ["app"]) == "/srv/app"
    ensures Render(["srv"] + ["app-secrets"]) == "/srv/app-secrets"
    ensures Clean(["srv"] + ["app"])
  {
    assert ["srv"] + ["app"] == ["srv", "app"] && ["srv", "app"][1..] == ["app"];
    assert ["srv"] + ["app-secrets"] == ["srv", "app-secrets"] && ["srv", "app-secrets"][1..] == ["app-secrets"];
  }

  /** The same on a concrete sibling: from `/srv/app`, `../app-secrets` is accepted by the textual check. */
  lemma SiblingWithSharedPrefix(cwd: string)
    ensures ValidateSafePath(cwd, "/srv/app", "../app-secrets") == Success("/srv/app-secrets")
    ensures ValidateSafePathWithin(cwd, "/srv/app", "../app-secrets").Failure?
  {
    SrvPaths();
    assert "app-secrets"[..3] == "app";
    assert "../" + "app-secrets" == "../app-secrets";
    SiblingOfBase(cwd, ["srv"], "app", "app-secrets");
  }

  /** And a sibling that does not share the prefix is refused: from `/srv/app`, `../etc`. */
  lemma SiblingClimbRejected(cwd: string)
    ensures ValidateSafePath(cwd, "/srv/app", "../etc").Failure?
  {
    SrvPaths();
    assert "app"[0] != "etc"[0];
    assert "../" + "etc" == "../etc";
    SiblingOfBase(cwd, ["srv"], "app", "etc");
  }
}
