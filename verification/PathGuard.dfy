/** The guard that decides which paths the file tools may touch. */
module PathGuard {
  import opened Tunnel
  import opened Text
  import opened Seqs

  // --- cleaned paths as lists of components ---

  /** A path without redundant components. */
  datatype Path = Path(rooted: bool, parts: seq<string>)

  predicate Proper(part: string) {
    part != "" && part != "." && '/' !in part
  }

  /** No empty component, no ".", and ".." only at the start of a relative path. */
  predicate Normal(p: Path) {
    && (forall i :: 0 <= i < |p.parts| ==> Proper(p.parts[i]))
    && (forall i :: 0 <= i < |p.parts| && p.parts[i] == ".." ==>
      !p.rooted && forall j :: 0 <= j < i ==> p.parts[j] == "..")
  }

  function Step(rooted: bool, parts: seq<string>, part: string): seq<string> {
    if part == "" || part == "." then parts
    else if part != ".." then parts + [part]
    else if parts != [] && parts[|parts| - 1] != ".." then parts[..|parts| - 1]
    else if rooted then parts
    else parts + [part]
  }

  /** The components that remain when "." and ".." are worked off from left to right. */
  function Resolved(rooted: bool, parts: seq<string>): seq<string> {
    if parts == [] then []
    else Step(rooted, Resolved(rooted, parts[..|parts| - 1]), parts[|parts| - 1])
  }

  predicate IsRooted(s: string) {
    s != "" && s[0] == '/'
  }

  function Parse(s: string): Path {
    Path(IsRooted(s), Resolved(IsRooted(s), Split(s, '/')))
  }

  function Render(p: Path): string {
    if p.rooted then "/" + Join(p.parts, '/')
    else if p.parts == [] then "."
    else Join(p.parts, '/')
  }

  function Clean(s: string): string {
    Render(Parse(s))
  }

  lemma {:induction false} ResolvedIsNormal(rooted: bool, parts: seq<string>)
    requires forall p :: p in parts ==> '/' !in p
    ensures Normal(Path(rooted, Resolved(rooted, parts)))
  {
    if parts != [] {
      assert parts[|parts| - 1] in parts;
      ResolvedIsNormal(rooted, parts[..|parts| - 1]);
    }
  }

  lemma ParseIsNormal(s: string)
    ensures Normal(Parse(s))
  {
    SplitHasNoSeparator(s, '/');
    ResolvedIsNormal(IsRooted(s), Split(s, '/'));
  }

  lemma KeepsNormal(rooted: bool, init: seq<string>, last: string)
    requires Normal(Path(rooted, init + [last]))
    ensures Step(rooted, init, last) == init + [last] && Normal(Path(rooted, init))
  {
    assert (init + [last])[|init|] == last;
    assert forall i :: 0 <= i < |init| ==> (init + [last])[i] == init[i];
  }

  lemma {:induction false} NormalIsResolved(rooted: bool, lead: seq<string>, parts: seq<string>)
    requires Normal(Path(rooted, parts)) && forall i :: 0 <= i < |lead| ==> lead[i] == "" || lead[i] == "."
    ensures Resolved(rooted, lead + parts) == parts
    decreases |lead| + |parts|
  {
    var all := lead + parts;
    if parts != [] {
      var init, last := parts[..|parts| - 1], parts[|parts| - 1];
      assert all[..|all| - 1] == lead + init && all[|all| - 1] == last;
      assert parts == init + [last];
      KeepsNormal(rooted, init, last);
      NormalIsResolved(rooted, lead, init);
    } else if lead != [] {
      assert all[..|all| - 1] == lead[..|lead| - 1] + parts;
      NormalIsResolved(rooted, lead[..|lead| - 1], parts);
    }
  }

  lemma ParseRenderRooted(p: Path)
    requires Normal(p) && p.rooted
    ensures Parse(Render(p)) == p
  {
    assert Render(p) == "" + ['/'] + Join(p.parts, '/');
    SplitCons("", Join(p.parts, '/'), '/');
    if p.parts == [] {
      NormalIsResolved(true, ["", ""], []);
      assert ["", ""] + [] == [""] + [""];
    } else {
      assert forall x :: x in p.parts ==> Proper(x);
      SplitJoin(p.parts, '/');
      NormalIsResolved(true, [""], p.parts);
    }
  }

  lemma ParseRenderRelative(p: Path)
    requires Normal(p) && !p.rooted
    ensures Parse(Render(p)) == p
  {
    if p.parts == [] {
      NormalIsResolved(false, ["."], []);
      assert ["."] + [] == ["."];
      SplitJoin(["."], '/');
    } else {
      assert forall x :: x in p.parts ==> Proper(x);
      SplitJoin(p.parts, '/');
      JoinStarts(p.parts);
      NormalIsResolved(false, [], p.parts);
      assert [] + p.parts == p.parts;
    }
  }

  /** Cleaned text and component lists are two forms of one thing. */
  lemma ParseRender(p: Path)
    requires Normal(p)
    ensures Parse(Render(p)) == p
  {
    if p.rooted {
      ParseRenderRooted(p);
    } else {
      ParseRenderRelative(p);
    }
  }

  lemma JoinStarts(parts: seq<string>)
    requires parts != [] && Proper(parts[0])
    ensures Join(parts, '/') != "" && Join(parts, '/')[0] == parts[0][0] != '/'
  {
    assert parts[0][0] in parts[0];
  }

  lemma CleanIsIdempotent(s: string)
    ensures Clean(Clean(s)) == Clean(s)
  {
    ParseIsNormal(s);
    ParseRender(Parse(s));
  }

  // --- what cleaning takes away ---

  lemma {:induction false} ResolvedFrom(rooted: bool, a: seq<string>, b: seq<string>, more: seq<string>)
    requires Resolved(rooted, a) == Resolved(rooted, b)
    ensures Resolved(rooted, a + more) == Resolved(rooted, b + more)
    decreases |more|
  {
    if more == [] {
      assert a + more == a && b + more == b;
    } else {
      var init, last := more[..|more| - 1], more[|more| - 1];
      ResolvedFrom(rooted, a, b, init);
      ResolvedSnoc(rooted, a + init, last);
      ResolvedSnoc(rooted, b + init, last);
      assert a + more == (a + init) + [last] && b + more == (b + init) + [last];
    }
  }

  lemma ResolvedSnoc(rooted: bool, parts: seq<string>, last: string)
    ensures Resolved(rooted, parts + [last]) == Step(rooted, Resolved(rooted, parts), last)
  {
    assert (parts + [last])[..|parts|] == parts;
  }

  lemma SplitAfter(d: string, part: string, rest: string)
    requires '/' !in part
    ensures Split(d + "/" + part + "/" + rest, '/') == Split(d, '/') + [part] + Split(rest, '/')
  {
    assert d + "/" + part + "/" + rest == d + ['/'] + (part + ['/'] + rest);
    SplitAppend(d, part + ['/'] + rest, '/');
    SplitCons(part, rest, '/');
    Assoc(Split(d, '/'), [part], Split(rest, '/'));
  }

  lemma DotDotDrops(rooted: bool, front: seq<string>, x: string, more: seq<string>)
    requires Proper(x) && x != ".."
    ensures Resolved(rooted, front + [x] + [".."] + more) == Resolved(rooted, front + more)
  {
    var there := Resolved(rooted, front);
    ResolvedSnoc(rooted, front, x);
    ResolvedSnoc(rooted, front + [x], "..");
    assert (there + [x])[|there|] == x && (there + [x])[..|there|] == there;
    ResolvedFrom(rooted, front + [x] + [".."], front, more);
  }

  /** ".." takes back the component before it, whatever precedes and follows. */
  lemma DotDotCancels(d: string, x: string, rest: string)
    requires Proper(x) && x != ".."
    ensures Parse(d + "/" + x + "/../" + rest) == Parse(d + "/" + rest)
    ensures Clean(d + "/" + x + "/../" + rest) == Clean(d + "/" + rest)
  {
    DetourSplit(d, x, rest);
    SplitAppend(d, rest, '/');
    assert d + ['/'] + rest == d + "/" + rest;
    DotDotDrops(IsRooted(d + "/" + rest), Split(d, '/'), x, Split(rest, '/'));
  }

  lemma DetourSplit(d: string, x: string, rest: string)
    requires Proper(x)
    ensures var long := d + "/" + x + "/../" + rest;
            && Split(long, '/') == Split(d, '/') + [x] + [".."] + Split(rest, '/')
            && IsRooted(long) == IsRooted(d + "/" + rest)
  {
    assert d + "/" + x + "/../" + rest == d + "/" + x + "/" + (".." + "/" + rest);
    SplitAfter(d, x, ".." + "/" + rest);
    SplitCons("..", rest, '/');
    assert ".." + ['/'] + rest == ".." + "/" + rest;
    Assoc(Split(d, '/') + [x], [".."], Split(rest, '/'));
  }

  /** At the root ".." leads nowhere. */
  lemma RootStays(rest: string)
    ensures Clean("/../" + rest) == Clean("/" + rest) && Clean("/..") == "/" == Clean("/")
  {
    assert "/../" + rest == "" + "/" + ".." + "/" + rest && "/" + rest == "" + ['/'] + rest;
    SplitAfter("", "..", rest);
    SplitAppend("", rest, '/');
    assert Split("", '/') == [""];
    ResolvedSnoc(true, [""], "..");
    assert Resolved(true, [""]) == [];
    ResolvedFrom(true, [""] + [".."], [""], Split(rest, '/'));
    RootAlone();
  }

  lemma RootAlone()
    ensures Clean("/..") == "/" == Clean("/")
  {
    assert "/.." == "" + ['/'] + ".." && "/" == "" + ['/'] + "";
    SplitAppend("", "..", '/');
    SplitAppend("", "", '/');
    SplitCons("..", "", '/');
    assert Split("", '/') == [""] && Split("..", '/') == [".."];
    ResolvedSnoc(true, [""], "..");
    ResolvedSnoc(true, [""], "");
    assert Resolved(true, [""]) == [];
  }

  /** Empty components and "." say nothing. */
  lemma DotIsNothing(d: string, dot: string, rest: string)
    requires dot == "" || dot == "."
    ensures Clean(d + "/" + dot + "/" + rest) == Clean(d + "/" + rest)
  {
    var front, rooted := Split(d, '/'), IsRooted(d + "/" + rest);
    assert IsRooted(d + "/" + dot + "/" + rest) == rooted;
    SplitAfter(d, dot, rest);
    SplitAppend(d, rest, '/');
    assert d + ['/'] + rest == d + "/" + rest;
    ResolvedSnoc(rooted, front, dot);
    ResolvedFrom(rooted, front + [dot], front, Split(rest, '/'));
  }

  /** A leading ".." of a relative path stays, and so does all that is clean. */
  lemma CleanStays(p: Path)
    requires Normal(p)
    ensures Clean(Render(p)) == Render(p)
  {
    ParseRender(p);
  }

  // --- the test on text ---

  function WithSeparator(s: string): string {
    if s != "" && s[|s| - 1] == '/' then s else s + "/"
  }

  /** Each component followed by a separator. */
  function Segments(parts: seq<string>): string {
    if parts == [] then "" else parts[0] + "/" + Segments(parts[1..])
  }

  lemma {:induction false} JoinIsSegments(parts: seq<string>)
    requires parts != [] && forall i :: 0 <= i < |parts| ==> Proper(parts[i])
    ensures Join(parts, '/') + "/" == Segments(parts)
    ensures Join(parts, '/') != "" && Join(parts, '/')[|Join(parts, '/')| - 1] != '/'
  {
    if |parts| == 1 {
      var p := parts[0];
      assert p[|p| - 1] in p;
    } else {
      JoinIsSegments(parts[1..]);
      assert Join(parts, '/') + "/" == parts[0] + "/" + (Join(parts[1..], '/') + "/");
    }
  }

  /** What the guard compares: the cleaned path with a separator at its end. */
  function Terminated(p: Path): string {
    WithSeparator(Render(p))
  }

  lemma TerminatedIs(p: Path)
    requires Normal(p)
    ensures Terminated(p) ==
      (if p.rooted then "/" + Segments(p.parts) else if p.parts == [] then "./" else Segments(p.parts))
  {
    if p.parts != [] {
      JoinIsSegments(p.parts);
      assert "/" + Join(p.parts, '/') + "/" == "/" + Segments(p.parts);
    }
  }

  lemma FirstSegment(a: string, x: string, b: string, y: string)
    requires '/' !in a && '/' !in b && a + "/" + x <= b + "/" + y
    ensures a == b && x <= y
  {
    UntilAt(a, '/', x);
    UntilAt(b, '/', y);
    var s, t := a + "/" + x, b + "/" + y;
    assert s[|a|] == '/' && t[|b|] == '/';
    assert t == s + t[|s|..];
    assert t == a + "/" + (x + t[|s|..]);
    UntilAt(a, '/', x + t[|s|..]);
    assert a == t[..|a|] && b == t[..|b|];
    assert x == s[|a| + 1..] && y == t[|a| + 1..];
  }

  /** On terminated text a prefix of characters is a prefix of components. */
  lemma {:induction false} SegmentsPrefix(a: seq<string>, b: seq<string>)
    requires (forall i :: 0 <= i < |a| ==> Proper(a[i])) && (forall i :: 0 <= i < |b| ==> Proper(b[i]))
    ensures Segments(a) <= Segments(b) <==> a <= b
  {
    if a != [] && b != [] {
      SegmentsPrefix(a[1..], b[1..]);
      assert a == [a[0]] + a[1..] && b == [b[0]] + b[1..];
      if Segments(a) <= Segments(b) {
        FirstSegment(a[0], Segments(a[1..]), b[0], Segments(b[1..]));
      }
      if a <= b {
        assert a[1..] <= b[1..];
      }
    }
  }

  /** `p` is the path `q` or a directory above it. The relative path of no
      components, ".", covers only itself. */
  predicate Covers(p: Path, q: Path) {
    p.rooted == q.rooted && p.parts <= q.parts && (!p.rooted && p.parts == [] ==> q.parts == [])
  }

  /** The string test with the trailing separator is the test on components. */
  lemma PrefixIsCover(p: Path, q: Path)
    requires Normal(p) && Normal(q)
    ensures Terminated(p) <= Terminated(q) <==> Covers(p, q)
  {
    TerminatedIs(p);
    TerminatedIs(q);
    SegmentsPrefix(p.parts, q.parts);
    Starts(p);
    Starts(q);
    if p.rooted && q.rooted {
      assert Segments(p.parts) == Terminated(p)[1..] && Segments(q.parts) == Terminated(q)[1..];
    } else if !p.rooted && !q.rooted && (p.parts == [] || q.parts == []) {
      DotIsApart(p.parts, q.parts);
    }
  }

  lemma Starts(p: Path)
    requires Normal(p)
    ensures Terminated(p) != "" && (p.rooted <==> Terminated(p)[0] == '/')
  {
    TerminatedIs(p);
    if !p.rooted && p.parts != [] {
      assert Proper(p.parts[0]) && p.parts[0][0] in p.parts[0];
    }
  }

  lemma DotIsApart(a: seq<string>, b: seq<string>)
    requires (forall i :: 0 <= i < |a| ==> Proper(a[i])) && (forall i :: 0 <= i < |b| ==> Proper(b[i]))
    ensures a != [] ==> !(Segments(a) <= "./") && !("./" <= Segments(a))
    ensures b != [] ==> !(Segments(b) <= "./") && !("./" <= Segments(b))
  {
    NotDot(a);
    NotDot(b);
  }

  lemma NotDot(a: seq<string>)
    requires forall i :: 0 <= i < |a| ==> Proper(a[i])
    ensures a != [] ==> !(Segments(a) <= "./") && !("./" <= Segments(a))
  {
    if a != [] {
      var dot, rest := ".", Segments(a[1..]);
      assert Segments(a) == a[0] + "/" + rest && dot + "/" + "" == "./" && Proper(a[0]);
      if Segments(a) <= "./" {
        FirstSegment(a[0], rest, dot, "");
      }
      if "./" <= Segments(a) {
        FirstSegment(dot, "", a[0], rest);
      }
    }
  }

  // --- the guard ---

  datatype Guard = Guard(allowed: seq<string>, blocked: seq<string>)

  datatype Decision = Granted | Blocked | NotAllowed

  function Term(path: string): string {
    Terminated(Parse(path))
  }

  function Terms(paths: seq<string>): seq<string> {
    seq(|paths|, i requires 0 <= i < |paths| => Term(paths[i]))
  }

  method CleanOne(path: string) returns (c: string)
    ensures c == Term(path)
  {
    c := Clean(path);
    if !(c != "" && c[|c| - 1] == '/') {
      c := c + "/";
    }
  }

  method CleanAll(paths: seq<string>) returns (out: seq<string>)
    ensures out == Terms(paths)
  {
    out := [];
    for k := 0 to |paths|
      invariant |out| == k && forall i :: 0 <= i < k ==> out[i] == Term(paths[i])
    {
      var c := CleanOne(paths[k]);
      out := out + [c];
    }
  }

  method NewPathGuard(allowed: seq<string>, blocked: seq<string>) returns (g: Guard)
    ensures g == Guard(Terms(allowed), Terms(blocked))
  {
    var a := CleanAll(allowed);
    var b := CleanAll(blocked);
    g := Guard(a, b);
  }

  ghost predicate SomeCovers(paths: seq<string>, target: Path) {
    exists i :: 0 <= i < |paths| && Covers(Parse(paths[i]), target)
  }

  /** The path that a check is about: the cleaned one, or what its symbolic links
      lead to when they can be resolved. */
  function Target(path: string, resolve: string -> Option<string>): Path {
    var actual := resolve(Clean(path));
    if actual.Some? then Parse(actual.value) else Parse(path)
  }

  ghost predicate Decides(d: Decision, allowed: seq<string>, blocked: seq<string>, target: Path) {
    && (d == Blocked <==> SomeCovers(blocked, target))
    && (d == Granted <==> !SomeCovers(blocked, target) && (allowed == [] || SomeCovers(allowed, target)))
  }

  /** A detour through ".." does not change a decision, whatever resolves. */
  lemma DetourIsDecidedAlike(d: string, x: string, rest: string, resolve: string -> Option<string>,
      allowed: seq<string>, blocked: seq<string>, one: Decision, other: Decision)
    requires Proper(x) && x != ".."
    requires Decides(one, allowed, blocked, Target(d + "/" + x + "/../" + rest, resolve))
    requires Decides(other, allowed, blocked, Target(d + "/" + rest, resolve))
    ensures one == other
  {
    DotDotCancels(d, x, rest);
  }

  /** A path is granted exactly when nothing blocked is at or above what it
      resolves to, and the allowed list is empty or something allowed is; blocking
      comes first. `resolve` gives cleaned paths. */
  method Check(g: Guard, path: string, resolve: string -> Option<string>, ghost allowed: seq<string>,
      ghost blocked: seq<string>)
    returns (d: Decision)
    requires g == Guard(Terms(allowed), Terms(blocked))
    requires forall s :: resolve(s).Some? ==> Clean(resolve(s).value) == resolve(s).value
    ensures var found := resolve(Clean(path));
            Decides(d, allowed, blocked, Parse(if found.Some? then found.value else path))
  {
    var cleaned := Clean(path);
    var actual := resolve(cleaned);
    if actual.Some? {
      cleaned := actual.value;
    }
    ghost var target := Target(path, resolve);
    assert cleaned == Render(target);
    var candidate := cleaned;
    if !(candidate != "" && candidate[|candidate| - 1] == '/') {
      candidate := candidate + "/";
    }
    TargetIsNormal(path, resolve);
    var hit := StartsWithAny(g.blocked, candidate, blocked, target);
    if hit {
      return Blocked;
    }
    if |g.allowed| == 0 {
      return Granted;
    }
    hit := StartsWithAny(g.allowed, candidate, allowed, target);
    d := if hit then Granted else NotAllowed;
  }

  method StartsWithAny(terms: seq<string>, candidate: string, ghost paths: seq<string>, ghost target: Path)
    returns (hit: bool)
    requires terms == Terms(paths) && Normal(target) && candidate == Terminated(target)
    ensures hit <==> SomeCovers(paths, target)
  {
    for k := 0 to |terms|
      invariant forall i :: 0 <= i < k ==> !Covers(Parse(paths[i]), target)
    {
      ParseIsNormal(paths[k]);
      PrefixIsCover(Parse(paths[k]), target);
      if terms[k] <= candidate {
        return true;
      }
    }
    hit := false;
  }

  lemma TargetIsNormal(path: string, resolve: string -> Option<string>)
    ensures Normal(Target(path, resolve))
  {
    ParseIsNormal(path);
    if resolve(Clean(path)).Some? { ParseIsNormal(resolve(Clean(path)).value); }
  }

  /** Everything under a blocked path is blocked with it. */
  lemma BlockedBelow(blocked: seq<string>, p: Path, more: seq<string>)
    requires SomeCovers(blocked, p) && (p.rooted || p.parts != [])
    ensures SomeCovers(blocked, Path(p.rooted, p.parts + more))
  {
    var i :| 0 <= i < |blocked| && Covers(Parse(blocked[i]), p);
    assert Covers(Parse(blocked[i]), Path(p.rooted, p.parts + more));
  }

  /** A path whose name merely continues a blocked name is not blocked by it. */
  lemma SiblingIsFree(dir: seq<string>, name: string, longer: string)
    requires Normal(Path(true, dir + [name])) && Normal(Path(true, dir + [longer])) && name < longer
    ensures Render(Path(true, dir + [name])) <= Render(Path(true, dir + [longer]))
    ensures !(Terminated(Path(true, dir + [name])) <= Terminated(Path(true, dir + [longer])))
  {
    var p, q := Path(true, dir + [name]), Path(true, dir + [longer]);
    PrefixIsCover(p, q);
    assert p.parts[|dir|] == name && q.parts[|dir|] == longer;
    if dir != [] {
      JoinSnoc(dir, name, '/');
      JoinSnoc(dir, longer, '/');
    }
  }
}
