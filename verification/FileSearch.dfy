/** Searching the lines of a file with context, as grep does. */
module FileSearch {
  import opened Tunnel
  import opened Text
  import opened LineScan

  datatype Params = Params(
    invert: bool, showLineNums: bool, countOnly: bool, contextBefore: int, contextAfter: int, maxMatches: int)

  datatype MatchLine = MatchLine(lineNum: nat, content: string, context: string)

  datatype Role = Before | Hit | After | Unseen

  /** One search: the lines, which of them the pattern matches, and the parameters. */
  datatype Search = Search(lines: seq<string>, matches: string -> bool, p: Params)
  {
    predicate IsHit(i: nat)
      requires i < |lines|
    {
      matches(lines[i]) != p.invert
    }

    function HitsBefore(i: nat): nat
      requires i <= |lines|
    {
      if i == 0 then 0 else HitsBefore(i - 1) + (if IsHit(i - 1) then 1 else 0)
    }

    /** The first `maxMatches` hits; all of them when there is no limit. */
    predicate Selected(i: int) {
      0 <= i < |lines| && IsHit(i) && (p.maxMatches <= 0 || HitsBefore(i) < p.maxMatches)
    }

    function B(): nat {
      if p.contextBefore > 0 then p.contextBefore else 0
    }

    function A(): nat {
      if p.contextAfter > 0 then p.contextAfter else 0
    }

    ghost predicate Follows(l: int) {
      exists i :: Selected(i) && i < l <= i + A()
    }

    ghost predicate Precedes(l: int) {
      exists i :: Selected(i) && l < i <= l + B()
    }

    /** As what the line `l` is reported. */
    ghost function RoleOf(l: int): Role {
      if Follows(l) then After else if Selected(l) then Hit else if Precedes(l) then Before else Unseen
    }

    function Line(l: nat, role: Role): MatchLine
      requires l < |lines|
    {
      MatchLine(if p.showLineNums then l + 1 else 0, lines[l],
                match role case Before => "before" case After => "after" case _ => "")
    }

    ghost function Roles(): seq<Role> {
      seq(|lines|, l requires 0 <= l < |lines| => RoleOf(l))
    }

    /** What is reported of the first `n` lines: each line that has a role, in order. */
    function Report(roles: seq<Role>, n: nat): seq<MatchLine>
      requires n <= |roles| == |lines|
    {
      if n == 0 then []
      else Report(roles, n - 1) + (if roles[n - 1].Unseen? then [] else [Line(n - 1, roles[n - 1])])
    }

    /** The first line of the window before `k`. */
    function Low(k: nat): nat {
      if k > B() then k - B() else 0
    }

    /** The end of the window after `k`. */
    function High(k: nat): nat {
      if k + A() + 1 < |lines| then k + A() + 1 else |lines|
    }

    /** `w` is the end of the window of the last selected line before `k`. */
    ghost predicate WindowEnd(k: nat, w: nat) {
      && (w == 0 || exists j :: j < k && Selected(j) && w == High(j))
      && (forall j :: j < k && Selected(j) ==> High(j) <= w)
    }
  }

  // --- the roles around a selected line ---

  lemma SeenInWindow(s: Search, k: nat, w: nat, l: nat)
    requires s.WindowEnd(k, w) && s.Low(k) <= l < w
    ensures !s.RoleOf(l).Unseen?
  {
    var j :| j < k && s.Selected(j) && w == s.High(j);
    if l > j {
      assert s.Follows(l);
    } else if l < j {
      assert s.Precedes(l);
    }
  }

  lemma NothingReaches(s: Search, k: nat, w: nat, l: nat)
    requires s.WindowEnd(k, w) && w <= l < |s.lines|
    requires l <= k || forall i :: k <= i ==> !s.Selected(i)
    ensures !s.Follows(l) && (l < k ==> !s.Selected(l))
  {
    forall j | s.Selected(j) && j < l ensures !(l <= j + s.A()) {
      assert j < k && s.High(j) <= w;
    }
    assert l < k && s.Selected(l) ==> s.High(l) <= w;
  }

  lemma RolesBeyond(s: Search, k: nat, w: nat, l: nat)
    requires s.WindowEnd(k, w) && s.Selected(k) && w <= l < |s.lines| && s.Low(k) <= l <= k + s.A()
    ensures s.RoleOf(l) == if l < k then Before else if l == k then Hit else After
  {
    if l <= k {
      NothingReaches(s, k, w, l);
    }
    if l < k {
      assert s.Precedes(l);
    }
  }

  /** Between the window of the last selected line before `k` and that of `k`, or
      the end of the file when nothing from `k` on is selected, no line has a role. */
  lemma UnseenBetween(s: Search, k: nat, w: nat, l: nat)
    requires k <= |s.lines| && s.WindowEnd(k, w) && w <= l < |s.lines|
    requires (k < |s.lines| && l < s.Low(k)) || (forall i :: k <= i ==> !s.Selected(i))
    ensures s.RoleOf(l).Unseen?
  {
    NothingReaches(s, k, w, l);
    forall j | s.Selected(j) && j < k ensures j < w {
      assert s.High(j) <= w;
    }
    assert !s.Precedes(l);
  }

  lemma NextWindow(s: Search, k: nat, w: nat)
    requires k < |s.lines| && s.WindowEnd(k, w)
    ensures s.Selected(k) ==> w <= s.High(k) && s.WindowEnd(k + 1, s.High(k))
    ensures !s.Selected(k) ==> s.WindowEnd(k + 1, w)
  {
  }

  /** The roles of the lines up to the end of the window of the selected line
      `k`, the windows before it ending at `w`. */
  predicate WindowRoles(s: Search, roles: seq<Role>, k: nat, w: nat) {
    && k < |s.lines| == |roles| && w <= |s.lines|
    && (forall l :: s.Low(k) <= l < w ==> !roles[l].Unseen?)
    && (forall l :: w <= l < s.Low(k) ==> roles[l].Unseen?)
    && (forall l :: Max(w, s.Low(k)) <= l < s.High(k) ==> roles[l] == RoleAround(k, l))
  }

  function RoleAround(k: nat, l: int): Role {
    if l < k then Before else if l == k then Hit else After
  }

  lemma RolesAround(s: Search, k: nat, w: nat)
    requires s.WindowEnd(k, w) && s.Selected(k) && w <= |s.lines|
    ensures WindowRoles(s, s.Roles(), k, w)
  {
    var roles := s.Roles();
    forall l | s.Low(k) <= l < w ensures !roles[l].Unseen? { SeenInWindow(s, k, w, l); }
    forall l | w <= l < s.Low(k) ensures roles[l].Unseen? { UnseenBetween(s, k, w, l); }
    forall l | Max(w, s.Low(k)) <= l < s.High(k) ensures roles[l] == RoleAround(k, l) { RolesBeyond(s, k, w, l); }
  }

  lemma NoneAfter(s: Search, k: nat, w: nat)
    requires k <= |s.lines| && s.WindowEnd(k, w) && w <= |s.lines| && forall i :: k <= i ==> !s.Selected(i)
    ensures s.Report(s.Roles(), |s.lines|) == s.Report(s.Roles(), w)
  {
    forall l | w <= l < |s.lines| ensures s.Roles()[l].Unseen? { UnseenBetween(s, k, w, l); }
    NothingReported(s, s.Roles(), w, |s.lines|);
  }

  lemma {:induction false} NothingReported(s: Search, roles: seq<Role>, w: nat, to: nat)
    requires w <= to <= |s.lines| == |roles| && forall l :: w <= l < to ==> roles[l].Unseen?
    ensures s.Report(roles, to) == s.Report(roles, w)
  {
    if w < to {
      NothingReported(s, roles, w, to - 1);
    }
  }

  lemma {:induction false} HitsGrow(s: Search, i: nat, j: nat)
    requires i <= j <= |s.lines|
    ensures s.HitsBefore(i) <= s.HitsBefore(j)
  {
    if i < j {
      HitsGrow(s, i, j - 1);
    }
  }

  // --- the search ---

  datatype Answer = Answer(matches: seq<MatchLine>, count: nat)

  /** Reports exactly the lines with a role, in the order of the file and each once;
      the count stops one beyond the limit. */
  method SearchFileContent(s: Search) returns (res: Answer)
    ensures res.matches == if s.p.countOnly then [] else s.Report(s.Roles(), |s.lines|)
    ensures !s.p.countOnly ==> Reported(s, res.matches)
    ensures var total := |WantedBefore(s, |s.lines|)|;
            res.count == if s.p.countOnly || s.p.maxMatches <= 0 || total <= s.p.maxMatches
              then total else s.p.maxMatches + 1
  {
    var matches: seq<MatchLine>, count: nat, added: set<int> := [], 0, {};
    ghost var w: nat := 0;
    var i := 0;
    while i < |s.lines|
      invariant 0 <= i <= |s.lines| && w <= |s.lines|
      invariant count == s.HitsBefore(i) && (!s.p.countOnly && s.p.maxMatches > 0 ==> count <= s.p.maxMatches)
      invariant s.p.countOnly ==> matches == []
      invariant !s.p.countOnly ==> s.WindowEnd(i, w) && Progress(s, s.Roles(), matches, added, w)
    {
      if !s.IsHit(i) {
        if !s.p.countOnly { NextWindow(s, i, w); }
        i := i + 1;
        continue;
      }
      count := count + 1;
      if s.p.countOnly {
        i := i + 1;
        continue;
      }
      if s.p.maxMatches > 0 && count > s.p.maxMatches {
        CutOff(s, i, w);
        break;
      }
      matches, added := Select(s, i, w, matches, added);
      w := s.High(i);
      i := i + 1;
    }
    if !s.p.countOnly && i == |s.lines| {
      NoneAfter(s, i, w);
    }
    ReportIsRequested(s);
    WantedIsHit(s, |s.lines|);
    res := Answer(matches, count);
  }

  /** At the first hit beyond the limit everything is reported. */
  lemma CutOff(s: Search, i: nat, w: nat)
    requires i < |s.lines| && s.IsHit(i) && s.p.maxMatches > 0 && s.HitsBefore(i) >= s.p.maxMatches
    requires s.WindowEnd(i, w) && w <= |s.lines|
    ensures s.Report(s.Roles(), |s.lines|) == s.Report(s.Roles(), w)
    ensures s.HitsBefore(|s.lines|) > s.p.maxMatches
  {
    HitsGrow(s, i + 1, |s.lines|);
    forall j | i <= j ensures !s.Selected(j) {
      if j < |s.lines| { HitsGrow(s, i, j); }
    }
    NoneAfter(s, i, w);
  }

  function Max(a: int, b: int): int {
    if a < b then b else a
  }

  function Min(a: int, b: int): int {
    if a < b then a else b
  }

  /** `out` reports the lines before `end`, and `seen` says which lines those are. */
  ghost predicate Progress(s: Search, roles: seq<Role>, out: seq<MatchLine>, seen: set<int>, end: nat) {
    && end <= |s.lines| == |roles|
    && out == s.Report(roles, end)
    && forall l :: l in seen <==> 0 <= l < end && !roles[l].Unseen?
  }

  method Select(s: Search, k: nat, ghost w: nat, matches: seq<MatchLine>, added: set<int>)
    returns (out: seq<MatchLine>, seen: set<int>)
    requires s.Selected(k) && s.WindowEnd(k, w) && Progress(s, s.Roles(), matches, added, w)
    ensures s.WindowEnd(k + 1, s.High(k)) && Progress(s, s.Roles(), out, seen, s.High(k))
  {
    NextWindow(s, k, w);
    RolesAround(s, k, w);
    out, seen := AddWindow(s, s.Roles(), k, w, matches, added);
  }

  /** Adds what the selected line `k` and its context add. */
  method AddWindow(s: Search, ghost roles: seq<Role>, k: nat, ghost w: nat, matches: seq<MatchLine>, added: set<int>)
    returns (out: seq<MatchLine>, seen: set<int>)
    requires WindowRoles(s, roles, k, w) && w <= s.High(k) && Progress(s, roles, matches, added, w)
    ensures Progress(s, roles, out, seen, s.High(k))
  {
    out, seen := AddBefore(s, roles, k, w, matches, added);
    out, seen := AddLine(s, roles, k, w, k, Hit, out, seen);
    out, seen := AddAfter(s, roles, k, w, out, seen);
  }

  method AddAfter(s: Search, ghost roles: seq<Role>, k: nat, ghost w: nat, matches: seq<MatchLine>, added: set<int>)
    returns (out: seq<MatchLine>, seen: set<int>)
    requires WindowRoles(s, roles, k, w) && w <= s.High(k) && Progress(s, roles, matches, added, Max(w, k + 1))
    ensures Progress(s, roles, out, seen, s.High(k))
  {
    out, seen := matches, added;
    var a := k + 1;
    while a <= Min(|s.lines| - 1, k + s.p.contextAfter)
      invariant k + 1 <= a <= s.High(k)
      invariant Progress(s, roles, out, seen, Max(w, a))
    {
      out, seen := AddLine(s, roles, k, w, a, After, out, seen);
      a := a + 1;
    }
  }

  method AddBefore(s: Search, ghost roles: seq<Role>, k: nat, ghost w: nat, matches: seq<MatchLine>, added: set<int>)
    returns (out: seq<MatchLine>, seen: set<int>)
    requires WindowRoles(s, roles, k, w) && Progress(s, roles, matches, added, w)
    ensures Progress(s, roles, out, seen, Max(w, k))
  {
    out, seen := matches, added;
    if w < s.Low(k) {
      NothingReported(s, roles, w, s.Low(k));
    }
    var b := Max(0, k - s.p.contextBefore);
    while b < k
      invariant s.Low(k) <= b && (b <= k || s.p.contextBefore < 0)
      invariant Progress(s, roles, out, seen, Max(w, Min(b, k)))
    {
      out, seen := AddLine(s, roles, k, w, b, Before, out, seen);
      b := b + 1;
    }
  }

  /** Adds one line of the window of `k` unless an earlier window has added it. */
  method AddLine(s: Search, ghost roles: seq<Role>, k: nat, ghost w: nat, l: nat, role: Role, matches: seq<MatchLine>,
      added: set<int>)
    returns (out: seq<MatchLine>, seen: set<int>)
    requires WindowRoles(s, roles, k, w) && s.Low(k) <= l < s.High(k) && role == RoleAround(k, l)
    requires Progress(s, roles, matches, added, Max(w, l))
    ensures Progress(s, roles, out, seen, Max(w, l + 1))
  {
    out, seen := matches, added;
    if l !in seen {
      out := out + [s.Line(l, role)];
      seen := seen + {l};
    }
  }

  // --- what the report is ---

  /** The part of the file that the line `i` brings along. */
  predicate InWindow(s: Search, i: int, l: int) {
    i - s.B() <= l <= i + s.A()
  }

  /** A line is reported exactly when it lies in the window of a selected line. */
  lemma SeenIffInWindow(s: Search, l: nat)
    requires l < |s.lines|
    ensures !s.Roles()[l].Unseen? <==> exists i :: s.Selected(i) && InWindow(s, i, l)
  {
    if s.Follows(l) {
      var i :| s.Selected(i) && i < l <= i + s.A();
      assert InWindow(s, i, l);
    } else if s.Selected(l) {
      assert InWindow(s, l, l);
    } else if s.Precedes(l) {
      var i :| s.Selected(i) && l < i <= l + s.B();
      assert InWindow(s, i, l);
    }
  }

  /** The lines among the first `n` that are reported, in order. */
  function ReportedLines(roles: seq<Role>, n: nat): seq<nat>
    requires n <= |roles|
  {
    if n == 0 then []
    else ReportedLines(roles, n - 1) + (if roles[n - 1].Unseen? then [] else [n - 1])
  }

  predicate Increasing(ls: seq<nat>) {
    forall i, j :: 0 <= i < j < |ls| ==> ls[i] < ls[j]
  }

  lemma {:induction false} LinesIncrease(roles: seq<Role>, n: nat)
    requires n <= |roles|
    ensures Increasing(ReportedLines(roles, n))
    ensures forall l :: l in ReportedLines(roles, n) <==> 0 <= l < n && !roles[l].Unseen?
  {
    if n > 0 {
      LinesIncrease(roles, n - 1);
      var before := ReportedLines(roles, n - 1);
      assert forall i :: 0 <= i < |before| ==> before[i] in before;
    }
  }

  lemma {:induction false} ReportIsOfLines(s: Search, roles: seq<Role>, n: nat)
    requires n <= |roles| == |s.lines|
    ensures |s.Report(roles, n)| == |ReportedLines(roles, n)|
    ensures forall i :: 0 <= i < |ReportedLines(roles, n)| ==>
      var l := ReportedLines(roles, n)[i]; l < n && s.Report(roles, n)[i] == s.Line(l, roles[l])
  {
    if n > 0 {
      ReportIsOfLines(s, roles, n - 1);
    }
  }

  /** What is reported, entry for entry: the lines in the windows of the first hits,
      clipped to the file, each once and in the order of the file, with or without
      their numbers. */
  lemma ReportIsUnionOfWindows(s: Search)
    ensures var roles, n := s.Roles(), |s.lines|;
            var out, ls := s.Report(roles, n), ReportedLines(roles, n);
            && Increasing(ls) && |out| == |ls|
            && (forall i :: 0 <= i < |ls| ==> ls[i] < n && out[i] == s.Line(ls[i], roles[ls[i]]))
            && (forall l: nat :: l in ls <==> l < n && exists i :: s.Selected(i) && InWindow(s, i, l))
  {
    var roles, n := s.Roles(), |s.lines|;
    LinesIncrease(roles, n);
    ReportIsOfLines(s, roles, n);
    forall l: nat ensures l in ReportedLines(roles, n) <==> l < n && exists i :: s.Selected(i) && InWindow(s, i, l) {
      if l < n { SeenIffInWindow(s, l); }
    }
  }

  // --- the report in the words of the request ---

  /** The line matches, or with inversion does not. */
  predicate Wanted(s: Search, i: int) {
    0 <= i < |s.lines| && (if s.p.invert then !s.matches(s.lines[i]) else s.matches(s.lines[i]))
  }

  function WantedBefore(s: Search, i: int): set<int> {
    set j | 0 <= j < i && Wanted(s, j)
  }

  /** One of the first `maxMatches` wanted lines, or any of them without a limit. */
  predicate Chosen(s: Search, i: int) {
    Wanted(s, i) && (s.p.maxMatches > 0 ==> |WantedBefore(s, i)| < s.p.maxMatches)
  }

  ghost predicate AfterChosen(s: Search, l: int) {
    exists i :: Chosen(s, i) && i < l <= i + s.p.contextAfter
  }

  ghost predicate BeforeChosen(s: Search, l: int) {
    exists i :: Chosen(s, i) && i - s.p.contextBefore <= l < i
  }

  /** The entry for the line `l`: its text, its number from one on when numbers are
      asked for, and how it comes to be there. */
  ghost predicate EntryIs(s: Search, m: MatchLine, l: nat) {
    && l < |s.lines| && m.content == s.lines[l]
    && m.lineNum == (if s.p.showLineNums then l + 1 else 0)
    && (m.context == "after" <==> AfterChosen(s, l))
    && (m.context == "" <==> Chosen(s, l) && !AfterChosen(s, l))
    && (m.context == "before" <==> !Chosen(s, l) && !AfterChosen(s, l))
  }

  /** The entries are those of the lines `ls`, which are the chosen ones with what
      is around them, each once and in the order of the file. */
  ghost predicate Reports(s: Search, out: seq<MatchLine>, ls: seq<nat>) {
    && Increasing(ls) && |out| == |ls|
    && (forall l: nat :: l in ls <==> l < |s.lines| && (Chosen(s, l) || AfterChosen(s, l) || BeforeChosen(s, l)))
    && (forall k :: 0 <= k < |ls| ==> EntryIs(s, out[k], ls[k]))
  }

  ghost predicate Reported(s: Search, out: seq<MatchLine>) {
    exists ls :: Reports(s, out, ls)
  }

  lemma {:induction false} WantedIsHit(s: Search, i: nat)
    requires i <= |s.lines|
    ensures |WantedBefore(s, i)| == s.HitsBefore(i)
    ensures i < |s.lines| ==> (Chosen(s, i) <==> s.Selected(i))
  {
    if i > 0 {
      WantedIsHit(s, i - 1);
      var before := WantedBefore(s, i - 1);
      assert WantedBefore(s, i) == if Wanted(s, i - 1) then before + {i - 1} else before;
    } else {
      assert WantedBefore(s, i) == {};
    }
  }

  lemma ChosenAround(s: Search, l: nat)
    requires l < |s.lines|
    ensures AfterChosen(s, l) <==> s.Follows(l)
    ensures BeforeChosen(s, l) <==> s.Precedes(l)
    ensures Chosen(s, l) <==> s.Selected(l)
  {
    forall i ensures Chosen(s, i) <==> s.Selected(i) {
      if 0 <= i < |s.lines| { WantedIsHit(s, i); }
    }
    if i :| Chosen(s, i) && i < l <= i + s.p.contextAfter { assert s.Selected(i) && i < l <= i + s.A(); }
    if i :| Chosen(s, i) && i - s.p.contextBefore <= l < i { assert s.Selected(i) && l < i <= l + s.B(); }
    if i :| s.Selected(i) && i < l <= i + s.A() { assert Chosen(s, i); }
    if i :| s.Selected(i) && l < i <= l + s.B() { assert Chosen(s, i); }
  }

  lemma ReportIsRequested(s: Search)
    ensures Reported(s, s.Report(s.Roles(), |s.lines|))
  {
    var roles, n := s.Roles(), |s.lines|;
    var ls := ReportedLines(roles, n);
    LinesIncrease(roles, n);
    ReportIsOfLines(s, roles, n);
    forall l: nat
      ensures l in ls <==> l < n && (Chosen(s, l) || AfterChosen(s, l) || BeforeChosen(s, l))
    {
      if l < n { ChosenAround(s, l); }
    }
    forall k | 0 <= k < |ls| ensures EntryIs(s, s.Report(roles, n)[k], ls[k]) {
      assert ls[k] in ls;
      LineIsEntry(s, ls[k]);
    }
    assert Reports(s, s.Report(roles, n), ls);
  }

  lemma LineIsEntry(s: Search, l: nat)
    requires l < |s.lines| && !s.RoleOf(l).Unseen?
    ensures EntryIs(s, s.Line(l, s.RoleOf(l)), l)
  {
    ChosenAround(s, l);
  }

  lemma {:induction false} HitsBeforeGrow(s: Search, i: nat, j: nat)
    requires i < j <= |s.lines| && s.IsHit(i)
    ensures s.HitsBefore(i) < s.HitsBefore(j)
  {
    HitsGrow(s, i + 1, j);
  }

  /** The selected lines are the first hits: no hit before a selected one is left out. */
  lemma SelectedAreFirst(s: Search, i: nat, j: nat)
    requires i < j && s.Selected(j) && s.IsHit(i)
    ensures s.Selected(i) && s.HitsBefore(i) < s.HitsBefore(j)
  {
    HitsBeforeGrow(s, i, j);
  }

  // --- the search of a file ---

  /** The size of the scanner's buffer, which no line may reach. */
  const MAX_LINE := 1024 * 1024

  /** The file is scanned first; a line that is too long makes the search fail. */
  method SearchFile(file: string, matches: string -> bool, p: Params) returns (res: Option<Answer>)
    ensures res.None? <==> SomeLong(Split(file, '\n'), MAX_LINE)
    ensures res.Some? ==>
      var s := Search(Lines(file), matches, p);
      && (if p.countOnly then res.value.matches == [] else Reported(s, res.value.matches))
      && var total := |WantedBefore(s, |s.lines|)|;
         res.value.count == if p.countOnly || p.maxMatches <= 0 || total <= p.maxMatches
           then total else p.maxMatches + 1
  {
    var scan := Scanned(file, MAX_LINE);
    ScanFailsIff(file, MAX_LINE);
    ScanIsPrefix(file, MAX_LINE);
    if scan.tooLong {
      return None;
    }
    var answer := SearchFileContent(Search(scan.lines, matches, p));
    res := Some(answer);
  }
}
