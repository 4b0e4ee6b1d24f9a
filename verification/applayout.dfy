/** The page frame: which navigation entry is highlighted for the current
    path, and the width and collapse state of the side drawer. */
module AppLayout {
  import opened Wrappers
  import opened Strs
  import LogLists

  /** The navigation entries' paths, in menu order. */
  const NavPaths: seq<string> := ["/", "/projects", "/logs", "/ping-services", "/projects/new", "/telegram", "/settings", "/faq"]

  /** The reduce step: an entry replaces the best so far when it is a
      prefix of the path and strictly longer. */
  function Step(ps: seq<string>, path: string, best: Option<nat>, i: nat): (r: Option<nat>)
    requires i < |ps| && (best.Some? ==> best.value < |ps|)
  {
    if !StartsWith(path, ps[i]) then best
    else if best.None? || |ps[i]| > |ps[best.value]| then Some(i)
    else best
  }

  /** The index the reduce over `ps` ends with, `undefined` as `None`. */
  function BestIndex(ps: seq<string>, path: string): (r: Option<nat>)
    ensures r.Some? ==> r.value < |ps|
    decreases |ps|
  {
    if |ps| == 0 then None
    else
      var prev := BestIndex(ps[..|ps| - 1], path);
      Step(ps, path, prev, |ps| - 1)
  }

  /** Entry `i` is a prefix of the path, no entry is a longer prefix, and
      no earlier entry is an equally long one. */
  ghost predicate EarliestLongest(ps: seq<string>, path: string, i: nat) {
    i < |ps| && StartsWith(path, ps[i])
    && (forall j :: 0 <= j < |ps| && StartsWith(path, ps[j]) ==> |ps[j]| <= |ps[i]|)
    && (forall j :: 0 <= j < i && StartsWith(path, ps[j]) ==> |ps[j]| < |ps[i]|)
  }

  /** The reduce finds nothing exactly when no entry is a prefix, and
      otherwise the earliest of the longest prefixes. */
  lemma {:induction false} BestIndexSpec(ps: seq<string>, path: string)
    ensures BestIndex(ps, path).None? <==> forall j :: 0 <= j < |ps| ==> !StartsWith(path, ps[j])
    ensures BestIndex(ps, path).Some? ==> EarliestLongest(ps, path, BestIndex(ps, path).value)
    decreases |ps|
  {
    if |ps| > 0 {
      var init := ps[..|ps| - 1];
      BestIndexSpec(init, path);
      assert forall j :: 0 <= j < |init| ==> init[j] == ps[j];
    }
  }

  /** The path of the best entry among `cs`, "/" when none matches. */
  function ActiveAmong(cs: seq<string>, pathname: string): string {
    match BestIndex(cs, pathname)
    case None => "/"
    case Some(i) => cs[i]
  }

  /** `activePath`: "/" for the root, else the path of the best non-root
      entry, else "/". */
  function ActivePath(pathname: string): (r: string)
    ensures pathname == "/" ==> r == "/"
  {
    if pathname == "/" then "/"
    else ActiveAmong(LogLists.Keep(NavPaths, (p: string) => p != "/"), pathname)
  }

  /** The non-root entries. */
  lemma Candidates()
    ensures LogLists.Keep(NavPaths, (p: string) => p != "/") == NavPaths[1..]
  {
    var p := (p: string) => p != "/";
    assert NavPaths[1..] == ["/projects", "/logs", "/ping-services", "/projects/new", "/telegram", "/settings", "/faq"];
    assert NavPaths == [NavPaths[0]] + NavPaths[1..];
    LogLists.KeepAll(NavPaths[1..], p);
  }

  /** At most one entry is the earliest of the longest prefixes. */
  lemma EarliestLongestUnique(cs: seq<string>, path: string, i: nat, k: nat)
    requires EarliestLongest(cs, path, i) && EarliestLongest(cs, path, k)
    ensures i == k
  {
  }

  /** The highlighted entry is the earliest of the longest matching ones. */
  lemma AmongIsBest(cs: seq<string>, path: string, i: nat)
    requires EarliestLongest(cs, path, i)
    ensures ActiveAmong(cs, path) == cs[i]
  {
    BestIndexSpec(cs, path);
    EarliestLongestUnique(cs, path, i, BestIndex(cs, path).value);
  }

  /** With no matching entry the dashboard is highlighted. */
  lemma AmongNone(cs: seq<string>, path: string)
    requires forall p :: p in cs ==> !StartsWith(path, p)
    ensures ActiveAmong(cs, path) == "/"
  {
    BestIndexSpec(cs, path);
    assert forall j :: 0 <= j < |cs| ==> cs[j] in cs;
  }

  /** Away from the root, entry `i` (not the dashboard) is highlighted
      when it is the earliest of the longest entries the path starts with. */
  lemma ActivePathIsBest(pathname: string, i: nat)
    requires pathname != "/" && 1 <= i && EarliestLongest(NavPaths[1..], pathname, i - 1)
    ensures ActivePath(pathname) == NavPaths[i]
  {
    var cs := NavPaths[1..];
    assert ActivePath(pathname) == ActiveAmong(cs, pathname) by {
      Candidates();
    }
    AmongIsBest(cs, pathname, i - 1);
    TailIndex(NavPaths, i);
  }

  lemma TailIndex(s: seq<string>, i: nat)
    requires 1 <= i < |s|
    ensures s[1..][i - 1] == s[i]
  {
  }

  /** Away from the root, a path no other entry starts highlights the
      dashboard. */
  lemma ActivePathFallback(pathname: string)
    requires pathname != "/" && forall p :: p in NavPaths && p != "/" ==> !StartsWith(pathname, p)
    ensures ActivePath(pathname) == "/"
  {
    var keep := (p: string) => p != "/";
    AmongNone(LogLists.Keep(NavPaths, keep), pathname);
  }

  /** Matching is by plain string prefix: a deeper path selects the deeper
      entry. */
  lemma DeeperPathExample()
    ensures ActivePath("/projects/new/x") == "/projects/new"
  {
    var cs := NavPaths[1..];
    assert cs == ["/projects", "/logs", "/ping-services", "/projects/new", "/telegram", "/settings", "/faq"];
    var path := "/projects/new/x";
    assert path[..9] == "/projects" && path[..13] == "/projects/new";
    DiffersAt(path, "/logs", 1);
    DiffersAt(path, "/ping-services", 2);
    DiffersAt(path, "/telegram", 1);
    DiffersAt(path, "/settings", 1);
    DiffersAt(path, "/faq", 1);
    ActivePathIsBest(path, 4);
  }

  /** A string that differs from `p` at some position of `p` does not start
      with `p`. */
  lemma DiffersAt(s: string, p: string, i: nat)
    requires i < |s| && i < |p| && s[i] != p[i]
    ensures !StartsWith(s, p)
  {
    if |p| <= |s| {
      assert s[..|p|][i] == s[i];
    }
  }

  /** A longer word still selects the shorter entry it starts with. */
  lemma LongerWordExample()
    ensures ActivePath("/projectsX") == "/projects"
  {
    var cs := NavPaths[1..];
    assert cs == ["/projects", "/logs", "/ping-services", "/projects/new", "/telegram", "/settings", "/faq"];
    ActivePathIsBest("/projectsX", 1);
  }

  const DrawerWidth: nat := 260
  const CollapsedDrawerWidth: nat := 80

  /** The drawer's width: small screens always show it expanded. */
  function CurrentDrawerWidth(smallScreen: bool, collapsed: bool): (w: nat)
    ensures w == DrawerWidth <==> smallScreen || !collapsed
    ensures w == CollapsedDrawerWidth <==> !smallScreen && collapsed
  {
    var expanded := if !smallScreen then !collapsed else true;
    if expanded then DrawerWidth else CollapsedDrawerWidth
  }

  /** The stored collapse flag at start-up; without a window it is off. */
  function InitialCollapsed(hasWindow: bool, stored: Option<string>): (c: bool)
    ensures c <==> hasWindow && stored == Some("true")
  {
    hasWindow && stored == Some("true")
  }

  /** The toggle: the flipped flag and what is written to storage. */
  function Toggle(collapsed: bool): (r: (bool, string))
    ensures r.0 == !collapsed
    ensures r.1 == (if r.0 then "true" else "false")
  {
    var next := !collapsed;
    (next, if next then "true" else "false")
  }

  /** What a toggle stores is read back as the new flag on the next start,
      and toggling twice restores the flag. */
  lemma ToggleStoresFlag(collapsed: bool)
    ensures InitialCollapsed(true, Some(Toggle(collapsed).1)) == Toggle(collapsed).0
    ensures Toggle(Toggle(collapsed).0).0 == collapsed
  {
  }
}
