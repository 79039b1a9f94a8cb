/** Files below an investigation that has no other investigation inside it: what the layout
    says of them, for every activation, and one small activation that is valid. */
module Sites {
  import opened Wrappers
  import opened Paths
  import opened Layout
  import opened Records
  import opened Kinds
  import opened Scopes

  /** A root without another root below it. */
  ghost predicate Leaf(active: Activated, root: string)
  {
    root in Roots(active) && forall b :: b in Roots(active) ==> !HasPrefix(b, root)
  }

  lemma PrefixesNest(path: string, a: string, b: string)
    requires HasPrefix(path, a) && HasPrefix(path, b) && |a| < |b|
    ensures HasPrefix(b, a)
  {
    assert b == path[..|b|] && a + "/" == path[..|a| + 1];
    assert a + "/" == b[..|a| + 1];
  }

  /** A file below such a root belongs to it, and its kind comes from the layout. */
  lemma BelowLeaf(active: Activated, root: string, rest: string)
    requires RootsPlaced(active) && Leaf(active, root)
    ensures FactsOf(active, root + "/" + rest) == PathFacts(ProjectOf(active, root), Some(root), KindOf(Split(rest)))
  {
    var path := root + "/" + rest;
    BelowRoot(root, rest);
    forall b | b in Roots(active) && HasPrefix(path, b) ensures |b| <= |root| {
      if |root| < |b| {
        PrefixesNest(path, root, b);
      }
    }
    assert path !in Roots(active) && LongestRoot(Roots(active), path, Some(root));
    NearestIsLongest(Roots(active), path);
    OneLongestRoot(Roots(active), path, Some(root), NearestAbove(Roots(active), path));
    KindBelowRoot(active, path, root, rest);
    var slug := RootOwner(active, root);
    RootProject(active, root, path, slug);
  }

  // ---- Portable names ----

  lemma {:induction false} BasenameIsLong(s: string, k: nat)
    requires k <= |s| && forall i :: 0 <= i < k ==> s[i] != '.'
    ensures |Basename(s)| >= k
  {
    if k > 0 {
      BasenameIsLong(s[1..], k - 1);
    }
  }

  lemma {:induction false} UpperKeeps(s: string)
    ensures |Upper(s)| == |s| && ('$' in Upper(s) ==> '$' in s)
  {
    if s != "" {
      UpperKeeps(s[1..]);
      assert s == [s[0]] + s[1..];
    }
  }

  lemma {:induction false} BasenameKeeps(s: string, c: char)
    ensures c in Basename(s) ==> c in s
  {
    if s != "" {
      BasenameKeeps(s[1..], c);
    }
  }

  predicate PlainName(s: string)
  {
    s != "" && s[|s| - 1] != '.' && forall i ::
      0 <= i < |s| ==> Letter(s[i]) || '0' <= s[i] <= '9' || s[i] == '-' || s[i] == '.'
  }

  /** A plain name whose part before the first dot is not as short as a device name. */
  lemma PlainIsNormal(s: string)
    requires PlainName(s) && |Basename(s)| != 3 && |Basename(s)| != 4 && s != "." && s != ".."
    ensures Clean(s) && NormalSegment(s)
  {
    UpperKeeps(Basename(s));
    BasenameKeeps(s, '$');
    assert Upper(Basename(s)) !in DEVICES by {
      assert "CLOCK$"[5] == '$' && "CONIN$"[5] == '$' && "CONOUT$"[6] == '$';
    }
  }

  lemma LongIsNormal(s: string)
    requires PlainName(s) && |s| >= 5 && forall i :: 0 <= i < 5 ==> s[i] != '.'
    ensures Clean(s) && NormalSegment(s)
  {
    BasenameIsLong(s, 5);
    PlainIsNormal(s);
  }

  lemma SafeBelow(root: string, rest: string)
    requires SafeRelative(root)
    requires forall i :: 0 <= i < |Split(rest)| ==> Clean(Split(rest)[i]) && NormalSegment(Split(rest)[i])
    ensures SafeRelative(root + "/" + rest)
  {
    SafeIffNormalSegments(root);
    SplitAtSlash(root, rest);
    SafeIffNormalSegments(root + "/" + rest);
  }

  lemma SafeName(s: string)
    requires Clean(s) && NormalSegment(s)
    ensures SafeRelative(s)
  {
    SplitWithoutSlash(s);
    SafeIffNormalSegments(s);
  }

  // ---- Tickets ----

  function TicketPath(root: string, id: string): Path
  {
    WorkPath(root, "tickets", "accepted", id)
  }

  /** An identity that can be a file name. */
  predicate TicketId(id: string)
  {
    |id| >= 5 && PlainName(id) && '.' !in id && !DecisionName(id)
  }

  lemma TicketName(id: string)
    requires TicketId(id)
    ensures Clean(id) && NormalSegment(id) && Clean(id + ".md") && NormalSegment(id + ".md")
  {
    LongIsNormal(id);
    var name := id + ".md";
    assert forall i :: 0 <= i < |name| ==> name[i] == if i < |id| then id[i] else ".md"[i - |id|];
    LongIsNormal(name);
  }

  lemma TicketKind(name: string)
    requires Ends(name, ".md")
    ensures KindOf(["tickets", "accepted", name]) == Some(Ticket)
  {
    assert "tickets"[0] == 't' && "review"[0] == 'r' && "strategy"[0] == 's' && "implementation-plan"[0] == 'i';
    assert "decision-log"[0] == 'd' && "evidence"[0] == 'e';
  }

  /** What the world of an activation says of an accepted ticket. */
  lemma TicketFacts(active: Activated, root: string, id: string)
    requires Active(active) && Leaf(active, root) && TicketId(id) && SafeRelative(root)
    ensures var w, p := WorldOf(active), TicketPath(root, id);
      && w.facts(p) == PathFacts(ProjectOf(active, root), Some(root), Some(Ticket)) && ProjectOf(active, root).Some?
      && w.safe(p) && w.safe(id) && Explicit(p) && w.stem(p) == id && p in w.conventional(root, id)
  {
    var rest := LocalPath("tickets", "accepted", id);
    TicketName(id);
    NoSlash("tickets", "accepted");
    WorkParts("tickets", "accepted", id + ".md");
    BelowLeaf(active, root, rest);
    assert (id + ".md")[|id|..] == ".md";
    TicketKind(id + ".md");
    TicketIsSafe(root, id);
    SafeName(id);
    SplitAtSlash(root, rest);
    WorkItemIsConventional(active, TicketPath(root, id), id);
    assert TicketPath(root, id)[|root|] == '/';
  }

  lemma SafeBelowThree(root: string, a: string, b: string, c: string)
    requires SafeRelative(root) && Clean(a) && Clean(b) && Clean(c)
    requires NormalSegment(a) && NormalSegment(b) && NormalSegment(c)
    ensures SafeRelative(root + "/" + (a + "/" + (b + "/" + c)))
  {
    WorkParts(a, b, c);
    SafeBelow(root, a + "/" + (b + "/" + c));
  }

  /** The words of the layout are portable names. */
  lemma Word(s: string)
    requires s in {"tickets", "accepted", "boards", "decision-log", "projects", "investigations", "north", "south"}
    ensures Clean(s) && NormalSegment(s)
  {
    LongIsNormal(s);
  }

  lemma TicketIsSafe(root: string, id: string)
    requires TicketId(id) && SafeRelative(root)
    ensures SafeRelative(TicketPath(root, id))
  {
    var tickets, accepted := "tickets", "accepted";
    TicketName(id);
    Word(tickets);
    Word(accepted);
    SafeBelowThree(root, tickets, accepted, id + ".md");
  }

  /** Every conventional path of an identity has it as its stem. */
  lemma ConventionalStem(active: Activated, scope: string, id: string, path: string)
    requires TicketId(id) && path in WorldOf(active).conventional(scope, id)
    ensures Stem(path) == id
  {
    var directory, status :|
      directory in DIRECTORIES && status in STATUSES && path == WorkPath(scope, directory, status, id);
    TicketName(id);
    NoSlash(directory, status);
    WorkParts(directory, status, id + ".md");
    SplitAtSlash(scope, LocalPath(directory, status, id));
    NoExtension(id);
  }

  // ---- Boards and decisions ----

  function PairPath(root: string, directory: string, name: string): Path
  {
    root + "/" + (directory + "/" + name)
  }

  lemma PairKind(directory: string, name: string)
    ensures directory == "boards" && Ends(name, ".toml") ==> KindOf([directory, name]) == Some(Board)
    ensures directory == "decision-log" && Ends(name, ".md") && '-' in name ==>
      KindOf([directory, name]) == Some(Decision)
  {
    if directory == "boards" || directory == "decision-log" {
      assert "review"[0] == 'r' && "strategy"[0] == 's' && "implementation-plan"[0] == 'i' && "evidence"[0] == 'e';
      assert directory[0] == 'b' || directory[0] == 'd';
    }
  }

  lemma PairParts(directory: string, name: string)
    requires '/' !in directory && '/' !in name
    ensures Split(directory + "/" + name) == [directory, name]
  {
    SplitAtSlash(directory, name);
    SplitWithoutSlash(directory);
    SplitWithoutSlash(name);
  }

  /** A file of two components below an investigation. */
  lemma PairFacts(active: Activated, root: string, directory: string, name: string)
    requires RootsPlaced(active) && Leaf(active, root) && '/' !in directory && '/' !in name
    ensures WorldOf(active).facts(PairPath(root, directory, name))
      == PathFacts(ProjectOf(active, root), Some(root), KindOf([directory, name]))
  {
    PairParts(directory, name);
    BelowLeaf(active, root, directory + "/" + name);
  }

  lemma PairStem(root: string, directory: string, name: string)
    requires '/' !in directory && '/' !in name && '.' !in name
    ensures Stem(PairPath(root, directory, name + ".md")) == name
  {
    PairParts(directory, name + ".md");
    SplitAtSlash(root, directory + "/" + (name + ".md"));
    NoExtension(name);
  }

  lemma BoardFacts(active: Activated, root: string, board: string)
    requires RootsPlaced(active) && Leaf(active, root) && '/' !in board
    ensures WorldOf(active).facts(PairPath(root, "boards", board + ".toml"))
      == PathFacts(ProjectOf(active, root), Some(root), Some(Board))
  {
    var directory := "boards";
    assert (board + ".toml")[|board|..] == ".toml";
    PairKind(directory, board + ".toml");
    PairFacts(active, root, directory, board + ".toml");
  }

  lemma DecisionFacts(active: Activated, root: string, name: string)
    requires RootsPlaced(active) && Leaf(active, root) && '/' !in name && '.' !in name && '-' in name
    ensures WorldOf(active).facts(PairPath(root, "decision-log", name + ".md"))
      == PathFacts(ProjectOf(active, root), Some(root), Some(Decision))
    ensures WorldOf(active).stem(PairPath(root, "decision-log", name + ".md")) == name
  {
    var directory := "decision-log";
    assert (name + ".md")[|name|..] == ".md";
    PairKind(directory, name + ".md");
    PairFacts(active, root, directory, name + ".md");
    PairStem(root, directory, name);
  }

  // ---- A small activation ----

  function RootAt(slug: string, name: string): string
  {
    PROJECTS + slug + "/investigations/" + name
  }

  /** One project with two investigations. */
  function Small(): Activated
  {
    map["p" := [RootAt("p", "north"), RootAt("p", "south")]]
  }

  lemma RootParts(slug: string, name: string, projects: string, investigations: string)
    requires '/' !in slug && '/' !in name && projects == "projects" && investigations == "investigations"
    ensures Split(RootAt(slug, name)) == [projects, slug, investigations, name]
  {
    var inner := investigations + "/" + name;
    assert "/investigations/" == "/" + investigations + "/" && PROJECTS == projects + "/";
    assert RootAt(slug, name) == projects + "/" + (slug + "/" + inner);
    SplitAtSlash(projects, slug + "/" + inner);
    SplitAtSlash(slug, inner);
    SplitAtSlash(investigations, name);
    SplitWithoutSlash(projects);
    SplitWithoutSlash(investigations);
    SplitWithoutSlash(slug);
    SplitWithoutSlash(name);
  }

  lemma FourAreSafe(q: string, a: string, b: string, c: string, d: string)
    requires Split(q) == [a, b, c, d] && Clean(a) && Clean(b) && Clean(c) && Clean(d)
    requires NormalSegment(a) && NormalSegment(b) && NormalSegment(c) && NormalSegment(d)
    ensures SafeRelative(q)
  {
    SafeIffNormalSegments(q);
  }

  lemma RootIsPlaced(slug: string, name: string)
    requires Clean(slug) && NormalSegment(slug) && Clean(name) && NormalSegment(name)
    ensures InvestigationRoot(slug, RootAt(slug, name))
  {
    var projects, investigations := "projects", "investigations";
    Word(projects);
    Word(investigations);
    RootParts(slug, name, projects, investigations);
    FourAreSafe(RootAt(slug, name), projects, slug, investigations, name);
  }

  lemma OneLetter(slug: string)
    requires slug == "p"
    ensures Clean(slug) && NormalSegment(slug)
  {
    assert Basename(slug) == slug by {
      assert slug[1..] == "";
    }
    PlainIsNormal(slug);
  }

  /** It is valid, and neither investigation is inside the other. */
  lemma SmallIsActive() returns (active: Activated, north: string, south: string)
    ensures active == Small() && Active(active)
    ensures Leaf(active, north) && Leaf(active, south) && north != south && SafeRelative(north) && SafeRelative(south)
    ensures ProjectOf(active, north) == ProjectOf(active, south)
  {
    var slug, first, second := "p", "north", "south";
    OneLetter(slug);
    Word(first);
    Word(second);
    RootIsPlaced(slug, first);
    RootIsPlaced(slug, second);
    active, north, south :=
      map[slug := [RootAt(slug, first), RootAt(slug, second)]], RootAt(slug, first), RootAt(slug, second);
    TwoRoots(active, slug, north, south);
    assert north[|PROJECTS + slug + "/investigations/"|] == 'n' && south[|PROJECTS + slug + "/investigations/"|] == 's';
  }

  lemma RootsOfTwo(active: Activated, slug: string, north: string, south: string)
    requires active == map[slug := [north, south]]
    ensures Roots(active) == {north, south}
  {
    assert active[slug][0] == north && active[slug][1] == south;
  }

  lemma TwoArePlaced(active: Activated, slug: string, north: string, south: string)
    requires active == map[slug := [north, south]] && InvestigationRoot(slug, north) && InvestigationRoot(slug, south)
    ensures RootsPlaced(active)
  {
  }

  lemma SameLengthIsLeaf(active: Activated, root: string)
    requires root in Roots(active) && forall b :: b in Roots(active) ==> |b| == |root|
    ensures Leaf(active, root)
  {
  }

  lemma TwoRoots(active: Activated, slug: string, north: string, south: string)
    requires active == map[slug := [north, south]] && '/' !in slug && |north| == |south|
    requires InvestigationRoot(slug, north) && InvestigationRoot(slug, south)
    ensures Active(active) && Leaf(active, north) && Leaf(active, south)
    ensures ProjectOf(active, north) == ProjectOf(active, south)
  {
    RootsOfTwo(active, slug, north, south);
    TwoArePlaced(active, slug, north, south);
    SlashFreeIsFound(active);
    SameLengthIsLeaf(active, north);
    SameLengthIsLeaf(active, south);
    ProjectBelow(active, north, slug);
    ProjectBelow(active, south, slug);
  }
}
