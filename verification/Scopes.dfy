/** The investigation and project a path belongs to: the ancestor walk of the scope index
    against the definition over all roots, and the world of an activation. */
module Scopes {
  import opened Wrappers
  import opened Paths
  import opened Layout
  import opened Kinds
  import opened Records

  /** Each activated project, by slug, with the roots of its investigations. */
  type Activated = map<string, seq<string>>

  const PROJECTS := "projects/"

  function RootSet(roots: seq<string>): set<string>
  {
    set b | b in roots
  }

  // ---- Scopes ----

  /** The nearest directory above `path` that is a root. */
  function NearestAbove(roots: set<string>, path: string): Option<string>
  {
    match LastSlash(path)
    case None => None
    case Some(k) => if path[..k] in roots then Some(path[..k]) else NearestAbove(roots, path[..k])
  }

  function ScopeOf(roots: set<string>, path: string): Option<string>
  {
    if path in roots then Some(path) else NearestAbove(roots, path)
  }

  /** The definition: of the roots strictly above a path, the longest. */
  ghost predicate LongestRoot(roots: set<string>, path: string, r: Option<string>)
  {
    match r
    case None => forall b :: b in roots ==> !HasPrefix(path, b)
    case Some(base) => base in roots && HasPrefix(path, base) && forall b ::
      b in roots && HasPrefix(path, b) ==> |b| <= |base|
  }

  lemma OneLongestRoot(roots: set<string>, path: string, r: Option<string>, q: Option<string>)
    requires LongestRoot(roots, path, r) && LongestRoot(roots, path, q)
    ensures r == q
  {
    if r.Some? && q.Some? {
      assert r.value == path[..|r.value|] && q.value == path[..|q.value|];
    }
  }

  lemma PrefixHasSlash(path: string, b: string)
    requires HasPrefix(path, b)
    ensures |b| < |path| && path[|b|] == '/' && path[..|b|] == b
  {
    assert path[|b|] == (b + "/")[|b|];
  }

  lemma LastIsLast(path: string, k: nat, i: nat)
    requires k < |path| && '/' !in path[k + 1..] && i < |path| && path[i] == '/'
    ensures i <= k
  {
    forall j | k < j < |path| ensures path[j] != '/' {
      assert path[j] == path[k + 1..][j - k - 1];
    }
  }

  /** A root above a path is its parent, or above its parent. */
  lemma AboveParent(path: string, k: nat, b: string)
    requires k < |path| && path[k] == '/' && '/' !in path[k + 1..]
    ensures HasPrefix(path, b) <==> b == path[..k] || HasPrefix(path[..k], b)
  {
    if HasPrefix(path, b) {
      PrefixHasSlash(path, b);
      LastIsLast(path, k, |b|);
      if |b| < k {
        assert b + "/" == path[..|b| + 1] == path[..k][..|b| + 1];
      }
    }
    if HasPrefix(path[..k], b) {
      assert b + "/" == path[..k][..|b| + 1] == path[..|b| + 1];
    }
    if b == path[..k] {
      assert b + "/" == path[..k + 1];
    }
  }

  lemma {:induction false} NearestIsLongest(roots: set<string>, path: string)
    ensures LongestRoot(roots, path, NearestAbove(roots, path))
    decreases |path|
  {
    match LastSlash(path)
    case None =>
      forall b | HasPrefix(path, b) ensures '/' in path {
        PrefixHasSlash(path, b);
      }
    case Some(k) =>
      forall b ensures HasPrefix(path, b) <==> b == path[..k] || HasPrefix(path[..k], b) {
        AboveParent(path, k, b);
      }
      if path[..k] !in roots {
        NearestIsLongest(roots, path[..k]);
      }
  }

  /** The scan over all roots, as a fold that prefers the longer one. */
  function ScopeFor(roots: seq<string>, path: string): Option<string>
  {
    if roots == [] then None
    else
      var rest := ScopeFor(roots[..|roots| - 1], path);
      var last := roots[|roots| - 1];
      if HasPrefix(path, last) && (rest.None? || |rest.value| <= |last|) then Some(last) else rest
  }

  lemma {:induction false} ScopeForIsLongest(roots: seq<string>, path: string)
    ensures LongestRoot(RootSet(roots), path, ScopeFor(roots, path))
  {
    if roots != [] {
      var rest, last := roots[..|roots| - 1], roots[|roots| - 1];
      ScopeForIsLongest(rest, path);
      assert roots == rest + [last];
    }
  }

  /** The index and the scan agree about every path but the roots themselves. */
  lemma IndexAgreesUnlessRoot(roots: seq<string>, path: string)
    ensures ScopeOf(RootSet(roots), path) == ScopeFor(roots, path) <==> path !in roots
  {
    var all := RootSet(roots);
    NearestIsLongest(all, path);
    ScopeForIsLongest(roots, path);
    OneLongestRoot(all, path, NearestAbove(all, path), ScopeFor(roots, path));
  }

  // ---- Projects ----

  /** The lookup of the first component below `projects/`. */
  function ProjectOf(active: Activated, path: string): Option<string>
  {
    if PROJECTS <= path && '/' in path[|PROJECTS|..] then
      var slug := Split(path[|PROJECTS|..])[0];
      if slug in active then Some(slug) else None
    else None
  }

  /** The scan: a project whose directory is above the path. */
  ghost predicate InProject(active: Activated, path: string, slug: string)
  {
    slug in active && HasPrefix(path, PROJECTS + slug)
  }

  ghost predicate SlashFree(active: Activated)
  {
    forall slug :: slug in active ==> '/' !in slug
  }

  lemma StartsWith(a: string, b: string, path: string)
    requires (a + b <= path || a + b + "/" <= path) && b != ""
    ensures a <= path && |a| < |path| && path[|a|] == b[0]
  {
    assert path[..|a|] == a;
  }

  lemma PrefixBelow(directory: string, rest: string, name: string)
    ensures HasPrefix(directory + rest, directory + name) <==> HasPrefix(rest, name)
  {
    var path, n := directory + rest, |name| + 1;
    assert directory + name + "/" == directory + (name + "/");
    if HasPrefix(rest, name) {
      assert path[..|directory| + n] == directory + rest[..n];
    }
    if directory + (name + "/") <= path {
      assert path[|directory|..|directory| + n] == rest[..n];
      assert (directory + (name + "/"))[|directory|..] == name + "/";
      assert path[..|directory| + n][|directory|..] == path[|directory|..|directory| + n];
    }
  }

  /** With slugs that are single components, lookup and scan find the same project. */
  lemma ProjectLookupAgrees(active: Activated, path: string, slug: string)
    requires SlashFree(active)
    ensures ProjectOf(active, path) == Some(slug) <==> InProject(active, path, slug)
  {
    if slug in active {
      if HasPrefix(path, PROJECTS + slug) {
        StartsWith(PROJECTS, slug + "/", path);
      }
      if PROJECTS <= path {
        var rest := path[|PROJECTS|..];
        FirstComponent(rest, slug);
        assert path == PROJECTS + rest;
        PrefixBelow(PROJECTS, rest, slug);
      }
    }
  }

  /** The project of a path, whatever the slugs: the first component below `projects`, when
      something stands below that. */
  lemma ProjectIs(active: Activated, path: string, slug: string)
    ensures ProjectOf(active, path) == Some(slug) <==>
      slug in active && '/' !in slug && "projects/" + slug + "/" <= path
  {
    ProjectIsComponent(active, path);
    if slug in active && '/' !in slug {
      ProjectLookupAgrees(map[slug := active[slug]], path, slug);
    }
  }

  /** A slug with a slash is found by the scan and missed by the lookup: an example. */
  lemma SlashedSlugIsMissed(active: Activated)
    requires active.Keys == {"a/b"}
    ensures InProject(active, "projects/a/b/x", "a/b") && ProjectOf(active, "projects/a/b/x") == None
  {
    var path := "projects/a/b/x";
    assert path == PROJECTS + "a/b" + "/" + "x";
    var rest := path[|PROJECTS|..];
    assert rest == "a" + "/" + "b/x";
    SplitAtSlash("a", "b/x");
    SplitWithoutSlash("a");
    assert Split(rest)[0] == "a";
    assert |"a"| != |"a/b"|;
  }

  /** Lookup and scan agree about every path if and only if no slug has a slash. */
  lemma LookupsAgreeIffSlashFree(active: Activated)
    ensures (forall path, slug :: ProjectOf(active, path) == Some(slug) <==> InProject(active, path, slug)) <==>
      SlashFree(active)
  {
    if SlashFree(active) {
      forall path, slug ensures ProjectOf(active, path) == Some(slug) <==> InProject(active, path, slug) {
        ProjectLookupAgrees(active, path, slug);
      }
    } else {
      var slug :| slug in active && '/' in slug;
      var path := PROJECTS + slug + "/";
      assert InProject(active, path, slug);
      ProjectIsComponent(active, path);
    }
  }

  /** The lookup finds single components only. */
  lemma ProjectIsComponent(active: Activated, path: string)
    ensures ProjectOf(active, path).Some? ==> '/' !in ProjectOf(active, path).value
  {
    if PROJECTS <= path {
      SplitsHaveNoSlash(path[|PROJECTS|..]);
    }
  }

  /** The first component of a path is that of the directory it is in. */
  lemma FirstOf(rest: string, slug: string)
    requires HasPrefix(rest, slug)
    ensures '/' in rest && Split(rest)[0] == Split(slug)[0] && |Split(slug)[0]| <= |slug|
  {
    var c := rest[|slug| + 1..];
    assert rest == slug + "/" + c;
    SplitAtSlash(slug, c);
    JoinSplit(slug);
    assert rest[|slug|] == '/';
  }

  // ---- Kinds ----

  function KindInScope(path: string, scope: string): Option<Kind>
  {
    if HasPrefix(path, scope) then KindOf(Split(path[|scope| + 1..])) else None
  }

  predicate ProjectDecision(path: string, project: string)
  {
    var directory := PROJECTS + project + "/decision-log/";
    directory <= path && (var name := path[|directory|..]; '/' !in name && Ends(name, ".md") && '-' in name)
  }

  // ---- Facts ----

  function Roots(active: Activated): set<string>
  {
    set slug, i | slug in active && 0 <= i < |active[slug]| :: active[slug][i]
  }

  /** What the scope index says of a path. */
  function FactsOf(active: Activated, path: string): PathFacts
  {
    var project := ProjectOf(active, path);
    var scope := ScopeOf(Roots(active), path);
    PathFacts(project, scope,
      if path == ACTIVATION then Some(Kind.Activation)
      else if path == "projects.toml" then Some(ProjectMap)
      else if project.Some? && ProjectDecision(path, project.value) then Some(Decision)
      else if scope.Some? then KindInScope(path, scope.value)
      else None)
  }

  /** The ancestor walk of the scope index. */
  method Resolve(active: Activated, path: string) returns (facts: PathFacts)
    ensures facts == FactsOf(active, path)
  {
    var roots := Roots(active);
    var ancestor := path;
    var scope := if path in roots then Some(path) else None;
    var walking := true;
    while scope.None? && walking
      invariant scope.Some? ==> scope == ScopeOf(roots, path)
      invariant scope.None? ==>
        path !in roots && NearestAbove(roots, path) == if walking then NearestAbove(roots, ancestor) else None
      decreases scope.None?, walking, |ancestor|
    {
      var k := LastSlash(ancestor);
      if k.None? {
        walking := false;
      } else {
        var parent := ancestor[..k.value];
        if parent in roots {
          scope := Some(parent);
        }
        ancestor := parent;
      }
    }
    var project := ProjectOf(active, path);
    var kind :=
      if path == ACTIVATION then Some(Kind.Activation)
      else if path == "projects.toml" then Some(ProjectMap)
      else if project.Some? && ProjectDecision(path, project.value) then Some(Decision)
      else if scope.Some? then KindInScope(path, scope.value)
      else None;
    facts := PathFacts(project, scope, kind);
  }

  // ---- The world of an activation ----

  /** What validation demands of an activation. */
  ghost predicate RootsPlaced(active: Activated)
  {
    forall slug, i :: slug in active && 0 <= i < |active[slug]| ==> InvestigationRoot(slug, active[slug][i])
  }

  /** The lookup finds a project for every investigation. */
  ghost predicate ProjectsFound(active: Activated)
  {
    forall root :: root in Roots(active) ==> ProjectOf(active, root).Some?
  }

  ghost predicate Active(active: Activated)
  {
    RootsPlaced(active) && ProjectsFound(active)
  }

  predicate InvestigationRoot(slug: string, root: string)
  {
    PROJECTS + slug + "/investigations/" <= root && SafeRelative(root)
  }

  /** The file name without its extension. */
  function Stem(path: string): string
  {
    TrimMd(Split(path)[|Split(path)| - 1])
  }

  function TrimMd(name: string): string
  {
    if Ends(name, ".md") then TrimMd(name[..|name| - 3]) else name
  }

  function LocalPath(directory: string, status: string, id: string): string
  {
    directory + "/" + (status + "/" + (id + ".md"))
  }

  function WorkPath(scope: string, directory: string, status: string, id: string): string
  {
    scope + "/" + LocalPath(directory, status, id)
  }

  /** The paths at which a work item of a scope can carry an identity. */
  function Conventional(active: Activated, scope: string, id: string): set<Path>
  {
    if Explicit(id) then {}
    else set directory, status | directory in DIRECTORIES && status in STATUSES
           && FactsOf(active, WorkPath(scope, directory, status, id)).scope == Some(scope) ::
             WorkPath(scope, directory, status, id)
  }

  function WorldOf(active: Activated): World
  {
    World(p => FactsOf(active, p), Stem, SafeRelative, (scope, id) => Conventional(active, scope, id))
  }

  lemma ScopeIsRoot(roots: set<string>, path: string)
    ensures ScopeOf(roots, path).Some? ==> ScopeOf(roots, path).value in roots
    ensures ScopeOf(roots, path).Some? ==>
      path == ScopeOf(roots, path).value || HasPrefix(path, ScopeOf(roots, path).value)
  {
    NearestIsLongest(roots, path);
  }

  lemma RootOwner(active: Activated, root: string) returns (slug: string)
    requires RootsPlaced(active) && root in Roots(active)
    ensures slug in active && InvestigationRoot(slug, root)
  {
    var s, i :| s in active && 0 <= i < |active[s]| && active[s][i] == root;
    slug := s;
  }

  /** A path at or below a root is in the project of the root. */
  lemma RootProject(active: Activated, root: string, path: string, slug: string)
    requires InvestigationRoot(slug, root) && (path == root || HasPrefix(path, root))
    ensures ProjectOf(active, path) == ProjectOf(active, root)
    ensures ProjectOf(active, root).Some? ==> |ProjectOf(active, root).value| <= |slug|
  {
    ProjectBelow(active, path, slug);
    ProjectBelow(active, root, slug);
  }

  lemma ProjectBelow(active: Activated, path: string, slug: string)
    requires PROJECTS + slug + "/investigations/" <= path
    ensures ProjectOf(active, path) == if Split(slug)[0] in active then Some(Split(slug)[0]) else None
    ensures |Split(slug)[0]| <= |slug|
  {
    var rest := path[|PROJECTS|..];
    assert PROJECTS + slug + "/investigations/" == path[..|PROJECTS| + |slug| + |"/investigations/"|];
    assert path[|PROJECTS|..|PROJECTS| + |slug|] == slug && path[|PROJECTS| + |slug|] == '/';
    assert HasPrefix(rest, slug);
    FirstOf(rest, slug);
    assert path[..|PROJECTS|] == PROJECTS;
  }

  /** Slugs that are single components are enough for that. */
  lemma SlashFreeIsFound(active: Activated)
    requires RootsPlaced(active) && SlashFree(active)
    ensures Active(active)
  {
    forall root | root in Roots(active) ensures ProjectOf(active, root).Some? {
      var slug := RootOwner(active, root);
      ProjectBelow(active, root, slug);
      SplitWithoutSlash(slug);
    }
  }

  lemma RootHasSlash(slug: string, root: string)
    requires InvestigationRoot(slug, root)
    ensures '/' in root && PROJECTS <= root
  {
    assert root[..|PROJECTS|] == PROJECTS;
    assert root[|PROJECTS| - 1] == '/';
  }

  lemma BelowRoot(scope: string, rest: string)
    ensures HasPrefix(scope + "/" + rest, scope) && (scope + "/" + rest)[|scope| + 1..] == rest
  {
  }

  /** Below a root the layout of the investigation decides the kind. */
  lemma KindBelowRoot(active: Activated, path: string, scope: string, rest: string)
    requires RootsPlaced(active) && FactsOf(active, path).scope == Some(scope) && path == scope + "/" + rest
    ensures FactsOf(active, path).kind == KindOf(Split(rest))
  {
    BelowRoot(scope, rest);
    ScopeIsRoot(Roots(active), path);
    var slug := RootOwner(active, scope);
    RootProject(active, scope, path, slug);
    NotElsewhere(slug, scope, path, ProjectOf(active, path));
  }

  lemma WorkKind(directory: string, status: string, name: string)
    requires directory in DIRECTORIES && status in STATUSES && Ends(name, ".md")
    ensures IsWork(KindOf([directory, status, name]))
  {
    assert directory[0] == 't' || directory[0] == 'e';
    assert "review"[0] == 'r' && "strategy"[0] == 's';
  }

  lemma LocalKind(directory: string, status: string, id: string)
    requires directory in DIRECTORIES && status in STATUSES && !Explicit(id)
    ensures IsWork(KindOf(Split(LocalPath(directory, status, id))))
  {
    var name := id + ".md";
    assert name[|id|..] == ".md";
    NoSlash(directory, status);
    WorkParts(directory, status, name);
    WorkKind(directory, status, name);
  }

  lemma NoSlash(directory: string, status: string)
    requires directory in DIRECTORIES && status in STATUSES
    ensures '/' !in directory && '/' !in status
  {
  }

  lemma WorkPathKind(active: Activated, path: string, scope: string, directory: string, status: string, id: string)
    requires RootsPlaced(active) && !Explicit(id) && directory in DIRECTORIES && status in STATUSES
    requires path == WorkPath(scope, directory, status, id) && FactsOf(active, path).scope == Some(scope)
    ensures IsWork(FactsOf(active, path).kind)
  {
    KindBelowRoot(active, path, scope, LocalPath(directory, status, id));
    LocalKind(directory, status, id);
  }

  /** The decisions of a project sit directly in its decision log, and not in an investigation. */
  lemma NoDecisionThere(slug: string, path: string, project: string)
    requires PROJECTS + slug + "/investigations/" <= path && |project| <= |slug|
    ensures !ProjectDecision(path, project)
  {
    var prefix, directory := PROJECTS + slug + "/investigations/", PROJECTS + project + "/decision-log/";
    var k := |prefix| - 1;
    assert prefix[k] == '/' && path[k] == prefix[k];
    if directory <= path {
      assert path[|directory|..][k - |directory|] == '/';
    }
  }

  /** A path below an investigation is no file of the activation and no project decision. */
  lemma NotElsewhere(slug: string, root: string, path: string, project: Option<string>)
    requires InvestigationRoot(slug, root) && root <= path && (project.Some? ==> |project.value| <= |slug|)
    ensures path != ACTIVATION && path != "projects.toml" && (project.Some? ==> !ProjectDecision(path, project.value))
  {
    if project.Some? {
      NoDecisionThere(slug, path, project.value);
    }
    assert path[..|PROJECTS|] == PROJECTS;
    assert path[0] == 'p' && path[8] == '/';
    assert ACTIVATION[0] == 'c' && "projects.toml"[8] == '.';
  }

  /** A scope decides the project of its paths. */
  lemma ScopeProject(active: Activated, path: string)
    requires RootsPlaced(active)
    ensures var facts := FactsOf(active, path); facts.scope.Some? ==>
      facts.scope.value in Roots(active) && '/' in facts.scope.value
        && facts.project == ProjectOf(active, facts.scope.value)
  {
    ScopeIsRoot(Roots(active), path);
    if FactsOf(active, path).scope.Some? {
      var root := FactsOf(active, path).scope.value;
      var slug := RootOwner(active, root);
      RootProject(active, root, path, slug);
      RootHasSlash(slug, root);
    }
  }

  lemma ConventionalIsWork(active: Activated, scope: string, id: string, path: string)
    requires RootsPlaced(active) && path in Conventional(active, scope, id)
    ensures FactsOf(active, path).scope == Some(scope) && IsWork(FactsOf(active, path).kind)
  {
    var directory, status :|
      directory in DIRECTORIES && status in STATUSES && path == WorkPath(scope, directory, status, id)
      && FactsOf(active, path).scope == Some(scope);
    WorkPathKind(active, path, scope, directory, status, id);
  }

  lemma RootIsItsScope(active: Activated, root: string)
    requires root in Roots(active)
    ensures FactsOf(active, root).scope == Some(root) && FactsOf(active, root).project == ProjectOf(active, root)
  {
  }

  /** The world of a valid activation has the properties the other theorems ask for, exactly
      when the lookup finds a project for every investigation. */
  lemma WorldIsCoherent(active: Activated)
    requires RootsPlaced(active)
    ensures Coherent(WorldOf(active)) <==> ProjectsFound(active)
  {
    var w := WorldOf(active);
    if ProjectsFound(active) {
      ActivationFacts(active);
      forall p ensures var facts := w.facts(p); facts.scope.Some? ==>
          facts.scope.value in Roots(active) && '/' in facts.scope.value
            && facts.project == ProjectOf(active, facts.scope.value)
      {
        ScopeProject(active, p);
      }
      forall q ensures w.facts(q).project.Some? ==> '/' !in w.facts(q).project.value {
        ProjectIsComponent(active, q);
      }
      forall s, id, p | p in w.conventional(s, id) ensures w.facts(p).scope == Some(s) && IsWork(w.facts(p).kind) {
        ConventionalIsWork(active, s, id, p);
      }
    }
    if Coherent(w) {
      forall root | root in Roots(active) ensures ProjectOf(active, root).Some? {
        RootIsItsScope(active, root);
        assert w.facts(root).scope.Some?;
      }
    }
  }

  lemma RootsAreBelowProjects(active: Activated, root: string)
    requires RootsPlaced(active) && root in Roots(active)
    ensures PROJECTS <= root
  {
    var slug := RootOwner(active, root);
    RootHasSlash(slug, root);
  }

  lemma ActivationFacts(active: Activated)
    requires RootsPlaced(active)
    ensures FactsOf(active, ACTIVATION) == PathFacts(None, None, Some(Kind.Activation))
  {
    ScopeIsRoot(Roots(active), ACTIVATION);
    forall root | root in Roots(active) ensures root[0] == 'p' && root != "" {
      RootsAreBelowProjects(active, root);
    }
    assert ACTIVATION[0] == 'c' && PROJECTS[0] == 'p';
  }

  lemma WorkShape(parts: Parts)
    requires |parts| > 0 && IsWork(KindOf(parts))
    ensures |parts| == 3 && parts[0] in DIRECTORIES && parts[1] in STATUSES
  {
  }

  // ---- File by file ----

  /** The decisions of a project: files of its decision log, directly. */
  ghost predicate DecisionFile(path: string, project: string)
  {
    exists name ::
      path == "projects/" + project + "/decision-log/" + name && FileName(name, ".md") && '-' in name
  }

  lemma ProjectDecisionIs(path: string, project: string)
    ensures ProjectDecision(path, project) <==> DecisionFile(path, project)
  {
    var directory := "projects/" + project + "/decision-log/";
    forall name | path == directory + name ensures directory <= path && path[|directory|..] == name {
    }
    if directory <= path {
      assert path == directory + path[|directory|..];
      EndsIff(path[|directory|..], ".md");
    }
  }

  ghost predicate IsRoot(active: Activated, root: string)
  {
    exists slug :: slug in active && root in active[slug]
  }

  /** The investigation of a path: the path itself when it is a root, and otherwise the longest
      root of any project that the path is below. */
  lemma ScopeIs(active: Activated, path: string)
    ensures var scope := FactsOf(active, path).scope;
      if IsRoot(active, path) then scope == Some(path)
      else match scope
        case None => forall b :: IsRoot(active, b) ==> !(b + "/" <= path)
        case Some(root) =>
          && IsRoot(active, root) && root + "/" <= path
          && forall b :: IsRoot(active, b) && b + "/" <= path ==> |b| <= |root|
  {
    forall b ensures IsRoot(active, b) <==> b in Roots(active) {
      if slug :| slug in active && b in active[slug] {
        var i :| 0 <= i < |active[slug]| && active[slug][i] == b;
      }
    }
    NearestIsLongest(Roots(active), path);
  }

  lemma ShapeInScope(path: string, scope: string, kind: Kind)
    ensures KindInScope(path, scope) == Some(kind) <==>
      exists rest :: path == Under(scope, rest) && HasShape(rest, kind)
  {
    forall rest | path == Under(scope, rest) ensures HasPrefix(path, scope) && path[|scope| + 1..] == rest {
    }
    if HasPrefix(path, scope) {
      var rest := path[|scope| + 1..];
      assert path == Under(scope, rest);
      KindIsShape(rest, kind);
    }
  }

  /** The kind of a file: the two files at the top, the decisions of its project, and what has
      the form of that kind below the root of its investigation. */
  lemma FileKind(active: Activated, path: string, kind: Kind)
    ensures var facts := FactsOf(active, path);
      facts.kind == Some(kind) <==>
        if path == "casefile.toml" then kind == Kind.Activation
        else if path == "projects.toml" then kind == ProjectMap
        else if facts.project.Some? && DecisionFile(path, facts.project.value) then kind == Kind.Decision
        else facts.scope.Some? && exists rest :: path == Under(facts.scope.value, rest) && HasShape(rest, kind)
  {
    var facts := FactsOf(active, path);
    if facts.project.Some? {
      ProjectDecisionIs(path, facts.project.value);
    }
    if facts.scope.Some? {
      ShapeInScope(path, facts.scope.value, kind);
    }
  }

  /** One of the six places at which a work item of an investigation can carry an identity. */
  ghost predicate WorkPlace(scope: string, id: string, path: string)
  {
    exists directory, status ::
      WorkDirectory(directory) && Status(status) && path == Under(scope, Under(directory, Under(status, id + ".md")))
  }

  lemma WorkPathIs(scope: string, directory: string, status: string, id: string)
    ensures WorkPath(scope, directory, status, id) == Under(scope, Under(directory, Under(status, id + ".md")))
  {
  }

  lemma ConventionalIsPlace(active: Activated, scope: string, id: string, path: Path)
    requires path in Conventional(active, scope, id)
    ensures FactsOf(active, path).scope == Some(scope) && WorkPlace(scope, id, path)
  {
    var directory, status :|
      directory in DIRECTORIES && status in STATUSES && path == WorkPath(scope, directory, status, id)
      && FactsOf(active, path).scope == Some(scope);
    WorkNames(directory, status);
    WorkPathIs(scope, directory, status, id);
  }

  lemma PlaceIsConventional(active: Activated, scope: string, id: string, path: Path)
    requires '/' !in id && FactsOf(active, path).scope == Some(scope) && WorkPlace(scope, id, path)
    ensures path in Conventional(active, scope, id)
  {
    var directory, status :|
      WorkDirectory(directory) && Status(status) && path == Under(scope, Under(directory, Under(status, id + ".md")));
    WorkNames(directory, status);
    WorkPathIs(scope, directory, status, id);
  }

  /** The six places, in the investigation that they are in. */
  lemma SixPlaces(active: Activated, scope: string, id: string, path: Path)
    requires '/' !in id
    ensures path in WorldOf(active).conventional(scope, id) <==>
      FactsOf(active, path).scope == Some(scope) && WorkPlace(scope, id, path)
  {
    if path in Conventional(active, scope, id) {
      ConventionalIsPlace(active, scope, id, path);
    } else if FactsOf(active, path).scope == Some(scope) && WorkPlace(scope, id, path) {
      PlaceIsConventional(active, scope, id, path);
    }
  }

  lemma TrimmedOnce(name: string, extended: string)
    requires extended == name + ".md"
    ensures TrimMd(extended) == TrimMd(name)
  {
    assert Ends(extended, ".md") && extended[..|extended| - 3] == name;
  }

  lemma StemInDirectory(directory: string, name: string)
    requires '/' !in name
    ensures Stem(Under(directory, name)) == TrimMd(name)
  {
    SplitAtSlash(directory, name);
    SplitWithoutSlash(name);
    assert Split(Under(directory, name)) == Split(directory) + [name];
  }

  /** The identity in a file name is what stands before all its extensions. */
  lemma StemIs(directory: string, name: string, extended: string)
    requires '/' !in name && extended == name + ".md"
    ensures Stem(Under(directory, extended)) == Stem(Under(directory, name))
    ensures !Ends(name, ".md") ==> Stem(Under(directory, name)) == name
  {
    StemInDirectory(directory, name);
    StemInDirectory(directory, extended);
    TrimmedOnce(name, extended);
  }

  /** A governed work item sits at a conventional path of its scope: its directory is its
      status and its file name its identity. */
  lemma WorkItemIsConventional(active: Activated, path: string, id: string)
    requires RootsPlaced(active) && IsWork(FactsOf(active, path).kind)
    requires '.' !in id && '/' !in id && Split(path)[|Split(path)| - 1] == id + ".md"
    ensures FactsOf(active, path).scope.Some? && Stem(path) == id
    ensures path in WorldOf(active).conventional(FactsOf(active, path).scope.value, id)
  {
    var scope := FactsOf(active, path).scope.value;
    var rest := WorkRest(active, path, scope);
    var parts := Split(rest);
    SplitAtSlash(scope, rest);
    assert parts[2] == id + ".md";
    ThreeParts(rest, parts);
    assert path == WorkPath(scope, parts[0], parts[1], id);
    NoExtension(id);
  }

  lemma WorkRest(active: Activated, path: string, scope: string) returns (rest: string)
    requires RootsPlaced(active) && IsWork(FactsOf(active, path).kind) && FactsOf(active, path).scope == Some(scope)
    ensures path == scope + "/" + rest && |Split(rest)| == 3 && Split(rest)[0] in DIRECTORIES
    ensures Split(rest)[1] in STATUSES
  {
    ScopeIsRoot(Roots(active), path);
    assert HasPrefix(path, scope);
    rest := path[|scope| + 1..];
    assert path == scope + "/" + rest;
    WorkBelowRoot(active, path, scope, rest);
  }

  lemma WorkBelowRoot(active: Activated, path: string, scope: string, rest: string)
    requires RootsPlaced(active) && IsWork(FactsOf(active, path).kind) && FactsOf(active, path).scope == Some(scope)
    requires path == scope + "/" + rest
    ensures |Split(rest)| == 3 && Split(rest)[0] in DIRECTORIES && Split(rest)[1] in STATUSES
  {
    KindBelowRoot(active, path, scope, rest);
    WorkShape(Split(rest));
  }

  lemma HasDot(name: string)
    requires Ends(name, ".md")
    ensures '.' in name
  {
    assert name[|name| - 3] == name[|name| - 3..][0];
  }

  lemma NoExtension(id: string)
    requires '.' !in id
    ensures TrimMd(id + ".md") == id
  {
    assert Ends(id + ".md", ".md") && (id + ".md")[..|id + ".md"| - 3] == id;
    if Ends(id, ".md") {
      HasDot(id);
    }
  }
}
