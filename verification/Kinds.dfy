/** The layout of an investigation: which kind of record a file is, by the components of its
    path, and the same said of the path itself. */
module Kinds {
  import opened Wrappers
  import opened Paths
  import opened Records

  predicate Ends(name: string, suffix: string)
  {
    |suffix| <= |name| && name[|name| - |suffix|..] == suffix
  }

  const DIRECTORIES := {"tickets", "epics"}
  const STATUSES := {"accepted", "provisional", "rejected"}

  /** The kind that the layout of an investigation gives a path below its root. */
  function KindOf(parts: Parts): Option<Kind>
    requires |parts| > 0
  {
    var n := |parts|;
    var first := parts[0];
    if n == 1 then
      if first == "request.md" then Some(Request) else if first == "final-disposition.md" then Some(Closeout) else None
    else
      var second := parts[1];
      if first == "implementation-plan" && n == 2 && second == "PLAN.md" then Some(Plan)
      else if first == "strategy" && n == 2 && second == "bindings.toml" then Some(StrategyBinding)
      else if first == "strategy" && n == 3 && second == "transitions" && Ends(parts[2], ".toml") && '-' in parts[2]
        then Some(StrategyTransition)
      else if first == "strategy" && n == 2 && second in {"investigation.toml", "review.toml", "implementation.toml"}
        then Some(Strategy)
      else if first == "decision-log" && n == 2 && Ends(second, ".md") && '-' in second then Some(Decision)
      else if first == "evidence" && n == 2 && Ends(second, ".md") then Some(Evidence)
      else if first == "review" && Ends(parts[n - 1], ".md") then Some(Review)
      else if (first == "tickets" || first == "epics") && n == 3 && second in STATUSES && Ends(parts[2], ".md") then
        Some(if first == "tickets" then Ticket else Epic)
      else if first == "boards" && n == 2 && Ends(second, ".toml") then Some(Board)
      else if first == "progress" && n == 2 && second == "log.toml" then Some(Progress)
      else None
  }

  // ---- File by file ----

  ghost function Under(directory: string, name: string): string
  {
    directory + "/" + name
  }

  /** A file name with this extension. */
  ghost predicate FileName(name: string, extension: string)
  {
    '/' !in name && exists stem :: name == stem + extension
  }

  /** The files of one kind, by their paths below the root of the investigation. */
  ghost predicate HasShape(rest: string, kind: Kind)
  {
    match kind
    case Request => rest == "request.md"
    case Closeout => rest == "final-disposition.md"
    case Plan => rest == Under("implementation-plan", "PLAN.md")
    case StrategyBinding => rest == Under("strategy", "bindings.toml")
    case Strategy =>
      exists name :: rest == Under("strategy", name)
        && (name == "investigation.toml" || name == "review.toml" || name == "implementation.toml")
    case StrategyTransition =>
      exists name :: rest == Under("strategy", Under("transitions", name)) && FileName(name, ".toml") && '-' in name
    case Decision => exists name :: rest == Under("decision-log", name) && FileName(name, ".md") && '-' in name
    case Evidence => exists name :: rest == Under("evidence", name) && FileName(name, ".md")
    case Review => exists name :: rest == Under("review", name + ".md")
    case Ticket =>
      exists status, name :: rest == Under("tickets", Under(status, name)) && Status(status) && FileName(name, ".md")
    case Epic =>
      exists status, name :: rest == Under("epics", Under(status, name)) && Status(status) && FileName(name, ".md")
    case Board => exists name :: rest == Under("boards", name) && FileName(name, ".toml")
    case Progress => rest == Under("progress", "log.toml")
    case Activation | ProjectMap => false
  }

  ghost predicate Status(name: string)
  {
    name == "accepted" || name == "provisional" || name == "rejected"
  }

  ghost predicate WorkDirectory(name: string)
  {
    name == "tickets" || name == "epics"
  }

  lemma WorkNames(directory: string, status: string)
    ensures directory in DIRECTORIES <==> WorkDirectory(directory)
    ensures status in STATUSES <==> Status(status)
  {
  }

  lemma EndsIff(name: string, extension: string)
    ensures Ends(name, extension) <==> exists stem :: name == stem + extension
  {
    if Ends(name, extension) {
      assert name == name[..|name| - |extension|] + extension;
    }
  }

  lemma OnePart(rest: string, name: string)
    requires '/' !in name
    ensures rest == name <==> Split(rest) == [name]
  {
    SplitWithoutSlash(name);
    JoinSplit(rest);
  }

  lemma TwoParts(rest: string, directory: string, name: string)
    requires '/' !in directory && '/' !in name
    ensures rest == Under(directory, name) <==> Split(rest) == [directory, name]
  {
    SplitAtSlash(directory, name);
    SplitWithoutSlash(directory);
    SplitWithoutSlash(name);
    JoinSplit(rest);
    if Split(rest) == [directory, name] {
      assert Split(rest)[1..] == [name];
    }
  }

  lemma WorkParts(directory: string, status: string, name: string)
    requires '/' !in directory && '/' !in status && '/' !in name
    ensures Split(directory + "/" + (status + "/" + name)) == [directory, status, name]
  {
    SplitAtSlash(directory, status + "/" + name);
    SplitAtSlash(status, name);
    SplitWithoutSlash(directory);
    SplitWithoutSlash(status);
    SplitWithoutSlash(name);
  }

  lemma ThreeParts(rest: string, parts: Parts)
    requires parts == Split(rest) && |parts| == 3
    ensures rest == parts[0] + "/" + (parts[1] + "/" + parts[2])
  {
    JoinSplit(rest);
    assert Join(parts[1..]) == parts[1] + "/" + Join(parts[1..][1..]);
    assert parts[1..][1..] == [parts[2]];
  }

  lemma ThreePartsIff(rest: string, directory: string, inner: string, name: string)
    requires '/' !in directory && '/' !in inner && '/' !in name
    ensures rest == Under(directory, Under(inner, name)) <==> Split(rest) == [directory, inner, name]
  {
    WorkParts(directory, inner, name);
    if Split(rest) == [directory, inner, name] {
      ThreeParts(rest, Split(rest));
    }
  }

  /** Files of one directory and one extension. */
  lemma Pairs(rest: string, directory: string, extension: string)
    requires '/' !in directory
    ensures (exists name :: rest == Under(directory, name) && FileName(name, extension)) <==>
      |Split(rest)| == 2 && Split(rest)[0] == directory && Ends(Split(rest)[1], extension)
    ensures forall name :: rest == Under(directory, name) && FileName(name, extension) ==>
      Split(rest) == [directory, name]
  {
    SplitsHaveNoSlash(rest);
    forall name | rest == Under(directory, name) && FileName(name, extension)
      ensures Split(rest) == [directory, name] && Ends(name, extension)
    {
      TwoParts(rest, directory, name);
      EndsIff(name, extension);
    }
    if |Split(rest)| == 2 && Split(rest)[0] == directory && Ends(Split(rest)[1], extension) {
      var name := Split(rest)[1];
      EndsIff(name, extension);
      TwoParts(rest, directory, name);
      assert rest == Under(directory, name) && FileName(name, extension);
    }
  }

  lemma Triples(rest: string, directory: string, inner: string, extension: string)
    requires '/' !in directory && '/' !in inner
    ensures (exists name :: rest == Under(directory, Under(inner, name)) && FileName(name, extension)) <==>
      (|Split(rest)| == 3 && Split(rest)[0] == directory && Split(rest)[1] == inner && Ends(Split(rest)[2], extension))
    ensures forall name :: rest == Under(directory, Under(inner, name)) && FileName(name, extension) ==>
      Split(rest) == [directory, inner, name]
  {
    SplitsHaveNoSlash(rest);
    forall name | rest == Under(directory, Under(inner, name)) && FileName(name, extension)
      ensures Split(rest) == [directory, inner, name] && Ends(name, extension)
    {
      ThreePartsIff(rest, directory, inner, name);
      EndsIff(name, extension);
    }
    if |Split(rest)| == 3 && Split(rest)[0] == directory && Split(rest)[1] == inner && Ends(Split(rest)[2], extension) {
      var name := Split(rest)[2];
      EndsIff(name, extension);
      ThreePartsIff(rest, directory, inner, name);
      assert rest == Under(directory, Under(inner, name)) && FileName(name, extension);
    }
  }

  lemma EndsAfterSlash(directory: string, name: string, extension: string)
    requires '/' !in extension
    ensures Ends(Under(directory, name), extension) <==> Ends(name, extension)
  {
    var s, n := Under(directory, name), |extension|;
    if n <= |name| {
      assert s[|s| - n..] == name[|name| - n..];
    } else if n <= |s| {
      assert s[|s| - n..][n - |name| - 1] == s[|directory|] == '/';
    }
  }

  /** The name of a file ends as its path does. */
  lemma LastEnds(s: string, extension: string)
    requires '/' !in extension
    ensures Ends(Split(s)[|Split(s)| - 1], extension) <==> Ends(s, extension)
    ensures |Split(s)| > 1 <==> '/' in s
  {
    match LastSlash(s)
    case None => SplitWithoutSlash(s);
    case Some(k) =>
      assert s == Under(s[..k], s[k + 1..]);
      NameEnds(s[..k], s[k + 1..], extension);
  }

  lemma NameEnds(directory: string, name: string, extension: string)
    requires '/' !in extension && '/' !in name
    ensures var parts := Split(Under(directory, name));
      |parts| > 1 && parts[|parts| - 1] == name && (Ends(name, extension) <==> Ends(Under(directory, name), extension))
  {
    SplitAtSlash(directory, name);
    SplitWithoutSlash(name);
    EndsAfterSlash(directory, name, extension);
  }

  // ---- Component by component ----

  lemma SingleParts(parts: Parts)
    requires |parts| > 0
    ensures KindOf(parts) == Some(Request) <==> parts == ["request.md"]
    ensures KindOf(parts) == Some(Closeout) <==> parts == ["final-disposition.md"]
    ensures KindOf(parts) == Some(Plan) <==> parts == ["implementation-plan", "PLAN.md"]
    ensures KindOf(parts) == Some(Progress) <==> parts == ["progress", "log.toml"]
  {
  }

  lemma StrategyParts(parts: Parts)
    requires |parts| > 0
    ensures KindOf(parts) == Some(StrategyBinding) <==> parts == ["strategy", "bindings.toml"]
    ensures KindOf(parts) == Some(Strategy) <==>
      |parts| == 2 && parts[0] == "strategy" && parts[1] in {"investigation.toml", "review.toml", "implementation.toml"}
    ensures KindOf(parts) == Some(StrategyTransition) <==>
      |parts| == 3 && parts[..2] == ["strategy", "transitions"] && Ends(parts[2], ".toml") && '-' in parts[2]
  {
  }

  lemma PairParts(parts: Parts)
    requires |parts| > 0
    ensures KindOf(parts) == Some(Decision) <==>
      |parts| == 2 && parts[0] == "decision-log" && Ends(parts[1], ".md") && '-' in parts[1]
    ensures KindOf(parts) == Some(Evidence) <==> |parts| == 2 && parts[0] == "evidence" && Ends(parts[1], ".md")
    ensures KindOf(parts) == Some(Board) <==> |parts| == 2 && parts[0] == "boards" && Ends(parts[1], ".toml")
  {
  }

  lemma DeepParts(parts: Parts)
    requires |parts| > 0
    ensures KindOf(parts) == Some(Review) <==> |parts| > 1 && parts[0] == "review" && Ends(parts[|parts| - 1], ".md")
    ensures KindOf(parts) == Some(Ticket) <==>
      |parts| == 3 && parts[0] == "tickets" && Status(parts[1]) && Ends(parts[2], ".md")
    ensures KindOf(parts) == Some(Epic) <==>
      |parts| == 3 && parts[0] == "epics" && Status(parts[1]) && Ends(parts[2], ".md")
  {
  }

  // ---- The two descriptions agree ----

  lemma SingleShape(rest: string, kind: Kind)
    requires kind in {Request, Closeout}
    ensures KindOf(Split(rest)) == Some(kind) <==> HasShape(rest, kind)
  {
    SingleParts(Split(rest));
    OnePart(rest, if kind.Request? then "request.md" else "final-disposition.md");
  }

  lemma FixedShape(rest: string, kind: Kind)
    requires kind in {Plan, StrategyBinding, Progress}
    ensures KindOf(Split(rest)) == Some(kind) <==> HasShape(rest, kind)
  {
    SingleParts(Split(rest));
    StrategyParts(Split(rest));
    match kind
    case Plan => TwoParts(rest, "implementation-plan", "PLAN.md");
    case StrategyBinding => TwoParts(rest, "strategy", "bindings.toml");
    case Progress => TwoParts(rest, "progress", "log.toml");
  }

  lemma StrategyShape(rest: string)
    ensures KindOf(Split(rest)) == Some(Strategy) <==> HasShape(rest, Strategy)
  {
    StrategyParts(Split(rest));
    TwoParts(rest, "strategy", "investigation.toml");
    TwoParts(rest, "strategy", "review.toml");
    TwoParts(rest, "strategy", "implementation.toml");
  }

  lemma PairShape(rest: string, kind: Kind)
    requires kind in {Evidence, Board}
    ensures KindOf(Split(rest)) == Some(kind) <==> HasShape(rest, kind)
  {
    PairParts(Split(rest));
    Pairs(rest, "evidence", ".md");
    Pairs(rest, "boards", ".toml");
  }

  lemma DecisionShape(rest: string)
    ensures KindOf(Split(rest)) == Some(Decision) <==> HasShape(rest, Decision)
  {
    PairParts(Split(rest));
    Pairs(rest, "decision-log", ".md");
  }

  lemma TransitionShape(rest: string)
    ensures KindOf(Split(rest)) == Some(StrategyTransition) <==> HasShape(rest, StrategyTransition)
  {
    StrategyParts(Split(rest));
    Triples(rest, "strategy", "transitions", ".toml");
  }

  lemma WorkShapes(rest: string, directory: string)
    requires '/' !in directory
    ensures (exists status, name ::
        rest == Under(directory, Under(status, name)) && Status(status) && FileName(name, ".md"))
      <==> |Split(rest)| == 3 && Split(rest)[0] == directory && Status(Split(rest)[1]) && Ends(Split(rest)[2], ".md")
  {
    Triples(rest, directory, "accepted", ".md");
    Triples(rest, directory, "provisional", ".md");
    Triples(rest, directory, "rejected", ".md");
  }

  lemma WorkFileShape(rest: string, kind: Kind)
    requires kind in {Ticket, Epic}
    ensures KindOf(Split(rest)) == Some(kind) <==> HasShape(rest, kind)
  {
    DeepParts(Split(rest));
    WorkShapes(rest, "tickets");
    WorkShapes(rest, "epics");
  }

  lemma ReviewShape(rest: string)
    ensures KindOf(Split(rest)) == Some(Review) <==> HasShape(rest, Review)
  {
    DeepParts(Split(rest));
    LastEnds(rest, ".md");
    FirstComponent(rest, "review");
    BelowEnds(rest, "review", ".md");
  }

  lemma BelowEnds(rest: string, directory: string, extension: string)
    requires '/' !in extension
    ensures (exists name :: rest == Under(directory, name + extension)) <==>
      HasPrefix(rest, directory) && Ends(rest, extension)
  {
    if name :| rest == Under(directory, name + extension) {
      EndsAfterSlash(directory, name + extension, extension);
      EndsIff(name + extension, extension);
    }
    if HasPrefix(rest, directory) && Ends(rest, extension) {
      var below := rest[|directory| + 1..];
      assert rest == Under(directory, below);
      EndsAfterSlash(directory, below, extension);
      EndsIff(below, extension);
    }
  }

  /** A file is of a kind, by its components, exactly when its path has the form of that kind. */
  lemma KindIsShape(rest: string, kind: Kind)
    ensures KindOf(Split(rest)) == Some(kind) <==> HasShape(rest, kind)
  {
    match kind
    case Request | Closeout => SingleShape(rest, kind);
    case Plan | StrategyBinding | Progress => FixedShape(rest, kind);
    case Strategy => StrategyShape(rest);
    case StrategyTransition => TransitionShape(rest);
    case Decision => DecisionShape(rest);
    case Evidence | Board => PairShape(rest, kind);
    case Review => ReviewShape(rest);
    case Ticket | Epic => WorkFileShape(rest, kind);
    case Activation | ProjectMap => NoOtherKinds(Split(rest));
  }

  lemma NoOtherKinds(parts: Parts)
    requires |parts| > 0
    ensures KindOf(parts) != Some(Activation) && KindOf(parts) != Some(ProjectMap)
  {
  }
}
