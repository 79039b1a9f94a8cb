/** Writing several files with receipts, and undoing them after a failure: external edits
    may strike between any two steps, and any system call may fail. */
module Rollback {
  import opened Wrappers

  type Path = string
  type Bytes = string

  /** Each publication has a fresh inode and a fresh stamp; an edit in place keeps the inode. */
  datatype Node = Regular(bytes: Bytes, inode: nat, stamp: nat) | Directory

  datatype Edit =
    | Replace(path: Path, bytes: Bytes)
    | Overwrite(path: Path, bytes: Bytes)
    | Remove(path: Path)
    | Obstruct(path: Path)

  datatype Cause = Io | Invalid | Stale
  datatype Reason = ExternalChange | ObservationFailed | RestoreFailed
  datatype Change = Change(path: Path, prior: Option<Bytes>, written: Option<Bytes>)
  datatype Receipt = Receipt(path: Path, prior: Option<Bytes>, written: Option<Bytes>, identity: Option<nat>,
    revision: Option<(nat, nat)>)

  /** What goes wrong around one write: edits before it, failure, an unreadable new stamp. */
  datatype WriteTrouble = WriteTrouble(edits: seq<Edit>, fails: bool, observed: bool)

  datatype Fault = Works | ReadFails | IdentityFails | WriteFails
  datatype UndoTrouble = UndoTrouble(edits: seq<Edit>, fault: Fault)

  datatype Outcome =
    | Applied(receipts: seq<Receipt>)
    | Failed(cause: Cause)
    | Incomplete(cause: Cause, affected: seq<(Path, Reason)>)

  function BytesOf(node: Option<Node>): Option<Bytes>
  {
    match node
    case Some(Regular(bytes, _, _)) => Some(bytes)
    case _ => None
  }

  /** What the receipt left at its path is still there. */
  predicate Owned(r: Receipt, node: Option<Node>)
  {
    match r.written
    case None => node == None
    case Some(bytes) =>
      && r.identity.Some? && r.revision.Some? && r.identity.value == r.revision.value.0
      && node == Some(Regular(bytes, r.revision.value.0, r.revision.value.1))
  }

  /** Whatever another program did to a path, a file it left carries a later stamp. */
  ghost predicate Foreign(before: Option<Node>, now: Option<Node>, clock: nat)
  {
    now == before || now == None || now == Some(Directory) || (now.value.Regular? && now.value.stamp >= clock)
  }

  /** Only other programs have been at the path since `clock`, and none unless it was edited. */
  ghost predicate Drifted(edited: bool, before: Option<Node>, now: Option<Node>, clock: nat)
  {
    Foreign(before, now, clock) && (edited || now == before)
  }

  ghost function EditedBy(edits: seq<Edit>): set<Path>
  {
    set e | e in edits :: e.path
  }

  predicate Effective(c: Change)
  {
    c.prior != c.written
  }

  /** When the system refuses a write, a creation or a removal. */
  predicate Refused(c: Change, fails: bool, node: Option<Node>)
  {
    fails || node == Some(Directory)
    || (c.prior.None? && c.written.Some? && node.Some?) || (c.written.None? && node.None?)
  }

  function CauseOf(c: Change, fails: bool): Cause
  {
    if !fails && c.prior.None? && c.written.Some? then Stale else Io
  }

  class FileStore {
    var files: map<Path, Node>
    var clock: nat

    ghost predicate Valid()
      reads this
    {
      forall p :: p in files && files[p].Regular? ==> files[p].inode < clock && files[p].stamp < clock
    }

    function At(p: Path): Option<Node>
      reads this
    {
      NodeAt(files, p)
    }

    method Edit(edit: Edit)
      requires Valid()
      modifies this
      ensures Valid() && clock >= old(clock)
      ensures forall q :: q != edit.path ==> NodeAt(files, q) == NodeAt(old(files), q)
      ensures Foreign(old(At(edit.path)), At(edit.path), old(clock))
    {
      match edit {
        case Replace(p, bytes) => files := files[p := Regular(bytes, clock, clock)];
        case Overwrite(p, bytes) =>
          if p in files && files[p].Regular? {
            files := files[p := Regular(bytes, files[p].inode, clock)];
          }
        case Remove(p) => files := files - {p};
        case Obstruct(p) => files := files[p := Directory];
      }
      clock := clock + 1;
    }

    /** Other programs at work: what they touch never looks like an earlier publication. */
    method Interfere(edits: seq<Edit>)
      requires Valid()
      modifies this
      ensures Valid() && clock >= old(clock)
      ensures forall q :: Drifted(q in EditedBy(edits), NodeAt(old(files), q), NodeAt(files, q), old(clock))
    {
      for i := 0 to |edits|
        invariant Valid() && clock >= old(clock)
        invariant forall q :: Drifted(q in EditedBy(edits[..i]), NodeAt(old(files), q), NodeAt(files, q), old(clock))
      {
        assert edits[..i + 1] == edits[..i] + [edits[i]];
        Edit(edits[i]);
      }
      assert edits[..|edits|] == edits;
    }

    method Publish(p: Path, bytes: Bytes)
      requires Valid()
      modifies this
      ensures Valid() && clock == old(clock) + 1
      ensures At(p) == Some(Regular(bytes, old(clock), old(clock)))
      ensures forall q :: q != p ==> NodeAt(files, q) == NodeAt(old(files), q)
    {
      files := files[p := Regular(bytes, clock, clock)];
      clock := clock + 1;
    }

    method Unlink(p: Path) returns (ok: bool)
      requires Valid()
      modifies this`files
      ensures Valid() && ok == (old(At(p)).Some? && old(At(p)).value.Regular?)
      ensures At(p) == if ok then None else old(At(p))
      ensures forall q :: q != p ==> NodeAt(files, q) == NodeAt(old(files), q)
    {
      ok := p in files && files[p].Regular?;
      if ok {
        files := files - {p};
      }
    }

    /** Writes, creates or removes one file. A receipt is issued exactly when the store has changed. */
    method Apply(c: Change, fails: bool, observed: bool) returns (r: Result<Receipt, Cause>)
      requires Valid()
      modifies this
      ensures Valid() && clock >= old(clock)
      ensures forall q :: q != c.path ==> NodeAt(files, q) == NodeAt(old(files), q)
      ensures r.Err? ==> At(c.path) == old(At(c.path))
      ensures r.Err? <==> Refused(c, fails, old(At(c.path)))
      ensures r.Err? ==> r.error == CauseOf(c, fails)
      ensures r.Ok? ==> r.value.path == c.path && r.value.prior == c.prior && r.value.written == c.written
      ensures r.Ok? ==> BytesOf(At(c.path)) == c.written && At(c.path) != Some(Directory)
      ensures r.Ok? ==> (r.value.revision.Some? <==> c.written.Some? && observed)
      ensures r.Ok? ==> Standing(r.value, At(c.path))
    {
      if fails {
        return Err(Io);
      }
      match c.written
      case Some(bytes) =>
        if c.path in files && (c.prior.None? || files[c.path].Directory?) {
          return Err(if c.prior.None? then Stale else Io);
        }
        var token := clock;
        Publish(c.path, bytes);
        r := Ok(Receipt(c.path, c.prior, c.written, Some(token), if observed then Some((token, token)) else None));
      case None =>
        var removed := Unlink(c.path);
        if !removed {
          return Err(Io);
        }
        r := Ok(Receipt(c.path, c.prior, c.written, None, None));
    }

    /** Undoes one receipt: it succeeds exactly when the path is still as the receipt left it
        and no call fails; otherwise the store is not touched, and the reason says why. */
    method Restore(r: Receipt, fault: Fault) returns (reason: Option<Reason>)
      requires Valid() && r.prior != r.written
      modifies this
      ensures Valid() && clock >= old(clock)
      ensures Settled(r, fault, NodeAt(old(files), r.path), NodeAt(files, r.path), reason)
      ensures forall q :: q != r.path ==> NodeAt(files, q) == NodeAt(old(files), q)
    {
      if fault.ReadFails? {
        return Some(ObservationFailed);
      }
      var current := At(r.path);
      if current == Some(Directory) {
        return Some(ExternalChange);
      }
      match (current, r.written) {
        case (None, None) =>
        case (Some(node), Some(bytes)) =>
          if r.revision.None? || fault.IdentityFails? {
            return Some(ObservationFailed);
          }
          if node.bytes != bytes || (node.inode, node.stamp) != r.revision.value || Some(node.inode) != r.identity {
            return Some(ExternalChange);
          }
        case _ => return Some(ExternalChange);
      }
      if fault.WriteFails? {
        return Some(RestoreFailed);
      }
      match r.prior {
        case Some(bytes) => Publish(r.path, bytes);
        case None =>
          var removed := Unlink(r.path);
          if !removed {
            return Some(RestoreFailed);
          }
      }
      return None;
    }

    /** Undoes the receipts, last one first. Each is settled against what its path held at
        that moment, whatever other programs did before and after. */
    method Rollback(cause: Cause, receipts: seq<Receipt>, trouble: nat -> UndoTrouble)
      returns (outcome: Outcome, ghost undone: seq<Undo>)
      requires Valid() && Undoable(receipts)
      modifies this
      ensures Valid()
      ensures Undone(receipts, trouble, old(clock), old(files), files, undone, outcome)
      ensures outcome == Failed(cause) || (outcome.Incomplete? && outcome.cause == cause)
    {
      var affected: seq<(Path, Reason)> := [];
      undone := seq(|receipts|, k => Undo(None, None, 0, None));
      ghost var found, start := files, clock;
      var n := |receipts|;
      while n > 0
        invariant 0 <= n <= |receipts| && Valid() && clock >= start
        invariant Undoing(receipts, trouble, start, found, clock, files, undone, affected, n, n)
      {
        n := n - 1;
        ghost var current, tick := files, clock;
        Interfere(trouble(n).edits);
        ghost var edited := files;
        UndoingEdited(receipts, trouble, start, found, tick, current, clock, edited, undone, affected, n);
        ghost var later := clock;
        var reason := Restore(receipts[n], trouble(n).fault);
        ghost var was := affected;
        if reason.Some? {
          affected := affected + [(receipts[n].path, reason.value)];
        }
        ghost var u := Undo(NodeAt(edited, receipts[n].path), At(receipts[n].path), clock, reason);
        UndoingStep(receipts, trouble, start, found, later, edited, clock, files, undone, u, was, affected, reason, n);
        undone := undone[n := u];
      }
      outcome := if affected == [] then Failed(cause) else Incomplete(cause, affected);
      AllUndone(receipts, trouble, start, found, clock, files, undone, affected, outcome);
    }

    /** One change: it is made exactly when it changes something and the system does not refuse. */
    method WriteOne(ghost before: map<Path, Node>, ghost start: nat, changes: seq<Change>,
                    ghost writing: nat -> WriteTrouble, i: nat,
                    receipts: seq<Receipt>, ghost made: seq<Made>, trouble: WriteTrouble)
      returns (cause: Option<Cause>, receipts': seq<Receipt>, ghost seen: Option<Node>, ghost made': seq<Made>)
      requires Valid() && clock >= start && i < |changes| && Distinct(changes) && trouble == writing(i)
      requires InProgress(before, start, changes, writing, clock, files, i, i, receipts, made)
      modifies this
      ensures Valid() && clock >= start
      ensures InProgress(before, start, changes, writing, clock, files, if cause.None? then i + 1
        else i, i + 1, receipts', made')
      ensures Drifted(EditedWhile(writing, 0, i + 1, changes[i].path), NodeAt(before, changes[i].path), seen, start)
      ensures cause == if Effective(changes[i]) && Refused(changes[i], trouble.fails, seen)
        then Some(CauseOf(changes[i], trouble.fails)) else None
    {
      var c := changes[i];
      ghost var current, tick := files, clock;
      Interfere(trouble.edits);
      ProgressEdited(before, start, changes, writing, tick, current, clock, files, i, receipts, made);
      cause, receipts', seen, made' := None, receipts, At(c.path), made;
      NotYetWritten(changes, i);
      ghost var now, later := files, clock;
      if Effective(c) {
        var applied := Apply(c, trouble.fails, trouble.observed);
        if applied.Err? {
          assert files == now by {
            forall q ensures NodeAt(files, q) == NodeAt(now, q) {
            }
            SameFiles(files, now);
          }
          ProgressLater(before, start, changes, writing, later, now, clock, i, receipts, made);
          return Some(applied.error), receipts, seen, made;
        }
        receipts' := receipts + [applied.value];
        made' := made + [Made(seen, At(c.path), clock, |receipts|)];
        ProgressWritten(before, start, changes, writing, later, now, clock, files, i, receipts, made, applied.value,
          made'[i]);
      } else {
        made' := made + [Made(seen, seen, clock, |receipts|)];
        ProgressSkipped(before, start, changes, writing, clock, files, i, receipts, made, made'[i]);
      }
    }

    /** The changes in order, up to the first that the system refuses. */
    method WriteAll(changes: seq<Change>, writing: nat -> WriteTrouble)
      returns (cause: Option<Cause>, receipts: seq<Receipt>, ghost made: seq<Made>, ghost seen: Option<Node>)
      requires Valid() && Distinct(changes)
      modifies this
      ensures Valid() && clock >= old(clock) && |made| <= |changes|
      ensures WrittenUpTo(old(files), old(clock), changes, writing, clock, files, cause, receipts, made, seen)
    {
      ghost var before, start := files, clock;
      cause, receipts, made, seen := None, [], [], None;
      var i := 0;
      while i < |changes|
        invariant Valid() && clock >= start && |made| == i <= |changes| && cause.None?
        invariant InProgress(before, start, changes, writing, clock, files, i, i, receipts, made)
      {
        cause, receipts, seen, made := WriteOne(before, start, changes, writing, i, receipts, made, writing(i));
        if cause.Some? {
          return;
        }
        i := i + 1;
      }
    }

    /** Writes the changes that change something, file by file; a failure, there or in the
        verification afterwards, undoes what was written. It succeeds exactly when nothing is
        refused and the verification passes, and otherwise returns its own cause. */
    method Transaction(changes: seq<Change>, writing: nat -> WriteTrouble, verified: bool, undoing: nat -> UndoTrouble)
      returns (outcome: Outcome, ghost story: Story)
      requires Valid() && Distinct(changes)
      requires forall c :: c in changes ==> BytesOf(At(c.path)) == c.prior && At(c.path) != Some(Directory)
      modifies this
      ensures Valid()
      ensures Told(old(files), old(clock), changes, writing, verified, undoing, files, outcome, story)
      ensures forall q :: Untouched(writing, undoing, changes, q) && !Targeted(changes, q) ==>
        NodeAt(files, q) == NodeAt(old(files), q) && !Reports(outcome, q)
      ensures forall c ::
        c in changes && Untouched(writing, undoing, changes, c.path) ==> Concluded(c, outcome, At(c.path))
      ensures Undisturbed(writing, undoing, changes) ==> !outcome.Incomplete?
    {
      ghost var before, start := files, clock;
      var cause, receipts;
      ghost var made, seen, undone;
      cause, receipts, made, seen := WriteAll(changes, writing);
      ghost var found, tick := files, clock;
      if cause.None? && verified {
        outcome, undone := Applied(receipts), [];
      } else {
        ReceiptsAreUndoable(changes, writing, |made|, receipts, made);
        outcome, undone := Rollback(if cause.Some? then cause.value else Invalid, receipts, undoing);
      }
      story := Story(cause, receipts, made, seen, found, tick, undone);
      StoryIsTold(before, start, changes, writing, verified, undoing, files, outcome, story);
      StoryConcludes(before, start, changes, writing, verified, undoing, files, outcome, story);
    }
  }

  // ---- What happened at each path ----

  /** A change at the moment of its write: what its path held, what it held afterwards and
      when, and how many receipts there were before. */
  datatype Made = Made(seen: Option<Node>, made: Option<Node>, tick: nat, rank: nat)

  /** A receipt at the moment of its restore, and why it was not restored. */
  datatype Undo = Undo(met: Option<Node>, put: Option<Node>, tick: nat, reason: Option<Reason>)

  /** A transaction: the cause of the first refusal, the receipts, the writes, what the refused
      path held, the store when the writing ended, and the restores. */
  datatype Story = Story(cause: Option<Cause>, receipts: seq<Receipt>, made: seq<Made>, seen: Option<Node>,
                         found: map<Path, Node>, tick: nat, undone: seq<Undo>)

  /** Another program edits `p` before one of the writes `from` to `to`. */
  ghost predicate EditedWhile(trouble: nat -> WriteTrouble, from: nat, to: nat, p: Path)
  {
    exists k :: from <= k < to && p in EditedBy(trouble(k).edits)
  }

  ghost predicate EditedDuring(trouble: nat -> UndoTrouble, from: nat, to: nat, p: Path)
  {
    exists k :: from <= k < to && p in EditedBy(trouble(k).edits)
  }

  lemma DriftJoins(a: Option<Node>, b: Option<Node>, c: Option<Node>, first: nat, second: nat, e: bool, f: bool)
    requires Drifted(e, a, b, first) && Drifted(f, b, c, second) && first <= second
    ensures Drifted(e || f, a, c, first)
  {
  }

  lemma SameFiles(f: map<Path, Node>, g: map<Path, Node>)
    requires forall q :: NodeAt(f, q) == NodeAt(g, q)
    ensures f == g
  {
    forall q ensures q in f <==> q in g ensures q in f ==> f[q] == g[q] {
      assert NodeAt(f, q) == NodeAt(g, q);
    }
  }

  function NodeAt(files: map<Path, Node>, p: Path): Option<Node>
  {
    if p in files then Some(files[p]) else None
  }

  ghost predicate Distinct(changes: seq<Change>)
  {
    forall i, j :: 0 <= i < j < |changes| ==> changes[i].path != changes[j].path
  }

  // ---- Writing ----

  ghost predicate Older(node: Option<Node>, tick: nat)
  {
    node.Some? && node.value.Regular? ==> node.value.stamp < tick
  }

  /** One change that has been dealt with: before it was reached only other programs were at its
      path, then it was made if it changes something, and after that again only others. */
  ghost predicate DealtWith(before: map<Path, Node>, start: nat, c: Change, fails: bool, earlier: bool, later: bool,
                            m: Made, clock: nat, now: map<Path, Node>)
  {
    && Drifted(earlier, NodeAt(before, c.path), m.seen, start)
    && (if Effective(c) then !Refused(c, fails, m.seen) && BytesOf(m.made) == c.written && m.made != Some(Directory)
        else m.made == m.seen)
    && Older(m.made, m.tick) && start <= m.tick <= clock
    && Drifted(later, m.made, NodeAt(now, c.path), m.tick)
  }

  /** The receipts are those of the changes made, in order. */
  ghost predicate Matched(changes: seq<Change>, writing: nat -> WriteTrouble, i: nat, receipts: seq<Receipt>,
                          made: seq<Made>)
    requires i <= |changes|
  {
    && |made| == i && |receipts| <= i
    && (forall j :: 0 <= j < i && Effective(changes[j]) ==>
        made[j].rank < |receipts| && Receipted(receipts[made[j].rank], changes[j], writing(j).observed, made[j].made))
    && (forall k :: 0 <= k < |receipts| ==> Ranked(changes, i, made, k))
  }

  ghost predicate Ranked(changes: seq<Change>, i: nat, made: seq<Made>, k: nat)
    requires i <= |changes| && i <= |made|
  {
    exists j :: 0 <= j < i && HasRank(changes, made, j, k)
  }

  ghost predicate HasRank(changes: seq<Change>, made: seq<Made>, j: nat, k: nat)
    requires j < |changes| && j < |made|
  {
    Effective(changes[j]) && made[j].rank == k
  }

  ghost predicate Receipted(r: Receipt, c: Change, observed: bool, node: Option<Node>)
  {
    && r.path == c.path && r.prior == c.prior && r.written == c.written && Standing(r, node)
    && (r.written.Some? ==> (r.revision.Some? <==> observed))
  }

  ghost predicate Among(changes: seq<Change>, i: nat, q: Path)
    requires i <= |changes|
  {
    exists j :: 0 <= j < i && changes[j].path == q
  }

  /** The first `i` changes have been dealt with, after `steps` rounds of edits. */
  ghost predicate InProgress(before: map<Path, Node>, start: nat, changes: seq<Change>, writing: nat -> WriteTrouble,
                             clock: nat, now: map<Path, Node>, i: nat, steps: nat, receipts: seq<Receipt>,
                             made: seq<Made>)
    requires i <= |changes|
  {
    && Matched(changes, writing, i, receipts, made)
    && (forall j :: 0 <= j < i ==> MadeAt(before, start, changes, writing, clock, now, j, steps, made))
    && (forall q ::
      !Among(changes, i, q) ==> Drifted(EditedWhile(writing, 0, steps, q), NodeAt(before, q), NodeAt(now, q), start))
  }

  ghost predicate MadeAt(before: map<Path, Node>, start: nat, changes: seq<Change>, writing: nat -> WriteTrouble,
                         clock: nat, now: map<Path, Node>, j: nat, steps: nat, made: seq<Made>)
    requires j < |changes| && j < |made|
  {
    DealtWith(before, start, changes[j], writing(j).fails, EditedWhile(writing, 0, j + 1, changes[j].path),
              EditedWhile(writing, j + 1, steps, changes[j].path), made[j], clock, now)
  }

  /** All changes are made, or all before the first refused one, whose cause is returned. */
  ghost predicate WrittenUpTo(before: map<Path, Node>, start: nat, changes: seq<Change>, writing: nat -> WriteTrouble,
                              clock: nat, now: map<Path, Node>, cause: Option<Cause>, receipts: seq<Receipt>,
                              made: seq<Made>, seen: Option<Node>)
    requires |made| <= |changes|
  {
    var n := |made|;
    && InProgress(before, start, changes, writing, clock, now, n, if cause.None? then n else n + 1, receipts, made)
    && (cause.None? <==> n == |changes|)
    && (cause.Some? ==>
        && Effective(changes[n]) && Refused(changes[n], writing(n).fails, seen)
          && cause.value == CauseOf(changes[n], writing(n).fails)
        && Drifted(EditedWhile(writing, 0, n + 1, changes[n].path), NodeAt(before, changes[n].path), seen, start))
  }

  lemma NotYetWritten(changes: seq<Change>, i: nat)
    requires Distinct(changes) && i < |changes|
    ensures !Among(changes, i, changes[i].path)
  {
  }

  lemma EditedOnce(writing: nat -> WriteTrouble, from: nat, to: nat, q: Path)
    requires from <= to
    ensures EditedWhile(writing, from, to + 1, q) <==>
      EditedWhile(writing, from, to, q) || q in EditedBy(writing(to).edits)
  {
  }

  lemma ProgressEdited(before: map<Path, Node>, start: nat, changes: seq<Change>, writing: nat -> WriteTrouble,
                       clock: nat, now: map<Path, Node>, later: nat, next: map<Path, Node>, i: nat,
                       receipts: seq<Receipt>, made: seq<Made>)
    requires i < |changes| && start <= clock <= later
    requires InProgress(before, start, changes, writing, clock, now, i, i, receipts, made)
    requires forall q :: Drifted(q in EditedBy(writing(i).edits), NodeAt(now, q), NodeAt(next, q), clock)
    ensures InProgress(before, start, changes, writing, later, next, i, i + 1, receipts, made)
  {
    var steps := i + 1;
    forall j | 0 <= j < i ensures MadeAt(before, start, changes, writing, later, next, j, steps, made) {
      assert MadeAt(before, start, changes, writing, clock, now, j, i, made);
      var p := changes[j].path;
      EditedOnce(writing, j + 1, i, p);
      DriftJoins(made[j].made, NodeAt(now, p), NodeAt(next, p), made[j].tick, clock, EditedWhile(writing, j + 1, i, p),
        p in EditedBy(writing(i).edits));
    }
    forall q | !Among(changes, i, q)
      ensures Drifted(EditedWhile(writing, 0, i + 1, q), NodeAt(before, q), NodeAt(next, q), start)
    {
      EditedOnce(writing, 0, i, q);
      DriftJoins(NodeAt(before, q), NodeAt(now, q), NodeAt(next, q), start, clock, EditedWhile(writing, 0, i, q),
        q in EditedBy(writing(i).edits));
    }
  }

  lemma ProgressLater(before: map<Path, Node>, start: nat, changes: seq<Change>, writing: nat -> WriteTrouble,
                      clock: nat, now: map<Path, Node>, later: nat, i: nat, receipts: seq<Receipt>, made: seq<Made>)
    requires i < |changes| && clock <= later
    requires InProgress(before, start, changes, writing, clock, now, i, i + 1, receipts, made)
    ensures InProgress(before, start, changes, writing, later, now, i, i + 1, receipts, made)
  {
    var steps := i + 1;
    forall j | 0 <= j < i ensures MadeAt(before, start, changes, writing, later, now, j, steps, made) {
      assert MadeAt(before, start, changes, writing, clock, now, j, steps, made);
    }
  }

  lemma MatchedNext(changes: seq<Change>, writing: nat -> WriteTrouble, i: nat, receipts: seq<Receipt>, made: seq<Made>,
                    more: seq<Receipt>, m: Made)
    requires i < |changes| && Matched(changes, writing, i, receipts, made) && m.rank == |receipts|
    requires if Effective(changes[i]) then |more| == 1 && Receipted(more[0], changes[i], writing(i).observed, m.made)
      else more == []
    ensures Matched(changes, writing, i + 1, receipts + more, made + [m])
  {
    var n, longer := i + 1, made + [m];
    forall k | 0 <= k < |receipts + more| ensures Ranked(changes, n, longer, k) {
      if k < |receipts| {
        assert Ranked(changes, i, made, k);
        var j :| 0 <= j < i && HasRank(changes, made, j, k);
        assert HasRank(changes, longer, j, k);
      } else {
        assert HasRank(changes, longer, i, k);
      }
    }
  }

  lemma ProgressNext(before: map<Path, Node>, start: nat, changes: seq<Change>, writing: nat -> WriteTrouble,
                     clock: nat, now: map<Path, Node>, later: nat, next: map<Path, Node>, i: nat, steps: nat,
                     receipts: seq<Receipt>, more: seq<Receipt>, made: seq<Made>, longer: seq<Made>)
    requires i < |changes| && Distinct(changes) && clock <= later
    requires InProgress(before, start, changes, writing, clock, now, i, steps, receipts, made)
    requires |longer| == i + 1 && longer[..i] == made && Matched(changes, writing, i + 1, receipts + more, longer)
    requires forall q :: q != changes[i].path ==> NodeAt(next, q) == NodeAt(now, q)
    requires MadeAt(before, start, changes, writing, later, next, i, steps, longer)
    ensures InProgress(before, start, changes, writing, later, next, i + 1, steps, receipts + more, longer)
  {
    forall j | 0 <= j < i + 1 ensures MadeAt(before, start, changes, writing, later, next, j, steps, longer) {
      if j < i {
        assert MadeAt(before, start, changes, writing, clock, now, j, steps, made);
        assert longer[j] == made[j];
      }
    }
    forall q | !Among(changes, i + 1, q) ensures !Among(changes, i, q) && q != changes[i].path {
    }
  }

  lemma ProgressWritten(before: map<Path, Node>, start: nat, changes: seq<Change>, writing: nat -> WriteTrouble,
                        clock: nat, now: map<Path, Node>, later: nat, next: map<Path, Node>, i: nat,
                        receipts: seq<Receipt>, made: seq<Made>,
                        r: Receipt, m: Made)
    requires i < |changes| && Distinct(changes) && start <= clock <= later && Effective(changes[i])
    requires InProgress(before, start, changes, writing, clock, now, i, i + 1, receipts, made)
    requires forall q :: q != changes[i].path ==> NodeAt(next, q) == NodeAt(now, q)
    requires m == Made(NodeAt(now, changes[i].path), NodeAt(next, changes[i].path), later, |receipts|)
    requires Older(m.made, later)
    requires !Refused(changes[i], writing(i).fails, m.seen) && Receipted(r, changes[i], writing(i).observed, m.made)
    ensures InProgress(before, start, changes, writing, later, next, i + 1, i + 1, receipts + [r], made + [m])
  {
    NotYetWritten(changes, i);
    MatchedNext(changes, writing, i, receipts, made, [r], m);
    assert MadeAt(before, start, changes, writing, later, next, i, i + 1, made + [m]);
    ProgressNext(before, start, changes, writing, clock, now, later, next, i, i + 1, receipts, [r], made, made + [m]);
  }

  lemma ProgressSkipped(before: map<Path, Node>, start: nat, changes: seq<Change>, writing: nat -> WriteTrouble,
                        clock: nat, now: map<Path, Node>, i: nat, receipts: seq<Receipt>, made: seq<Made>, m: Made)
    requires i < |changes| && Distinct(changes) && start <= clock && !Effective(changes[i])
    requires InProgress(before, start, changes, writing, clock, now, i, i + 1, receipts, made)
    requires m == Made(NodeAt(now, changes[i].path), NodeAt(now, changes[i].path), clock, |receipts|)
    requires Older(m.made, clock)
    ensures InProgress(before, start, changes, writing, clock, now, i + 1, i + 1, receipts, made + [m])
  {
    NotYetWritten(changes, i);
    MatchedNext(changes, writing, i, receipts, made, [], m);
    assert receipts + [] == receipts;
    assert MadeAt(before, start, changes, writing, clock, now, i, i + 1, made + [m]);
    ProgressNext(before, start, changes, writing, clock, now, clock, now, i, i + 1, receipts, [], made, made + [m]);
  }

  /** What the receipt wrote is there, and a readable revision proves it. */
  ghost predicate Standing(r: Receipt, node: Option<Node>)
  {
    && BytesOf(node) == r.written && node != Some(Directory)
    && (r.written.None? || r.revision.Some? ==> Owned(r, node))
  }

  /** Distinct paths, and no receipt for a write that changes nothing. */
  ghost predicate Undoable(receipts: seq<Receipt>)
  {
    && (forall k :: 0 <= k < |receipts| ==> receipts[k].prior != receipts[k].written)
    && forall j, k :: 0 <= j < k < |receipts| ==> receipts[j].path != receipts[k].path
  }

  /** Each receipt is that of one change. */
  lemma ChangeOf(changes: seq<Change>, writing: nat -> WriteTrouble, i: nat, receipts: seq<Receipt>, made: seq<Made>,
                 k: nat)
    returns (j: nat)
    requires i <= |changes| && Matched(changes, writing, i, receipts, made) && k < |receipts|
    ensures j < i && Effective(changes[j]) && made[j].rank == k
    ensures receipts[k].path == changes[j].path && receipts[k].prior == changes[j].prior
    ensures receipts[k].written == changes[j].written
  {
    assert Ranked(changes, i, made, k);
    j :| 0 <= j < i && HasRank(changes, made, j, k);
  }

  lemma ReceiptsAreUndoable(changes: seq<Change>, writing: nat -> WriteTrouble, i: nat, receipts: seq<Receipt>,
                            made: seq<Made>)
    requires Distinct(changes) && i <= |changes| && Matched(changes, writing, i, receipts, made)
    ensures Undoable(receipts)
  {
    forall k | 0 <= k < |receipts| ensures receipts[k].prior != receipts[k].written {
      var a := ChangeOf(changes, writing, i, receipts, made, k);
    }
    forall j, k | 0 <= j < k < |receipts| ensures receipts[j].path != receipts[k].path {
      var a := ChangeOf(changes, writing, i, receipts, made, j);
      var b := ChangeOf(changes, writing, i, receipts, made, k);
    }
  }

  // ---- Undoing ----

  ghost predicate Written(receipts: seq<Receipt>, q: Path)
  {
    exists k :: 0 <= k < |receipts| && receipts[k].path == q
  }

  ghost predicate Reports(outcome: Outcome, p: Path)
  {
    outcome.Incomplete? && exists x :: x in outcome.affected && x.0 == p
  }

  ghost predicate Listed(affected: seq<(Path, Reason)>, p: Path)
  {
    exists x :: x in affected && x.0 == p
  }

  /** What stands in the way of a restore, in the order in which it is noticed: the path cannot
      be read; another program has put a directory there, removed the file or created one; the
      stamp of the file was never read or cannot be read now; its content, inode or stamp is
      not that of the receipt; or everything is in place, but the write fails. */
  ghost predicate Explains(reason: Reason, r: Receipt, fault: Fault, met: Option<Node>)
  {
    match (met, r.written)
    case (Some(Directory), _) => reason == if fault.ReadFails? then ObservationFailed else ExternalChange
    case (None, Some(_)) => reason == if fault.ReadFails? then ObservationFailed else ExternalChange
    case (Some(Regular(_, _, _)), None) => reason == if fault.ReadFails? then ObservationFailed else ExternalChange
    case (None, None) => if fault.ReadFails? then reason == ObservationFailed
      else fault.WriteFails? && reason == RestoreFailed
    case (Some(Regular(bytes, inode, stamp)), Some(written)) =>
      if fault.ReadFails? || fault.IdentityFails? || r.revision.None? then reason == ObservationFailed
      else if bytes == written && r.revision.value == (inode, stamp) && r.identity == Some(inode)
        then fault.WriteFails? && reason == RestoreFailed
      else reason == ExternalChange
  }

  /** Either the prior content is back, or the restore has left the path as it met it, for a
      reason. */
  ghost predicate Settled(r: Receipt, fault: Fault, met: Option<Node>, put: Option<Node>, reason: Option<Reason>)
  {
    && (reason.Some? <==> !(Owned(r, met) && (fault.Works? || (fault.IdentityFails? && r.written.None?))))
    && (reason.Some? ==> put == met && Explains(reason.value, r, fault, met))
    && (reason.None? ==> BytesOf(put) == r.prior && put != Some(Directory))
  }

  /** One receipt: only other programs between the start and its restore, and only other
      programs from then on. */
  ghost predicate Restored(r: Receipt, fault: Fault, earlier: bool, later: bool, start: nat, found: Option<Node>,
                           u: Undo, left: Option<Node>, reported: bool)
  {
    && Drifted(earlier, found, u.met, start) && Settled(r, fault, u.met, u.put, u.reason)
    && Drifted(later, u.put, left, u.tick)
    && start <= u.tick && (reported <==> u.reason.Some?)
  }

  ghost predicate RestoredAt(receipts: seq<Receipt>, trouble: nat -> UndoTrouble, start: nat, found: map<Path, Node>,
                             left: map<Path, Node>,
                             undone: seq<Undo>, outcome: Outcome, k: nat)
    requires k < |receipts| == |undone|
  {
    var p := receipts[k].path;
    Restored(receipts[k], trouble(k).fault, EditedDuring(trouble, k, |receipts|, p), EditedDuring(trouble, 0, k, p),
      start,
             NodeAt(found, p), undone[k], NodeAt(left, p), Reports(outcome, p))
  }

  /** What rollback does to a store, path by path. */
  ghost predicate Undone(receipts: seq<Receipt>, trouble: nat -> UndoTrouble, start: nat, found: map<Path, Node>,
                         left: map<Path, Node>,
                         undone: seq<Undo>, outcome: Outcome)
  {
    var n := |receipts|;
    && |undone| == n
    && (forall k :: 0 <= k < n ==> RestoredAt(receipts, trouble, start, found, left, undone, outcome, k))
    && (forall q ::
      !Written(receipts, q) ==> Drifted(EditedDuring(trouble, 0, n, q), NodeAt(found, q), NodeAt(left, q), start))
    && (forall q :: Reports(outcome, q) ==> Written(receipts, q))
    && (outcome.Incomplete? ==> outcome.affected != [] && outcome.affected == Unrestored(receipts, undone, 0))
  }

  /** The receipts from `n` on that were not restored, the last one first, each with its reason. */
  ghost function Unrestored(receipts: seq<Receipt>, undone: seq<Undo>, n: nat): seq<(Path, Reason)>
    requires n <= |receipts| == |undone|
    decreases |receipts| - n
  {
    if n == |receipts| then []
    else
      var later := Unrestored(receipts, undone, n + 1);
      if undone[n].reason.Some? then later + [(receipts[n].path, undone[n].reason.value)] else later
  }

  lemma {:induction false} UnrestoredLater(receipts: seq<Receipt>, undone: seq<Undo>, n: nat, k: nat, u: Undo)
    requires k < n <= |receipts| == |undone|
    ensures Unrestored(receipts, undone[k := u], n) == Unrestored(receipts, undone, n)
    decreases |receipts| - n
  {
    if n < |receipts| {
      UnrestoredLater(receipts, undone, n + 1, k, u);
    }
  }

  /** Receipts `n` and later have been dealt with, after the rounds of edits from `step` on. */
  ghost predicate Undoing(receipts: seq<Receipt>, trouble: nat -> UndoTrouble, start: nat, found: map<Path, Node>,
                          clock: nat, now: map<Path, Node>,
                          undone: seq<Undo>, affected: seq<(Path, Reason)>, n: nat, step: nat)
    requires n <= |receipts|
  {
    && |undone| == |receipts| && start <= clock && affected == Unrestored(receipts, undone, n)
    && (forall k ::
      n <= k < |receipts| ==> UndoneAt(receipts, trouble, start, found, clock, now, undone, affected, step, k))
    && (forall q :: !WrittenFrom(receipts, n, q) ==>
      Drifted(EditedDuring(trouble, step, |receipts|, q), NodeAt(found, q), NodeAt(now, q), start))
    && (forall q :: Listed(affected, q) ==> WrittenFrom(receipts, n, q))
  }

  ghost predicate WrittenFrom(receipts: seq<Receipt>, n: nat, q: Path)
  {
    exists k :: n <= k < |receipts| && receipts[k].path == q
  }

  ghost predicate UndoneAt(receipts: seq<Receipt>, trouble: nat -> UndoTrouble, start: nat, found: map<Path, Node>,
                           clock: nat, now: map<Path, Node>,
                           undone: seq<Undo>, affected: seq<(Path, Reason)>, step: nat, k: nat)
    requires k < |receipts| == |undone|
  {
    var p := receipts[k].path;
    && undone[k].tick <= clock
    && Restored(receipts[k], trouble(k).fault, EditedDuring(trouble, k, |receipts|, p),
      EditedDuring(trouble, step, k, p), start,
                NodeAt(found, p), undone[k], NodeAt(now, p), Listed(affected, p))
  }

  lemma EditedBefore(trouble: nat -> UndoTrouble, n: nat, to: nat, q: Path)
    requires n < to
    ensures EditedDuring(trouble, n, to, q) <==> EditedDuring(trouble, n + 1, to, q) || q in EditedBy(trouble(n).edits)
  {
  }

  lemma UndoingEdited(receipts: seq<Receipt>, trouble: nat -> UndoTrouble, start: nat, found: map<Path, Node>,
                      clock: nat, now: map<Path, Node>,
                      later: nat, next: map<Path, Node>, undone: seq<Undo>, affected: seq<(Path, Reason)>, n: nat)
    requires n < |receipts| && clock <= later
    requires Undoing(receipts, trouble, start, found, clock, now, undone, affected, n + 1, n + 1)
    requires forall q :: Drifted(q in EditedBy(trouble(n).edits), NodeAt(now, q), NodeAt(next, q), clock)
    ensures Undoing(receipts, trouble, start, found, later, next, undone, affected, n + 1, n)
  {
    var step := n + 1;
    forall k | n + 1 <= k < |receipts|
      ensures UndoneAt(receipts, trouble, start, found, later, next, undone, affected, n, k)
    {
      var p, u := receipts[k].path, undone[k];
      assert UndoneAt(receipts, trouble, start, found, clock, now, undone, affected, step, k);
      EditedBefore(trouble, n, k, p);
      DriftJoins(u.put, NodeAt(now, p), NodeAt(next, p), u.tick, clock, EditedDuring(trouble, step, k, p),
        p in EditedBy(trouble(n).edits));
    }
    forall q | !WrittenFrom(receipts, n + 1, q)
      ensures Drifted(EditedDuring(trouble, n, |receipts|, q), NodeAt(found, q), NodeAt(next, q), start)
    {
      EditedBefore(trouble, n, |receipts|, q);
      DriftJoins(NodeAt(found, q), NodeAt(now, q), NodeAt(next, q), start, clock,
        EditedDuring(trouble, step, |receipts|, q), q in EditedBy(trouble(n).edits));
    }
  }

  lemma ListedNext(affected: seq<(Path, Reason)>, was: seq<(Path, Reason)>, p: Path, reason: Option<Reason>)
    requires affected == if reason.Some? then was + [(p, reason.value)] else was
    ensures forall q :: Listed(affected, q) <==> Listed(was, q) || (reason.Some? && q == p)
  {
    forall q ensures Listed(affected, q) <==> Listed(was, q) || (reason.Some? && q == p) {
      if x :| x in was && x.0 == q {
        assert x in affected;
      }
      if reason.Some? && q == p {
        assert (p, reason.value) in affected;
      }
    }
  }

  lemma UndoingStep(receipts: seq<Receipt>, trouble: nat -> UndoTrouble, start: nat, found: map<Path, Node>, clock: nat,
                    now: map<Path, Node>,
                    later: nat, next: map<Path, Node>, undone: seq<Undo>, u: Undo, was: seq<(Path, Reason)>,
                    affected: seq<(Path, Reason)>,
                    reason: Option<Reason>, n: nat)
    requires Undoable(receipts) && n < |receipts| && clock <= later
    requires Undoing(receipts, trouble, start, found, clock, now, undone, was, n + 1, n)
    requires u == Undo(NodeAt(now, receipts[n].path), NodeAt(next, receipts[n].path), later, reason)
    requires Settled(receipts[n], trouble(n).fault, u.met, u.put, reason)
    requires forall q :: q != receipts[n].path ==> NodeAt(next, q) == NodeAt(now, q)
    requires affected == if reason.Some? then was + [(receipts[n].path, reason.value)] else was
    ensures Undoing(receipts, trouble, start, found, later, next, undone[n := u], affected, n, n)
  {
    var p := receipts[n].path;
    ListedNext(affected, was, p, reason);
    UnrestoredLater(receipts, undone, n + 1, n, u);
    assert !WrittenFrom(receipts, n + 1, p);
    assert receipts[n].path == p && WrittenFrom(receipts, n, p);
    var filled := undone[n := u];
    forall k | n <= k < |receipts|
      ensures UndoneAt(receipts, trouble, start, found, later, next, filled, affected, n, k)
    {
      if k > n {
        assert UndoneAt(receipts, trouble, start, found, clock, now, undone, was, n, k);
      }
    }
    forall q ensures WrittenFrom(receipts, n, q) <==> WrittenFrom(receipts, n + 1, q) || q == p {
    }
  }

  lemma AllUndone(receipts: seq<Receipt>, trouble: nat -> UndoTrouble, start: nat, found: map<Path, Node>, clock: nat,
                  left: map<Path, Node>,
                  undone: seq<Undo>, affected: seq<(Path, Reason)>, outcome: Outcome)
    requires Undoing(receipts, trouble, start, found, clock, left, undone, affected, 0, 0)
    requires if affected == [] then outcome.Failed? else outcome.Incomplete? && outcome.affected == affected
    ensures Undone(receipts, trouble, start, found, left, undone, outcome)
  {
    assert forall q :: Reports(outcome, q) <==> Listed(affected, q);
    assert forall q :: Written(receipts, q) <==> WrittenFrom(receipts, 0, q);
    forall k | 0 <= k < |receipts| ensures RestoredAt(receipts, trouble, start, found, left, undone, outcome, k) {
      assert UndoneAt(receipts, trouble, start, found, clock, left, undone, affected, 0, k);
    }
  }

  // ---- The transaction ----

  /** A readable receipt: a removal, or a write whose new stamp could be read. */
  ghost predicate Readable(r: Receipt)
  {
    r.written.None? || r.revision.Some?
  }

  /** The receipt of a change that was made is restored exactly when its path still holds what
      was made there and no call fails. */
  ghost predicate RestoredIfUnchanged(r: Receipt, m: Made, u: Undo, fault: Fault, reported: bool)
  {
    Readable(r) ==> (reported <==> !(u.met == m.made && (fault.Works? || (fault.IdentityFails? && r.written.None?))))
  }

  /** What a transaction did: it wrote up to the first refusal; it succeeded exactly when nothing
      was refused and the verification passed; otherwise it undid what it wrote, restoring what
      no one else had changed, and returned the cause. */
  ghost predicate Told(before: map<Path, Node>, start: nat, changes: seq<Change>, writing: nat -> WriteTrouble,
                       verified: bool,
                       undoing: nat -> UndoTrouble, left: map<Path, Node>, outcome: Outcome, story: Story)
  {
    && |story.made| <= |changes|
    && WrittenUpTo(before, start, changes, writing, story.tick, story.found, story.cause, story.receipts, story.made,
      story.seen)
    && (outcome.Applied? <==> story.cause.None? && verified)
    && (if outcome.Applied? then left == story.found && outcome.receipts == story.receipts
        else
          && outcome.cause == (if story.cause.Some? then story.cause.value else Invalid)
          && Undone(story.receipts, undoing, story.tick, story.found, left, story.undone, outcome)
          && forall j :: 0 <= j < |story.made| && Effective(changes[j]) ==> var k := story.made[j].rank;
              k < |story.receipts| && k < |story.undone|
              && RestoredIfUnchanged(story.receipts[k], story.made[j], story.undone[k], undoing(k).fault,
                Reports(outcome, changes[j].path)))
  }

  /** A file that another program has left since the receipt was issued is not ours. */
  lemma EditsAreNoticed(r: Receipt, node: Option<Node>, later: Option<Node>, clock: nat)
    requires Readable(r) && Standing(r, node) && Older(node, clock) && Foreign(node, later, clock)
    ensures Owned(r, later) <==> later == node
  {
  }

  lemma RestoreNotices(before: map<Path, Node>, start: nat, changes: seq<Change>, writing: nat -> WriteTrouble,
                       undoing: nat -> UndoTrouble,
                       left: map<Path, Node>, outcome: Outcome, story: Story, j: nat)
    requires |story.made| <= |changes| && j < |story.made| && Effective(changes[j])
    requires WrittenUpTo(before, start, changes, writing, story.tick, story.found, story.cause, story.receipts,
      story.made, story.seen)
    requires Undone(story.receipts, undoing, story.tick, story.found, left, story.undone, outcome)
    ensures var k := story.made[j].rank;
      k < |story.receipts| == |story.undone|
      && RestoredIfUnchanged(story.receipts[k], story.made[j], story.undone[k], undoing(k).fault,
        Reports(outcome, changes[j].path))
  {
    var k, m, p := story.made[j].rank, story.made[j], changes[j].path;
    var steps := if story.cause.None? then |story.made| else |story.made| + 1;
    assert MadeAt(before, start, changes, writing, story.tick, story.found, j, steps, story.made);
    var u := story.undone[k];
    assert RestoredAt(story.receipts, undoing, story.tick, story.found, left, story.undone, outcome, k);
    DriftJoins(m.made, NodeAt(story.found, p), u.met, m.tick, story.tick, EditedWhile(writing, j + 1, steps, p),
      EditedDuring(undoing, k, |story.receipts|, p));
    if Readable(story.receipts[k]) {
      EditsAreNoticed(story.receipts[k], m.made, u.met, m.tick);
    }
  }

  /** No other program writes to `p` from the first file to the last restored one. */
  ghost predicate Untouched(writing: nat -> WriteTrouble, undoing: nat -> UndoTrouble, changes: seq<Change>, p: Path)
  {
    !EditedWhile(writing, 0, |changes|, p) && !EditedDuring(undoing, 0, |changes|, p)
  }

  ghost predicate AllObserved(trouble: nat -> WriteTrouble, n: nat)
  {
    forall k :: 0 <= k < n ==> trouble(k).observed
  }

  /** No interference: no edits, readable stamps, and restores that succeed. */
  ghost predicate Undisturbed(writing: nat -> WriteTrouble, undoing: nat -> UndoTrouble, changes: seq<Change>)
  {
    && (forall p :: Untouched(writing, undoing, changes, p))
    && AllObserved(writing, |changes|) && forall k :: 0 <= k < |changes| ==> undoing(k).fault.Works?
  }

  /** How one change ends. */
  ghost predicate Concluded(c: Change, outcome: Outcome, node: Option<Node>)
  {
    && node != Some(Directory)
    && BytesOf(node) == if outcome.Applied? || Reports(outcome, c.path) then c.written else c.prior
  }

  /** Some change would change `q`. */
  ghost predicate Targeted(changes: seq<Change>, q: Path)
  {
    exists c :: c in changes && c.path == q && Effective(c)
  }

  lemma WrittenIsMade(changes: seq<Change>, writing: nat -> WriteTrouble, i: nat, receipts: seq<Receipt>,
                      made: seq<Made>, q: Path)
    returns (j: nat)
    requires i <= |changes| && Matched(changes, writing, i, receipts, made) && Written(receipts, q)
    ensures j < i && Effective(changes[j]) && changes[j].path == q && made[j].rank < |receipts|
  {
    var k :| 0 <= k < |receipts| && receipts[k].path == q;
    j := ChangeOf(changes, writing, i, receipts, made, k);
  }

  lemma NotWritten(changes: seq<Change>, writing: nat -> WriteTrouble, i: nat, receipts: seq<Receipt>, made: seq<Made>,
                   q: Path)
    requires i <= |changes| && Matched(changes, writing, i, receipts, made)
    requires forall j :: 0 <= j < i && changes[j].path == q ==> !Effective(changes[j])
    ensures !Written(receipts, q)
  {
    if Written(receipts, q) {
      var j := WrittenIsMade(changes, writing, i, receipts, made, q);
    }
  }

  lemma Undistracted(writing: nat -> WriteTrouble, undoing: nat -> UndoTrouble, changes: seq<Change>, p: Path,
                     from: nat, to: nat)
    requires Untouched(writing, undoing, changes, p) && to <= |changes|
    ensures !EditedWhile(writing, from, to, p) && !EditedDuring(undoing, from, to, p)
  {
  }

  lemma StoryIsTold(before: map<Path, Node>, start: nat, changes: seq<Change>, writing: nat -> WriteTrouble,
                    verified: bool,
                    undoing: nat -> UndoTrouble, left: map<Path, Node>, outcome: Outcome, story: Story)
    requires |story.made| <= |changes|
    requires WrittenUpTo(before, start, changes, writing, story.tick, story.found, story.cause, story.receipts,
      story.made, story.seen)
    requires if story.cause.None? && verified then outcome == Applied(story.receipts) && left == story.found
             else !outcome.Applied? && outcome.cause == (if story.cause.Some? then story.cause.value else Invalid)
                  && Undone(story.receipts, undoing, story.tick, story.found, left, story.undone, outcome)
    ensures Told(before, start, changes, writing, verified, undoing, left, outcome, story)
  {
    if !outcome.Applied? {
      forall j | 0 <= j < |story.made| && Effective(changes[j])
        ensures var k := story.made[j].rank;
          k < |story.receipts| == |story.undone|
          && RestoredIfUnchanged(story.receipts[k], story.made[j], story.undone[k], undoing(k).fault,
            Reports(outcome, changes[j].path))
      {
        RestoreNotices(before, start, changes, writing, undoing, left, outcome, story, j);
      }
    }
  }

  ghost predicate Context(before: map<Path, Node>, start: nat, changes: seq<Change>, writing: nat -> WriteTrouble,
                          verified: bool,
                          undoing: nat -> UndoTrouble, left: map<Path, Node>, outcome: Outcome, story: Story, q: Path)
  {
    Distinct(changes) && Told(before, start, changes, writing, verified, undoing, left, outcome, story)
      && Untouched(writing, undoing, changes, q)
  }

  /** Without an editor, a path that no change made so far concerns stays as it was. */
  lemma UnmadeStays(before: map<Path, Node>, start: nat, changes: seq<Change>, writing: nat -> WriteTrouble,
                    verified: bool,
                    undoing: nat -> UndoTrouble, left: map<Path, Node>, outcome: Outcome, story: Story, q: Path)
    requires Context(before, start, changes, writing, verified, undoing, left, outcome, story, q)
    requires forall j :: 0 <= j < |story.made| && changes[j].path == q ==> !Effective(changes[j])
    ensures NodeAt(left, q) == NodeAt(before, q) && !Reports(outcome, q)
  {
    var n := |story.made|;
    var steps := if story.cause.None? then n else n + 1;
    NotWritten(changes, writing, n, story.receipts, story.made, q);
    Undistracted(writing, undoing, changes, q, 0, |story.receipts|);
    Undistracted(writing, undoing, changes, q, 0, steps);
    if Among(changes, n, q) {
      var j :| 0 <= j < n && changes[j].path == q;
      assert MadeAt(before, start, changes, writing, story.tick, story.found, j, steps, story.made);
      Undistracted(writing, undoing, changes, q, 0, j + 1);
      Undistracted(writing, undoing, changes, q, j + 1, steps);
    }
  }

  /** Without an editor, a change that was made stands, or its prior content is back. */
  lemma MadeConcludes(before: map<Path, Node>, start: nat, changes: seq<Change>, writing: nat -> WriteTrouble,
                      verified: bool,
                      undoing: nat -> UndoTrouble, left: map<Path, Node>, outcome: Outcome, story: Story, j: nat)
    requires j < |story.made| && j < |changes| && Effective(changes[j])
    requires Context(before, start, changes, writing, verified, undoing, left, outcome, story, changes[j].path)
    ensures Concluded(changes[j], outcome, NodeAt(left, changes[j].path))
    ensures !outcome.Applied? ==>
      story.made[j].rank < |story.undone| && story.undone[story.made[j].rank].met == story.made[j].made
  {
    var n, p := |story.made|, changes[j].path;
    var steps := if story.cause.None? then n else n + 1;
    assert MadeAt(before, start, changes, writing, story.tick, story.found, j, steps, story.made);
    Undistracted(writing, undoing, changes, p, j + 1, steps);
    if !outcome.Applied? {
      var k := story.made[j].rank;
      assert RestoredAt(story.receipts, undoing, story.tick, story.found, left, story.undone, outcome, k);
      Undistracted(writing, undoing, changes, p, k, |story.receipts|);
      Undistracted(writing, undoing, changes, p, 0, k);
    }
  }

  lemma UntouchedConcludes(before: map<Path, Node>, start: nat, changes: seq<Change>, writing: nat -> WriteTrouble,
                           verified: bool,
                           undoing: nat -> UndoTrouble, left: map<Path, Node>, outcome: Outcome, story: Story, j: nat)
    requires j < |changes|
    requires Context(before, start, changes, writing, verified, undoing, left, outcome, story, changes[j].path)
    requires BytesOf(NodeAt(before, changes[j].path)) == changes[j].prior
    requires NodeAt(before, changes[j].path) != Some(Directory)
    ensures Concluded(changes[j], outcome, NodeAt(left, changes[j].path))
  {
    if j < |story.made| && Effective(changes[j]) {
      MadeConcludes(before, start, changes, writing, verified, undoing, left, outcome, story, j);
    } else {
      UnmadeStays(before, start, changes, writing, verified, undoing, left, outcome, story, changes[j].path);
    }
  }

  lemma UndisturbedIsComplete(before: map<Path, Node>, start: nat, changes: seq<Change>, writing: nat -> WriteTrouble,
                              verified: bool,
                              undoing: nat -> UndoTrouble, left: map<Path, Node>, outcome: Outcome, story: Story)
    requires Distinct(changes) && Told(before, start, changes, writing, verified, undoing, left, outcome, story)
    requires Undisturbed(writing, undoing, changes)
    ensures !outcome.Incomplete?
  {
    forall q ensures !Reports(outcome, q) {
      if Reports(outcome, q) {
        var j := WrittenIsMade(changes, writing, |story.made|, story.receipts, story.made, q);
        assert Untouched(writing, undoing, changes, q);
        MadeConcludes(before, start, changes, writing, verified, undoing, left, outcome, story, j);
      }
    }
    if outcome.Incomplete? {
      assert outcome.affected[0] in outcome.affected;
      assert Reports(outcome, outcome.affected[0].0);
    }
  }

  lemma StoryConcludes(before: map<Path, Node>, start: nat, changes: seq<Change>, writing: nat -> WriteTrouble,
                       verified: bool,
                       undoing: nat -> UndoTrouble, left: map<Path, Node>, outcome: Outcome, story: Story)
    requires Distinct(changes) && Told(before, start, changes, writing, verified, undoing, left, outcome, story)
    requires forall c ::
      c in changes ==> BytesOf(NodeAt(before, c.path)) == c.prior && NodeAt(before, c.path) != Some(Directory)
    ensures forall q :: Untouched(writing, undoing, changes, q) && !Targeted(changes, q) ==>
      NodeAt(left, q) == NodeAt(before, q) && !Reports(outcome, q)
    ensures forall c ::
      c in changes && Untouched(writing, undoing, changes, c.path) ==> Concluded(c, outcome, NodeAt(left, c.path))
    ensures Undisturbed(writing, undoing, changes) ==> !outcome.Incomplete?
  {
    forall q | Untouched(writing, undoing, changes, q) && !Targeted(changes, q)
      ensures NodeAt(left, q) == NodeAt(before, q) && !Reports(outcome, q)
    {
      forall j | 0 <= j < |story.made| && changes[j].path == q ensures !Effective(changes[j]) {
        assert changes[j] in changes;
      }
      UnmadeStays(before, start, changes, writing, verified, undoing, left, outcome, story, q);
    }
    forall c | c in changes && Untouched(writing, undoing, changes, c.path)
      ensures Concluded(c, outcome, NodeAt(left, c.path))
    {
      var j :| 0 <= j < |changes| && changes[j] == c;
      UntouchedConcludes(before, start, changes, writing, verified, undoing, left, outcome, story, j);
    }
    if Undisturbed(writing, undoing, changes) {
      UndisturbedIsComplete(before, start, changes, writing, verified, undoing, left, outcome, story);
    }
  }
}
