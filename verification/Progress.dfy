/** The per-ticket status chain of a progress log, and its validator. */
module Progress {
  import opened Wrappers

  datatype Status = Unknown | InProgress | InReview | Verifying | Blocked | Complete
  datatype Category = Deviation | Quirk
  datatype Change = Transition(from: Status, to: Status) | Note(category: Category, message: string)
  datatype Entry = Entry(id: string, recordedAt: string, recordedBy: string, ticket: string, change: Change)
  type Log = seq<Entry>

  datatype Fault = OperationId | Timestamp | MalformedEntry | StaleFrom | NoOpTransition

  /** Library checks on single fields: text that trims to nothing, and RFC 3339 dates. */
  datatype Rules = Rules(blank: string -> bool, dated: string -> bool)

  // ---- The chain ----

  /** The transitions of one ticket, in order. */
  function Transitions(log: Log, ticket: string): seq<(Status, Status)>
  {
    if log == [] then []
    else
      Transitions(log[..|log| - 1], ticket) + Step(log[|log| - 1], ticket)
  }

  function Step(e: Entry, ticket: string): seq<(Status, Status)>
  {
    if e.ticket == ticket && e.change.Transition? then [(e.change.from, e.change.to)] else []
  }

  /** Starts at `Unknown`, each transition continues the one before, and none stays in place. */
  ghost predicate Contiguous(chain: seq<(Status, Status)>)
  {
    && (chain != [] ==> chain[0].0 == Unknown)
    && (forall i :: 0 < i < |chain| ==> chain[i].0 == chain[i - 1].1)
    && (forall i :: 0 <= i < |chain| ==> chain[i].0 != chain[i].1)
  }

  ghost predicate WellWritten(rules: Rules, e: Entry)
  {
    && !rules.blank(e.id) && rules.dated(e.recordedAt) && !rules.blank(e.recordedBy) && !rules.blank(e.ticket)
    && (e.change.Note? ==> !rules.blank(e.change.message))
  }

  /** What a log must be. */
  ghost predicate Acceptable(rules: Rules, log: Log)
  {
    && (forall i :: 0 <= i < |log| ==> WellWritten(rules, log[i]))
    && (forall i, j :: 0 <= i < j < |log| ==> log[i].id != log[j].id)
    && (forall t :: Contiguous(Transitions(log, t)))
  }

  /** What the entry after an acceptable log must be. */
  ghost predicate Continues(rules: Rules, log: Log, e: Entry)
  {
    && WellWritten(rules, e) && (forall i :: 0 <= i < |log| ==> log[i].id != e.id)
    && (e.change.Transition? ==> e.change.from == StatusAfter(log, e.ticket) && e.change.from != e.change.to)
  }

  /** Where the last transition of a ticket left it. */
  function StatusAfter(log: Log, ticket: string): Status
  {
    var chain := Transitions(log, ticket);
    if chain == [] then Unknown else chain[|chain| - 1].1
  }

  lemma AcceptableNext(rules: Rules, log: Log, e: Entry)
    ensures Acceptable(rules, log + [e]) <==> Acceptable(rules, log) && Continues(rules, log, e)
  {
    var longer := log + [e];
    assert longer[..|log|] == log && longer[|log|] == e;
    forall t ensures Contiguous(Transitions(longer, t)) <==>
        Contiguous(Transitions(log, t))
        && (e.ticket == t && e.change.Transition? ==>
          e.change.from == StatusAfter(log, t) && e.change.from != e.change.to) {
      var chain, more := Transitions(log, t), Transitions(longer, t);
      if e.ticket == t && e.change.Transition? {
        assert more == chain + [(e.change.from, e.change.to)];
        assert forall i :: 0 <= i < |chain| ==> more[i] == chain[i];
        assert more[|chain|] == (e.change.from, e.change.to);
      } else {
        assert more == chain;
      }
    }
    forall i | 0 <= i < |log| ensures longer[i] == log[i] {
    }
  }

  /** Acceptance is prefix-closed. */
  lemma {:induction false} PrefixIsAcceptable(rules: Rules, log: Log, more: Log)
    requires Acceptable(rules, log + more)
    ensures Acceptable(rules, log)
  {
    if more == [] {
      assert log + more == log;
    } else {
      var rest, last := more[..|more| - 1], more[|more| - 1];
      assert log + more == log + rest + [last];
      AcceptableNext(rules, log + rest, last);
      PrefixIsAcceptable(rules, log, rest);
    }
  }

  // ---- The validator ----

  predicate HasId(log: Log, id: string)
  {
    exists i :: 0 <= i < |log| && log[i].id == id
  }

  lemma IdsOfSum(log: Log, last: Entry, id: string)
    ensures HasId(log + [last], id) <==> HasId(log, id) || id == last.id
  {
    var longer := log + [last];
    if HasId(log, id) {
      var i :| 0 <= i < |log| && log[i].id == id;
      assert longer[i].id == id;
    }
    assert longer[|log|] == last;
  }

  lemma IdsGrow(log: Log, e: Entry)
    ensures forall id :: HasId(log + [e], id) <==> HasId(log, id) || id == e.id
  {
    forall id ensures HasId(log + [e], id) <==> HasId(log, id) || id == e.id {
      IdsOfSum(log, e, id);
    }
  }

  /** The tables after `log`: the identities seen, and the status of each moved ticket. */
  ghost predicate Tables(log: Log, ids: set<string>, current: map<string, Status>)
  {
    && (forall id :: id in ids <==> HasId(log, id))
    && (forall t :: t in current <==> Transitions(log, t) != [])
    && (forall t :: t in current ==> current[t] == StatusAfter(log, t))
  }

  ghost predicate Complains(rules: Rules, log: Log, e: Entry, fault: Fault)
  {
    match fault
    case OperationId => rules.blank(e.id) || HasId(log, e.id)
    case Timestamp => !rules.dated(e.recordedAt)
    case MalformedEntry => rules.blank(e.recordedBy) || rules.blank(e.ticket)
      || (e.change.Note? && rules.blank(e.change.message))
    case StaleFrom => e.change.Transition? && e.change.from != StatusAfter(log, e.ticket)
    case NoOpTransition => e.change.Transition? && e.change.from == e.change.to
  }

  function Rank(fault: Fault): nat
  {
    match fault
    case OperationId => 0
    case Timestamp => 1
    case MalformedEntry => 2
    case StaleFrom => 3
    case NoOpTransition => 4
  }

  /** The complaint that is reported about an entry. */
  ghost predicate FirstComplaint(rules: Rules, log: Log, e: Entry, fault: Fault)
  {
    Complains(rules, log, e, fault) && forall f :: Rank(f) < Rank(fault) ==> !Complains(rules, log, e, f)
  }

  /** The log is acceptable up to its entry `i`, which has the complaint `fault`. */
  ghost predicate RejectedAt(rules: Rules, log: Log, i: nat, fault: Fault)
  {
    i < |log| && Acceptable(rules, log[..i]) && FirstComplaint(rules, log[..i], log[i], fault)
  }

  method CheckEntry(rules: Rules, ghost log: Log, ids: set<string>, current: map<string, Status>, e: Entry)
    returns (fault: Option<Fault>, ids': set<string>, current': map<string, Status>)
    requires Tables(log, ids, current)
    ensures fault.None? <==> Continues(rules, log, e)
    ensures fault.None? ==> Tables(log + [e], ids', current')
    ensures fault.Some? ==> FirstComplaint(rules, log, e, fault.value)
  {
    ids', current' := ids + {e.id}, current;
    if rules.blank(e.id) || e.id in ids {
      return Some(OperationId), ids, current;
    }
    if !rules.dated(e.recordedAt) {
      return Some(Timestamp), ids, current;
    }
    if rules.blank(e.recordedBy) || rules.blank(e.ticket) {
      return Some(MalformedEntry), ids, current;
    }
    match e.change {
      case Transition(from, to) =>
        var prior := if e.ticket in current then current[e.ticket] else Unknown;
        if from != prior {
          return Some(StaleFrom), ids, current;
        }
        if from == to {
          return Some(NoOpTransition), ids, current;
        }
        current' := current[e.ticket := to];
      case Note(_, message) =>
        if rules.blank(message) {
          return Some(MalformedEntry), ids, current;
        }
    }
    fault := None;
    TablesNext(log, ids, current, e);
  }

  function Moved(current: map<string, Status>, e: Entry): map<string, Status>
  {
    if e.change.Transition? then current[e.ticket := e.change.to] else current
  }

  lemma TablesNext(log: Log, ids: set<string>, current: map<string, Status>, e: Entry)
    requires Tables(log, ids, current)
    ensures Tables(log + [e], ids + {e.id}, Moved(current, e))
  {
    IdsGrow(log, e);
    forall t
      ensures t in Moved(current, e) <==> Transitions(log + [e], t) != []
      ensures t in Moved(current, e) ==> Moved(current, e)[t] == StatusAfter(log + [e], t)
    {
      TransitionsNext(log, e, t);
      MovedAt(log, current, e, t);
    }
  }

  lemma TransitionsNext(log: Log, e: Entry, t: string)
    ensures Transitions(log + [e], t) == Transitions(log, t) + Step(e, t)
  {
    var longer := log + [e];
    assert longer[..|longer| - 1] == log && longer[|longer| - 1] == e;
  }

  lemma MovedAt(log: Log, current: map<string, Status>, e: Entry, t: string)
    requires t in current <==> Transitions(log, t) != []
    requires t in current ==> current[t] == StatusAfter(log, t)
    requires Transitions(log + [e], t) == Transitions(log, t) + Step(e, t)
    ensures t in Moved(current, e) <==> Transitions(log + [e], t) != []
    ensures t in Moved(current, e) ==> Moved(current, e)[t] == StatusAfter(log + [e], t)
  {
  }

  /** Validation can resume: accepting `entries` with the tables of an accepted log is
      accepting the whole. */
  method Resume(rules: Rules, ghost log: Log, ids: set<string>, current: map<string, Status>, entries: Log)
    returns (fault: Option<Fault>, ids': set<string>, current': map<string, Status>)
    requires Acceptable(rules, log) && Tables(log, ids, current)
    ensures fault.None? <==> Acceptable(rules, log + entries)
    ensures fault.None? ==> Tables(log + entries, ids', current')
    ensures fault.Some? ==> exists i: nat :: RejectedAt(rules, log + entries, i, fault.value)
  {
    ids', current' := ids, current;
    assert log + entries[..0] == log;
    for i := 0 to |entries|
      invariant Acceptable(rules, log + entries[..i]) && Tables(log + entries[..i], ids', current')
    {
      assert log + entries[..i + 1] == log + entries[..i] + [entries[i]];
      fault, ids', current' := CheckEntry(rules, log + entries[..i], ids', current', entries[i]);
      AcceptableNext(rules, log + entries[..i], entries[i]);
      if fault.Some? {
        assert (log + entries)[..|log| + i] == log + entries[..i];
        assert RejectedAt(rules, log + entries, |log| + i, fault.value);
        Rejected(rules, log + entries[..i + 1], entries[i + 1..], log + entries);
        return;
      }
    }
    assert entries[..|entries|] == entries;
    fault := None;
  }

  lemma Rejected(rules: Rules, log: Log, more: Log, whole: Log)
    requires !Acceptable(rules, log) && whole == log + more
    ensures !Acceptable(rules, whole)
  {
    if Acceptable(rules, log + more) {
      PrefixIsAcceptable(rules, log, more);
    }
  }

  method ValidateEntries(rules: Rules, log: Log) returns (fault: Option<Fault>)
    ensures fault.None? <==> Acceptable(rules, log)
    ensures fault.Some? ==> exists i: nat :: RejectedAt(rules, log, i, fault.value)
  {
    var ids, current;
    assert [] + log == log;
    fault, ids, current := Resume(rules, [], {}, map[], log);
  }

  // ---- The status a writer is spawned on ----

  /** Folds the transitions of one ticket; a writer needs an explicit `InProgress` at the end.
      The fold agrees with the tables the validator ends with. */
  method MaySpawn(log: Log, ticket: string) returns (ok: bool)
    ensures ok <==> Transitions(log, ticket) != [] && StatusAfter(log, ticket) == InProgress
    ensures forall ids, current ::
      Tables(log, ids, current) ==> (ok <==> ticket in current && current[ticket] == InProgress)
  {
    var status, seen := Unknown, false;
    assert log[..0] == [];
    for i := 0 to |log|
      invariant seen <==> Transitions(log[..i], ticket) != []
      invariant status == StatusAfter(log[..i], ticket)
    {
      assert log[..i + 1][..i] == log[..i];
      if log[i].ticket == ticket && log[i].change.Transition? {
        status, seen := log[i].change.to, true;
      }
    }
    assert log[..|log|] == log;
    ok := seen && status == InProgress;
  }
}
