/** Appending to a progress log: previews may be applied late, again and again, or after
    another writer; nothing recorded is lost, and nothing is recorded twice. */
module Appending {
  import opened Wrappers
  import opened Progress

  /** The bytes of a log: rendered by the Store, or written by hand. */
  datatype Text = Rendered(entries: Log) | Custom(token: nat)

  datatype Content = Absent | Broken | Parsed(entries: Log, text: Text)

  datatype Request = Request(entries: Log, bootstrap: bool)

  /** `expected` is the revision of the log the preview has seen. */
  datatype Preview = Preview(request: Request, expected: Option<nat>, diagnosed: bool, proposed: Option<Text>,
    noOp: bool)

  datatype Failure = Stale | Invalid

  /** What else a call meets: another writer between the read and the locks, other inputs that
      moved, diagnostics from other records, and the verification after the write. */
  datatype Conditions = Conditions(raced: bool, inputsFresh: bool, diagnosed: bool, steady: bool, verified: bool)

  function EntriesOf(content: Content): Log
  {
    if content.Parsed? then content.entries else []
  }

  /** Adds the requested entries whose identity is new, each identity once. */
  function Appended(log: Log, requested: Log): Log
    decreases |requested|
  {
    if requested == [] then log
    else
      var rest := Appended(log, requested[..|requested| - 1]);
      var last := requested[|requested| - 1];
      if HasId(rest, last.id) then rest else rest + [last]
  }

  lemma {:induction false} AppendedKeepsPrefix(log: Log, requested: Log)
    ensures log <= Appended(log, requested)
    ensures forall id :: HasId(Appended(log, requested), id) <==> HasId(log, id) || HasId(requested, id)
  {
    if requested != [] {
      var front, last := requested[..|requested| - 1], requested[|requested| - 1];
      AppendedKeepsPrefix(log, front);
      var rest := Appended(log, front);
      assert requested == front + [last];
      forall id ensures HasId(requested, id) <==> HasId(front, id) || id == last.id {
        IdsOfSum(front, last, id);
      }
      forall id ensures HasId(rest + [last], id) <==> HasId(rest, id) || id == last.id {
        IdsOfSum(rest, last, id);
      }
    }
  }

  /** No requested entry repeats an identity, and none contradicts the log. */
  ghost predicate Consistent(log: Log, requested: Log)
  {
    && (forall i, j :: 0 <= i < j < |requested| ==> requested[i].id != requested[j].id)
    && (forall i, j ::
      0 <= i < |requested| && 0 <= j < |log| && requested[i].id == log[j].id ==> requested[i] == log[j])
  }

  ghost predicate Recorded(log: Log, requested: Log)
  {
    forall e :: e in requested ==> e in log
  }

  /** A consistent request is recorded in full. */
  lemma {:induction false} ConsistentIsRecorded(log: Log, requested: Log)
    requires Consistent(log, requested)
    ensures Recorded(Appended(log, requested), requested)
  {
    if requested != [] {
      var front, last := requested[..|requested| - 1], requested[|requested| - 1];
      assert requested == front + [last];
      ConsistentIsRecorded(log, front);
      AppendedKeepsPrefix(log, front);
      var rest := Appended(log, front);
      if HasId(rest, last.id) {
        assert !HasId(front, last.id);
        var j :| 0 <= j < |log| && log[j].id == last.id;
        assert requested[|front|] == last && log[j] == last;
        assert rest[j] == log[j];
      }
    }
  }

  // ---- The store ----

  class ProgressStore {
    const rules: Rules
    var content: Content
    var revision: nat

    /** Parsing has accepted the entries, and rendering and parsing agree. */
    ghost predicate Valid()
      reads this
    {
      Sensible(rules, content)
    }

    function Revision(): Option<nat>
      reads this
    {
      if content.Absent? then None else Some(revision)
    }

    /** The requested entries that are new, at the end of the current log. */
    method Merge(requested: Log) returns (log: Log)
      ensures log == Appended(EntriesOf(content), requested)
    {
      log := EntriesOf(content);
      var ids := set e | e in log :: e.id;
      for i := 0 to |requested|
        invariant log == Appended(EntriesOf(content), requested[..i])
        invariant forall id :: id in ids <==> HasId(log, id)
      {
        assert requested[..i + 1][..i] == requested[..i];
        if requested[i].id !in ids {
          IdsGrow(log, requested[i]);
          ids := ids + {requested[i].id};
          log := log + [requested[i]];
        }
      }
      assert requested[..|requested|] == requested;
    }

    /** Refuses a request that repeats an identity or contradicts the log. */
    method CheckRequest(requested: Log) returns (ok: bool)
      ensures ok <==> Consistent(EntriesOf(content), requested)
    {
      var log := EntriesOf(content);
      for i := 0 to |requested|
        invariant Consistent(log, requested[..i])
      {
        if exists j :: 0 <= j < i && requested[j].id == requested[i].id {
          return false;
        }
        if exists j :: 0 <= j < |log| && log[j].id == requested[i].id && log[j] != requested[i] {
          return false;
        }
      }
      assert requested[..|requested|] == requested;
      ok := true;
    }

    /** The proposed bytes and whether they change nothing; nothing at all when the request is rejected. */
    method Prepare(request: Request, log: Log, diagnosed: bool) returns (proposal: Option<(Text, bool)>)
      requires Valid() && log == Appended(EntriesOf(content), request.entries)
      ensures proposal.Some? <==> Admissible(rules, content, request) && !diagnosed
      ensures proposal.Some? ==> proposal.value.0 == Outcome(content, request)
      ensures proposal.Some? ==> (proposal.value.1 <==> content.Parsed? && content.text == Outcome(content, request))
    {
      if request.bootstrap {
        if request.entries != [] {
          return None;
        }
        if content.Parsed? {
          return if diagnosed then None else Some((content.text, true));
        }
      }
      var consistent := CheckRequest(request.entries);
      if !consistent {
        return None;
      }
      var fault := ValidateEntries(rules, log);
      if fault.Some? || diagnosed {
        return None;
      }
      return Some((Rendered(log), content.Parsed? && content.text == Rendered(log)));
    }

    /** Whether the log already holds what the request asks for. */
    method CompletedNoOp(request: Request) returns (done: bool)
      requires Valid()
      ensures done <==> Completed(content, request)
    {
      if !content.Parsed? {
        return false;
      }
      if request.bootstrap {
        return true;
      }
      done := forall e :: e in request.entries ==> e in content.entries;
    }

    /** Shows what an append would do, without doing it. */
    method Propose(request: Request, diagnosed: bool) returns (p: Preview)
      requires Valid() && !content.Broken?
      ensures p.request == request && (p.diagnosed <==> diagnosed || !Admissible(rules, content, request))
      ensures !p.diagnosed ==> !HasMoved(content, revision, p.expected) && Fits(content, p)
    {
      var log := Merge(request.entries);
      var proposal := Prepare(request, log, diagnosed);
      p := if proposal.None? then Preview(request, None, true, None, false)
           else Preview(request, Revision(), false, Some(proposal.value.0), proposal.value.1);
    }

    /** Applies a preview, whichever one; `true` means that there was nothing to write. */
    method Apply(p: Preview, c: Conditions) returns (r: Result<bool, Failure>)
      requires Valid()
      modifies this`content, this`revision
      ensures Valid()
      ensures Effect(rules, old(content), p, content, r)
      ensures r == Err(Stale) <==> Outdated(rules, old(content), old(revision), p, c)
      ensures r == Err(Invalid) <==> Unfit(rules, old(content), old(revision), p, c)
      ensures r.Ok? && !Holds(content, p.request.entries) <==> Forged(old(content), old(revision), p, c)
      ensures r.Ok? ==> (r.value <==> HasMoved(old(content), old(revision), p.expected) || p.noOp)
      ensures r == Ok(false) ==>
        content == Parsed(Appended(EntriesOf(old(content)), p.request.entries), Outcome(old(content), p.request))
      ensures content != old(content) ==>
        revision != old(revision) && !HasMoved(old(content), old(revision), p.expected)
    {
      if p.diagnosed || content.Broken? {
        return Err(Invalid);
      }
      if c.raced {
        return Err(Stale);
      }
      var log := Merge(p.request.entries);
      AppendedKeepsPrefix(EntriesOf(content), p.request.entries);
      if p.expected != Revision() {
        var done := CompletedNoOp(p.request);
        return if done then Ok(true) else Err(Stale);
      }
      if !c.inputsFresh {
        return Err(Stale);
      }
      var proposal := Prepare(p.request, log, c.diagnosed);
      if proposal.Some? {
        AdmissibleIsRecorded(rules, content, p.request);
      }
      if proposal.None? || p.proposed != Some(proposal.value.0) || p.noOp != proposal.value.1 {
        return Err(Invalid);
      }
      if !c.steady {
        return Err(Stale);
      }
      if p.noOp {
        return Ok(true);
      }
      var before := content;
      content, revision := Parsed(log, Rendered(log)), revision + 1;
      if !c.verified {
        content, revision := before, revision + 1;
        return Err(Invalid);
      }
      r := Ok(false);
    }
  }

  ghost predicate Sensible(rules: Rules, content: Content)
  {
    && (content.Parsed? ==> Acceptable(rules, content.entries))
    && (content.Parsed? && content.text.Rendered? ==> content.text.entries == content.entries)
  }

  /** The log already holds what the request asks for. */
  ghost predicate Completed(content: Content, request: Request)
  {
    content.Parsed? && (request.bootstrap || Recorded(content.entries, request.entries))
  }

  /** A bootstrap adopts an existing log as it is, and creates an empty one otherwise; other
      requests must agree with the log and leave it acceptable. */
  ghost predicate Admissible(rules: Rules, content: Content, request: Request)
  {
    && (request.bootstrap ==> request.entries == [])
    && ((request.bootstrap && content.Parsed?)
        || (Consistent(EntriesOf(content), request.entries)
          && Acceptable(rules, Appended(EntriesOf(content), request.entries))))
  }

  /** The bytes of the log once the request is recorded. */
  function Outcome(content: Content, request: Request): Text
  {
    if request.bootstrap && content.Parsed? then content.text
      else Rendered(Appended(EntriesOf(content), request.entries))
  }

  /** The preview shows what the request does to this content. */
  ghost predicate Fits(content: Content, p: Preview)
  {
    p.proposed == Some(Outcome(content, p.request))
    && (p.noOp <==> content.Parsed? && content.text == Outcome(content, p.request))
  }

  lemma AdmissibleIsRecorded(rules: Rules, content: Content, request: Request)
    requires Admissible(rules, content, request)
    ensures Recorded(Appended(EntriesOf(content), request.entries), request.entries)
  {
    if request.entries != [] {
      ConsistentIsRecorded(EntriesOf(content), request.entries);
    }
  }

  /** The log is not the one that the preview has seen: it has appeared or changed. */
  ghost predicate HasMoved(content: Content, revision: nat, expected: Option<nat>)
  {
    if content.Absent? then expected.Some? else expected.None? || expected.value != revision
  }

  /** The request may still be recorded, and does what the preview shows. */
  ghost predicate Sound(rules: Rules, content: Content, p: Preview, c: Conditions)
  {
    !c.diagnosed && Admissible(rules, content, p.request) && Fits(content, p)
  }

  /** A usable preview comes too late: another writer was faster; or the log has moved and does
      not hold the request; or other inputs have moved; or, with all that in order, the store
      moves during the call. */
  ghost predicate Outdated(rules: Rules, content: Content, revision: nat, p: Preview, c: Conditions)
  {
    && !p.diagnosed && !content.Broken?
    && (c.raced
        || (if HasMoved(content, revision, p.expected) then !Completed(content, p.request)
            else !c.inputsFresh || (Sound(rules, content, p, c) && !c.steady)))
  }

  /** The preview was never usable, or the log cannot be read; or, for a log and inputs that are
      as the preview has seen them, the request does not fit any more, or the verification of
      what was written fails. */
  ghost predicate Unfit(rules: Rules, content: Content, revision: nat, p: Preview, c: Conditions)
  {
    || p.diagnosed || content.Broken?
    || (!c.raced && !HasMoved(content, revision, p.expected) && c.inputsFresh
        && (!Sound(rules, content, p, c) || (c.steady && !p.noOp && !c.verified)))
  }

  /** Previews of the Store itself diagnose a bootstrap that carries entries. */
  ghost predicate Genuine(p: Preview)
  {
    p.request.bootstrap && p.request.entries != [] ==> p.diagnosed
  }

  ghost predicate Holds(content: Content, requested: Log)
  {
    content.Parsed? && Recorded(content.entries, requested)
  }

  /** The one way to success without a record: a bootstrap that names entries the log does not
      hold, made for another revision of an existing log. */
  ghost predicate Forged(before: Content, revision: nat, p: Preview, c: Conditions)
  {
    && !p.diagnosed && before.Parsed? && !c.raced && p.expected != Some(revision)
    && p.request.bootstrap && !Recorded(before.entries, p.request.entries)
  }

  /** What any call may do to the log. */
  ghost predicate Effect(rules: Rules, before: Content, p: Preview, after: Content, r: Result<bool, Failure>)
  {
    && Sensible(rules, after)
    && EntriesOf(before) <= EntriesOf(after)
    && (r.Err? || r == Ok(true) ==> after == before)
    && (r.Ok? && Genuine(p) ==> after.Parsed? && Recorded(after.entries, p.request.entries))
  }

  // ---- Runs ----

  datatype Call = Call(preview: Preview, outcome: Result<bool, Failure>)

  ghost predicate LogRun(rules: Rules, contents: seq<Content>, calls: seq<Call>)
  {
    && |contents| == |calls| + 1 && Sensible(rules, contents[0])
    && forall k :: 0 <= k < |calls| ==> Effect(rules, contents[k], calls[k].preview, contents[k + 1], calls[k].outcome)
  }

  lemma {:induction false} StaysSensible(rules: Rules, contents: seq<Content>, calls: seq<Call>, j: nat)
    requires LogRun(rules, contents, calls) && j < |contents|
    ensures Sensible(rules, contents[j])
  {
    if j > 0 {
      assert Effect(rules, contents[j - 1], calls[j - 1].preview, contents[j], calls[j - 1].outcome);
    }
  }

  /** Nothing recorded is lost or moved. */
  lemma {:induction false} EarlierIsPrefix(rules: Rules, contents: seq<Content>, calls: seq<Call>, i: nat, j: nat)
    requires LogRun(rules, contents, calls) && i <= j < |contents|
    ensures EntriesOf(contents[i]) <= EntriesOf(contents[j])
    ensures Sensible(rules, contents[j])
  {
    StaysSensible(rules, contents, calls, j);
    if i < j {
      EarlierIsPrefix(rules, contents, calls, i, j - 1);
      assert Effect(rules, contents[j - 1], calls[j - 1].preview, contents[j], calls[j - 1].outcome);
    }
  }

  /** A forged preview is never genuine, and every log has one: a stale bootstrap that carries
      an entry the log lacks is taken for completed. */
  lemma ForgedBootstrapClaimsSuccess(content: Content, revision: nat, stale: Option<nat>, e: Entry, c: Conditions)
    requires content.Parsed? && e !in content.entries && stale != Some(revision) && !c.raced
    ensures var p := Preview(Request([e], true), stale, false, None, false);
      Forged(content, revision, p, c) && Completed(content, p.request) && !Genuine(p)
  {
    assert e in [e];
  }

  /** Exactly once: whatever is retried in whichever order, a request that ever succeeded has
      each of its entries in the log once, from then on. */
  lemma ExactlyOnce(rules: Rules, contents: seq<Content>, calls: seq<Call>, k: nat, j: nat, e: Entry)
    requires LogRun(rules, contents, calls) && k < |calls| && k < j < |contents|
    requires calls[k].outcome.Ok? && Genuine(calls[k].preview) && e in calls[k].preview.request.entries
    ensures exists i :: 0 <= i < |EntriesOf(contents[j])| && EntriesOf(contents[j])[i] == e
    ensures forall a, b :: 0 <= a < b < |EntriesOf(contents[j])| ==>
      !(EntriesOf(contents[j])[a].id == e.id && EntriesOf(contents[j])[b].id == e.id)
  {
    EarlierIsPrefix(rules, contents, calls, k + 1, j);
    assert Effect(rules, contents[k], calls[k].preview, contents[k + 1], calls[k].outcome);
    var early, late := EntriesOf(contents[k + 1]), EntriesOf(contents[j]);
    var i :| 0 <= i < |early| && early[i] == e;
    assert late[i] == e;
  }
}
