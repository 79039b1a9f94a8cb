/** The tool workers of an MCP session: one controller admits calls, several workers take
    them from one queue, and the session drains before it returns. */
module WorkerPool {
  import opened Wrappers

  /** `Reporting`: a write has failed, and the worker is about to tell the controller. */
  datatype Worker = Waiting | Serving(call: nat) | Reporting | Gone | Failed

  /** `Holding`: a tool call has been received and is not queued yet. */
  datatype Controller = Listening | Holding | Draining | Returned

  /** Calls are numbered in the order of admission; `lost` are those whose response failed. */
  datatype Pool = Pool(
    admitted: nat,
    queue: seq<nat>,
    workers: seq<Worker>,
    dispatched: seq<nat>,
    written: seq<nat>,
    lost: seq<nat>,
    stopped: bool,
    fatal: Option<nat>,
    controller: Controller)

  function Upto(n: nat): (s: seq<nat>)
    ensures |s| == n && forall i :: 0 <= i < n ==> s[i] == i
  {
    if n == 0 then [] else Upto(n - 1) + [n - 1]
  }

  predicate Finished(w: Worker)
  {
    w.Gone? || w.Failed?
  }

  predicate AllFinished(p: Pool)
  {
    forall i :: 0 <= i < |p.workers| ==> Finished(p.workers[i])
  }

  /** The controller has left its loop: the session is stopped and the queue closed. */
  predicate Left(p: Pool)
  {
    p.controller.Draining? || p.controller.Returned?
  }

  // ---- Steps ----

  ghost predicate Receive(p: Pool, q: Pool)
  {
    p.controller.Listening? && !p.stopped && q == p.(controller := Holding)
  }

  /** Queues the call; some worker still holds the receiving end. */
  ghost predicate Admit(p: Pool, q: Pool)
  {
    && p.controller.Holding? && !AllFinished(p)
    && q == p.(controller := Listening, queue := p.queue + [p.admitted], admitted := p.admitted + 1)
  }

  /** The input ends, the receiving end is gone, or the controller's own write fails. */
  ghost predicate Quit(p: Pool, q: Pool)
  {
    && (p.controller.Listening? || (p.controller.Holding? && AllFinished(p)))
    && q == p.(controller := Draining, stopped := true)
  }

  ghost predicate Join(p: Pool, q: Pool)
  {
    p.controller.Draining? && AllFinished(p) && q == p.(controller := Returned)
  }

  ghost predicate Take(p: Pool, q: Pool, i: int)
  {
    && 0 <= i < |p.workers| && p.workers[i].Waiting? && p.queue != []
    && q == p.(workers := p.workers[i := Serving(p.queue[0])], queue := p.queue[1..], dispatched :=
      p.dispatched + [p.queue[0]])
  }

  /** An empty queue that is closed ends the worker. */
  ghost predicate Retire(p: Pool, q: Pool, i: int)
  {
    0 <= i < |p.workers| && p.workers[i].Waiting? && p.queue == [] && Left(p)
      && q == p.(workers := p.workers[i := Gone])
  }

  ghost predicate Respond(p: Pool, q: Pool, i: int)
  {
    && 0 <= i < |p.workers| && p.workers[i].Serving?
    && q == p.(workers := p.workers[i := Waiting], written := p.written + [p.workers[i].call])
  }

  /** The first failed write is the one the session reports. */
  ghost predicate FailWrite(p: Pool, q: Pool, i: int)
  {
    && 0 <= i < |p.workers| && p.workers[i].Serving?
    && q == p.(workers := p.workers[i := Reporting], lost := p.lost + [p.workers[i].call], stopped := true,
               fatal := if p.fatal.Some? then p.fatal else Some(i))
  }

  /** The controller hears of the failure and leaves, or has left already. */
  ghost predicate Report(p: Pool, q: Pool, i: int)
  {
    && 0 <= i < |p.workers| && p.workers[i].Reporting? && !p.controller.Holding?
    && q == p.(workers := p.workers[i := Failed], stopped := true, controller :=
      if p.controller.Listening? then Draining else p.controller)
  }

  ghost predicate WorkerStep(p: Pool, q: Pool, i: int)
  {
    Take(p, q, i) || Retire(p, q, i) || Respond(p, q, i) || FailWrite(p, q, i) || Report(p, q, i)
  }

  ghost predicate Step(p: Pool, q: Pool)
  {
    Receive(p, q) || Admit(p, q) || Quit(p, q) || Join(p, q) || exists i :: WorkerStep(p, q, i)
  }

  ghost predicate Start(p: Pool)
  {
    && p.admitted == 0 && p.queue == p.dispatched == p.written == p.lost == [] && !p.stopped && p.fatal.None?
    && p.controller.Listening? && p.workers != [] && forall i :: 0 <= i < |p.workers| ==> p.workers[i].Waiting?
  }

  ghost predicate Run(run: seq<Pool>)
  {
    run != [] && Start(run[0]) && forall k :: 0 < k < |run| ==> Step(run[k - 1], run[k])
  }

  // ---- The invariant ----

  ghost function Share(w: Worker): multiset<nat>
  {
    if w.Serving? then multiset{w.call} else multiset{}
  }

  /** The calls being served. */
  ghost function InService(workers: seq<Worker>): multiset<nat>
  {
    if workers == [] then multiset{} else InService(workers[..|workers| - 1]) + Share(workers[|workers| - 1])
  }

  lemma {:induction false} ServiceMoves(workers: seq<Worker>, i: nat, w: Worker)
    requires i < |workers|
    ensures forall c :: InService(workers[i := w])[c] + Share(workers[i])[c] == InService(workers)[c] + Share(w)[c]
  {
    var n := |workers| - 1;
    var changed := workers[i := w];
    if i == n {
      assert changed[..n] == workers[..n];
    } else {
      ServiceMoves(workers[..n], i, w);
      assert changed[..n] == workers[..n][i := w] && changed[n] == workers[n];
    }
  }

  /** Every dispatched call is answered, lost or being served, each once. */
  ghost predicate Accounted(p: Pool)
  {
    forall c :: multiset(p.dispatched)[c] == multiset(p.written)[c] + multiset(p.lost)[c] + InService(p.workers)[c]
  }

  predicate Broken(w: Worker)
  {
    w.Reporting? || w.Failed?
  }

  ghost predicate SomeBroken(workers: seq<Worker>)
  {
    exists i :: 0 <= i < |workers| && Broken(workers[i])
  }

  /** A fatal error is recorded exactly when some worker has failed a write. */
  ghost predicate Blamed(p: Pool)
  {
    (p.fatal.Some? <==> SomeBroken(p.workers)) && (p.fatal.None? ==> p.lost == [])
  }

  /** Workers end normally only on an empty, closed queue. */
  ghost predicate Ending(p: Pool)
  {
    && p.workers != []
    && (forall i :: 0 <= i < |p.workers| && p.workers[i].Gone? ==> Left(p) && p.queue == [])
    && (Left(p) ==> p.stopped)
    && (p.controller.Returned? ==> AllFinished(p))
  }

  ghost predicate Inv(p: Pool)
  {
    p.dispatched + p.queue == Upto(p.admitted) && Accounted(p) && Blamed(p) && Ending(p)
  }

  lemma {:induction false} NobodyServes(workers: seq<Worker>)
    requires forall i :: 0 <= i < |workers| ==> !workers[i].Serving?
    ensures InService(workers) == multiset{}
  {
    if workers != [] {
      NobodyServes(workers[..|workers| - 1]);
    }
  }

  lemma StartInv(p: Pool)
    requires Start(p)
    ensures Inv(p)
  {
    NobodyServes(p.workers);
  }

  lemma BrokenMoves(workers: seq<Worker>, i: nat, w: Worker)
    requires i < |workers|
    ensures Broken(w) ==> SomeBroken(workers[i := w])
    ensures !Broken(workers[i]) && !Broken(w) ==> (SomeBroken(workers[i := w]) <==> SomeBroken(workers))
  {
    var changed := workers[i := w];
    assert changed[i] == w;
    if j :| 0 <= j < |workers| && Broken(workers[j]) && j != i {
      assert Broken(changed[j]);
    }
  }

  lemma WorkerBlames(p: Pool, q: Pool, i: int)
    requires Blamed(p) && WorkerStep(p, q, i)
    ensures Blamed(q)
  {
    BrokenMoves(p.workers, i, q.workers[i]);
    assert q.workers == p.workers[i := q.workers[i]];
    assert Broken(p.workers[i]) ==> SomeBroken(p.workers);
  }

  lemma WorkerEnds(p: Pool, q: Pool, i: int)
    requires Ending(p) && WorkerStep(p, q, i)
    ensures Ending(q)
  {
    assert !Finished(p.workers[i]);
    assert forall j :: 0 <= j < |p.workers| && j != i ==> q.workers[j] == p.workers[j];
  }

  lemma WorkerKeeps(p: Pool, q: Pool, i: int)
    requires Inv(p) && WorkerStep(p, q, i)
    ensures Inv(q)
  {
    WorkerAccounts(p, q, i);
    WorkerBlames(p, q, i);
    WorkerEnds(p, q, i);
    if Take(p, q, i) {
      assert p.queue == [p.queue[0]] + p.queue[1..];
    }
  }

  lemma WorkerAccounts(p: Pool, q: Pool, i: int)
    requires Accounted(p) && WorkerStep(p, q, i)
    ensures Accounted(q)
  {
    ServiceMoves(p.workers, i, q.workers[i]);
    assert q.workers == p.workers[i := q.workers[i]];
  }

  lemma ControllerKeeps(p: Pool, q: Pool)
    requires Inv(p) && (Receive(p, q) || Admit(p, q) || Quit(p, q) || Join(p, q))
    ensures Inv(q)
  {
    ControllerEnds(p, q);
    ControllerBooks(p, q);
    SameBooks(p, q);
  }

  /** The controller only appends the call it admits. */
  lemma ControllerBooks(p: Pool, q: Pool)
    requires p.dispatched + p.queue == Upto(p.admitted) && (Receive(p, q) || Admit(p, q) || Quit(p, q) || Join(p, q))
    ensures q.workers == p.workers && q.dispatched == p.dispatched
    ensures q.written == p.written && q.lost == p.lost && q.fatal == p.fatal
    ensures q.dispatched + q.queue == Upto(q.admitted)
  {
    if Admit(p, q) {
      assert p.dispatched + (p.queue + [p.admitted]) == (p.dispatched + p.queue) + [p.admitted];
    }
  }

  lemma ControllerEnds(p: Pool, q: Pool)
    requires Ending(p) && (Receive(p, q) || Admit(p, q) || Quit(p, q) || Join(p, q))
    ensures Ending(q)
  {
    assert q.workers == p.workers;
    if Admit(p, q) {
      assert !Left(p) && forall i :: 0 <= i < |p.workers| ==> !p.workers[i].Gone?;
    }
  }

  lemma SameBooks(p: Pool, q: Pool)
    requires Accounted(p) && Blamed(p) && q.workers == p.workers && q.dispatched == p.dispatched
    requires q.written == p.written && q.lost == p.lost && q.fatal == p.fatal
    ensures Accounted(q) && Blamed(q)
  {
  }

  lemma StepKeeps(p: Pool, q: Pool)
    requires Inv(p) && Step(p, q)
    ensures Inv(q)
  {
    if i :| WorkerStep(p, q, i) {
      WorkerKeeps(p, q, i);
    } else {
      ControllerKeeps(p, q);
    }
  }

  lemma {:induction false} RunKeeps(run: seq<Pool>, k: nat)
    requires Run(run) && k < |run|
    ensures Inv(run[k])
  {
    if k == 0 {
      StartInv(run[0]);
    } else {
      RunKeeps(run, k - 1);
      StepKeeps(run[k - 1], run[k]);
    }
  }

  // ---- What every interleaving guarantees ----

  /** Calls are dispatched in order, each at most once, and answered at most once. */
  lemma AtMostOnce(run: seq<Pool>, k: nat, c: nat)
    requires Run(run) && k < |run|
    ensures run[k].dispatched <= Upto(run[k].admitted)
    ensures multiset(run[k].written)[c] + multiset(run[k].lost)[c] <= multiset(run[k].dispatched)[c] <= 1
  {
    RunKeeps(run, k);
    var p := run[k];
    assert p.dispatched == Upto(p.admitted)[..|p.dispatched|];
    DistinctCounts(p.dispatched, c);
  }

  lemma {:induction false} DistinctCounts(s: seq<nat>, c: nat)
    requires forall i :: 0 <= i < |s| ==> s[i] == i
    ensures multiset(s)[c] == if c < |s| then 1 else 0
  {
    if s != [] {
      DistinctCounts(s[..|s| - 1], c);
      assert s == s[..|s| - 1] + [s[|s| - 1]];
    }
  }

  /** Once the controller has left its loop, nothing more is admitted. */
  lemma {:induction false} NoLateAdmission(run: seq<Pool>, k: nat, j: nat)
    requires Run(run) && k <= j < |run| && Left(run[k])
    ensures Left(run[j]) && run[j].admitted == run[k].admitted
  {
    if k < j {
      NoLateAdmission(run, k, j - 1);
      assert Step(run[j - 1], run[j]);
    }
  }

  /** If some worker never failed a write, every admitted call has been dispatched when the
      session returns; if none failed, every admitted call has been answered, once. */
  lemma ReturnedIsDrained(run: seq<Pool>, k: nat)
    requires Run(run) && k < |run| && run[k].controller.Returned?
    ensures (exists i :: 0 <= i < |run[k].workers| && !run[k].workers[i].Failed?) ==>
      run[k].dispatched == Upto(run[k].admitted)
    ensures run[k].fatal.None? ==> multiset(run[k].written) == multiset(Upto(run[k].admitted))
  {
    RunKeeps(run, k);
    var p := run[k];
    NobodyServes(p.workers);
    if i :| 0 <= i < |p.workers| && !p.workers[i].Failed? {
      assert p.workers[i].Gone?;
      assert p.dispatched + [] == p.dispatched;
    }
    if p.fatal.None? {
      assert !p.workers[0].Failed?;
      assert p.workers[0].Gone?;
      assert p.dispatched + [] == p.dispatched;
      forall c ensures multiset(p.written)[c] == multiset(p.dispatched)[c] {
      }
    }
  }

  // ---- The drain ends ----

  ghost function Weight(w: Worker): nat
  {
    match w
    case Waiting | Reporting => 1
    case Serving(_) => 2
    case Gone | Failed => 0
  }

  ghost function Burden(workers: seq<Worker>): nat
  {
    if workers == [] then 0 else Burden(workers[..|workers| - 1]) + Weight(workers[|workers| - 1])
  }

  ghost function Load(p: Pool): nat
  {
    2 * |p.queue| + Burden(p.workers) + if p.controller.Returned? then 0 else 1
  }

  lemma {:induction false} BurdenMoves(workers: seq<Worker>, i: nat, w: Worker)
    requires i < |workers|
    ensures Burden(workers[i := w]) + Weight(workers[i]) == Burden(workers) + Weight(w)
  {
    var n := |workers| - 1;
    var changed := workers[i := w];
    if i == n {
      assert changed[..n] == workers[..n];
    } else {
      BurdenMoves(workers[..n], i, w);
      assert changed[..n] == workers[..n][i := w] && changed[n] == workers[n];
    }
  }

  /** After the controller has left, each step uses up some of a finite load. */
  lemma DrainStepsRunOut(p: Pool, q: Pool)
    requires Left(p) && Step(p, q)
    ensures Load(q) < Load(p)
  {
    if i :| WorkerStep(p, q, i) {
      BurdenMoves(p.workers, i, q.workers[i]);
      assert q.workers == p.workers[i := q.workers[i]];
    }
  }

  /** And until the session has returned, some step is possible. */
  lemma DrainNeverSticks(p: Pool)
    requires Inv(p) && Left(p) && !p.controller.Returned?
    ensures exists q :: Step(p, q)
  {
    if AllFinished(p) {
      assert Join(p, p.(controller := Returned));
      assert Step(p, p.(controller := Returned));
    } else {
      var i :| 0 <= i < |p.workers| && !Finished(p.workers[i]);
      var q :=
        if p.workers[i].Serving? then p.(workers := p.workers[i := Waiting], written := p.written + [p.workers[i].call])
        else if p.workers[i].Reporting? then p.(workers := p.workers[i := Failed], stopped := true)
        else if p.queue == [] then p.(workers := p.workers[i := Gone])
        else p.(workers := p.workers[i := Serving(p.queue[0])], queue := p.queue[1..], dispatched :=
          p.dispatched + [p.queue[0]]);
      assert WorkerStep(p, q, i);
      assert Step(p, q);
    }
  }
}
