/** The handler's code, one method for each stretch without interference (mgmtd/grpc/GrpcClientHandler.cpp). */
module Grpc {
  import opened Bytes
  import opened GrpcCalls

  class GrpcClientHandler {
    var entries: seq<Entry>
    var tasks: seq<nat>
    var workers: seq<Worker>
    var threads: seq<Thread>
    var loop: Loop
    var streaming: bool
    var stopping: bool
    var done: seq<Report>
    var ready: seq<Report>
    var sunk: seq<Report>
    /** Everything ever reported; no branch reads it. */
    var pushed: seq<Report>

    function Now(): State
      reads this
    {
      State(entries, tasks, workers, threads, loop, streaming, stopping, done, ready, sunk, pushed)
    }

    /** A pool of no workers becomes a pool of one. */
    constructor (n: nat)
      ensures Now() == Started(n)
    {
      entries, tasks, threads := [], [], [];
      workers := seq(if n == 0 then 1 else n, _ => Idle);
      loop, streaming, stopping := Free, false, false;
      done, ready, sunk, pushed := [], [], [], [];
    }

    method Report(id: nat, doc: Doc)
      requires id < |entries|
      modifies this`done, this`pushed
      ensures Now() == Push(old(Now()), id, Some(doc))
    {
      var r := GrpcCalls.Report(id, entries[id].call, doc);
      done := done + [r];
      pushed := pushed + [r];
    }

    // ---- The loop thread ----

    /** `compare_exchange_strong(false, true)`. */
    method RaiseStreaming() returns (won: bool)
      modifies this`streaming
      ensures won == !old(streaming) && streaming
    {
      won := !streaming;
      streaming := true;
    }

    /** `egress`, up to the point where it waits for the last stream thread, if there is one. */
    method Egress(call: Call)
      requires Enabled(Now(), Label.Egress(call))
      modifies this
      ensures Now() == Next(old(Now()), Label.Egress(call))
    {
      if Cancels(call.cmd) {
        return;
      }
      var id := |entries|;
      if Streams(call.cmd) {
        var won := RaiseStreaming();
        if !won {
          entries := entries + [NewEntry(call, Refused)];
          Report(id, Unreachable(BUSY));
          return;
        }
        if threads != [] {
          entries := entries + [NewEntry(call, Admitted)];
          loop := Joining(id);
          return;
        }
        entries := entries + [NewEntry(call, OnThread(0))];
        threads := [Thread(id, Body(false))];
        return;
      }
      entries := entries + [NewEntry(call, Queued)];
      tasks := tasks + [id];
    }

    /** The rest of `egress` once that thread has ended. */
    method JoinThenSpawn()
      requires Enabled(Now(), Join)
      modifies this
      ensures Now() == Next(old(Now()), Join)
    {
      var id := loop.id;
      entries := entries[id := entries[id].(place := OnThread(|threads|))];
      threads := threads + [Thread(id, Body(false))];
      loop := Free;
    }

    method TakeDone()
      requires loop == Free && ready == [] && done != []
      modifies this`done, this`ready
      ensures Now() == Next(old(Now()), Take)
    {
      ready, done := done, [];
    }

    method DeliverNext()
      requires ready != []
      modifies this`ready, this`sunk
      ensures Now() == Next(old(Now()), Deliver)
    {
      sunk := sunk + [ready[0]];
      ready := ready[1..];
    }

    /** What other threads do in the meantime. */
    method Meanwhile(labels: seq<Label>)
      modifies this
      ensures Now() == Run(old(Now()), labels)
    {
      Become(Run(Now(), labels));
    }

    method Become(n: State)
      modifies this
      ensures Now() == n
    {
      entries, tasks, workers, threads := n.entries, n.queue, n.workers, n.threads;
      loop, streaming, stopping := n.loop, n.streaming, n.stopping;
      done, ready, sunk, pushed := n.done, n.batch, n.sunk, n.pushed;
    }

    /** The loop of `drain`; after its `k`-th delivery the other threads do `others(from + k)`. */
    method DeliverAll(others: nat -> seq<Label>, start: nat)
      requires forall k: nat :: OffLoop(others(k))
      modifies this
      ensures ready == [] && loop == old(loop) && sunk == old(sunk) + old(ready)
      ensures Now() == Run(old(Now()), Weave(Delivers(|old(ready)|), others, start))
    {
      var k := start;
      ghost var s, labels := Now(), Weave(Delivers(|ready|), others, start);
      while ready != []
        invariant loop == old(loop) && sunk + ready == old(sunk) + old(ready)
        invariant Reaches(s, labels, Now(), Weave(Delivers(|ready|), others, k))
        decreases |ready|
      {
        ghost var before := Now();
        DeliverOne(others(k));
        DeliverTurn(s, labels, before, others, k, Now());
        k := k + 1;
      }
    }

    method DeliverOne(others: seq<Label>)
      requires ready != [] && OffLoop(others)
      modifies this
      ensures Now() == Run(Next(old(Now()), Deliver), others)
      ensures loop == old(loop) && sunk + ready == old(sunk) + old(ready) && |ready| == |old(ready)| - 1
    {
      DeliverNext();
      OffLoopKeepsBatch(Now(), others);
      Meanwhile(others);
    }

    /**
     * `poll` and `drain`, whatever the other threads do between its steps, also between the test and the take: what was
     * done at the take is delivered, which is at least what was done at the start.
     */
    method Poll(others: nat -> seq<Label>)
      requires loop == Free && ready == [] && forall k: nat :: OffLoop(others(k))
      modifies this
      ensures ready == [] && loop == Free
      ensures old(done) == [] ==> Now() == old(Now())
      ensures old(done) != [] ==>
        var taken := Run(old(Now()), others(0));
        && Now() == Run(taken, Weave([Take] + Delivers(|taken.done|), others, 1))
        && old(done) <= taken.done && sunk == old(sunk) + taken.done
    {
      if done == [] {
        return;
      }
      OffLoopKeepsBatch(Now(), others(0));
      Meanwhile(others(0));
      Drain(others, 1);
    }

    method Drain(others: nat -> seq<Label>, start: nat)
      requires loop == Free && ready == [] && done != [] && forall k: nat :: OffLoop(others(k))
      modifies this
      ensures ready == [] && loop == Free && sunk == old(sunk) + old(done)
      ensures Now() == Run(old(Now()), Weave([Take] + Delivers(|old(done)|), others, start))
    {
      WeaveFirst(Now(), Take, Delivers(|done|), others, start);
      TakeDone();
      OffLoopKeepsBatch(Now(), others(start));
      Meanwhile(others(start));
      DeliverAll(others, start + 1);
    }

    /** The destructor's first line. */
    method StopWorkers()
      requires Enabled(Now(), Stop)
      modifies this`stopping, this`loop
      ensures Now() == Next(old(Now()), Stop)
    {
      stopping := true;
      loop := Destroying;
    }

    // ---- A worker ----

    /** `TaskQueue::pop`, once it may run: false tells the worker to leave. */
    method PopTask(w: nat) returns (more: bool)
      requires w < |workers| && workers[w] == Idle && (stopping || tasks != [])
      requires tasks != [] ==> tasks[0] < |entries|
      modifies this`tasks, this`workers, this`entries
      ensures more == (old(tasks) != [])
      ensures Now() == Next(old(Now()), if more then Pop(w) else Exit(w))
    {
      if stopping && tasks == [] {
        workers := workers[w := Gone];
        return false;
      }
      var id := tasks[0];
      tasks := tasks[1..];
      entries := entries[id := entries[id].(place := Held(w))];
      workers := workers[w := Calling(id, "")];
      return true;
    }

    /** The lambda `flush` of `runChat`. */
    method Flush(w: nat, force: bool)
      requires Live(Now(), w) && workers[w].Calling?
      modifies this`workers, this`done, this`pushed
      ensures var id, pending := old(workers[w].id), old(workers[w].pending);
        Now() == if pending == "" || (!force && |pending| < DELTA_BATCH) then old(Now())
          else WorkerMoves(old(Now()), w, Calling(id, ""), old(entries[id]), Some(Partial(pending)))
    {
      var id, pending := workers[w].id, workers[w].pending;
      if pending == "" || (!force && |pending| < DELTA_BATCH) {
        return;
      }
      assert entries[id := entries[id]] == entries;
      Report(id, Partial(pending));
      workers := workers[w := Calling(id, "")];
    }

    /** The callback for a piece of answer text. */
    method OnDelta(w: nat, delta: string)
      requires Enabled(Now(), Delta(w, delta))
      modifies this`workers, this`entries, this`done, this`pushed
      ensures Now() == Next(old(Now()), Delta(w, delta))
    {
      var id, pending := workers[w].id, workers[w].pending + delta;
      entries := entries[id := entries[id].(said := entries[id].said + delta)];
      workers := workers[w := Calling(id, pending)];
      Flush(w, false);
    }

    /** The client call returns: the forced flush, then the document that will be reported. */
    method ClientReturns(w: nat, json: string, error: string)
      requires Enabled(Now(), Return(w, json, error))
      modifies this`workers, this`entries, this`done, this`pushed
      ensures Now() == Next(old(Now()), Return(w, json, error))
    {
      var id := workers[w].id;
      Flush(w, true);
      entries := entries[id := entries[id].(verdict := Came(json, error))];
      var doc := Doc.Reply(json);
      if json == "" {
        doc := Unreachable(if error == "" then NO_RESULT else error);
      }
      workers := workers[w := Returned(id, doc)];
    }

    /** The report at the end of `runUnary`. */
    method ReportAnswer(w: nat)
      requires Enabled(Now(), Answer(w))
      modifies this`workers, this`entries, this`done, this`pushed
      ensures Now() == Next(old(Now()), Answer(w))
    {
      var id, doc := workers[w].id, workers[w].doc;
      entries := entries[id := entries[id].(place := Answered(false))];
      workers := workers[w := Idle];
      Report(id, doc);
    }

    /** The handlers around `runUnary`. */
    method CatchCall(w: nat, what: string)
      requires Enabled(Now(), Throw(w, what))
      modifies this`workers, this`entries, this`done, this`pushed
      ensures Now() == Next(old(Now()), Throw(w, what))
    {
      var id := workers[w].id;
      entries := entries[id := entries[id].(place := Answered(true), verdict := Threw(what))];
      workers := workers[w := Idle];
      Report(id, Unreachable(what));
    }

    /**
     * `runChat` and the rest of `runUnary` for pieces of text as they come in, whatever the other threads do between
     * its steps.
     */
    method RunChat(w: nat, deltas: seq<string>, json: string, error: string, others: nat -> seq<Label>)
      requires Chatting(Now(), w) && forall k: nat :: NotOf(others(k), w)
      modifies this
      ensures Now() == Run(old(Now()), Weave(Deltas(w, deltas) + [Return(w, json, error), Answer(w)], others, 0))
    {
      ghost var rest := [Return(w, json, error), Answer(w)];
      ghost var s, labels := Now(), Weave(Deltas(w, deltas) + rest, others, 0);
      assert deltas[0..] == deltas;
      for i := 0 to |deltas|
        invariant Chatting(Now(), w)
        invariant Reaches(s, labels, Now(), Weave(Deltas(w, deltas[i..]) + rest, others, i))
      {
        ghost var before := Now();
        OnDelta(w, deltas[i]);
        DeltaTurn(s, labels, before, w, deltas, i, rest, others);
        NotOfKeepsWorker(Now(), others(i), w);
        Meanwhile(others(i));
      }
      assert Deltas(w, deltas[|deltas|..]) + rest == rest;
      FinishCall(w, json, error, others, |deltas|);
    }

    method FinishCall(w: nat, json: string, error: string, others: nat -> seq<Label>, k: nat)
      requires Live(Now(), w) && workers[w].Calling? && forall i: nat :: NotOf(others(i), w)
      modifies this
      ensures Now() == Run(old(Now()), Weave([Return(w, json, error), Answer(w)], others, k))
    {
      ghost var s := Now();
      WeaveFirst(s, Return(w, json, error), [Answer(w)], others, k);
      assert [Return(w, json, error)] + [Answer(w)] == [Return(w, json, error), Answer(w)];
      ComeBackAmongOthers(w, json, error, others, k);
      AnswerAmongOthers(w, others, k + 1);
    }

    method ComeBackAmongOthers(w: nat, json: string, error: string, others: nat -> seq<Label>, k: nat)
      requires Enabled(Now(), Return(w, json, error)) && NotOf(others(k), w)
      modifies this
      ensures Now() == Run(Next(old(Now()), Return(w, json, error)), others(k))
      ensures Live(Now(), w) && workers[w].Returned?
    {
      ClientReturns(w, json, error);
      NotOfKeepsWorker(Now(), others(k), w);
      Meanwhile(others(k));
    }

    method AnswerAmongOthers(w: nat, others: nat -> seq<Label>, k: nat)
      requires Live(Now(), w) && workers[w].Returned?
      modifies this
      ensures Now() == Run(old(Now()), Weave([Answer(w)], others, k))
    {
      WeaveFirst(Now(), Answer(w), [], others, k);
      assert [Answer(w)] + [] == [Answer(w)];
      ReportAnswer(w);
      Meanwhile(others(k));
    }

    // ---- The stream thread ----

    /** The thread's phase, and the history of its call. */
    method SetPhase(phase: Phase, e: Entry)
      requires HasStream(Now())
      modifies this`threads, this`entries
      ensures Now() == StreamMoves(old(Now()), phase, streaming, e, None)
    {
      var t := |threads| - 1;
      threads := threads[t := threads[t].(phase := phase)];
      entries := entries[threads[t].id := e];
    }

    method OnProgress(json: string)
      requires Enabled(Now(), Progress(json))
      modifies this`threads, this`entries, this`done, this`pushed
      ensures Now() == Next(old(Now()), Progress(json))
    {
      var last := threads[|threads| - 1];
      var e := entries[last.id].(heard := entries[last.id].heard + [json]);
      if IsFinal(json) {
        SetPhase(Body(true), e);
      } else {
        SetPhase(last.phase, e);
      }
      Report(last.id, Reply(json));
    }

    /** The end of `runStream`: a closing report unless the service's own was seen. */
    method EndStream(error: string)
      requires Enabled(Now(), StreamReturn(error))
      modifies this`threads, this`entries, this`done, this`pushed
      ensures Now() == Next(old(Now()), StreamReturn(error))
    {
      var last := threads[|threads| - 1];
      SetPhase(Leaving, entries[last.id].(verdict := Came("", error)));
      if !last.phase.sawFinal {
        if IsCancel(error) {
          Report(last.id, Cancelled);
        } else {
          Report(last.id, Unreachable(if error == "" then CLOSED else error));
        }
      }
    }

    /** The guard's destructor, on the normal way out and on the way of an exception. */
    method ClearStreaming(thrown: Option<string>)
      requires if thrown.Some? then InBody(Now()) else Enabled(Now(), StreamLeave)
      modifies this`threads, this`entries, this`streaming
      ensures Now() == Next(old(Now()), if thrown.Some? then StreamThrow(thrown.value) else StreamLeave)
    {
      streaming := false;
      var e := entries[threads[|threads| - 1].id];
      if thrown.Some? {
        SetPhase(Unwound(thrown.value), e.(verdict := Threw(thrown.value)));
      } else {
        SetPhase(Finished(false), e);
      }
    }

    method CatchStream()
      requires Enabled(Now(), StreamCatch)
      modifies this`threads, this`entries, this`done, this`pushed
      ensures Now() == Next(old(Now()), StreamCatch)
    {
      var last := threads[|threads| - 1];
      SetPhase(Finished(true), entries[last.id]);
      Report(last.id, Unreachable(last.phase.reason));
    }
  }

  function Delivers(n: nat): seq<Label> {
    seq(n, _ => Deliver)
  }

  function Deltas(w: nat, deltas: seq<string>): seq<Label> {
    seq(|deltas|, i requires 0 <= i < |deltas| => Delta(w, deltas[i]))
  }

  ghost predicate Chatting(s: State, w: nat) {
    Live(s, w) && s.workers[w].Calling? && s.entries[s.workers[w].id].call.cmd == Chat
  }

  /** Steps of workers and stream threads only. */
  predicate OffLoop(labels: seq<Label>) {
    forall l | l in labels :: !l.Egress? && !l.Join? && !l.Take? && !l.Deliver? && !l.Stop?
  }

  predicate IsOf(l: Label, w: nat) {
    (l.Pop? || l.Exit? || l.Delta? || l.Return? || l.Answer? || l.Throw?) && l.w == w
  }

  /** Steps of any thread but worker `w`. */
  predicate NotOf(labels: seq<Label>, w: nat) {
    forall l | l in labels :: !IsOf(l, w)
  }

  lemma {:induction false} OffLoopKeepsBatch(s: State, labels: seq<Label>)
    requires OffLoop(labels)
    ensures var n := Run(s, labels); n.batch == s.batch && n.sunk == s.sunk && n.loop == s.loop && s.done <= n.done
    decreases |labels|
  {
    if labels != [] {
      assert labels[0] in labels;
      var next := if Enabled(s, labels[0]) then Next(s, labels[0]) else s;
      if Enabled(s, labels[0]) {
        OffLoopStep(s, labels[0], next);
      }
      OffLoopKeepsBatch(next, labels[1..]);
    }
  }

  /** The other threads only ever add to what is done. */
  lemma OffLoopStep(s: State, l: Label, n: State)
    requires OffLoop([l]) && Enabled(s, l) && n == Next(s, l)
    ensures n.batch == s.batch && n.sunk == s.sunk && n.loop == s.loop && s.done <= n.done
  {
    assert l in [l];
  }

  /** What worker `w` has in hand stays as it is while others move. */
  lemma {:induction false} NotOfKeepsWorker(s: State, labels: seq<Label>, w: nat)
    requires Live(s, w) && NotOf(labels, w)
    ensures var n := Run(s, labels);
      && Live(n, w) && n.workers[w] == s.workers[w]
      && n.entries[s.workers[w].id].call == s.entries[s.workers[w].id].call
    decreases |labels|
  {
    if labels != [] {
      assert labels[0] in labels;
      if Enabled(s, labels[0]) {
        OtherStepKeepsWorker(s, labels[0], w, Next(s, labels[0]));
        NotOfKeepsWorker(Next(s, labels[0]), labels[1..], w);
      } else {
        NotOfKeepsWorker(s, labels[1..], w);
      }
    }
  }

  lemma OtherStepKeepsWorker(s: State, l: Label, w: nat, n: State)
    requires Live(s, w) && Enabled(s, l) && !IsOf(l, w) && n == Next(s, l)
    ensures Live(n, w) && n.workers[w] == s.workers[w]
    ensures n.entries[s.workers[w].id].call == s.entries[s.workers[w].id].call
  {
    if l.Egress? {
      AcceptKeepsWorker(s, l.call, w, n);
    } else if l.Progress? || l.StreamReturn? || l.StreamLeave? || l.StreamThrow? || l.StreamCatch? {
      StreamKeepsWorker(s, l, w, n);
    } else {
      StepRecords(s, l, s.workers[w].id, n);
    }
  }

  lemma StreamKeepsWorker(s: State, l: Label, w: nat, n: State)
    requires Live(s, w) && Enabled(s, l) && n == Next(s, l)
    requires l.Progress? || l.StreamReturn? || l.StreamLeave? || l.StreamThrow? || l.StreamCatch?
    ensures Live(n, w) && n.workers[w] == s.workers[w]
    ensures n.entries[s.workers[w].id].call == s.entries[s.workers[w].id].call
  {
    StepRecords(s, l, s.workers[w].id, n);
  }

  lemma AcceptKeepsWorker(s: State, call: Call, w: nat, n: State)
    requires Live(s, w) && n == Accept(s, call)
    ensures Live(n, w) && n.workers[w] == s.workers[w]
    ensures n.entries[s.workers[w].id].call == s.entries[s.workers[w].id].call
  {
  }

  /** The steps of one thread, with those of others in between. */
  function Weave(steps: seq<Label>, others: nat -> seq<Label>, k: nat): seq<Label>
    decreases |steps|
  {
    if steps == [] then [] else [steps[0]] + others(k) + Weave(steps[1..], others, k + 1)
  }

  lemma {:induction false} RunBoth(s: State, a: seq<Label>, b: seq<Label>)
    ensures Run(s, a + b) == Run(Run(s, a), b)
    decreases |a|
  {
    if a == [] {
      assert a + b == b;
    } else {
      assert (a + b)[1..] == a[1..] + b;
      RunBoth(if Enabled(s, a[0]) then Next(s, a[0]) else s, a[1..], b);
    }
  }

  lemma WeaveFirst(s: State, l: Label, rest: seq<Label>, others: nat -> seq<Label>, k: nat)
    requires Enabled(s, l)
    ensures Run(s, Weave([l] + rest, others, k)) == Run(Run(Next(s, l), others(k)), Weave(rest, others, k + 1))
  {
    var woven := others(k) + Weave(rest, others, k + 1);
    assert ([l] + rest)[1..] == rest;
    assert Weave([l] + rest, others, k) == [l] + woven && ([l] + woven)[1..] == woven;
    RunBoth(Next(s, l), others(k), Weave(rest, others, k + 1));
  }

  /** Going on from `n` with `rest` ends where `labels` from `s` does. */
  ghost predicate Reaches(s: State, labels: seq<Label>, n: State, rest: seq<Label>) {
    Run(s, labels) == Run(n, rest)
  }

  lemma DeliverTurn(s: State, labels: seq<Label>, n: State, others: nat -> seq<Label>, k: nat, n': State)
    requires n.batch != [] && Reaches(s, labels, n, Weave(Delivers(|n.batch|), others, k))
    requires n' == Run(Next(n, Deliver), others(k)) && |n'.batch| == |n.batch| - 1
    ensures Reaches(s, labels, n', Weave(Delivers(|n'.batch|), others, k + 1))
  {
    assert Delivers(|n.batch|) == [Deliver] + Delivers(|n.batch| - 1);
    WeaveFirst(n, Deliver, Delivers(|n.batch| - 1), others, k);
  }

  lemma DeltaTurn(s: State, labels: seq<Label>, n: State, w: nat, deltas: seq<string>, i: nat, rest: seq<Label>,
                  others: nat -> seq<Label>)
    requires i < |deltas| && Chatting(n, w) && Reaches(s, labels, n, Weave(Deltas(w, deltas[i..]) + rest, others, i))
    ensures var m := Next(n, Delta(w, deltas[i]));
      Chatting(m, w) && Reaches(s, labels, Run(m, others(i)), Weave(Deltas(w, deltas[i + 1..]) + rest, others, i + 1))
  {
    assert deltas[i..] == [deltas[i]] + deltas[i + 1..];
    assert Deltas(w, deltas[i..]) + rest == [Delta(w, deltas[i])] + (Deltas(w, deltas[i + 1..]) + rest);
    WeaveFirst(n, Delta(w, deltas[i]), Deltas(w, deltas[i + 1..]) + rest, others, i);
  }
}
