/**
 * Calls to the assistant, as atomic steps of the loop thread, the workers and the stream threads in any interleaving
 * (mgmtd/grpc/GrpcClientHandler.cpp).
 */
module GrpcCalls {
  import opened Bytes

  /** `Query` stands for every other unary command. */
  datatype Cmd = Chat | CorpusRefresh | BenchtestRun | CorpusCancel | BenchtestCancel | Query(code: nat)

  datatype Call = Call(cmd: Cmd, ticket: u32)

  predicate Streams(cmd: Cmd) { cmd.CorpusRefresh? || cmd.BenchtestRun? }
  predicate Cancels(cmd: Cmd) { cmd.CorpusCancel? || cmd.BenchtestCancel? }

  /** The documents that reach the sink. */
  datatype Doc =
    | Partial(text: string)       // {"partial": true, "text": ...}
    | Reply(json: string)         // the service's own document
    | Unreachable(reason: string) // the document made up in its place
    | Cancelled                   // {"stage": "cancelled", "final": true}

  const NO_RESULT := "pretzel-ai returned no result"
  const BUSY := "a refresh is already running"
  const CLOSED := "the stream closed"
  const DELTA_BATCH: nat := 24

  /** A report names the call it belongs to: `origin` is the call's number, its command and ticket are the call's. */
  datatype Report = Report(origin: nat, call: Call, doc: Doc)

  /** Where a call is. */
  datatype Place = Queued | Held(w: nat) | Answered(threw: bool) | Admitted | OnThread(t: nat) | Refused

  /** How the call to the service ended. */
  datatype Verdict = Outstanding | Came(json: string, error: string) | Threw(reason: string)

  /**
   * A call as the loop handed it over. History that no branch reads: `said` is all the answer text its service has
   * produced so far, `heard` are the messages of its stream, and `verdict` is what the service's call came back with.
   */
  datatype Entry = Entry(call: Call, place: Place, said: string, heard: seq<string>, verdict: Verdict)

  datatype Worker = Idle | Calling(id: nat, pending: string) | Returned(id: nat, doc: Doc) | Gone

  datatype Phase = Body(sawFinal: bool) | Leaving | Unwound(reason: string) | Finished(threw: bool)

  datatype Thread = Thread(id: nat, phase: Phase)

  /** The loop thread is free, waits for the last stream thread to join, or is in the destructor. */
  datatype Loop = Free | Joining(id: nat) | Destroying

  datatype State = State(
    entries: seq<Entry>,
    queue: seq<nat>,
    workers: seq<Worker>,
    threads: seq<Thread>,
    loop: Loop,
    streaming: bool,
    stopping: bool,
    done: seq<Report>,
    batch: seq<Report>,
    sunk: seq<Report>,
    pushed: seq<Report>)

  /** One atomic step of one thread. */
  datatype Label =
    | Egress(call: Call)
    | Join
    | Take
    | Deliver
    | Stop
    | Pop(w: nat)
    | Exit(w: nat)
    | Delta(w: nat, text: string)
    | Return(w: nat, json: string, error: string)
    | Answer(w: nat)
    | Throw(w: nat, reason: string)
    | Progress(json: string)
    | StreamReturn(error: string)
    | StreamLeave
    | StreamThrow(reason: string)
    | StreamCatch

  // ---- The stream's tests on text ----

  function Find(s: string, p: string, from: nat): Option<nat>
    decreases |s| - from
  {
    if from + |p| > |s| then None
    else if s[from..from + |p|] == p then Some(from)
    else Find(s, p, from + 1)
  }

  const FINAL := "\"final\""

  /** `onProgress`: "final" occurs, and after its first occurrence "true" does. */
  predicate IsFinal(json: string) {
    var at := Find(json, FINAL, 0);
    at.Some? && Find(json, "true", at.value).Some?
  }

  predicate IsCancel(error: string) {
    Find(error, "CANCELLED", 0).Some? || Find(error, "Cancelled", 0).Some?
  }

  function OrElse(text: string, fallback: string): string {
    if text == "" then fallback else text
  }

  // ---- The steps ----

  function Push(s: State, id: nat, doc: Option<Doc>): State
    requires id < |s.entries|
  {
    if doc.None? then s
    else
      var r := Report(id, s.entries[id].call, doc.value);
      s.(done := s.done + [r], pushed := s.pushed + [r])
  }

  function NewEntry(call: Call, place: Place): Entry {
    Entry(call, place, "", [], Outstanding)
  }

  function New(s: State, call: Call, place: Place): State {
    s.(entries := s.entries + [NewEntry(call, place)])
  }

  predicate Holds(worker: Worker, id: nat) {
    (worker.Calling? || worker.Returned?) && worker.id == id
  }

  predicate Live(s: State, w: nat) {
    w < |s.workers| && (s.workers[w].Calling? || s.workers[w].Returned?) && s.workers[w].id < |s.entries|
  }

  /** A step of worker `w`: it becomes `worker`, the entry of its call `e`, and `doc` is reported, if any. */
  function WorkerMoves(s: State, w: nat, worker: Worker, e: Entry, doc: Option<Doc>): State
    requires Live(s, w)
  {
    var id := s.workers[w].id;
    Push(s.(workers := s.workers[w := worker], entries := s.entries[id := e]), id, doc)
  }

  predicate HasStream(s: State) {
    s.threads != [] && s.threads[|s.threads| - 1].id < |s.entries|
  }

  /** The thread that `streamThread` names. */
  function Stream(s: State): Thread
    requires HasStream(s)
  {
    s.threads[|s.threads| - 1]
  }

  /** A step of that thread: the entry of its call becomes `e`. */
  function StreamMoves(s: State, phase: Phase, streaming: bool, e: Entry, doc: Option<Doc>): State
    requires HasStream(s)
  {
    var t, id := |s.threads| - 1, Stream(s).id;
    Push(s.(threads := s.threads[t := s.threads[t].(phase := phase)], streaming := streaming,
            entries := s.entries[id := e]), id, doc)
  }

  /** The entry of the stream's call. */
  function StreamEntry(s: State): Entry
    requires HasStream(s)
  {
    s.entries[Stream(s).id]
  }

  predicate InBody(s: State) { HasStream(s) && Stream(s).phase.Body? }
  predicate InRunStream(s: State) { HasStream(s) && (Stream(s).phase.Body? || Stream(s).phase.Leaving?) }

  predicate Enabled(s: State, l: Label) {
    match l
    case Egress(_) => s.loop == Free && s.batch == []
    case Join => s.loop.Joining? && s.loop.id < |s.entries| && HasStream(s) && Stream(s).phase.Finished?
    case Take => s.loop == Free && s.batch == [] && s.done != []
    case Deliver => s.batch != []
    case Stop => s.loop == Free && s.batch == []
    case Pop(w) => w < |s.workers| && s.workers[w] == Idle && s.queue != [] && s.queue[0] < |s.entries|
    case Exit(w) => w < |s.workers| && s.workers[w] == Idle && s.stopping && s.queue == []
    case Delta(w, _) => Live(s, w) && s.workers[w].Calling? && s.entries[s.workers[w].id].call.cmd == Chat
    case Return(w, _, _) => Live(s, w) && s.workers[w].Calling?
    case Answer(w) => Live(s, w) && s.workers[w].Returned?
    case Throw(w, _) => Live(s, w)
    case Progress(_) => InBody(s)
    case StreamReturn(_) => InBody(s)
    case StreamLeave => HasStream(s) && Stream(s).phase.Leaving?
    case StreamThrow(_) => InBody(s)
    case StreamCatch => HasStream(s) && Stream(s).phase.Unwound?
  }

  /** `egress`. */
  function Accept(s: State, call: Call): State {
    var id := |s.entries|;
    if Cancels(call.cmd) then s
    else if !Streams(call.cmd) then New(s, call, Queued).(queue := s.queue + [id])
    else if s.streaming then Push(New(s, call, Refused), id, Some(Unreachable(BUSY)))
    else if s.threads == [] then New(s, call, OnThread(0)).(streaming := true, threads := [Thread(id, Body(false))])
    else New(s, call, Admitted).(streaming := true, loop := Joining(id))
  }

  /** A piece of answer text: reported once enough has gathered. */
  function Gather(s: State, w: nat, text: string): State
    requires Live(s, w) && s.workers[w].Calling?
  {
    var id, pending := s.workers[w].id, s.workers[w].pending + text;
    var e := s.entries[id].(said := s.entries[id].said + text);
    if pending == "" || |pending| < DELTA_BATCH then WorkerMoves(s, w, Calling(id, pending), e, None)
    else WorkerMoves(s, w, Calling(id, ""), e, Some(Partial(pending)))
  }

  /** The call comes back: what is pending goes out, and what will be reported is decided. */
  function ComeBack(s: State, w: nat, json: string, error: string): State
    requires Live(s, w) && s.workers[w].Calling?
  {
    var id, pending := s.workers[w].id, s.workers[w].pending;
    var doc := if json == "" then Unreachable(OrElse(error, NO_RESULT)) else Reply(json);
    WorkerMoves(s, w, Returned(id, doc), s.entries[id].(verdict := Came(json, error)),
                if pending == "" then None else Some(Partial(pending)))
  }

  /** The end of a call: its one answer. */
  function Conclude(s: State, w: nat, doc: Doc, threw: bool, verdict: Verdict): State
    requires Live(s, w)
  {
    WorkerMoves(s, w, Idle, s.entries[s.workers[w].id].(place := Answered(threw), verdict := verdict), Some(doc))
  }

  /** What `runStream` reports after the service's last message. */
  function ClosingDoc(sawFinal: bool, error: string): Option<Doc> {
    if sawFinal then None else Some(if IsCancel(error) then Cancelled else Unreachable(OrElse(error, CLOSED)))
  }

  function Next(s: State, l: Label): State
    requires Enabled(s, l)
  {
    match l
    case Egress(call) => Accept(s, call)
    case Join =>
      var id, t := s.loop.id, |s.threads|;
      s.(entries := s.entries[id := s.entries[id].(place := OnThread(t))], loop := Free,
         threads := s.threads + [Thread(id, Body(false))])
    case Take => s.(batch := s.done, done := [])
    case Deliver => s.(sunk := s.sunk + [s.batch[0]], batch := s.batch[1..])
    case Stop => s.(loop := Destroying, stopping := true)
    case Pop(w) =>
      var id := s.queue[0];
      s.(queue := s.queue[1..], entries := s.entries[id := s.entries[id].(place := Held(w))],
         workers := s.workers[w := Calling(id, "")])
    case Exit(w) => s.(workers := s.workers[w := Gone])
    case Delta(w, text) => Gather(s, w, text)
    case Return(w, json, error) => ComeBack(s, w, json, error)
    case Answer(w) => Conclude(s, w, s.workers[w].doc, false, s.entries[s.workers[w].id].verdict)
    case Throw(w, reason) => Conclude(s, w, Unreachable(reason), true, Threw(reason))
    case Progress(json) =>
      var e := StreamEntry(s);
      StreamMoves(s, Body(Stream(s).phase.sawFinal || IsFinal(json)), s.streaming, e.(heard := e.heard + [json]),
                  Some(Reply(json)))
    case StreamReturn(error) =>
      StreamMoves(s, Leaving, s.streaming, StreamEntry(s).(verdict := Came("", error)),
                  ClosingDoc(Stream(s).phase.sawFinal, error))
    case StreamLeave => StreamMoves(s, Finished(false), false, StreamEntry(s), None)
    case StreamThrow(reason) =>
      StreamMoves(s, Unwound(reason), false, StreamEntry(s).(verdict := Threw(reason)), None)
    case StreamCatch =>
      StreamMoves(s, Finished(true), s.streaming, StreamEntry(s), Some(Unreachable(Stream(s).phase.reason)))
  }

  function Started(workers: nat): State {
    State([], [], seq(if workers == 0 then 1 else workers, _ => Idle), [], Free, false, false, [], [], [], [])
  }

  /** A schedule: each label names the step some thread takes next; a step that is not possible is passed over. */
  function Run(s: State, labels: seq<Label>): State
    decreases |labels|
  {
    if labels == [] then s
    else Run(if Enabled(s, labels[0]) then Next(s, labels[0]) else s, labels[1..])
  }

  // ---- What was reported of one call ----

  function DocsOf(pushed: seq<Report>, id: nat): seq<Doc> {
    if pushed == [] then []
    else
      var r := pushed[|pushed| - 1];
      DocsOf(pushed[..|pushed| - 1], id) + if r.origin == id then [r.doc] else []
  }

  lemma DocsPush(pushed: seq<Report>, r: Report, id: nat)
    ensures DocsOf(pushed + [r], id) == DocsOf(pushed, id) + if r.origin == id then [r.doc] else []
  {
    assert (pushed + [r])[..|pushed|] == pushed;
  }

  ghost predicate AllPartial(docs: seq<Doc>) {
    forall i :: 0 <= i < |docs| ==> docs[i].Partial? && docs[i].text != ""
  }

  /** The text of the partial reports, in order. */
  function TextOf(docs: seq<Doc>): string {
    if docs == [] then ""
    else TextOf(docs[..|docs| - 1]) + if docs[|docs| - 1].Partial? then docs[|docs| - 1].text else ""
  }

  lemma TextPush(docs: seq<Doc>, d: Doc)
    ensures TextOf(docs + [d]) == TextOf(docs) + if d.Partial? then d.text else ""
  {
    assert (docs + [d])[..|docs|] == docs;
  }

  // ---- The stages of a call, from its reports ----

  /** Partial reports hold a batch of text each; the last one may be short once the rest was flushed. */
  ghost predicate Batched(docs: seq<Doc>, flushed: bool)
    requires AllPartial(docs)
  {
    forall i :: 0 <= i < |docs| && (flushed ==> i < |docs| - 1) ==> |docs[i].text| >= 24
  }

  /** A call in a worker's hands: partial reports only, and all the text that is not reported is pending. */
  ghost predicate Talking(docs: seq<Doc>, said: string, pending: string, flushed: bool) {
    AllPartial(docs) && Batched(docs, flushed) && said == TextOf(docs) + pending
  }

  /**
   * The report that a unary call owes: the service's own document, or one in its place that says why there is none. For
   * a call that threw it says what was thrown.
   */
  predicate AnswersAs(doc: Doc, verdict: Verdict) {
    match verdict
    case Came(json, error) =>
      doc == if json != "" then Reply(json)
             else Unreachable(if error != "" then error else "pretzel-ai returned no result")
    case Threw(reason) => doc == Unreachable(reason)
    case Outstanding => false
  }

  /** Partial reports, then exactly one answer; all of the text is reported unless the call threw. */
  ghost predicate Done(docs: seq<Doc>, e: Entry, threw: bool) {
    && docs != []
    && var n := |docs| - 1;
    && AllPartial(docs[..n]) && Batched(docs[..n], true)
    && AnswersAs(docs[n], e.verdict) && (threw <==> e.verdict.Threw?)
    && TextOf(docs[..n]) <= e.said && (!threw ==> TextOf(docs[..n]) == e.said)
  }

  /** The reports of a stream's messages: each as it came. */
  function Relayed(heard: seq<string>): seq<Doc> {
    seq(|heard|, i requires 0 <= i < |heard| => Reply(heard[i]))
  }

  ghost predicate HeardFinal(heard: seq<string>) {
    exists i :: 0 <= i < |heard| && IsFinal(heard[i])
  }

  ghost predicate OccursAt(s: string, p: string, i: int) {
    0 <= i && i + |p| <= |s| && s[i..i + |p|] == p
  }

  ghost predicate Contains(s: string, p: string) {
    exists i :: OccursAt(s, p, i)
  }

  /** The report that closes a stream whose service sent no final message. */
  ghost function Closing(error: string): Doc {
    if Contains(error, "CANCELLED") || Contains(error, "Cancelled") then Cancelled
    else Unreachable(if error != "" then error else "the stream closed")
  }

  ghost predicate Progressing(docs: seq<Doc>, e: Entry, sawFinal: bool) {
    docs == Relayed(e.heard) && (sawFinal <==> HeardFinal(e.heard)) && e.verdict == Outstanding
  }

  /** The stream returned: its service said so, or exactly one closing report says it. */
  ghost predicate Closed(docs: seq<Doc>, e: Entry) {
    && e.verdict.Came?
    && docs == Relayed(e.heard) + if HeardFinal(e.heard) then [] else [Closing(e.verdict.error)]
  }

  ghost predicate Crashed(docs: seq<Doc>, e: Entry) {
    e.verdict.Threw? && docs == Relayed(e.heard) + [Unreachable(e.verdict.reason)]
  }

  ghost predicate StreamTold(phase: Phase, e: Entry, docs: seq<Doc>) {
    match phase
    case Body(sawFinal) => Progressing(docs, e, sawFinal)
    case Leaving => Closed(docs, e)
    case Finished(threw) => if threw then Crashed(docs, e) else Closed(docs, e)
    case Unwound(reason) => docs == Relayed(e.heard) && e.verdict == Threw(reason)
  }

  ghost predicate WorkerTold(worker: Worker, e: Entry, docs: seq<Doc>) {
    match worker
    case Calling(_, pending) =>
      |pending| < DELTA_BATCH && Talking(docs, e.said, pending, false) && e.verdict == Outstanding
    case Returned(_, doc) => e.verdict.Came? && AnswersAs(doc, e.verdict) && Talking(docs, e.said, "", true)
    case _ => false
  }

  // ---- The invariant ----

  /** Call `id` is where its entry says, and has been reported as far as that. */
  ghost predicate CallOk(s: State, id: nat)
    requires id < |s.entries|
  {
    var e, docs := s.entries[id], DocsOf(s.pushed, id);
    match e.place
    case Queued => !Streams(e.call.cmd) && id in s.queue && docs == [] && e == NewEntry(e.call, Queued)
    case Held(w) =>
      !Streams(e.call.cmd) && w < |s.workers| && Holds(s.workers[w], id) && WorkerTold(s.workers[w], e, docs)
    case Answered(threw) => !Streams(e.call.cmd) && Done(docs, e, threw)
    case Admitted => Streams(e.call.cmd) && s.loop == Joining(id) && docs == [] && e == NewEntry(e.call, Admitted)
    case OnThread(t) =>
      Streams(e.call.cmd) && t < |s.threads| && s.threads[t].id == id && StreamTold(s.threads[t].phase, e, docs)
    case Refused => Streams(e.call.cmd) && docs == [Unreachable(BUSY)]
  }

  predicate WasTaken(place: Place) { place.Held? || place.Answered? }

  /** Calls wait in the order of their numbers, behind all that were taken. */
  ghost predicate QueueOk(s: State) {
    && (forall i :: 0 <= i < |s.queue| ==> s.queue[i] < |s.entries| && s.entries[s.queue[i]].place == Queued)
    && (forall i, j :: 0 <= i < j < |s.queue| ==> s.queue[i] < s.queue[j])
    && (forall id, i :: 0 <= id < |s.entries| && 0 <= i < |s.queue| && WasTaken(s.entries[id].place) ==>
         id < s.queue[i])
  }

  ghost predicate WorkerOk(s: State, w: nat)
    requires w < |s.workers|
  {
    match s.workers[w]
    case Idle => true
    case Gone => s.stopping && s.queue == []
    case Calling(id, _) => id < |s.entries| && s.entries[id].place == Held(w)
    case Returned(id, _) => id < |s.entries| && s.entries[id].place == Held(w)
  }

  ghost predicate ThreadsOk(s: State) {
    && (forall t :: 0 <= t < |s.threads| ==>
         s.threads[t].id < |s.entries| && s.entries[s.threads[t].id].place == OnThread(t))
    && (forall t :: 0 <= t < |s.threads| - 1 ==> s.threads[t].phase.Finished?)
    && (s.loop.Joining? ==> s.loop.id < |s.entries| && s.entries[s.loop.id].place == Admitted)
  }

  /** The flag is up from admission until `runStream` is left, however it is left. */
  ghost predicate FlagOk(s: State) {
    && (s.streaming <==> s.loop.Joining? || InRunStream(s))
    && (s.loop.Joining? ==> s.threads != [] && !InRunStream(s))
  }

  ghost predicate LoopOk(s: State) {
    && (s.stopping <==> s.loop == Destroying)
    && (s.batch != [] ==> s.loop == Free)
    && s.pushed == s.sunk + s.batch + s.done
    && forall i :: 0 <= i < |s.pushed| ==>
         s.pushed[i].origin < |s.entries| && s.pushed[i].call == s.entries[s.pushed[i].origin].call
  }

  ghost predicate CallsOk(s: State) {
    forall id :: 0 <= id < |s.entries| ==> CallOk(s, id)
  }

  ghost predicate WorkersOk(s: State) {
    forall w :: 0 <= w < |s.workers| ==> WorkerOk(s, w)
  }

  ghost predicate Inv(s: State) {
    CallsOk(s) && WorkersOk(s) && QueueOk(s) && ThreadsOk(s) && FlagOk(s) && LoopOk(s)
  }

  // ---- Steps keep it: what a step does not touch ----

  /** Between the states nothing that bears on call `id` changed. */
  ghost predicate Untouched(s: State, n: State, id: nat)
    requires id < |s.entries|
  {
    && id < |n.entries| && n.entries[id] == s.entries[id]
    && DocsOf(n.pushed, id) == DocsOf(s.pushed, id)
    && match s.entries[id].place
       case Queued => id in s.queue ==> id in n.queue
       case Held(w) => w < |s.workers| ==> w < |n.workers| && n.workers[w] == s.workers[w]
       case OnThread(t) => t < |s.threads| ==> t < |n.threads| && n.threads[t] == s.threads[t]
       case Admitted => n.loop == s.loop
       case _ => true
  }

  lemma StaysOk(s: State, n: State, id: nat)
    requires id < |s.entries| && CallOk(s, id) && Untouched(s, n, id)
    ensures CallOk(n, id)
  {
  }

  lemma PushDocs(s: State, id: nat, doc: Option<Doc>, other: nat)
    requires id < |s.entries|
    ensures DocsOf(Push(s, id, doc).pushed, other) ==
      DocsOf(s.pushed, other) + if doc.Some? && other == id then [doc.value] else []
  {
    if doc.Some? {
      DocsPush(s.pushed, Report(id, s.entries[id].call, doc.value), other);
    }
  }

  /** Delivery is in the order of reporting, whatever is reported next. */
  lemma PushKeepsLoop(s: State, id: nat, doc: Option<Doc>)
    requires id < |s.entries| && LoopOk(s)
    ensures LoopOk(Push(s, id, doc))
  {
    if doc.Some? {
      var r := Report(id, s.entries[id].call, doc.value);
      assert s.sunk + s.batch + (s.done + [r]) == s.sunk + s.batch + s.done + [r];
    }
  }

  /** Entries may move and new ones come without disturbing what was reported. */
  lemma LoopStays(s: State, n: State)
    requires LoopOk(s) && n.pushed == s.pushed && n.sunk == s.sunk && n.batch == s.batch && n.done == s.done
    requires n.stopping == s.stopping && n.loop == s.loop
    requires |n.entries| >= |s.entries|
    requires forall id :: 0 <= id < |s.entries| ==> n.entries[id].call == s.entries[id].call
    ensures LoopOk(n)
  {
  }

  // ---- Worker steps ----

  ghost predicate WorkerStepOk(s: State, w: nat, worker: Worker, e: Entry, doc: Option<Doc>)
    requires Live(s, w)
  {
    var id := s.workers[w].id;
    var docs := DocsOf(s.pushed, id) + if doc.Some? then [doc.value] else [];
    && e.call == s.entries[id].call
    && ((e.place == Held(w) && Holds(worker, id) && WorkerTold(worker, e, docs))
        || (e.place.Answered? && worker == Idle && Done(docs, e, e.place.threw)))
  }

  lemma WorkerStepKeepsOthers(s: State, w: nat, worker: Worker, e: Entry, doc: Option<Doc>, id: nat)
    requires Live(s, w) && id < |s.entries| && id != s.workers[w].id && CallOk(s, id)
    ensures CallOk(WorkerMoves(s, w, worker, e, doc), id)
  {
    WorkerStepLeaves(s, w, worker, e, doc, id, WorkerMoves(s, w, worker, e, doc));
    StaysOk(s, WorkerMoves(s, w, worker, e, doc), id);
  }

  lemma WorkerStepLeaves(s: State, w: nat, worker: Worker, e: Entry, doc: Option<Doc>, id: nat, n: State)
    requires Live(s, w) && id < |s.entries| && id != s.workers[w].id && s.entries[id].place != Held(w)
    requires n == WorkerMoves(s, w, worker, e, doc)
    ensures Untouched(s, n, id)
  {
    var own := s.workers[w].id;
    PushDocs(s.(workers := s.workers[w := worker], entries := s.entries[own := e]), own, doc, id);
  }

  lemma WorkerStepKeepsOwn(s: State, w: nat, worker: Worker, e: Entry, doc: Option<Doc>)
    requires Live(s, w) && WorkerStepOk(s, w, worker, e, doc)
    requires CallOk(s, s.workers[w].id) && s.entries[s.workers[w].id].place == Held(w)
    ensures CallOk(WorkerMoves(s, w, worker, e, doc), s.workers[w].id)
  {
    var own := s.workers[w].id;
    PushDocs(s.(workers := s.workers[w := worker], entries := s.entries[own := e]), own, doc, own);
  }

  lemma WorkerStepKeepsCalls(s: State, w: nat, worker: Worker, e: Entry, doc: Option<Doc>)
    requires Live(s, w) && CallsOk(s) && WorkersOk(s) && WorkerStepOk(s, w, worker, e, doc)
    ensures CallsOk(WorkerMoves(s, w, worker, e, doc))
  {
    var n := WorkerMoves(s, w, worker, e, doc);
    assert WorkerOk(s, w);
    forall i | 0 <= i < |n.entries| ensures CallOk(n, i) {
      assert CallOk(s, i);
      if i == s.workers[w].id {
        WorkerStepKeepsOwn(s, w, worker, e, doc);
      } else {
        WorkerStepKeepsOthers(s, w, worker, e, doc, i);
      }
    }
  }

  lemma WorkerStepKeepsWorker(s: State, w: nat, worker: Worker, e: Entry, doc: Option<Doc>, v: nat)
    requires Live(s, w) && v < |s.workers| && WorkerOk(s, w) && WorkerOk(s, v)
    requires (e.place == Held(w) && Holds(worker, s.workers[w].id)) || (e.place.Answered? && worker == Idle)
    ensures WorkerOk(WorkerMoves(s, w, worker, e, doc), v)
  {
  }

  /** What a worker holds is neither queued nor with the stream. */
  lemma WorkerStepKeepsRest(s: State, w: nat, worker: Worker, e: Entry, doc: Option<Doc>)
    requires Live(s, w) && WorkerOk(s, w) && QueueOk(s) && ThreadsOk(s) && FlagOk(s)
    requires e.call == s.entries[s.workers[w].id].call
    ensures var n := WorkerMoves(s, w, worker, e, doc); QueueOk(n) && ThreadsOk(n) && FlagOk(n)
  {
    var n := WorkerMoves(s, w, worker, e, doc);
    HeldIsNotQueued(s, n, s.workers[w].id, e);
    HeldIsNoStream(s, n, s.workers[w].id, e);
  }

  lemma HeldIsNotQueued(s: State, n: State, id: nat, e: Entry)
    requires QueueOk(s) && id < |s.entries| && s.entries[id].place.Held?
    requires n.queue == s.queue && n.entries == s.entries[id := e]
    ensures QueueOk(n)
  {
  }

  lemma HeldIsNoStream(s: State, n: State, id: nat, e: Entry)
    requires ThreadsOk(s) && FlagOk(s) && id < |s.entries| && s.entries[id].place.Held?
    requires n.entries == s.entries[id := e] && n.threads == s.threads && n.loop == s.loop && n.streaming == s.streaming
    ensures ThreadsOk(n) && FlagOk(n)
  {
  }

  lemma WorkerStepKeepsLoop(s: State, w: nat, worker: Worker, e: Entry, doc: Option<Doc>)
    requires Live(s, w) && LoopOk(s) && e.call == s.entries[s.workers[w].id].call
    ensures LoopOk(WorkerMoves(s, w, worker, e, doc))
  {
    var id := s.workers[w].id;
    var m := s.(workers := s.workers[w := worker], entries := s.entries[id := e]);
    LoopStays(s, m);
    PushKeepsLoop(m, id, doc);
  }

  lemma WorkerStepKeepsInv(s: State, w: nat, worker: Worker, e: Entry, doc: Option<Doc>)
    requires Inv(s) && Live(s, w) && WorkerStepOk(s, w, worker, e, doc)
    ensures Inv(WorkerMoves(s, w, worker, e, doc))
  {
    var n := WorkerMoves(s, w, worker, e, doc);
    assert WorkerOk(s, w);
    WorkerStepKeepsCalls(s, w, worker, e, doc);
    forall v | 0 <= v < |n.workers| ensures WorkerOk(n, v) {
      assert WorkerOk(s, v);
      WorkerStepKeepsWorker(s, w, worker, e, doc, v);
    }
    WorkerStepKeepsRest(s, w, worker, e, doc);
    WorkerStepKeepsLoop(s, w, worker, e, doc);
  }

  lemma HeldIsTold(s: State, w: nat)
    requires Inv(s) && Live(s, w)
    ensures var id := s.workers[w].id; WorkerTold(s.workers[w], s.entries[id], DocsOf(s.pushed, id))
    ensures s.entries[s.workers[w].id].place == Held(w)
  {
    assert WorkerOk(s, w) && CallOk(s, s.workers[w].id);
  }

  lemma ReportPending(docs: seq<Doc>, said: string, pending: string)
    requires Talking(docs, said, pending, false)
    ensures pending != "" ==> Talking(docs + [Partial(pending)], said, "", true)
    ensures pending == "" ==> Talking(docs + [], said, "", true)
    ensures |pending| >= 24 ==> Talking(docs + [Partial(pending)], said, "", false)
  {
    TextPush(docs, Partial(pending));
    assert docs + [] == docs;
    if pending != "" {
      OneMorePartial(docs, pending, docs + [Partial(pending)]);
    }
  }

  lemma OneMorePartial(docs: seq<Doc>, text: string, more: seq<Doc>)
    requires AllPartial(docs) && Batched(docs, false) && text != "" && more == docs + [Partial(text)]
    ensures AllPartial(more) && Batched(more, true) && (|text| >= 24 ==> Batched(more, false))
  {
  }

  lemma SayMore(docs: seq<Doc>, said: string, pending: string, text: string)
    requires Talking(docs, said, pending, false)
    ensures Talking(docs, said + text, pending + text, false)
  {
    assert TextOf(docs) + pending + text == TextOf(docs) + (pending + text);
  }

  lemma Conclusion(docs: seq<Doc>, e: Entry, pending: string, flushed: bool, doc: Doc, verdict: Verdict)
    requires Talking(docs, e.said, pending, flushed) && AnswersAs(doc, verdict)
    ensures verdict.Came? && pending == "" ==>
      Done(docs + [doc], e.(place := Answered(false), verdict := verdict), false)
    ensures verdict.Threw? ==> Done(docs + [doc], e.(place := Answered(true), verdict := verdict), true)
  {
    assert (docs + [doc])[..|docs|] == docs;
  }

  lemma GatherKeepsInv(s: State, w: nat, text: string)
    requires Inv(s) && Live(s, w) && s.workers[w].Calling?
    ensures Inv(Gather(s, w, text))
  {
    var id, before := s.workers[w].id, s.workers[w].pending;
    var e := s.entries[id];
    var docs, pending := DocsOf(s.pushed, id), before + text;
    HeldIsTold(s, w);
    SayMore(docs, e.said, before, text);
    if pending == "" || |pending| < DELTA_BATCH {
      assert docs + [] == docs;
      WorkerStepKeepsInv(s, w, Calling(id, pending), e.(said := e.said + text), None);
    } else {
      ReportPending(docs, e.said + text, pending);
      WorkerStepKeepsInv(s, w, Calling(id, ""), e.(said := e.said + text), Some(Partial(pending)));
    }
  }

  /** What a call that came back will be answered with. */
  lemma ComeBackKeepsInv(s: State, w: nat, json: string, error: string)
    requires Inv(s) && Live(s, w) && s.workers[w].Calling?
    ensures Inv(ComeBack(s, w, json, error))
  {
    var id, pending := s.workers[w].id, s.workers[w].pending;
    var doc := if json == "" then Unreachable(OrElse(error, NO_RESULT)) else Reply(json);
    HeldIsTold(s, w);
    ReportPending(DocsOf(s.pushed, id), s.entries[id].said, pending);
    WorkerStepKeepsInv(s, w, Returned(id, doc), s.entries[id].(verdict := Came(json, error)),
                       if pending == "" then None else Some(Partial(pending)));
  }

  lemma ConcludeKeepsInv(s: State, w: nat, doc: Doc, threw: bool, verdict: Verdict)
    requires Inv(s) && Live(s, w)
    requires if threw then verdict.Threw? && doc == Unreachable(verdict.reason)
      else s.workers[w].Returned? && doc == s.workers[w].doc && verdict == s.entries[s.workers[w].id].verdict
    ensures Inv(Conclude(s, w, doc, threw, verdict))
  {
    var id := s.workers[w].id;
    HeldIsTold(s, w);
    var pending := if s.workers[w].Calling? then s.workers[w].pending else "";
    Conclusion(DocsOf(s.pushed, id), s.entries[id], pending, s.workers[w].Returned?, doc, verdict);
    WorkerStepKeepsInv(s, w, Idle, s.entries[id].(place := Answered(threw), verdict := verdict), Some(doc));
  }

  lemma PopKeepsCall(s: State, w: nat, i: nat)
    requires Enabled(s, Pop(w)) && i < |s.entries| && i != s.queue[0] && CallOk(s, i)
    ensures CallOk(Next(s, Pop(w)), i)
  {
    var n := Next(s, Pop(w));
    if i in s.queue {
      var k :| 0 <= k < |s.queue| && s.queue[k] == i;
      assert n.queue[k - 1] == i;
    }
    StaysOk(s, n, i);
  }

  lemma PopKeepsWorkers(s: State, w: nat)
    requires Enabled(s, Pop(w)) && WorkersOk(s) && QueueOk(s)
    ensures WorkersOk(Next(s, Pop(w)))
  {
    var n := Next(s, Pop(w));
    assert s.entries[s.queue[0]].place == Queued;
    forall v | 0 <= v < |n.workers| ensures WorkerOk(n, v) { assert WorkerOk(s, v); }
  }

  lemma PopKeepsRest(s: State, w: nat)
    requires Enabled(s, Pop(w)) && QueueOk(s) && ThreadsOk(s) && FlagOk(s) && LoopOk(s)
    ensures var n := Next(s, Pop(w)); QueueOk(n) && ThreadsOk(n) && FlagOk(n) && LoopOk(n)
  {
    assert s.entries[s.queue[0]].place == Queued;
    LoopStays(s, Next(s, Pop(w)));
  }

  lemma PopKeepsInv(s: State, w: nat)
    requires Inv(s) && Enabled(s, Pop(w))
    ensures Inv(Next(s, Pop(w)))
  {
    var n := Next(s, Pop(w));
    assert s.entries[s.queue[0]].place == Queued && CallOk(s, s.queue[0]);
    forall i | 0 <= i < |n.entries| ensures CallOk(n, i) {
      assert CallOk(s, i);
      if i != s.queue[0] { PopKeepsCall(s, w, i); }
    }
    PopKeepsWorkers(s, w);
    PopKeepsRest(s, w);
  }

  /** A worker leaves only when it is told to stop and nothing is queued. */
  lemma ExitKeepsInv(s: State, w: nat)
    requires Inv(s) && Enabled(s, Exit(w))
    ensures Inv(Next(s, Exit(w)))
  {
    var n := Next(s, Exit(w));
    forall i | 0 <= i < |n.entries| ensures CallOk(n, i) {
      assert CallOk(s, i) && WorkerOk(s, w);
      StaysOk(s, n, i);
    }
    forall v | 0 <= v < |n.workers| ensures WorkerOk(n, v) { assert WorkerOk(s, v); }
    LoopStays(s, n);
  }

  // ---- Stream steps ----

  /** The entry of the stream's call keeps call and place, and its reports say how far the stream has come. */
  ghost predicate StreamStepOk(s: State, phase: Phase, e: Entry, doc: Option<Doc>)
    requires HasStream(s)
  {
    && e.call == StreamEntry(s).call && e.place == StreamEntry(s).place
    && StreamTold(phase, e, DocsOf(s.pushed, Stream(s).id) + if doc.Some? then [doc.value] else [])
  }

  lemma StreamStepKeepsCall(s: State, phase: Phase, streaming: bool, e: Entry, doc: Option<Doc>, i: nat)
    requires HasStream(s) && CallsOk(s) && ThreadsOk(s) && i < |s.entries| && StreamStepOk(s, phase, e, doc)
    ensures CallOk(StreamMoves(s, phase, streaming, e, doc), i)
  {
    assert CallOk(s, i);
    if i == Stream(s).id {
      StreamStepTells(s, phase, streaming, e, doc, StreamMoves(s, phase, streaming, e, doc));
    } else {
      StreamStepLeaves(s, phase, streaming, e, doc, i, StreamMoves(s, phase, streaming, e, doc));
      StaysOk(s, StreamMoves(s, phase, streaming, e, doc), i);
    }
  }

  lemma StreamStepTells(s: State, phase: Phase, streaming: bool, e: Entry, doc: Option<Doc>, n: State)
    requires HasStream(s) && CallOk(s, Stream(s).id) && ThreadsOk(s) && StreamStepOk(s, phase, e, doc)
    requires n == StreamMoves(s, phase, streaming, e, doc)
    ensures CallOk(n, Stream(s).id)
  {
    var t := |s.threads| - 1;
    var own := s.threads[t].id;
    PushDocs(s.(threads := s.threads[t := s.threads[t].(phase := phase)], streaming := streaming,
                entries := s.entries[own := e]), own, doc, own);
    assert s.entries[own].place == OnThread(t);
  }

  lemma StreamStepLeaves(s: State, phase: Phase, streaming: bool, e: Entry, doc: Option<Doc>, i: nat, n: State)
    requires HasStream(s) && i < |s.entries| && i != Stream(s).id && n == StreamMoves(s, phase, streaming, e, doc)
    requires s.entries[i].place.OnThread? ==> s.entries[i].place.t != |s.threads| - 1
    ensures Untouched(s, n, i)
  {
    var t := |s.threads| - 1;
    var own := s.threads[t].id;
    PushDocs(s.(threads := s.threads[t := s.threads[t].(phase := phase)], streaming := streaming,
                entries := s.entries[own := e]), own, doc, i);
  }

  lemma StreamStepKeepsInv(s: State, phase: Phase, streaming: bool, e: Entry, doc: Option<Doc>)
    requires Inv(s) && HasStream(s) && StreamStepOk(s, phase, e, doc)
    requires s.loop.Joining? ==> !phase.Body? && !phase.Leaving?
    requires streaming <==> s.loop.Joining? || phase.Body? || phase.Leaving?
    ensures Inv(StreamMoves(s, phase, streaming, e, doc))
  {
    var n := StreamMoves(s, phase, streaming, e, doc);
    forall i | 0 <= i < |n.entries| ensures CallOk(n, i) { StreamStepKeepsCall(s, phase, streaming, e, doc, i); }
    forall v | 0 <= v < |n.workers| ensures WorkerOk(n, v) { assert WorkerOk(s, v); }
    StreamStepKeepsRest(s, phase, streaming, e, doc);
  }

  lemma StreamStepKeepsRest(s: State, phase: Phase, streaming: bool, e: Entry, doc: Option<Doc>)
    requires HasStream(s) && QueueOk(s) && ThreadsOk(s) && FlagOk(s) && LoopOk(s) && StreamStepOk(s, phase, e, doc)
    requires s.loop.Joining? ==> !phase.Body? && !phase.Leaving?
    requires streaming <==> s.loop.Joining? || phase.Body? || phase.Leaving?
    ensures var n := StreamMoves(s, phase, streaming, e, doc); QueueOk(n) && ThreadsOk(n) && FlagOk(n) && LoopOk(n)
  {
    StreamStepKeepsLoop(s, phase, streaming, e, doc);
    QueueStays(s, StreamMoves(s, phase, streaming, e, doc));
    StreamStepKeepsThreads(s, phase, streaming, e, doc);
  }

  lemma StreamStepKeepsLoop(s: State, phase: Phase, streaming: bool, e: Entry, doc: Option<Doc>)
    requires HasStream(s) && LoopOk(s) && StreamStepOk(s, phase, e, doc)
    ensures LoopOk(StreamMoves(s, phase, streaming, e, doc))
  {
    var t := |s.threads| - 1;
    var m := s.(threads := s.threads[t := s.threads[t].(phase := phase)], streaming := streaming,
                entries := s.entries[s.threads[t].id := e]);
    LoopStays(s, m);
    PushKeepsLoop(m, s.threads[t].id, doc);
  }

  lemma StreamStepKeepsThreads(s: State, phase: Phase, streaming: bool, e: Entry, doc: Option<Doc>)
    requires HasStream(s) && ThreadsOk(s) && FlagOk(s) && StreamStepOk(s, phase, e, doc)
    requires s.loop.Joining? ==> !phase.Body? && !phase.Leaving?
    requires streaming <==> s.loop.Joining? || phase.Body? || phase.Leaving?
    ensures var n := StreamMoves(s, phase, streaming, e, doc); ThreadsOk(n) && FlagOk(n)
  {
  }

  lemma QueueStays(s: State, n: State)
    requires QueueOk(s) && n.queue == s.queue && |n.entries| == |s.entries|
    requires forall id :: 0 <= id < |s.entries| ==> n.entries[id].place == s.entries[id].place
    ensures QueueOk(n)
  {
  }

  lemma StreamIsTold(s: State)
    requires Inv(s) && HasStream(s)
    ensures StreamTold(Stream(s).phase, StreamEntry(s), DocsOf(s.pushed, Stream(s).id))
  {
    assert CallOk(s, Stream(s).id);
  }

  lemma ProgressTold(docs: seq<Doc>, e: Entry, sawFinal: bool, json: string)
    requires Progressing(docs, e, sawFinal)
    ensures Progressing(docs + [Reply(json)], e.(heard := e.heard + [json]), sawFinal || IsFinal(json))
  {
    var more := e.heard + [json];
    if sawFinal {
      var i :| 0 <= i < |e.heard| && IsFinal(e.heard[i]);
      assert more[i] == e.heard[i];
    }
    if IsFinal(json) {
      assert more[|e.heard|] == json;
    }
  }

  /** An error counts as a cancellation exactly if it contains one of the two words. */
  lemma CancelExactly(error: string)
    ensures IsCancel(error) <==> Contains(error, "CANCELLED") || Contains(error, "Cancelled")
  {
    FindFirst(error, "CANCELLED", 0);
    FindFirst(error, "Cancelled", 0);
  }

  lemma ClosingTold(docs: seq<Doc>, e: Entry, sawFinal: bool, error: string)
    requires Progressing(docs, e, sawFinal)
    ensures var closing := ClosingDoc(sawFinal, error);
      Closed(docs + if closing.Some? then [closing.value] else [], e.(verdict := Came("", error)))
  {
    CancelExactly(error);
    assert docs + [] == docs;
  }

  lemma StreamLabelKeepsInv(s: State, l: Label)
    requires Inv(s) && Enabled(s, l)
    requires l.Progress? || l.StreamReturn? || l.StreamLeave? || l.StreamThrow? || l.StreamCatch?
    ensures Inv(Next(s, l))
  {
    var docs, e := DocsOf(s.pushed, Stream(s).id), StreamEntry(s);
    StreamIsTold(s);
    assert docs + [] == docs;
    match l
    case Progress(json) =>
      ProgressTold(docs, e, Stream(s).phase.sawFinal, json);
      StreamStepKeepsInv(s, Body(Stream(s).phase.sawFinal || IsFinal(json)), s.streaming,
                         e.(heard := e.heard + [json]), Some(Reply(json)));
    case StreamReturn(error) =>
      ClosingTold(docs, e, Stream(s).phase.sawFinal, error);
      StreamStepKeepsInv(s, Leaving, s.streaming, e.(verdict := Came("", error)),
                         ClosingDoc(Stream(s).phase.sawFinal, error));
    case StreamLeave => StreamStepKeepsInv(s, Finished(false), false, e, None);
    case StreamThrow(reason) => StreamStepKeepsInv(s, Unwound(reason), false, e.(verdict := Threw(reason)), None);
    case StreamCatch =>
      StreamStepKeepsInv(s, Finished(true), s.streaming, e, Some(Unreachable(Stream(s).phase.reason)));
  }

  // ---- Loop steps ----

  lemma {:induction false} NoReportYet(pushed: seq<Report>, id: nat)
    requires forall i :: 0 <= i < |pushed| ==> pushed[i].origin != id
    ensures DocsOf(pushed, id) == []
  {
    if pushed != [] {
      NoReportYet(pushed[..|pushed| - 1], id);
    }
  }

  /** A new call is put where its command belongs. */
  lemma NewCallKeepsInv(s: State, call: Call)
    requires Inv(s) && s.loop == Free && s.batch == [] && !Cancels(call.cmd)
    ensures Inv(Accept(s, call))
  {
    NoReportYet(s.pushed, |s.entries|);
    NewCallKeepsCalls(s, call);
    NewCallKeepsWorkers(s, call);
    NewCallKeepsQueue(s, call);
    NewCallKeepsThreads(s, call);
    NewCallKeepsLoop(s, call);
  }

  lemma NewCallKeepsCalls(s: State, call: Call)
    requires CallsOk(s) && s.loop == Free && !Cancels(call.cmd) && DocsOf(s.pushed, |s.entries|) == []
    ensures CallsOk(Accept(s, call))
  {
    var n := Accept(s, call);
    NewCallOk(s, call);
    forall i | 0 <= i < |n.entries| ensures CallOk(n, i) {
      if i < |s.entries| {
        assert CallOk(s, i);
        NewCallKeepsOthers(s, call, i);
      }
    }
  }

  lemma NewCallKeepsOthers(s: State, call: Call, i: nat)
    requires s.loop == Free && !Cancels(call.cmd) && i < |s.entries| && CallOk(s, i)
    ensures CallOk(Accept(s, call), i)
  {
    if Streams(call.cmd) && s.streaming {
      PushDocs(New(s, call, Refused), |s.entries|, Some(Unreachable(BUSY)), i);
    }
    StaysOk(s, Accept(s, call), i);
  }

  lemma NewCallOk(s: State, call: Call)
    requires s.loop == Free && !Cancels(call.cmd) && DocsOf(s.pushed, |s.entries|) == []
    ensures |Accept(s, call).entries| == |s.entries| + 1 && CallOk(Accept(s, call), |s.entries|)
  {
    if !Streams(call.cmd) {
      UnaryIsQueued(s, call, Accept(s, call));
    } else if s.streaming {
      StreamIsRefused(s, call, Accept(s, call));
    } else {
      StreamIsAdmitted(s, call, Accept(s, call));
    }
  }

  lemma UnaryIsQueued(s: State, call: Call, n: State)
    requires DocsOf(s.pushed, |s.entries|) == [] && !Streams(call.cmd) && !Cancels(call.cmd) && n == Accept(s, call)
    ensures |n.entries| == |s.entries| + 1 && CallOk(n, |s.entries|)
  {
    assert n.queue[|s.queue|] == |s.entries|;
  }

  lemma StreamIsRefused(s: State, call: Call, n: State)
    requires DocsOf(s.pushed, |s.entries|) == [] && Streams(call.cmd) && s.streaming && n == Accept(s, call)
    ensures |n.entries| == |s.entries| + 1 && CallOk(n, |s.entries|)
  {
    PushDocs(New(s, call, Refused), |s.entries|, Some(Unreachable(BUSY)), |s.entries|);
  }

  lemma StreamIsAdmitted(s: State, call: Call, n: State)
    requires DocsOf(s.pushed, |s.entries|) == [] && Streams(call.cmd) && !s.streaming && n == Accept(s, call)
    ensures |n.entries| == |s.entries| + 1 && CallOk(n, |s.entries|)
  {
  }

  lemma NewCallKeepsWorkers(s: State, call: Call)
    requires WorkersOk(s) && LoopOk(s) && s.loop == Free && !Cancels(call.cmd)
    ensures WorkersOk(Accept(s, call))
  {
    var n := Accept(s, call);
    forall v | 0 <= v < |n.workers| ensures WorkerOk(n, v) { assert WorkerOk(s, v); }
  }

  lemma NewCallKeepsQueue(s: State, call: Call)
    requires QueueOk(s) && !Cancels(call.cmd)
    ensures QueueOk(Accept(s, call))
  {
    if Streams(call.cmd) {
      var n := Accept(s, call);
      NewEntryAside(s, n, n.entries[|s.entries|]);
    } else {
      NewEntryQueued(s, Accept(s, call), NewEntry(call, Queued));
    }
  }

  lemma NewEntryAside(s: State, n: State, e: Entry)
    requires QueueOk(s) && n.queue == s.queue && n.entries == s.entries + [e] && !WasTaken(e.place)
    ensures QueueOk(n)
  {
  }

  lemma NewEntryQueued(s: State, n: State, e: Entry)
    requires QueueOk(s) && n.queue == s.queue + [|s.entries|] && n.entries == s.entries + [e] && e.place == Queued
    ensures QueueOk(n)
  {
  }

  lemma NewCallKeepsThreads(s: State, call: Call)
    requires ThreadsOk(s) && FlagOk(s) && s.loop == Free && !Cancels(call.cmd)
    ensures ThreadsOk(Accept(s, call)) && FlagOk(Accept(s, call))
  {
  }

  lemma NewCallKeepsLoop(s: State, call: Call)
    requires LoopOk(s) && s.batch == [] && s.loop == Free && !Cancels(call.cmd)
    ensures LoopOk(Accept(s, call))
  {
    if Streams(call.cmd) && s.streaming {
      LoopStays(s, New(s, call, Refused));
      PushKeepsLoop(New(s, call, Refused), |s.entries|, Some(Unreachable(BUSY)));
    }
  }

  lemma JoinKeepsCall(s: State, i: nat)
    requires Enabled(s, Join) && i < |s.entries| && CallOk(s, i) && CallOk(s, s.loop.id)
    requires s.entries[s.loop.id].place == Admitted
    ensures CallOk(Next(s, Join), i)
  {
    if i != s.loop.id { StaysOk(s, Next(s, Join), i); }
  }

  lemma JoinKeepsRest(s: State)
    requires Enabled(s, Join) && WorkersOk(s) && QueueOk(s) && ThreadsOk(s) && FlagOk(s) && LoopOk(s)
    ensures var n := Next(s, Join); WorkersOk(n) && QueueOk(n) && ThreadsOk(n) && FlagOk(n) && LoopOk(n)
  {
    JoinKeepsWorkers(s, Next(s, Join));
    JoinKeepsThreads(s, Next(s, Join));
  }

  lemma JoinKeepsWorkers(s: State, n: State)
    requires Enabled(s, Join) && WorkersOk(s) && ThreadsOk(s) && QueueOk(s) && n == Next(s, Join)
    ensures WorkersOk(n) && QueueOk(n)
  {
    forall v | 0 <= v < |n.workers| ensures WorkerOk(n, v) { assert WorkerOk(s, v); }
  }

  lemma JoinKeepsThreads(s: State, n: State)
    requires Enabled(s, Join) && ThreadsOk(s) && FlagOk(s) && LoopOk(s) && n == Next(s, Join)
    ensures ThreadsOk(n) && FlagOk(n) && LoopOk(n)
  {
  }

  lemma JoinKeepsInv(s: State)
    requires Inv(s) && Enabled(s, Join)
    ensures Inv(Next(s, Join))
  {
    var n := Next(s, Join);
    assert CallOk(s, s.loop.id);
    forall i | 0 <= i < |n.entries| ensures CallOk(n, i) {
      assert CallOk(s, i);
      JoinKeepsCall(s, i);
    }
    JoinKeepsRest(s);
  }

  lemma DeliveryKeepsInv(s: State, l: Label)
    requires Inv(s) && Enabled(s, l) && (l.Take? || l.Deliver? || l.Stop?)
    ensures Inv(Next(s, l))
  {
    var n := Next(s, l);
    forall i | 0 <= i < |n.entries| ensures CallOk(n, i) {
      assert CallOk(s, i);
      StaysOk(s, n, i);
    }
    DeliveryKeepsRest(s, l);
  }

  lemma DeliveryKeepsRest(s: State, l: Label)
    requires WorkersOk(s) && QueueOk(s) && ThreadsOk(s) && FlagOk(s) && LoopOk(s)
    requires Enabled(s, l) && (l.Take? || l.Deliver? || l.Stop?)
    ensures var n := Next(s, l); WorkersOk(n) && QueueOk(n) && ThreadsOk(n) && FlagOk(n) && LoopOk(n)
  {
    DeliveryKeepsLoop(s, l, Next(s, l));
    DeliveryKeepsWorkers(s, l, Next(s, l));
  }

  lemma DeliveryKeepsLoop(s: State, l: Label, n: State)
    requires LoopOk(s) && Enabled(s, l) && (l.Take? || l.Deliver? || l.Stop?) && n == Next(s, l)
    ensures LoopOk(n)
  {
    if l.Deliver? {
      assert s.sunk + s.batch == n.sunk + n.batch;
    }
  }

  lemma DeliveryKeepsWorkers(s: State, l: Label, n: State)
    requires WorkersOk(s) && QueueOk(s) && ThreadsOk(s) && FlagOk(s)
    requires Enabled(s, l) && (l.Take? || l.Deliver? || l.Stop?) && n == Next(s, l)
    ensures WorkersOk(n) && QueueOk(n) && ThreadsOk(n) && FlagOk(n)
  {
    forall v | 0 <= v < |n.workers| ensures WorkerOk(n, v) { assert WorkerOk(s, v); }
    QueueStays(s, n);
  }

  // ---- Every interleaving ----

  lemma StepKeepsInv(s: State, l: Label)
    requires Inv(s) && Enabled(s, l)
    ensures Inv(Next(s, l))
  {
    match l
    case Egress(call) => if !Cancels(call.cmd) { NewCallKeepsInv(s, call); }
    case Join => JoinKeepsInv(s);
    case Pop(w) => PopKeepsInv(s, w);
    case Exit(w) => ExitKeepsInv(s, w);
    case Delta(w, text) => GatherKeepsInv(s, w, text);
    case Return(w, json, error) => ComeBackKeepsInv(s, w, json, error);
    case Answer(w) => ConcludeKeepsInv(s, w, s.workers[w].doc, false, s.entries[s.workers[w].id].verdict);
    case Throw(w, reason) => ConcludeKeepsInv(s, w, Unreachable(reason), true, Threw(reason));
    case Take => DeliveryKeepsInv(s, l);
    case Deliver => DeliveryKeepsInv(s, l);
    case Stop => DeliveryKeepsInv(s, l);
    case _ => StreamLabelKeepsInv(s, l);
  }

  lemma {:induction false} RunKeepsInv(s: State, labels: seq<Label>)
    requires Inv(s)
    ensures Inv(Run(s, labels))
    decreases |labels|
  {
    if labels != [] {
      if Enabled(s, labels[0]) {
        StepKeepsInv(s, labels[0]);
        RunKeepsInv(Next(s, labels[0]), labels[1..]);
      } else {
        RunKeepsInv(s, labels[1..]);
      }
    }
  }

  lemma StartOk(s: State, workers: nat)
    requires s == Started(workers)
    ensures Inv(s)
  {
    assert forall w :: 0 <= w < |s.workers| ==> s.workers[w] == Idle;
  }

  lemma RunFromStart(workers: nat, labels: seq<Label>)
    ensures Inv(Run(Started(workers), labels))
  {
    StartOk(Started(workers), workers);
    RunKeepsInv(Started(workers), labels);
  }

  /** How many of the reports are answers. */
  function Answers(docs: seq<Doc>): nat {
    if docs == [] then 0 else Answers(docs[..|docs| - 1]) + if docs[|docs| - 1].Partial? then 0 else 1
  }

  lemma {:induction false} NoAnswers(docs: seq<Doc>)
    requires AllPartial(docs)
    ensures Answers(docs) == 0
  {
    if docs != [] {
      NoAnswers(docs[..|docs| - 1]);
    }
  }

  lemma {:induction false} OnceInQueue(queue: seq<nat>, id: nat)
    requires forall i, j :: 0 <= i < j < |queue| ==> queue[i] != queue[j]
    ensures multiset(queue)[id] == if id in queue then 1 else 0
  {
    if queue != [] {
      OnceInQueue(queue[1..], id);
      assert queue == [queue[0]] + queue[1..];
    }
  }

  ghost function Holders(workers: seq<Worker>, id: nat): set<nat> {
    set w: nat | w < |workers| && Holds(workers[w], id)
  }

  lemma HoldersAre(s: State, id: nat)
    requires WorkersOk(s) && id < |s.entries|
    requires s.entries[id].place.Held? ==> CallOk(s, id)
    ensures Holders(s.workers, id) == if s.entries[id].place.Held? then {s.entries[id].place.w} else {}
  {
    forall w: nat | w in Holders(s.workers, id) ensures s.entries[id].place == Held(w) {
      assert WorkerOk(s, w);
    }
  }

  /**
   * In every interleaving a unary call is queued once, or held by one worker, or answered once: never two of these and
   * never none.
   */
  lemma OnePlaceOneAnswer(workers: nat, labels: seq<Label>, id: nat)
    requires id < |Run(Started(workers), labels).entries|
    requires !Streams(Run(Started(workers), labels).entries[id].call.cmd)
    ensures var s := Run(Started(workers), labels);
      multiset(s.queue)[id] + |Holders(s.workers, id)| + Answers(DocsOf(s.pushed, id)) == 1
  {
    RunFromStart(workers, labels);
    CountPlaces(Run(Started(workers), labels), id);
  }

  lemma CountPlaces(s: State, id: nat)
    requires Inv(s) && id < |s.entries| && !Streams(s.entries[id].call.cmd)
    ensures multiset(s.queue)[id] + |Holders(s.workers, id)| + Answers(DocsOf(s.pushed, id)) == 1
  {
    assert CallOk(s, id);
    OnceInQueue(s.queue, id);
    HoldersAre(s, id);
    var docs := DocsOf(s.pushed, id);
    if s.entries[id].place.Answered? {
      NoAnswers(docs[..|docs| - 1]);
    } else {
      NoAnswers(docs);
    }
  }

  /** Unary calls are taken up in the order in which the loop handed them over. */
  lemma TakenInOrder(workers: nat, labels: seq<Label>, a: nat, b: nat)
    requires a < b < |Run(Started(workers), labels).entries|
    requires !Streams(Run(Started(workers), labels).entries[a].call.cmd)
    ensures var s := Run(Started(workers), labels);
      WasTaken(s.entries[b].place) ==> WasTaken(s.entries[a].place)
  {
    RunFromStart(workers, labels);
    var s := Run(Started(workers), labels);
    assert CallOk(s, a) && CallOk(s, b);
  }

  /** A worker that has left saw the stop and an empty queue; once all have left, every unary call has its answer. */
  lemma NoneLeftBehind(workers: nat, labels: seq<Label>)
    ensures var s := Run(Started(workers), labels);
      && (forall w :: 0 <= w < |s.workers| && s.workers[w] == Gone ==> s.stopping && s.queue == [])
      && ((forall w :: 0 <= w < |s.workers| ==> s.workers[w] == Gone) ==>
           forall id :: 0 <= id < |s.entries| && !Streams(s.entries[id].call.cmd) ==>
             Answers(DocsOf(s.pushed, id)) == 1)
  {
    RunFromStart(workers, labels);
    PoolIsKept(Started(workers), labels);
    var s := Run(Started(workers), labels);
    forall w | 0 <= w < |s.workers| && s.workers[w] == Gone ensures s.stopping && s.queue == [] {
      assert WorkerOk(s, w);
    }
    if forall w :: 0 <= w < |s.workers| ==> s.workers[w] == Gone {
      assert s.workers[0] == Gone;
      forall id | 0 <= id < |s.entries| && !Streams(s.entries[id].call.cmd) ensures Answers(DocsOf(s.pushed, id)) == 1 {
        assert Holders(s.workers, id) == {};
        CountPlaces(s, id);
      }
    }
  }

  lemma {:induction false} PoolIsKept(s: State, labels: seq<Label>)
    ensures |Run(s, labels).workers| == |s.workers|
    decreases |labels|
  {
    if labels != [] {
      PoolIsKept(if Enabled(s, labels[0]) then Next(s, labels[0]) else s, labels[1..]);
    }
  }

  /** Reports reach the sink in the order of reporting, each once, and with the ticket of the call they belong to. */
  lemma DeliveredInOrder(workers: nat, labels: seq<Label>)
    ensures var s := Run(Started(workers), labels);
      && s.sunk <= s.pushed
      && (s.batch == [] && s.done == [] ==> s.sunk == s.pushed)
      && forall r :: r in s.pushed ==> r.origin < |s.entries| && r.call == s.entries[r.origin].call
  {
    RunFromStart(workers, labels);
  }

  /** A chat call that came back: its partial reports hold all that was said, in order, and its answer follows them. */
  lemma ChatIsTold(workers: nat, labels: seq<Label>, id: nat)
    requires id < |Run(Started(workers), labels).entries|
    requires Run(Started(workers), labels).entries[id].place.Answered?
    ensures var s := Run(Started(workers), labels);
      Done(DocsOf(s.pushed, id), s.entries[id], s.entries[id].place.threw)
  {
    RunFromStart(workers, labels);
    assert CallOk(Run(Started(workers), labels), id);
  }

  /**
   * What a unary call is answered with: the service's document if it gave one, else a document that names its error or,
   * if there is none, says so; for a call that threw, one that names what was thrown. Nothing else but partial texts of
   * at least 24 characters, the last of which may be shorter, is reported of it.
   */
  lemma AnswerIsTheServices(workers: nat, labels: seq<Label>, id: nat)
    requires id < |Run(Started(workers), labels).entries|
    requires Run(Started(workers), labels).entries[id].place.Answered?
    ensures var s := Run(Started(workers), labels);
      var docs, e := DocsOf(s.pushed, id), s.entries[id];
      && docs != []
      && (match e.verdict
          case Came(json, error) =>
            docs[|docs| - 1] ==
              if json != "" then Reply(json)
              else if error != "" then Unreachable(error)
              else Unreachable("pretzel-ai returned no result")
          case Threw(reason) => docs[|docs| - 1] == Unreachable(reason)
          case Outstanding => false)
      && (forall i :: 0 <= i < |docs| - 1 ==> docs[i].Partial?)
      && (forall i :: 0 <= i < |docs| - 2 ==> |docs[i].text| >= 24)
  {
    ChatIsTold(workers, labels, id);
    var docs := DocsOf(Run(Started(workers), labels).pushed, id);
    forall i | 0 <= i < |docs| - 1 ensures docs[i].Partial? && (i < |docs| - 2 ==> |docs[i].text| >= 24) {
      assert docs[..|docs| - 1][i] == docs[i];
    }
  }

  /** The call that worker `w` has in hand. */
  predicate InHand(s: State, w: nat, id: nat) {
    w < |s.workers| && Holds(s.workers[w], id)
  }

  predicate OnStream(s: State, id: nat) {
    HasStream(s) && Stream(s).id == id
  }

  ghost predicate Records(s: State, l: Label, id: nat, e: Entry, e': Entry) {
    && e'.call == e.call
    && e'.said == e.said + (if l.Delta? && InHand(s, l.w, id) then l.text else "")
    && e'.heard == e.heard + (if l.Progress? && OnStream(s, id) then [l.json] else [])
    && e'.verdict ==
         if l.Return? && InHand(s, l.w, id) then Came(l.json, l.error)
         else if l.Throw? && InHand(s, l.w, id) then Threw(l.reason)
         else if l.StreamReturn? && OnStream(s, id) then Came("", l.error)
         else if l.StreamThrow? && OnStream(s, id) then Threw(l.reason)
         else e.verdict
  }

  /** The histories are what the steps brought: every piece of text, every message, and how each call ended. */
  lemma StepRecords(s: State, l: Label, id: nat, n: State)
    requires Enabled(s, l) && id < |s.entries| && n == Next(s, l)
    ensures id < |n.entries| && Records(s, l, id, s.entries[id], n.entries[id])
  {
    if l.Egress? {
      AcceptRecords(s, l.call, id);
    } else if l.Delta? || l.Return? || l.Answer? || l.Throw? {
      WorkerRecords(s, l, id, n);
    } else if l.Progress? || l.StreamReturn? || l.StreamLeave? || l.StreamThrow? || l.StreamCatch? {
      StreamRecords(s, l, id, n);
    } else {
      OthersRecord(s, l, id, n);
    }
  }

  lemma WorkerRecords(s: State, l: Label, id: nat, n: State)
    requires Enabled(s, l) && id < |s.entries| && n == Next(s, l) && (l.Delta? || l.Return? || l.Answer? || l.Throw?)
    ensures id < |n.entries| && Records(s, l, id, s.entries[id], n.entries[id])
  {
    assert s.entries[id].said + "" == s.entries[id].said && s.entries[id].heard + [] == s.entries[id].heard;
  }

  lemma StreamRecords(s: State, l: Label, id: nat, n: State)
    requires Enabled(s, l) && id < |s.entries| && n == Next(s, l)
    requires l.Progress? || l.StreamReturn? || l.StreamLeave? || l.StreamThrow? || l.StreamCatch?
    ensures id < |n.entries| && Records(s, l, id, s.entries[id], n.entries[id])
  {
    assert s.entries[id].said + "" == s.entries[id].said && s.entries[id].heard + [] == s.entries[id].heard;
  }

  lemma OthersRecord(s: State, l: Label, id: nat, n: State)
    requires Enabled(s, l) && id < |s.entries| && n == Next(s, l)
    requires l.Join? || l.Take? || l.Deliver? || l.Stop? || l.Pop? || l.Exit?
    ensures id < |n.entries| && Records(s, l, id, s.entries[id], n.entries[id])
  {
    assert s.entries[id].said + "" == s.entries[id].said && s.entries[id].heard + [] == s.entries[id].heard;
  }

  lemma AcceptRecords(s: State, call: Call, id: nat)
    requires id < |s.entries|
    ensures id < |Accept(s, call).entries| && Accept(s, call).entries[id] == s.entries[id]
  {
  }

  /**
   * Where a call goes: a cancellation leaves everything as it is; a stream is refused if and only if one is inside
   * `runStream`, and is otherwise spawned or waits for the last thread to end; every other call is queued last.
   */
  lemma CallIsPlaced(workers: nat, labels: seq<Label>, call: Call)
    requires Enabled(Run(Started(workers), labels), Egress(call))
    ensures var s := Run(Started(workers), labels);
      var n, id := Next(s, Egress(call)), |s.entries|;
      if call.cmd.CorpusCancel? || call.cmd.BenchtestCancel? then n == s
      else
        && n.entries[..id] == s.entries && |n.entries| == id + 1 && n.entries[id].call == call
        && if !call.cmd.CorpusRefresh? && !call.cmd.BenchtestRun?
           then n.queue == s.queue + [id] && n.pushed == s.pushed
           else
             && n.queue == s.queue
             && (n.entries[id].place == Refused <==>
                   exists t :: 0 <= t < |s.threads| && (s.threads[t].phase.Body? || s.threads[t].phase.Leaving?))
             && (n.entries[id].place != Refused ==> n.loop == Joining(id) || n.threads == [Thread(id, Body(false))])
  {
    OneStreamAtATime(workers, labels, 0, 0);
  }

  /** At most one stream thread is inside `runStream`, and the flag says whether one is or is about to be. */
  lemma OneStreamAtATime(workers: nat, labels: seq<Label>, t: nat, u: nat)
    ensures var s := Run(Started(workers), labels);
      && (t < |s.threads| && u < |s.threads| && !s.threads[t].phase.Finished? && !s.threads[u].phase.Finished?
          ==> t == u)
      && (s.streaming <==>
            (s.loop.Joining? ||
             exists v :: 0 <= v < |s.threads| && (s.threads[v].phase.Body? || s.threads[v].phase.Leaving?)))
      && (s.loop.Joining? ==>
            forall v :: 0 <= v < |s.threads| ==> !s.threads[v].phase.Body? && !s.threads[v].phase.Leaving?)
  {
    RunFromStart(workers, labels);
    var s := Run(Started(workers), labels);
    if InRunStream(s) {
      assert s.threads[|s.threads| - 1].phase.Body? || s.threads[|s.threads| - 1].phase.Leaving?;
    }
  }

  /**
   * A refused stream has exactly one report. An admitted one whose `runStream` was left normally either reported a
   * final message of the service or ends with exactly one closing report; one that threw ends with exactly one report
   * of that.
   */
  lemma StreamsAreTold(workers: nat, labels: seq<Label>, id: nat)
    requires id < |Run(Started(workers), labels).entries|
    ensures var s := Run(Started(workers), labels);
      var docs := DocsOf(s.pushed, id);
      match s.entries[id].place
      case Refused => docs == [Unreachable(BUSY)]
      case Admitted => docs == []
      case OnThread(t) =>
        && t < |s.threads| && s.threads[t].id == id
        && (s.threads[t].phase == Leaving || s.threads[t].phase == Finished(false) ==> Closed(docs, s.entries[id]))
        && (s.threads[t].phase == Finished(true) ==> Crashed(docs, s.entries[id]))
        && (s.threads[t].phase.Body? || s.threads[t].phase.Unwound? ==> docs == Relayed(s.entries[id].heard))
      case _ => !Streams(s.entries[id].call.cmd)
  {
    RunFromStart(workers, labels);
    assert CallOk(Run(Started(workers), labels), id);
  }

  // ---- What counts as a final message ----

  /** The first occurrence at or after `from`, if there is one. */
  lemma {:induction false} FindFirst(s: string, p: string, from: nat)
    ensures var at := Find(s, p, from);
      if at.Some? then
        && from <= at.value && OccursAt(s, p, at.value)
        && (forall i :: from <= i < at.value ==> !OccursAt(s, p, i))
      else forall i :: from <= i ==> !OccursAt(s, p, i)
    decreases |s| - from
  {
    if from + |p| <= |s| && s[from..from + |p|] != p {
      FindFirst(s, p, from + 1);
    }
  }

  ghost predicate FinalThenTrue(json: string, a: string, b: string, c: string) {
    json == a + FINAL + b + "true" + c
  }

  lemma TrueIsAfterFinal(json: string, i: nat, j: nat)
    requires OccursAt(json, FINAL, i) && OccursAt(json, "true", j) && i <= j
    ensures i + |FINAL| <= j
  {
    assert json[j..j + 4][0] == 't';
    forall k | i <= k < i + |FINAL| ensures json[k] != 't' {
      assert json[i..i + |FINAL|][k - i] == FINAL[k - i];
    }
  }

  lemma CutAt(json: string, p: string, i: nat)
    requires OccursAt(json, p, i)
    ensures json == json[..i] + p + json[i + |p|..]
  {
  }

  lemma OccursBehind(a: string, p: string, b: string)
    ensures OccursAt(a + p + b, p, |a|)
  {
  }

  lemma FinalParts(json: string, i: nat, j: nat)
    requires OccursAt(json, FINAL, i) && OccursAt(json, "true", j) && i + |FINAL| <= j
    ensures FinalThenTrue(json, json[..i], json[i + |FINAL|..j], json[j + 4..])
  {
    CutAt(json, "true", j);
    CutAt(json[..j], FINAL, i);
  }

  /** A message is taken for final exactly when the word stands in it with a "true" anywhere behind. */
  lemma FinalExactly(json: string)
    ensures IsFinal(json) <==> exists a, b, c :: FinalThenTrue(json, a, b, c)
  {
    if IsFinal(json) {
      FinalSplits(json);
    }
    if a, b, c :| FinalThenTrue(json, a, b, c) {
      SplitIsFinal(json, a, b, c);
    }
  }

  lemma FinalSplits(json: string)
    requires IsFinal(json)
    ensures exists a, b, c :: FinalThenTrue(json, a, b, c)
  {
    FindFirst(json, FINAL, 0);
    var i := Find(json, FINAL, 0).value;
    FindFirst(json, "true", i);
    var j := Find(json, "true", i).value;
    TrueIsAfterFinal(json, i, j);
    FinalParts(json, i, j);
  }

  lemma SplitIsFinal(json: string, a: string, b: string, c: string)
    requires FinalThenTrue(json, a, b, c)
    ensures IsFinal(json)
  {
    OccursBehind(a + FINAL + b, "true", c);
    assert json == a + FINAL + (b + "true" + c);
    OccursBehind(a, FINAL, b + "true" + c);
    FindFirst(json, FINAL, 0);
    FindFirst(json, "true", Find(json, FINAL, 0).value);
  }

  /** A `true` of another key counts, here the one behind a `final` that is false. */
  lemma FinalOfAnotherKey()
    ensures IsFinal("{\"final\": false, \"ok\": true}")
  {
    var json, a, b, c := "{\"final\": false, \"ok\": true}", "{", ": false, \"ok\": ", "}";
    assert json == a + FINAL + b + "true" + c;
    SplitIsFinal(json, a, b, c);
  }
}
