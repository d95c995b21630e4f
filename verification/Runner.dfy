/** One child process under Hub control (`TaskRunner` in `agent-daemon/src/runner.js`):
    what each of its methods does to the runner's fields and what it emits. */
module Runner {
  import opened Common

  const TAIL_LIMIT: nat := 8192

  /** The text heuristics, as functions of the output they are given: the prompt
      detector's reason, and the structured failure of a failed exit. */
  datatype Heuristics = Heuristics(
    detect: string -> Option<string>,
    capacity: string -> Option<Failure>)

  /** `stream` (all output since the start or the last resume) and `outcome`
      (the `task:result` it emitted) are history variables. */
  datatype RunnerState = RunnerState(
    taskId: TaskId,
    awaitingApproval: bool,
    killedByHub: bool,
    lastChunk: string,
    tail: string,
    exitHandled: bool,
    stream: string,
    outcome: Option<ResultPayload>)

  function Fresh(id: TaskId): RunnerState {
    RunnerState(id, false, false, "", "", false, "", None)
  }

  /** What became of `spawn`: the template was empty (the plan throws), `spawn`
      threw, or a child is running. */
  datatype SpawnOutcome = EmptyTemplate | SpawnThrew(message: string) | Spawned

  datatype Op =
    | Start(outcome: SpawnOutcome)
    | Data(chunk: string)
    | Decision(approved: bool, stdinOpen: bool)
    | Kill
    | Error(message: string)
    | Close(code: Option<int>, signal: Option<string>)

  /** A method's effect: new fields, emitted events, whether `dropTask` is
      called, and whether the resume input is written to the child. */
  datatype Effect = Effect(runner: RunnerState, events: seq<Event>, drop: bool, wrote: bool)

  /** `s.slice(-n)` for positive `n` */
  function LastChars(s: string, n: nat): string {
    if |s| <= n then s else s[|s| - n..]
  }

  function Quiet(r: RunnerState): Effect {
    Effect(r, [], false, false)
  }

  function OnData(h: Heuristics, r: RunnerState, chunk: string): Effect {
    var r1 := r.(lastChunk := chunk, tail := LastChars(r.tail + chunk, TAIL_LIMIT), stream := r.stream + chunk);
    var log := Log(r.taskId, chunk);
    if r.awaitingApproval then Effect(r1, [log], false, false)
    else
      match h.detect(r1.tail)
      case None => Effect(r1, [log], false, false)
      case Some(reason) => Effect(r1.(awaitingApproval := true), [log, ApprovalRequest(r.taskId, reason)], false, false)
  }

  /** `stdinOpen`: the child is alive and its stdin not destroyed. */
  function Resume(r: RunnerState, stdinOpen: bool): Effect {
    Effect(r.(awaitingApproval := false, tail := "", stream := ""), [], false, stdinOpen)
  }

  function OnKill(r: RunnerState): Effect {
    Quiet(r.(killedByHub := true))
  }

  function OnDecision(r: RunnerState, approved: bool, stdinOpen: bool): Effect {
    if !approved then OnKill(r)
    else if r.awaitingApproval then Resume(r, stdinOpen)
    else Quiet(r)
  }

  function Report(r: RunnerState, payload: ResultPayload): Effect {
    Effect(r.(exitHandled := true, outcome := Some(payload)), [TaskResult(r.taskId, payload)], true, false)
  }

  function FinishFailed(h: Heuristics, r: RunnerState, reason: string): Effect {
    if r.exitHandled then Quiet(r)
    else Report(r, ResultPayload(false, h.capacity(reason), reason))
  }

  function OnClose(h: Heuristics, r: RunnerState, code: Option<int>, signal: Option<string>): Effect {
    if r.exitHandled then Quiet(r)
    else if r.killedByHub then Effect(r.(exitHandled := true), [], true, false)
    else
      var ok := code == Some(0) && signal.None?;
      var failure := if ok then None else h.capacity(if r.tail != "" then r.tail else r.lastChunk);
      Report(r, ResultPayload(ok, failure, r.lastChunk))
  }

  function OnStart(h: Heuristics, r: RunnerState, outcome: SpawnOutcome): Effect {
    match outcome
    case EmptyTemplate => Quiet(r)
    case SpawnThrew(message) => FinishFailed(h, r, "spawn failed: " + message)
    case Spawned => Effect(r, [StatusUpdate(r.taskId, TaskStatus.Running)], false, false)
  }

  function Perform(h: Heuristics, r: RunnerState, op: Op): Effect {
    match op
    case Start(outcome) => OnStart(h, r, outcome)
    case Data(chunk) => OnData(h, r, chunk)
    case Decision(approved, stdinOpen) => OnDecision(r, approved, stdinOpen)
    case Kill => OnKill(r)
    case Error(message) => FinishFailed(h, r, "child process error: " + message)
    case Close(code, signal) => OnClose(h, r, code, signal)
  }

  // ----- counting what was emitted -----

  /** The results of the task, in order. */
  function ResultsOf(es: seq<Event>, id: TaskId): seq<ResultPayload> {
    if |es| == 0 then []
    else
      var before := ResultsOf(es[..|es| - 1], id);
      var e := es[|es| - 1];
      if e.TaskResult? && e.taskId == id then before + [e.payload] else before
  }

  function CountRequests(es: seq<Event>, id: TaskId): nat {
    if |es| == 0 then 0
    else CountRequests(es[..|es| - 1], id)
         + (if es[|es| - 1].ApprovalRequest? && es[|es| - 1].taskId == id then 1 else 0)
  }

  /** The chunks of the task's log events, in order. */
  function LogChunks(es: seq<Event>, id: TaskId): seq<string> {
    if |es| == 0 then []
    else
      var before := LogChunks(es[..|es| - 1], id);
      var e := es[|es| - 1];
      if e.Log? && e.taskId == id then before + [e.chunk] else before
  }

  lemma AppendOne(es: seq<Event>, e: Event, id: TaskId)
    ensures ResultsOf(es + [e], id) == ResultsOf(es, id) + (if e.TaskResult? && e.taskId == id then [e.payload] else [])
    ensures CountRequests(es + [e], id) == CountRequests(es, id) + (if e.ApprovalRequest? && e.taskId == id then 1 else 0)
    ensures LogChunks(es + [e], id) == LogChunks(es, id) + (if e.Log? && e.taskId == id then [e.chunk] else [])
  {
    assert (es + [e])[..|es|] == es;
  }

  lemma {:induction false} Appending(es: seq<Event>, more: seq<Event>, id: TaskId)
    ensures ResultsOf(es + more, id) == ResultsOf(es, id) + ResultsOf(more, id)
    ensures CountRequests(es + more, id) == CountRequests(es, id) + CountRequests(more, id)
    ensures LogChunks(es + more, id) == LogChunks(es, id) + LogChunks(more, id)
  {
    if |more| == 0 {
      assert es + more == es;
    } else {
      var init, e := more[..|more| - 1], more[|more| - 1];
      Appending(es, init, id);
      AppendOne(es + init, e, id);
      AppendOne(init, e, id);
      assert more == init + [e] && es + more == (es + init) + [e];
    }
  }

  lemma Single(e: Event, id: TaskId)
    ensures ResultsOf([e], id) == if e.TaskResult? && e.taskId == id then [e.payload] else []
    ensures CountRequests([e], id) == if e.ApprovalRequest? && e.taskId == id then 1 else 0
    ensures LogChunks([e], id) == if e.Log? && e.taskId == id then [e.chunk] else []
  {
    assert [e][..0] == [];
  }

  // ----- what a runner keeps -----

  ghost predicate RunnerInv(r: RunnerState) {
    && r.tail == LastChars(r.stream, TAIL_LIMIT)
    && (r.outcome.Some? ==> r.exitHandled)
  }

  lemma WindowSlides(stream: string, chunk: string, n: nat)
    ensures LastChars(LastChars(stream, n) + chunk, n) == LastChars(stream + chunk, n)
  {
  }

  lemma PerformKeeps(h: Heuristics, r: RunnerState, op: Op)
    requires RunnerInv(r)
    ensures RunnerInv(Perform(h, r, op).runner)
  {
    if op.Data? { WindowSlides(r.stream, op.chunk, TAIL_LIMIT); }
  }

  /** Exactly-once bookkeeping of a single operation: the exit latch closes at
      most once, only that drops the runner, and a result accompanies only that. */
  ghost predicate EffectOk(r: RunnerState, e: Effect, op: Op) {
    && e.runner.taskId == r.taskId
    && (r.exitHandled ==> e.runner.exitHandled && e.runner.outcome == r.outcome)
    && (e.drop <==> !r.exitHandled && e.runner.exitHandled)
    && (forall id :: ResultsOf(e.events, id) == if id == r.taskId && e.runner.outcome.Some? && r.outcome.None? then [e.runner.outcome.value] else [])
    && (r.outcome.Some? ==> e.runner.outcome == r.outcome)
    && (forall id :: LogChunks(e.events, id) == if op.Data? && id == r.taskId then [op.chunk] else [])
    && (forall ev :: ev in e.events ==> !ev.Heartbeat? && ev.taskId == r.taskId)
    && (e.wrote ==> op.Decision? && op.approved && r.awaitingApproval)
  }

  lemma Pair(a: Event, b: Event, id: TaskId)
    ensures ResultsOf([a, b], id) == ResultsOf([a], id) + ResultsOf([b], id)
    ensures LogChunks([a, b], id) == LogChunks([a], id) + LogChunks([b], id)
  {
    assert [a, b] == [a] + [b];
    Appending([a], [b], id);
  }

  /** A result accompanies exactly the first report, a log event every chunk. */
  lemma {:induction false} PerformCounts(h: Heuristics, r: RunnerState, op: Op, id: TaskId)
    requires RunnerInv(r)
    ensures var e := Perform(h, r, op);
            && ResultsOf(e.events, id)
               == (if id == r.taskId && e.runner.outcome.Some? && r.outcome.None? then [e.runner.outcome.value] else [])
            && LogChunks(e.events, id) == (if op.Data? && id == r.taskId then [op.chunk] else [])
  {
    var es := Perform(h, r, op).events;
    assert es == [] || es == [es[0]] || es == [es[0], es[1]];
    if |es| > 0 { Single(es[0], id); }
    if |es| > 1 {
      Single(es[1], id);
      Pair(es[0], es[1], id);
    }
  }

  lemma PerformOk(h: Heuristics, r: RunnerState, op: Op)
    requires RunnerInv(r)
    ensures EffectOk(r, Perform(h, r, op), op)
  {
    forall id { PerformCounts(h, r, op, id); }
  }

  // ----- what an exit reports -----

  /** The operations that end a runner: no child was spawned, or the child's
      `error` or `close` event. */
  predicate IsExit(op: Op) {
    op.Close? || op.Error? || (op.Start? && op.outcome.SpawnThrew?)
  }

  /** The exit of a killed child is not reported, unless it is an `error`. */
  predicate Silenced(r: RunnerState, op: Op) {
    op.Close? && r.killedByHub
  }

  /** The text whose heuristics decide what kind of failure it was: the end of the
      output, or what went wrong without any. */
  function JudgedText(r: RunnerState, op: Op): string
    requires IsExit(op)
  {
    match op
    case Close(_, _) => if r.stream == "" then r.lastChunk else LastChars(r.stream, TAIL_LIMIT)
    case Error(message) => "child process error: " + message
    case Start(outcome) => "spawn failed: " + outcome.message
  }

  /** A runner that has not ended ends exactly at an exit; it then reports exactly
      if not silenced, and COMPLETED exactly for a close with code 0 and no signal;
      every other report carries the heuristics' judgement. */
  ghost predicate ExitOk(h: Heuristics, r: RunnerState, e: Effect, op: Op) {
    && (!IsExit(op) || r.exitHandled ==> e.runner.exitHandled == r.exitHandled && e.runner.outcome == r.outcome)
    && (IsExit(op) ==> e.runner.exitHandled)
    && (IsExit(op) && !r.exitHandled ==>
          && (e.runner.outcome.Some? <==> !Silenced(r, op))
          && (e.runner.outcome.Some? ==>
                && (e.runner.outcome.value.completed <==> op == Close(Some(0), None))
                && e.runner.outcome.value.failure
                   == (if op == Close(Some(0), None) then None else h.capacity(JudgedText(r, op)))))
  }

  lemma PerformExits(h: Heuristics, r: RunnerState, op: Op)
    requires RunnerInv(r)
    ensures ExitOk(h, r, Perform(h, r, op), op)
  {
  }

  // ----- runs of one runner -----

  function PerformAll(h: Heuristics, r: RunnerState, ops: seq<Op>): (RunnerState, seq<Event>) {
    if |ops| == 0 then (r, [])
    else
      var (r1, es) := PerformAll(h, r, ops[..|ops| - 1]);
      var e := Perform(h, r1, ops[|ops| - 1]);
      (e.runner, es + e.events)
  }

  function Text(ops: seq<Op>): string {
    if |ops| == 0 then ""
    else Text(ops[..|ops| - 1]) + OpText(ops[|ops| - 1])
  }

  /** The last chunk printed, or `before` if there is none. */
  function LastPrinted(ops: seq<Op>, before: string): string {
    if |ops| == 0 then before
    else if ops[|ops| - 1].Data? then ops[|ops| - 1].chunk
    else LastPrinted(ops[..|ops| - 1], before)
  }

  predicate NoApproval(ops: seq<Op>) {
    forall i :: 0 <= i < |ops| ==> !(ops[i].Decision? && ops[i].approved)
  }

  function OpText(op: Op): string { if op.Data? then op.chunk else "" }

  lemma OneStep(h: Heuristics, r: RunnerState, op: Op)
    requires !(op.Decision? && op.approved)
    ensures var e := Perform(h, r, op);
            && e.runner.taskId == r.taskId
            && e.runner.stream == r.stream + OpText(op)
            && CountRequests(e.events, r.taskId) == (if e.runner.awaitingApproval && !r.awaitingApproval then 1 else 0)
            && (r.awaitingApproval ==> e.runner.awaitingApproval)
  {
    var e := Perform(h, r, op);
    if |e.events| == 1 { Single(e.events[0], r.taskId); }
    if |e.events| == 2 {
      Single(e.events[0], r.taskId);
      assert e.events[..1] == [e.events[0]];
    }
  }

  /** Until the next approval, whatever happens to the runner, its window is the
      last 8192 characters of everything printed, however the text was chunked;
      and it asks for approval at most once, not at all while already holding. */
  lemma {:induction false} WindowAndRequests(h: Heuristics, r: RunnerState, ops: seq<Op>)
    requires RunnerInv(r) && NoApproval(ops)
    ensures var (r', es) := PerformAll(h, r, ops);
            && r'.tail == LastChars(r.stream + Text(ops), 8192)
            && CountRequests(es, r.taskId) == (if r'.awaitingApproval && !r.awaitingApproval then 1 else 0)
            && (r.awaitingApproval ==> r'.awaitingApproval)
            && r'.taskId == r.taskId && r'.stream == r.stream + Text(ops) && RunnerInv(r')
  {
    if |ops| > 0 {
      var n := |ops| - 1;
      WindowAndRequests(h, r, ops[..n]);
      var (r1, es) := PerformAll(h, r, ops[..n]);
      PerformKeeps(h, r1, ops[n]);
      OneStep(h, r1, ops[n]);
      Appending(es, Perform(h, r1, ops[n]).events, r.taskId);
      TextAppended(r.stream, Text(ops[..n]), OpText(ops[n]));
    }
  }

  lemma TextAppended(a: string, b: string, c: string)
    ensures (a + b) + c == a + (b + c)
  {
  }

  lemma LastChunkStep(h: Heuristics, r: RunnerState, op: Op)
    ensures Perform(h, r, op).runner.lastChunk == (if op.Data? then op.chunk else r.lastChunk)
  {
  }

  lemma PerformSnoc(h: Heuristics, r: RunnerState, ops: seq<Op>)
    requires |ops| > 0
    ensures PerformAll(h, r, ops).0 == Perform(h, PerformAll(h, r, ops[..|ops| - 1]).0, ops[|ops| - 1]).runner
  {
  }

  /** And the last chunk is the last one printed. */
  lemma {:induction false} LastChunkIs(h: Heuristics, r: RunnerState, ops: seq<Op>)
    ensures PerformAll(h, r, ops).0.lastChunk == LastPrinted(ops, r.lastChunk)
  {
    if |ops| > 0 {
      var init := ops[..|ops| - 1];
      LastChunkIs(h, r, init);
      PerformSnoc(h, r, ops);
      LastChunkStep(h, PerformAll(h, r, init).0, ops[|ops| - 1]);
    }
  }

  /** Two ways of chunking the same output leave the same window. */
  lemma ChunkingIrrelevant(h: Heuristics, r: RunnerState, a: seq<Op>, b: seq<Op>)
    requires RunnerInv(r) && NoApproval(a) && NoApproval(b) && Text(a) == Text(b)
    ensures PerformAll(h, r, a).0.tail == PerformAll(h, r, b).0.tail
  {
    WindowAndRequests(h, r, a);
    WindowAndRequests(h, r, b);
  }

  // ----- when a runner asks -----

  /** After `n` operations, the last of them a chunk, what was printed since the
      last resume ends in something the detector takes for a prompt. */
  ghost predicate HitAt(h: Heuristics, r: RunnerState, ops: seq<Op>, n: int) {
    0 < n <= |ops| && ops[n - 1].Data? && h.detect(LastChars(r.stream + Text(ops[..n]), TAIL_LIMIT)).Some?
  }

  ghost predicate Prompted(h: Heuristics, r: RunnerState, ops: seq<Op>) {
    exists n :: HitAt(h, r, ops, n)
  }

  lemma HoldsIffHit(h: Heuristics, r: RunnerState, op: Op)
    requires RunnerInv(r) && !(op.Decision? && op.approved)
    ensures Perform(h, r, op).runner.awaitingApproval
            <==> r.awaitingApproval || (op.Data? && h.detect(LastChars(r.stream + op.chunk, TAIL_LIMIT)).Some?)
  {
    if op.Data? { WindowSlides(r.stream, op.chunk, TAIL_LIMIT); }
  }

  lemma {:induction false} HitAtPrefix(h: Heuristics, r: RunnerState, ops: seq<Op>, m: int, n: int)
    requires 0 <= n <= m <= |ops|
    ensures HitAt(h, r, ops[..m], n) <==> HitAt(h, r, ops, n)
  {
    assert ops[..m][..n] == ops[..n];
  }

  lemma {:induction false} PromptedSnoc(h: Heuristics, r: RunnerState, ops: seq<Op>)
    requires |ops| > 0
    ensures Prompted(h, r, ops) <==> Prompted(h, r, ops[..|ops| - 1]) || HitAt(h, r, ops, |ops|)
  {
    var init := ops[..|ops| - 1];
    if Prompted(h, r, init) {
      var n :| HitAt(h, r, init, n);
      HitAtPrefix(h, r, ops, |init|, n);
    }
    if Prompted(h, r, ops) {
      var n :| HitAt(h, r, ops, n);
      if n <= |init| { HitAtPrefix(h, r, ops, |init|, n); }
    }
  }

  /** A runner holds exactly if, after some chunk, the end of everything printed
      since the last resume is taken for a prompt, however the prompt's text was
      split into chunks; and that is when it has asked. */
  lemma {:induction false} HoldsIffPrompted(h: Heuristics, r: RunnerState, ops: seq<Op>)
    requires RunnerInv(r) && NoApproval(ops) && !r.awaitingApproval
    ensures var (r', es) := PerformAll(h, r, ops);
            && (r'.awaitingApproval <==> Prompted(h, r, ops))
            && (CountRequests(es, r.taskId) == 1 <==> Prompted(h, r, ops))
  {
    WindowAndRequests(h, r, ops);
    if |ops| > 0 {
      var n := |ops| - 1;
      HoldsIffPrompted(h, r, ops[..n]);
      WindowAndRequests(h, r, ops[..n]);
      var (r1, es) := PerformAll(h, r, ops[..n]);
      HoldsIffHit(h, r1, ops[n]);
      PromptedSnoc(h, r, ops);
      assert ops[..|ops|] == ops;
      if ops[n].Data? { assert r1.stream + ops[n].chunk == r.stream + Text(ops); }
    }
  }

  lemma ResumeClears(h: Heuristics, r: RunnerState, stdinOpen: bool)
    requires r.awaitingApproval
    ensures var r1 := Perform(h, r, Decision(true, stdinOpen)).runner;
            !r1.awaitingApproval && r1.tail == "" && r1.stream == ""
  {
  }

  /** From a runner that has printed nothing, window and hold depend only on what it prints. */
  lemma {:induction false} FromNothing(h: Heuristics, r: RunnerState, ops: seq<Op>)
    requires RunnerInv(r) && !r.awaitingApproval && r.stream == "" && NoApproval(ops)
    ensures var r' := PerformAll(h, r, ops).0;
            && r'.tail == LastChars(Text(ops), 8192)
            && (r'.awaitingApproval <==> exists n :: PromptEndsAt(h, ops, n))
  {
    WindowAndRequests(h, r, ops);
    HoldsIffPrompted(h, r, ops);
    NothingBefore(h, r, ops);
    assert r.stream + Text(ops) == Text(ops);
  }

  /** The text of the first `n` operations, the last of them a chunk, ends in a prompt. */
  ghost predicate PromptEndsAt(h: Heuristics, ops: seq<Op>, n: int) {
    0 < n <= |ops| && ops[n - 1].Data? && h.detect(LastChars(Text(ops[..n]), 8192)).Some?
  }

  lemma {:induction false} NothingBefore(h: Heuristics, r: RunnerState, ops: seq<Op>)
    requires r.stream == ""
    ensures Prompted(h, r, ops) <==> exists n :: PromptEndsAt(h, ops, n)
  {
    forall n ensures HitAt(h, r, ops, n) <==> PromptEndsAt(h, ops, n) {
      if 0 < n <= |ops| { assert r.stream + Text(ops[..n]) == Text(ops[..n]); }
    }
  }

  /** An approval makes a holding runner forget: from then on its window, and whether
      it asks again, depend only on what is printed afterwards. */
  lemma {:induction false} ResumeForgets(h: Heuristics, r: RunnerState, stdinOpen: bool, ops: seq<Op>)
    requires RunnerInv(r) && r.awaitingApproval && NoApproval(ops)
    ensures var r1 := Perform(h, r, Decision(true, stdinOpen)).runner;
            && !r1.awaitingApproval && r1.tail == ""
            && PerformAll(h, r1, ops).0.tail == LastChars(Text(ops), 8192)
            && (PerformAll(h, r1, ops).0.awaitingApproval <==> exists n :: PromptEndsAt(h, ops, n))
  {
    var r1 := Perform(h, r, Decision(true, stdinOpen)).runner;
    PerformKeeps(h, r, Decision(true, stdinOpen));
    ResumeClears(h, r, stdinOpen);
    FromNothing(h, r1, ops);
  }
}
