/** The daemon's two classes in their own form: `DaemonClient` with its socket,
    buffer and runner map, and `TaskRunner`, whose methods update its fields and
    call back into the client.  `Client.State` maps the objects to the daemon
    model, and each entry point is proved to make exactly its `DApply` step. */
module DaemonClient {
  import opened Common
  import opened Runner
  import opened Daemon

  ghost function PoolStates(pool: seq<TaskRunner>): (states: seq<RunnerState>)
    reads pool
    ensures |states| == |pool| && forall i :: 0 <= i < |pool| ==> states[i] == pool[i].State()
  {
    seq(|pool|, i requires 0 <= i < |pool| reads pool => pool[i].State())
  }

  function Printed(id: TaskId, op: Op): seq<(TaskId, string)> {
    if op.Data? then [(id, op.chunk)] else []
  }

  function Ended(i: nat, r: RunnerState, op: Op): seq<ExitRecord> {
    if IsExit(op) then [ExitRecord(i, op, r)] else []
  }

  /** The state of a daemon once its runner `i` had effect `e`. */
  ghost function Carry(d: DaemonState, i: nat, e: Effect, printed: seq<(TaskId, string)>, ended: seq<ExitRecord>): DaemonState
    requires i < |d.pool|
  {
    DaemonState(LinkEmit(d.link, e.events),
                if e.drop then d.runners - {d.pool[i].taskId} else d.runners,
                d.pool[i := e.runner],
                d.output + printed,
                d.exits + ended)
  }

  lemma RunOpCarries(h: Heuristics, d: DaemonState, i: nat, op: Op)
    requires i < |d.pool|
    ensures RunOp(h, d, i, op) == Carry(d, i, Perform(h, d.pool[i], op), Printed(d.pool[i].taskId, op), Ended(i, d.pool[i], op))
  {
    assert d.output + [] == d.output && d.exits + [] == d.exits;
  }

  /** `sent` stands for the socket: what was handed to it, in order.  `pool` is
      every runner ever created. */
  class Client {
    const h: Heuristics
    var connected: bool
    var buffer: seq<Event>
    var sent: seq<Event>
    var runners: map<TaskId, TaskRunner>
    ghost var emitted: seq<Event>
    ghost var pool: seq<TaskRunner>
    ghost var output: seq<(TaskId, string)>
    ghost var exits: seq<ExitRecord>

    constructor (h: Heuristics)
      ensures this.h == h && Valid() && State() == NEW_DAEMON
    {
      this.h := h;
      connected, buffer, sent, runners := false, [], [], map[];
      emitted, pool, output, exits := [], [], [], [];
    }

    ghost function LinkState(): Link
      reads this
    {
      Link(connected, buffer, sent, emitted)
    }

    ghost function State(): DaemonState
      reads this, pool
    {
      DaemonState(LinkState(), Slots(), PoolStates(pool), output, exits)
    }

    /** The runner map, by position in the pool. */
    ghost function Slots(): map<TaskId, nat>
      reads this
    {
      map id | id in runners :: runners[id].slot
    }

    /** Runners know this client, their position in the pool and their task. */
    ghost predicate Valid()
      reads this
    {
      && (forall i :: 0 <= i < |pool| ==> pool[i].client == this && pool[i].slot == i)
      && (forall id :: id in runners ==> runners[id].taskId == id && Owns(runners[id]))
    }

    /** The runner is where this client's pool says. */
    ghost predicate Owns(r: TaskRunner)
      reads this
    {
      r.client == this && r.slot < |pool| && pool[r.slot] == r
    }

    method Emit(e: Event)
      modifies `buffer, `sent, `emitted
      ensures LinkState() == LinkEmit(old(LinkState()), [e])
    {
      emitted := emitted + [e];
      if connected {
        sent := sent + [e];
      } else {
        buffer := buffer + [e];
      }
    }

    method FlushBuffer()
      modifies `buffer, `sent
      ensures buffer == [] && sent == old(sent) + old(buffer)
    {
      if |buffer| == 0 {
        return;
      }
      var queued := buffer;
      buffer := [];
      var i := 0;
      while i < |queued|
        invariant 0 <= i <= |queued|
        invariant buffer == [] && sent == old(sent) + queued[..i]
      {
        assert queued[..i + 1] == queued[..i] + [queued[i]];
        sent := sent + [queued[i]];
        i := i + 1;
      }
      assert queued[..i] == queued;
    }

    method OnConnect()
      requires Valid()
      modifies `connected, `buffer, `sent
      ensures Valid() && State() == DApply(h, old(State()), Connect)
    {
      connected := true;
      FlushBuffer();
    }

    /** The socket drops; the handler only logs. */
    method OnDisconnect()
      requires Valid()
      modifies `connected
      ensures Valid() && State() == DApply(h, old(State()), Disconnect)
    {
      connected := false;
    }

    /** The interval timer. */
    method OnHeartbeat()
      requires Valid()
      modifies `buffer, `sent, `emitted
      ensures Valid() && State() == DApply(h, old(State()), HeartbeatTimer)
    {
      Emit(Heartbeat);
    }

    method DropTask(id: TaskId)
      modifies `runners
      ensures runners == old(runners) - {id}
    {
      runners := runners - {id};
    }

    /** A submit without a task id, or for a task already running, is ignored;
        otherwise a fresh runner enters the map and starts. */
    method OnTaskSubmit(taskId: Option<TaskId>, outcome: SpawnOutcome) returns (accepted: bool)
      requires Valid()
      modifies this
      ensures Valid()
      ensures accepted <==> taskId.Some? && taskId.value !in old(runners)
      ensures State() == if taskId.Some? then DApply(h, old(State()), TaskSubmit(taskId.value, outcome)) else old(State())
    {
      if taskId.None? || taskId.value in runners {
        return false;
      }
      var runner := new TaskRunner(taskId.value, this, |pool|);
      pool := pool + [runner];
      runners := runners[taskId.value := runner];
      Accepted(runner);
      label Entered:
      runner.Start(outcome);
      runner.DidIsRunOp@Entered(Op.Start(outcome));
      return true;
    }

    /** The state once a fresh runner has entered pool and map. */
    twostate lemma Accepted(new runner: TaskRunner)
      requires old(Valid()) && runner.client == this && runner.slot == |old(pool)| && runner.taskId !in old(runners)
      requires pool == old(pool) + [runner] && runners == old(runners)[runner.taskId := runner]
      requires LinkState() == old(LinkState()) && output == old(output) && exits == old(exits) && runner.State() == Fresh(runner.taskId)
      requires forall r :: r in old(pool) ==> r.State() == old(r.State())
      ensures Valid() && Owns(runner)
      ensures State() == old(State()).(pool := old(State()).pool + [Fresh(runner.taskId)],
                                       runners := old(State()).runners[runner.taskId := runner.slot])
    {
      assert Slots() == old(Slots())[runner.taskId := runner.slot];
      assert PoolStates(pool) == old(PoolStates(pool)) + [Fresh(runner.taskId)];
    }

    method OnTaskCancel(taskId: TaskId)
      requires Valid()
      modifies this, pool
      ensures Valid()
      ensures State() == DApply(h, old(State()), TaskCancel(taskId))
    {
      if taskId in runners {
        var runner := runners[taskId];
        runner.Kill();
        runner.DidIsRunOp(Op.Kill);
      }
    }

    method OnApprovalDecision(taskId: TaskId, approved: bool, stdinOpen: bool) returns (wrote: bool)
      requires Valid()
      modifies this, pool
      ensures Valid()
      ensures State() == DApply(h, old(State()), DecisionArrives(taskId, approved, stdinOpen))
      ensures wrote <==> approved && stdinOpen && taskId in old(runners) && old(taskId in runners && runners[taskId].awaitingApproval)
    {
      wrote := false;
      if taskId in runners {
        var runner := runners[taskId];
        wrote := runner.Decide(approved, stdinOpen);
        runner.DidIsRunOp(Decision(approved, stdinOpen));
      }
    }

    // ----- the listeners `start` puts on the child -----

    method ChildPrints(runner: TaskRunner, chunk: string)
      requires Valid() && Owns(runner)
      modifies this, runner
      ensures Valid() && Owns(runner)
      ensures State() == DApply(h, old(State()), Child(runner.slot, Data(chunk)))
    {
      runner.OnData(chunk);
      runner.DidIsRunOp(Data(chunk));
    }

    method ChildCloses(runner: TaskRunner, code: Option<int>, signal: Option<string>)
      requires Valid() && Owns(runner)
      modifies this, runner
      ensures Valid() && Owns(runner)
      ensures State() == DApply(h, old(State()), Child(runner.slot, Close(code, signal)))
    {
      runner.OnClose(code, signal);
      runner.DidIsRunOp(Close(code, signal));
    }

    method ChildFails(runner: TaskRunner, message: string)
      requires Valid() && Owns(runner)
      modifies this, runner
      ensures Valid() && Owns(runner)
      ensures State() == DApply(h, old(State()), Child(runner.slot, Error(message)))
    {
      exits := exits + [ExitRecord(runner.slot, Error(message), runner.State())];
      if !runner.exitHandled {
        runner.FinishFailed("child process error: " + message);
      }
      runner.DidIsRunOp(Error(message));
    }
  }

  class TaskRunner {
    const taskId: TaskId
    const client: Client
    ghost const slot: nat
    var awaitingApproval: bool
    var killedByHub: bool
    var lastChunk: string
    var tail: string
    var exitHandled: bool
    ghost var stream: string
    ghost var outcome: Option<ResultPayload>

    constructor (taskId: TaskId, client: Client, ghost slot: nat)
      ensures this.taskId == taskId && this.client == client && this.slot == slot
      ensures State() == Fresh(taskId)
    {
      this.taskId, this.client, this.slot := taskId, client, slot;
      awaitingApproval, killedByHub, exitHandled := false, false, false;
      lastChunk, tail, stream, outcome := "", "", "", None;
    }

    ghost function State(): RunnerState
      reads this
    {
      RunnerState(taskId, awaitingApproval, killedByHub, lastChunk, tail, exitHandled, stream, outcome)
    }

    /** This runner and its client are as effect `e` says: the client's map loses
        the task exactly when `e` drops it, `printed` is new output and `ended` is
        new in the history of exits. */
    twostate predicate Did(e: Effect, printed: seq<(TaskId, string)>, ended: seq<ExitRecord>)
      reads this, client
    {
      && State() == e.runner
      && client.LinkState() == LinkEmit(old(client.LinkState()), e.events)
      && client.runners == (if e.drop then old(client.runners) - {taskId} else old(client.runners))
      && client.pool == old(client.pool)
      && client.output == old(client.output) + printed
      && client.exits == old(client.exits) + ended
    }

    twostate predicate OthersSame()
      reads client, client.pool
    {
      forall r :: r in client.pool && r in old(client.pool) && r != this ==> r.State() == old(r.State())
    }

    /** Only this runner's entry of the pool has changed. */
    twostate lemma PoolDid()
      requires old(client.Valid() && client.Owns(this)) && client.pool == old(client.pool) && OthersSame()
      ensures PoolStates(client.pool) == old(PoolStates(client.pool))[slot := State()]
    {
      forall i | 0 <= i < |client.pool| && i != slot ensures client.pool[i].State() == old(client.pool[i].State()) {
        assert client.pool[i] != this && client.pool[i] in client.pool;
      }
    }

    twostate lemma SlotsDid(drop: bool)
      requires client.runners == (if drop then old(client.runners) - {taskId} else old(client.runners))
      ensures client.Slots() == if drop then old(client.Slots()) - {taskId} else old(client.Slots())
    {
    }

    /** An operation of one runner is that operation of the daemon model. */
    twostate lemma {:induction false} DidIsRunOp(op: Op)
      requires old(client.Valid() && client.Owns(this))
      requires Did(Perform(client.h, old(State()), op), Printed(taskId, op), Ended(slot, old(State()), op)) && OthersSame()
      ensures client.Valid() && client.Owns(this)
      ensures client.State() == RunOp(client.h, old(client.State()), slot, op)
    {
      PoolDid();
      SlotsDid(Perform(client.h, old(State()), op).drop);
      RunOpCarries(client.h, old(client.State()), slot, op);
      assert old(client.State()).pool[slot] == old(State());
    }

    method Start(outcome: SpawnOutcome)
      modifies this, client
      ensures Did(old(OnStart(client.h, State(), outcome)), [], Ended(slot, old(State()), Op.Start(outcome)))
    {
      match outcome {
        case EmptyTemplate =>
        case SpawnThrew(message) =>
          client.exits := client.exits + [ExitRecord(slot, Op.Start(outcome), State())];
          FinishFailed("spawn failed: " + message);
        case Spawned => client.Emit(StatusUpdate(taskId, TaskStatus.Running));
      }
    }

    method OnData(chunk: string)
      modifies this, client
      ensures Did(old(Runner.OnData(client.h, State(), chunk)), [(taskId, chunk)], [])
    {
      lastChunk := chunk;
      stream := stream + chunk;
      tail := LastChars(tail + chunk, TAIL_LIMIT);
      client.output := client.output + [(taskId, chunk)];
      client.Emit(Log(taskId, chunk));
      if awaitingApproval {
        return;
      }
      match client.h.detect(tail) {
        case None =>
        case Some(reason) =>
          awaitingApproval := true;
          client.Emit(ApprovalRequest(taskId, reason));
      }
    }

    method Decide(approved: bool, stdinOpen: bool) returns (wrote: bool)
      modifies this
      ensures Did(old(Runner.OnDecision(State(), approved, stdinOpen)), [], [])
      ensures wrote == old(Runner.OnDecision(State(), approved, stdinOpen).wrote)
    {
      if approved {
        if awaitingApproval {
          awaitingApproval := false;
          tail, stream := "", "";
          return stdinOpen;
        }
        return false;
      }
      Kill();
      return false;
    }

    method Kill()
      modifies this
      ensures Did(old(OnKill(State())), [], [])
    {
      killedByHub := true;
    }

    method OnClose(code: Option<int>, signal: Option<string>)
      modifies this, client
      ensures Did(old(Runner.OnClose(client.h, State(), code, signal)), [], [ExitRecord(slot, Close(code, signal), old(State()))])
    {
      client.exits := client.exits + [ExitRecord(slot, Close(code, signal), State())];
      if exitHandled {
        return;
      }
      exitHandled := true;
      if killedByHub {
        client.DropTask(taskId);
        return;
      }
      var ok := code == Some(0) && signal.None?;
      var failure := if ok then None else client.h.capacity(if tail != "" then tail else lastChunk);
      outcome := Some(ResultPayload(ok, failure, lastChunk));
      client.Emit(TaskResult(taskId, ResultPayload(ok, failure, lastChunk)));
      client.DropTask(taskId);
    }

    method FinishFailed(reason: string)
      modifies this, client
      ensures Did(old(Runner.FinishFailed(client.h, State(), reason)), [], [])
    {
      if exitHandled {
        return;
      }
      exitHandled := true;
      outcome := Some(ResultPayload(false, client.h.capacity(reason), reason));
      client.Emit(TaskResult(taskId, ResultPayload(false, client.h.capacity(reason), reason)));
      client.DropTask(taskId);
    }
  }
}
