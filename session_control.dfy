/**
 * The session and autopilot control state of clouddeploy/server.py: the module
 * globals `autopilot_enabled`, `autopilot_task` and `autopilot_clients`, and the
 * registry's `command` and `_runner`, with the operations that update them.
 *
 * The tool registry (`tools.call(...)`), `decide_input` and `redact_text` are
 * not part of this model: what they return is passed in as a parameter. Each
 * operation runs as one atomic step (the asyncio locks are left out), and
 * broadcasts are recorded in `log` together with the clients they reached.
 */
module SessionControl {
  import opened Wrappers
  import opened Text

  /** An autopilot WebSocket, by identity. */
  type Client = nat

  /** What the runner's `is_running()` does when called. */
  datatype Liveness = Reports(running: bool) | Raises

  /**
   * The registry's PTY runner as `_cleanup_dead_session_if_needed` inspects it:
   * its `is_running` method if it has one, else its `pid` and `_closed` attributes.
   */
  datatype Runner = Runner(isRunning: Option<Liveness>, pid: Option<int>, closed: bool)

  /** The liveness test of `_cleanup_dead_session_if_needed`; a failing probe means dead. */
  predicate Alive(r: Runner)
  {
    match r.isRunning
    case Some(Reports(b)) => b
    case Some(Raises) => false
    case None => r.pid.Some? && r.pid.value != 0 && !r.closed
  }

  /** A runner is present and found dead: the self-heal fires. */
  predicate CleansUp(runner: Option<Runner>)
  {
    runner.Some? && !Alive(runner.value)
  }

  /** The runner left by `_cleanup_dead_session_if_needed`. */
  function AfterCleanup(runner: Option<Runner>): (r: Option<Runner>)
    ensures r.Some? ==> r == runner && Alive(r.value)
    ensures r.None? ==> runner.None? || CleansUp(runner)
  {
    if CleansUp(runner) then None else runner
  }

  /** The autopilot loop's asyncio task. */
  datatype Task = Task(id: nat, done: bool)

  predicate Live(t: Option<Task>)
  {
    t.Some? && !t.value.done
  }

  /** What the registry's "session.status" reports. */
  datatype Status = Status(running: bool, command: string)

  /** The detector state `cli.wait_for_prompt` returns; "" stands for a missing `last_error`. */
  datatype DetectorState = DetectorState(
    completed: bool, lastError: string, waitingForInput: bool, prompt: string, choices: seq<string>)

  /** What one iteration of the loop gets from the registry: the state and `cli.read` tail, or `cli.wait_for_prompt` raising. */
  datatype Observation = Observed(state: DetectorState, tail: string) | RegistryFailed(message: string)

  /** The messages `broadcast_autopilot` sends. */
  datatype Event =
    | AutopilotStatus(enabled: bool)
    | WaitingForSession
    | LoopStarted
    | StateSnapshot(state: DetectorState)
    | CompletedEvent
    | ErrorDetected(error: string)
    | PausedEvent(reason: string)
    | SentInput(input: string)
    | LoopCrashed(error: string)

  /** One broadcast: the event and the clients whose send succeeded. */
  datatype Delivery = Delivery(event: Event, recipients: set<Client>)

  /** One `tools.call("cli.send", {"input": ..., "append_newline": ...})`. */
  datatype CliSend = CliSend(input: string, appendNewline: bool)

  /**
   * The answers of `/api/session/start`; `StartFailed` is the uncaught error
   * a raising "session.start" call leaves, which the framework answers with 500.
   */
  datatype StartResponse = MissingCmd | AlreadyRunning(command: string) | Started(command: string) | StartFailed

  function HttpStatus(r: StartResponse): (code: int)
    ensures code == 400 <==> r.MissingCmd?
    ensures code == 500 <==> r.StartFailed?
    ensures code == 200 || code == 400 || code == 500
  {
    match r
    case MissingCmd => 400
    case StartFailed => 500
    case _ => 200
  }

  /** The actions the `/ws/autopilot` socket accepts. */
  datatype Action = StartAction | StopAction | UnknownAction(name: string)

  /** `(msg.get("action") or "").lower()` dispatched to start, stop or an error reply. */
  function ParseAction(action: string): (a: Action)
    ensures a == StartAction <==> Lower(action) == "start"
    ensures a == StopAction <==> Lower(action) == "stop"
    ensures a.UnknownAction? ==> a.name == Lower(action)
  {
    var name := Lower(action);
    if name == "start" then StartAction else if name == "stop" then StopAction else UnknownAction(name)
  }

  lemma ParseActionIgnoresCase(action: string)
    ensures ParseAction(Lower(action)) == ParseAction(action)
  {
    LowerIdempotent(action);
  }

  /** The decision one iteration of `autopilot_loop` takes on the detector state. */
  datatype Decision = StopCompleted | StopOnError(error: string) | StopNoSafeAction | SendInput(input: string)

  const NoSafeAction: string := "No safe action determined."

  /**
   * Completion is checked first, then `last_error`, then whether `decide_input`
   * finds an answer; only an answer is sent.
   */
  function Decide(state: DetectorState, tail: string, decideInput: (DetectorState, string) -> Option<string>): (d: Decision)
    ensures state.completed ==> d == StopCompleted
    ensures !state.completed && state.lastError != "" ==> d == StopOnError(state.lastError)
    ensures !state.completed && state.lastError == "" && decideInput(state, tail).None? ==> d == StopNoSafeAction
    ensures d.SendInput? <==> !state.completed && state.lastError == "" && decideInput(state, tail).Some?
    ensures d.SendInput? ==> d.input == decideInput(state, tail).value
  {
    if state.completed then StopCompleted
    else if state.lastError != "" then StopOnError(state.lastError)
    else match decideInput(state, tail)
      case None => StopNoSafeAction
      case Some(input) => SendInput(input)
  }

  /**
   * The inputs the loop sends over consecutive iterations on which the session
   * was running: it goes on while each decision is to send, and returns otherwise.
   */
  function LoopSends(states: seq<DetectorState>, tails: seq<string>, decideInput: (DetectorState, string) -> Option<string>): seq<string>
    requires |tails| == |states|
  {
    if states == [] then []
    else match Decide(states[0], tails[0], decideInput)
      case SendInput(input) => [input] + LoopSends(states[1..], tails[1..], decideInput)
      case _ => []
  }

  /**
   * Stop-on-error over a whole run: every input sent came from a state with no
   * error and no completion, as `decide_input` chose it, and nothing is sent from
   * the first state that carries an error onwards.
   */
  lemma {:induction false} LoopStopsOnError(
    states: seq<DetectorState>, tails: seq<string>, decideInput: (DetectorState, string) -> Option<string>, k: nat)
    requires |tails| == |states|
    ensures |LoopSends(states, tails, decideInput)| <= |states|
    ensures forall i :: 0 <= i < |LoopSends(states, tails, decideInput)| ==>
      states[i].lastError == "" && !states[i].completed &&
      decideInput(states[i], tails[i]) == Some(LoopSends(states, tails, decideInput)[i])
    ensures k < |states| && states[k].lastError != "" ==> |LoopSends(states, tails, decideInput)| <= k
  {
    if states != [] {
      var rest := LoopSends(states[1..], tails[1..], decideInput);
      LoopStopsOnError(states[1..], tails[1..], decideInput, if k == 0 then 0 else k - 1);
      var d := Decide(states[0], tails[0], decideInput);
      if d.SendInput? {
        var all := LoopSends(states, tails, decideInput);
        assert all == [d.input] + rest;
        forall i | 0 <= i < |all|
          ensures states[i].lastError == "" && !states[i].completed && decideInput(states[i], tails[i]) == Some(all[i])
        {
          if i > 0 {
            assert states[i] == states[1..][i - 1] && tails[i] == tails[1..][i - 1] && all[i] == rest[i - 1];
          }
        }
      }
    }
  }

  /** The deliveries of `_cleanup_dead_session_if_needed` for this runner. */
  function CleanupLog(runner: Option<Runner>, recipients: set<Client>): seq<Delivery>
  {
    if CleansUp(runner) then [Delivery(AutopilotStatus(false), recipients)] else []
  }

  /** The outcome of one iteration of `autopilot_loop`. */
  datatype Iteration = Exited | AwaitingSession | Crashed(error: string) | Decided(decision: Decision)

  /** The deliveries one iteration makes after its status check. */
  function IterationLog(it: Iteration, obs: Observation, redact: string -> string, recipients: set<Client>): seq<Delivery>
  {
    match it
    case Exited => []
    case AwaitingSession => [Delivery(WaitingForSession, recipients)]
    case Crashed(e) => [Delivery(LoopCrashed(e), recipients), Delivery(AutopilotStatus(false), recipients)]
    case Decided(d) =>
      (if obs.Observed? then [Delivery(StateSnapshot(obs.state), recipients)] else []) +
      match d
      case StopCompleted => [Delivery(CompletedEvent, recipients), Delivery(AutopilotStatus(false), recipients)]
      case StopOnError(e) => [Delivery(ErrorDetected(e), recipients), Delivery(AutopilotStatus(false), recipients)]
      case StopNoSafeAction => [Delivery(PausedEvent(NoSafeAction), recipients), Delivery(AutopilotStatus(false), recipients)]
      case SendInput(input) => [Delivery(SentInput(redact(input)), recipients)]
  }

  /** The two `asyncio.Lock`s of server.py:32-33. */
  datatype Lock = SessionLock | AutopilotLock

  /** The locks `_cleanup_dead_session_if_needed` takes, in order, for this runner. */
  function CleanupAcquires(runner: Option<Runner>): seq<Lock>
  {
    if CleansUp(runner) then [SessionLock, AutopilotLock] else []
  }

  /** Where a task taking `wanted` in order, while it already holds `held`, ends up. */
  datatype Acquisition = Acquired(held: set<Lock>) | WaitsForever(on: Lock, held: set<Lock>)

  /**
   * `asyncio.Lock` is not reentrant: a task asking for a lock it holds itself
   * waits for ever. Locks held by other tasks are not modelled (each operation
   * runs alone), so any other lock is taken at once.
   */
  function Acquire(held: set<Lock>, wanted: seq<Lock>): Acquisition
    decreases |wanted|
  {
    if wanted == [] then Acquired(held)
    else if wanted[0] in held then WaitsForever(wanted[0], held)
    else Acquire(held + {wanted[0]}, wanted[1..])
  }

  /**
   * The self-heal as written, from each of its callers. `api_session_start`
   * calls `_session_status` holding `_session_lock`, and `start_autopilot`
   * holding `_autopilot_lock`; with a dead runner the self-heal asks for that
   * same lock again, so neither call returns, and `start_autopilot` is left
   * holding both locks. Callers that hold no lock (the status endpoint, the
   * sockets, the autopilot loop) complete the self-heal.
   */
  lemma SelfHealDeadlocks(runner: Option<Runner>)
    ensures CleansUp(runner) ==>
      Acquire({SessionLock}, CleanupAcquires(runner)) == WaitsForever(SessionLock, {SessionLock})
    ensures CleansUp(runner) ==>
      Acquire({AutopilotLock}, CleanupAcquires(runner)) == WaitsForever(AutopilotLock, {AutopilotLock, SessionLock})
    ensures !CleansUp(runner) ==>
      Acquire({SessionLock}, CleanupAcquires(runner)).Acquired? &&
      Acquire({AutopilotLock}, CleanupAcquires(runner)).Acquired?
    ensures Acquire({}, CleanupAcquires(runner)) == Acquired(if CleansUp(runner) then {SessionLock, AutopilotLock} else {})
  {
    if CleansUp(runner) {
      assert [SessionLock, AutopilotLock][1..] == [AutopilotLock];
      assert {AutopilotLock} + {SessionLock} == {AutopilotLock, SessionLock};
      assert {} + {SessionLock} + {AutopilotLock} == {SessionLock, AutopilotLock};
    }
  }

  /** A concrete dead runner: `is_running()` returns false. */
  lemma DeadRunnerHangsStart()
    ensures CleansUp(Some(Runner(Some(Reports(false)), Some(42), false)))
    ensures Acquire({SessionLock}, CleanupAcquires(Some(Runner(Some(Reports(false)), Some(42), false)))).WaitsForever?
  {
    SelfHealDeadlocks(Some(Runner(Some(Reports(false)), Some(42), false)));
  }

  class Controller {
    /** `tools._runner`. */
    var runner: Option<Runner>
    /** `tools.command`. */
    var command: string
    var autopilotEnabled: bool
    var autopilotTask: Option<Task>
    /** The id the next `asyncio.create_task` gets. */
    var nextTaskId: nat
    var clients: set<Client>
    /** Every broadcast so far, and each direct status send of `Connect`, oldest first. */
    var log: seq<Delivery>
    /** Every `cli.send` the autopilot issued, oldest first. */
    var cliSends: seq<CliSend>

    /** Autopilot is only ever on while a runner is present. */
    ghost predicate Valid()
      reads this
    {
      (autopilotEnabled ==> runner.Some?) &&
      (autopilotTask.Some? ==> autopilotTask.value.id < nextTaskId)
    }

    /** Module start-up: no session is started automatically. */
    constructor (defaultCmd: string)
      ensures Valid()
      ensures runner == None && command == defaultCmd && !autopilotEnabled && autopilotTask == None
      ensures clients == {} && log == [] && cliSends == []
    {
      runner := None;
      command := defaultCmd;
      autopilotEnabled := false;
      autopilotTask := None;
      nextTaskId := 0;
      clients := {};
      log := [];
      cliSends := [];
    }

    /**
     * `broadcast_autopilot`: send `event` to every client; the clients whose send
     * raised are dropped, all others keep their place.
     */
    method Broadcast(event: Event, failing: set<Client>)
      modifies this`clients, this`log
      ensures clients == old(clients) - failing
      ensures log == old(log) + [Delivery(event, old(clients) - failing)]
    {
      var dead: set<Client> := {};
      var pending := clients;
      while pending != {}
        invariant pending <= clients
        invariant dead == (clients - pending) * failing
        decreases |pending|
      {
        var ws :| ws in pending;
        if ws in failing {
          dead := dead + {ws};
        }
        pending := pending - {ws};
      }
      log := log + [Delivery(event, clients - dead)];
      clients := clients - dead;
    }

    /**
     * `ws_autopilot` accepting a client: it joins the set and is sent the current
     * status. That send is outside the handler's `try`, so when it fails the
     * handler ends at once (`accepted` is false) and the client stays in the set
     * until a later broadcast drops it.
     */
    method Connect(ws: Client, failing: set<Client>) returns (accepted: bool)
      modifies this`clients, this`log
      ensures accepted <==> ws !in failing
      ensures clients == old(clients) + {ws}
      ensures log == old(log) + [Delivery(AutopilotStatus(autopilotEnabled), {ws} - failing)]
    {
      clients := clients + {ws};
      log := log + [Delivery(AutopilotStatus(autopilotEnabled), {ws} - failing)];
      accepted := ws !in failing;
    }

    /** `ws_autopilot` ending: the client is discarded. */
    method Disconnect(ws: Client)
      modifies this`clients
      ensures clients == old(clients) - {ws}
    {
      clients := clients - {ws};
    }

    /** `_cleanup_dead_session_if_needed`: a dead runner is dropped and autopilot turned off. */
    method CleanupDeadSession(failing: set<Client>)
      requires Valid()
      modifies this
      ensures Valid()
      ensures runner == AfterCleanup(old(runner))
      ensures command == old(command) && cliSends == old(cliSends) && nextTaskId == old(nextTaskId)
      ensures !CleansUp(old(runner)) ==>
        autopilotEnabled == old(autopilotEnabled) && autopilotTask == old(autopilotTask) &&
        clients == old(clients) && log == old(log)
      ensures CleansUp(old(runner)) ==>
        !autopilotEnabled && autopilotTask == None && runner == None &&
        clients == old(clients) - failing && log == old(log) + CleanupLog(old(runner), old(clients) - failing)
    {
      if runner.None? || Alive(runner.value) {
        return;
      }
      autopilotEnabled := false;
      Broadcast(AutopilotStatus(false), failing);
      autopilotTask := None;
      runner := None;
    }

    /**
     * `_session_status`: self-heal, then take the registry's report, never
     * letting it say running while no runner is present.
     */
    method SessionStatus(reported: Status, failing: set<Client>) returns (st: Status)
      requires Valid()
      modifies this
      ensures Valid()
      ensures st.running ==> runner.Some? && Alive(runner.value)
      ensures st.running <==> reported.running && runner.Some?
      ensures st.command == reported.command
      ensures runner == AfterCleanup(old(runner))
      ensures command == old(command) && cliSends == old(cliSends) && nextTaskId == old(nextTaskId)
      ensures !CleansUp(old(runner)) ==>
        autopilotEnabled == old(autopilotEnabled) && autopilotTask == old(autopilotTask) &&
        clients == old(clients) && log == old(log)
      ensures CleansUp(old(runner)) ==>
        !autopilotEnabled && autopilotTask == None &&
        clients == old(clients) - failing && log == old(log) + CleanupLog(old(runner), old(clients) - failing)
    {
      CleanupDeadSession(failing);
      st := reported;
      if st.running && runner.None? {
        st := st.(running := false);
      }
    }

    /** `/api/session/stop`: autopilot off, its task dropped, the runner gone. */
    method SessionStop(failing: set<Client>)
      requires Valid()
      modifies this
      ensures Valid()
      ensures !autopilotEnabled && autopilotTask == None && runner == None
      ensures command == old(command) && cliSends == old(cliSends) && nextTaskId == old(nextTaskId)
      ensures clients == old(clients) - failing
      ensures log == old(log) + [Delivery(AutopilotStatus(false), old(clients) - failing)]
    {
      autopilotEnabled := false;
      Broadcast(AutopilotStatus(false), failing);
      autopilotTask := None;
      runner := None;
    }

    /**
     * `/api/session/start`: a blank `cmd` is refused with 400 and changes nothing;
     * a running session is kept, with its command; otherwise the stripped `cmd`
     * becomes the registry's command and "session.start" supplies the runner
     * (`spawned`), or raises (`spawned == None`), leaving the command set and
     * the runner as the self-heal left it.
     */
    method SessionStart(cmd: string, reported: Status, failing: set<Client>, spawned: Option<Runner>) returns (resp: StartResponse)
      requires Valid()
      modifies this
      ensures Valid()
      ensures nextTaskId == old(nextTaskId) && cliSends == old(cliSends)
      ensures Strip(cmd) == "" ==>
        resp == MissingCmd && runner == old(runner) && command == old(command) &&
        autopilotEnabled == old(autopilotEnabled) && autopilotTask == old(autopilotTask) &&
        clients == old(clients) && log == old(log)
      ensures Strip(cmd) != "" ==>
        autopilotEnabled == (old(autopilotEnabled) && !CleansUp(old(runner))) &&
        autopilotTask == (if CleansUp(old(runner)) then None else old(autopilotTask)) &&
        clients == (if CleansUp(old(runner)) then old(clients) - failing else old(clients)) &&
        log == old(log) + CleanupLog(old(runner), old(clients) - failing)
      ensures Strip(cmd) != "" && reported.running && AfterCleanup(old(runner)).Some? ==>
        resp == AlreadyRunning(reported.command) && command == old(command) && runner == old(runner)
      ensures Strip(cmd) != "" && !(reported.running && AfterCleanup(old(runner)).Some?) && spawned.Some? ==>
        resp == Started(Strip(cmd)) && command == Strip(cmd) && runner == spawned
      ensures Strip(cmd) != "" && !(reported.running && AfterCleanup(old(runner)).Some?) && spawned.None? ==>
        resp == StartFailed && command == Strip(cmd) && runner == AfterCleanup(old(runner))
      ensures Strip(cmd) != "" && CleansUp(old(runner)) ==>
        resp == (if spawned.Some? then Started(Strip(cmd)) else StartFailed) && runner == spawned &&
        !autopilotEnabled && autopilotTask == None
    {
      var c := Strip(cmd);
      if c == "" {
        return MissingCmd;
      }
      var st := SessionStatus(reported, failing);
      if st.running {
        return AlreadyRunning(st.command);
      }
      command := c;
      if spawned.None? {
        return StartFailed;
      }
      runner := spawned;
      return Started(c);
    }

    /**
     * `start_autopilot`: without a running session autopilot stays off and no
     * task is made; with one it is switched on, and a task is created only when
     * no live one exists.
     */
    method StartAutopilot(reported: Status, failing: set<Client>)
      requires Valid()
      modifies this
      ensures Valid()
      ensures runner == AfterCleanup(old(runner))
      ensures command == old(command) && cliSends == old(cliSends)
      ensures clients == old(clients) - failing
      ensures autopilotEnabled <==> reported.running && runner.Some?
      ensures !autopilotEnabled ==>
        autopilotTask == (if CleansUp(old(runner)) then None else old(autopilotTask)) &&
        nextTaskId == old(nextTaskId) &&
        log == old(log) + CleanupLog(old(runner), old(clients) - failing) +
          [Delivery(AutopilotStatus(false), old(clients) - failing), Delivery(WaitingForSession, old(clients) - failing)]
      ensures autopilotEnabled ==>
        log == old(log) + [Delivery(AutopilotStatus(true), old(clients) - failing)]
      ensures autopilotEnabled && Live(old(autopilotTask)) ==>
        autopilotTask == old(autopilotTask) && nextTaskId == old(nextTaskId)
      ensures autopilotEnabled && !Live(old(autopilotTask)) ==>
        autopilotTask == Some(Task(old(nextTaskId), false)) && nextTaskId == old(nextTaskId) + 1
      ensures CleansUp(old(runner)) ==> !autopilotEnabled && autopilotTask == None && runner == None
    {
      var st := SessionStatus(reported, failing);
      ghost var base := log;
      assert clients - failing == old(clients) - failing;
      assert (old(clients) - failing) - failing == old(clients) - failing;
      if !st.running {
        autopilotEnabled := false;
        Broadcast(AutopilotStatus(false), failing);
        Broadcast(WaitingForSession, failing);
        assert log == base + [Delivery(AutopilotStatus(false), old(clients) - failing), Delivery(WaitingForSession, old(clients) - failing)];
        return;
      }
      autopilotEnabled := true;
      Broadcast(AutopilotStatus(true), failing);
      if Live(autopilotTask) {
        return;
      }
      autopilotTask := Some(Task(nextTaskId, false));
      nextTaskId := nextTaskId + 1;
    }

    /** `stop_autopilot`: autopilot off and its task dropped. */
    method StopAutopilot(failing: set<Client>)
      requires Valid()
      modifies this
      ensures Valid()
      ensures !autopilotEnabled && autopilotTask == None
      ensures runner == old(runner) && command == old(command) && cliSends == old(cliSends) && nextTaskId == old(nextTaskId)
      ensures clients == old(clients) - failing
      ensures log == old(log) + [Delivery(AutopilotStatus(false), old(clients) - failing)]
    {
      autopilotEnabled := false;
      Broadcast(AutopilotStatus(false), failing);
      autopilotTask := None;
    }

    /** The loop's task returning. */
    method FinishTask()
      modifies this`autopilotTask
      ensures autopilotTask == (if old(autopilotTask).Some? then Some(old(autopilotTask).value.(done := true)) else None)
    {
      if autopilotTask.Some? {
        autopilotTask := Some(autopilotTask.value.(done := true));
      }
    }

    /** The "started" event `autopilot_loop` broadcasts before its first iteration. */
    method BeginLoop(failing: set<Client>)
      requires Valid() && Live(autopilotTask)
      modifies this`clients, this`log
      ensures clients == old(clients) - failing
      ensures log == old(log) + [Delivery(LoopStarted, old(clients) - failing)]
    {
      Broadcast(LoopStarted, failing);
    }

    /**
     * One iteration of `autopilot_loop`, run by the live task: self-heal, leave
     * if autopilot is off, wait while no session runs, else act on the detector
     * state. Only a `SendInput` decision issues a `cli.send` (with a newline);
     * every other outcome turns autopilot off and ends the task.
     */
    method AutopilotIteration(
      reported: Status, obs: Observation, decideInput: (DetectorState, string) -> Option<string>,
      redact: string -> string, failing: set<Client>) returns (it: Iteration)
      requires Valid() && Live(autopilotTask)
      modifies this
      ensures Valid()
      ensures runner == AfterCleanup(old(runner))
      ensures command == old(command) && nextTaskId == old(nextTaskId)
      ensures it == Exited <==> !old(autopilotEnabled) || CleansUp(old(runner))
      ensures it == AwaitingSession <==> old(autopilotEnabled) && !CleansUp(old(runner)) && !(reported.running && runner.Some?)
      ensures it.Crashed? <==> old(autopilotEnabled) && !CleansUp(old(runner)) && reported.running && runner.Some? && obs.RegistryFailed?
      ensures it.Crashed? ==> it.error == obs.message
      ensures it.Decided? ==> obs.Observed? && it.decision == Decide(obs.state, obs.tail, decideInput)
      ensures cliSends == (if it.Decided? && it.decision.SendInput? then old(cliSends) + [CliSend(it.decision.input, true)] else old(cliSends))
      ensures obs.Observed? && obs.state.lastError != "" ==> cliSends == old(cliSends)
      ensures it == AwaitingSession || (it.Decided? && it.decision.SendInput?) ==>
        autopilotEnabled && autopilotTask == old(autopilotTask)
      ensures !(it == AwaitingSession || (it.Decided? && it.decision.SendInput?)) ==>
        !autopilotEnabled && !Live(autopilotTask)
      ensures clients == (if !CleansUp(old(runner)) && it == Exited then old(clients) else old(clients) - failing)
      ensures log == old(log) + CleanupLog(old(runner), old(clients) - failing) +
        IterationLog(it, obs, redact, old(clients) - failing)
    {
      var st := SessionStatus(reported, failing);
      ghost var base := log;
      ghost var rcpt := old(clients) - failing;
      assert clients - failing == rcpt && rcpt - failing == rcpt;
      if !autopilotEnabled {
        FinishTask();
        return Exited;
      }
      if !st.running {
        Broadcast(WaitingForSession, failing);
        return AwaitingSession;
      }
      match obs {
        case RegistryFailed(message) =>
          Broadcast(LoopCrashed(message), failing);
          Broadcast(AutopilotStatus(false), failing);
          autopilotEnabled := false;
          FinishTask();
          return Crashed(message);
        case Observed(state, tail) =>
          Broadcast(StateSnapshot(state), failing);
          var d := Decide(state, tail, decideInput);
          var snap := [Delivery(StateSnapshot(state), rcpt)];
          match d {
            case SendInput(input) =>
              cliSends := cliSends + [CliSend(input, true)];
              Broadcast(SentInput(redact(input)), failing);
              assert log == base + (snap + [Delivery(SentInput(redact(input)), rcpt)]);
            case StopCompleted =>
              Broadcast(CompletedEvent, failing);
              Broadcast(AutopilotStatus(false), failing);
              assert log == base + (snap + [Delivery(CompletedEvent, rcpt), Delivery(AutopilotStatus(false), rcpt)]);
            case StopOnError(e) =>
              Broadcast(ErrorDetected(e), failing);
              Broadcast(AutopilotStatus(false), failing);
              assert log == base + (snap + [Delivery(ErrorDetected(e), rcpt), Delivery(AutopilotStatus(false), rcpt)]);
            case StopNoSafeAction =>
              Broadcast(PausedEvent(NoSafeAction), failing);
              Broadcast(AutopilotStatus(false), failing);
              assert log == base + (snap + [Delivery(PausedEvent(NoSafeAction), rcpt), Delivery(AutopilotStatus(false), rcpt)]);
          }
          if !d.SendInput? {
            autopilotEnabled := false;
            FinishTask();
          }
          return Decided(d);
      }
    }
  }
}
