# CloudDeploy session core in Dafny

This project models the session core of CloudDeploy. CloudDeploy drives an interactive
deployment wizard, running under a pseudo-terminal, from a browser. It has two parts.

- **The PTY session** (`PtyRunner`, from `clouddeploy/pty_runner.py`). It holds the child's
  file descriptor, guards `write`, and keeps a rolling buffer of at most 1200 decoded output
  chunks, evicting the oldest first. `tail(max_chars)` returns Python's
  `"".join(buf)[-max_chars:]`, reproduced for every integer: `0` gives the whole text, and a
  negative value drops a prefix. `stream_output` is a read loop. Each run of read outcomes is a
  parameter, and so is the byte decoder.
- **The server's control state** (`SessionControl`, from `clouddeploy/server.py`). It covers
  the registry's runner and command, and the autopilot flag, task and client set. It models the
  operations on them:
  - the dead-session self-heal and authoritative status;
  - session start and stop;
  - autopilot start and stop;
  - one iteration of the autopilot loop;
  - the broadcast that prunes failed clients.

  The controller keeps one invariant across all of these operations: autopilot is only
  ever enabled while a runner is present.

  Beside these sit the pure pieces: the strict-policy setting and the default command
  (`ServerConfig`), the incremental output step of the terminal socket (`TerminalStream`) and
  the script list (`ScriptPicker`). `Text` holds shared string helpers: join, suffix,
  Python's `strip()` and ASCII `lower()`.

Some components are not part of this model: the tool registry (`clouddeploy/mcp/tools.py`),
`decide_input` (`clouddeploy/ibm/automation.py`) and `redact_text`. What they return enters
as a parameter:
- the registry's "session.status" report;
- the runner "session.start" creates;
- the detector state and tail of an iteration;
- the `decide_input` and `redact_text` functions.

The two source files contain no command policy engine, no plan lifecycle, no prompt
detector and no execution lock. Prompt detection sits behind the registry's
`cli.wait_for_prompt`, and policy checks behind its `cli.send`; both are outside this model.
The output buffer is capped at 1200 chunks, not at a number of characters.

What the terminal socket sends:
- Proved (`GrowingTailIsReproduced` with `LatestTailIsLastSent`): while each tail read extends
  the previous one, the pieces the socket sends concatenate to `last_sent`, and `last_sent` is
  the latest tail read, so the browser has received exactly that tail.
- Proved for every window (`SlidingWindowCases`), with concrete windows of each case
  (`SlidingWindowExamples`): once the tail read stops growing, its window slides. Two things
  can make it slide: the 12000-character `tail_chars` limit, or the registry's own buffer
  evicting old output. The `cli.read` buffer is not part of this model; if it is capped by
  chunks, like `PtySession`'s 1200-chunk buffer, the window can slide well before 12000
  characters. A non-empty window that does not start with `last_sent` is sent whole, which
  repeats text the browser already has. A window equal to `last_sent`, which repetitive output
  can produce, sends nothing, so that output never reaches the browser. No lemma ties
  `PtySession.Tail` to these cases.

## Model

| member | source | states |
|---|---|---|
| `PtyRunner.RecentSnoc` | clouddeploy/pty_runner.py:64-65 | appending to the 1200-chunk deque keeps the 1200 most recent chunks: when it is full, exactly the oldest is evicted, and the new chunk goes last |
| `PtyRunner.RecentIsLatest` | clouddeploy/pty_runner.py:24 | the buffer holds min(n, 1200) chunks, the latest ones in arrival order |
| `PtyRunner.TailOfOutput` | clouddeploy/pty_runner.py:40-43 | whatever `tail` returns is a suffix of everything the child ever printed, evicted chunks included |
| `PtyRunner.ReceivedConcat` | clouddeploy/pty_runner.py:50-66 | a run of reads that has not ended composes with the reads after it |
| `PtyRunner.ReadOutcome` | clouddeploy/pty_runner.py:55-66 | an empty read ends the stream, adds no chunk and nothing after it is read; a non-empty read adds exactly its decoded chunk, at the end |
| `PtyRunner.PtySession.constructor` | clouddeploy/pty_runner.py:20-25 | a new session has no file descriptor and an empty buffer |
| `PtyRunner.PtySession.Start` | clouddeploy/pty_runner.py:27-33 | the parent keeps the PTY file descriptor |
| `PtyRunner.PtySession.Write` | clouddeploy/pty_runner.py:35-38 | before `start` (no file descriptor) a write is a no-op; afterwards the data is written |
| `PtyRunner.PtySession.Tail` | clouddeploy/pty_runner.py:40-43 | the result is a suffix of the joined buffer; for max_chars >= 1 its length is min(max_chars, text length); for max_chars == 0, or a text no longer than max_chars, it is the whole text; a negative max_chars drops that many leading characters; the buffer is only read |
| `PtyRunner.PtySession.Append` | clouddeploy/pty_runner.py:64-65 | the deque append, with oldest-first eviction when full; the buffer is always the 1200 most recent of all chunks |
| `PtyRunner.PtySession.StreamOutput` | clouddeploy/pty_runner.py:45-66 | without a file descriptor nothing is yielded; otherwise the yielded chunks are those of the reads before the first empty read or read error, and each is appended to the buffer in order |
| `ServerConfig.StrictPolicy` | clouddeploy/server.py:36-42 | Some(true) exactly for stripped, lower-cased values in {1, true, yes, on}; Some(false) exactly for {0, false, no, off}; None otherwise |
| `ServerConfig.StrictPolicyIgnoresPadding` | clouddeploy/server.py:37 | whitespace around the value never changes the policy |
| `ServerConfig.StrictPolicyIgnoresCase` | clouddeploy/server.py:37 | the policy does not depend on letter case |
| `ServerConfig.StrictPolicyUnset` | clouddeploy/server.py:37-42 | an unset variable gives None |
| `ServerConfig.DefaultCmd` | clouddeploy/server.py:45-46 | the default command is never empty: the run command, else the default command, else "bash" |
| `TerminalStream.TerminalDelta` | clouddeploy/server.py:305-310 | nothing is sent exactly when the tail is empty or equals last_sent; if the tail starts with last_sent, last_sent plus what is sent equals the tail, otherwise the whole tail is sent; last_sent becomes the tail whenever something is sent |
| `TerminalStream.WsTerminal` | clouddeploy/server.py:289-318 | the socket loop sends, over a run of polls, exactly the deltas of the step above, and skips polls without a running session |
| `TerminalStream.SlidingWindowCases` | clouddeploy/server.py:305-310 | for every last_sent and window: a non-empty window that does not start with last_sent is sent whole and becomes last_sent; a window equal to last_sent sends nothing |
| `TerminalStream.SlidingWindowExamples` | clouddeploy/server.py:305-310 | both sliding cases occur: a window shifted by one character is resent whole, and a repeated window sends nothing |
| `TerminalStream.GrowingTailIsReproduced` | clouddeploy/server.py:304-310 | while every tail extends the earlier ones, the concatenation of everything sent equals last_sent |
| `TerminalStream.LatestTailIsLastSent` | clouddeploy/server.py:304-310 | while every tail extends the earlier ones, last_sent is the latest tail read, so with `GrowingTailIsReproduced` the browser has received exactly that tail |
| `ScriptPicker.DiscoverScripts` | clouddeploy/server.py:158-179 | one entry per script file, in listing order, with id, name, path and description; the interactive shell entry comes last |
| `SessionControl.AfterCleanup` | clouddeploy/server.py:83-123 | after self-heal the runner is either absent or alive, and a live runner is kept |
| `SessionControl.HttpStatus` | clouddeploy/server.py:256-268 | a missing command is answered with 400, a raising "session.start" with the framework's 500, and every other answer with 200 |
| `SessionControl.ParseAction` | clouddeploy/server.py:482-489 | "start" and "stop", in any letter case, select the two operations; anything else is unknown |
| `SessionControl.ParseActionIgnoresCase` | clouddeploy/server.py:482 | the action's letter case does not matter |
| `SessionControl.Decide` | clouddeploy/server.py:580-614 | completed is checked first, then last_error, then a decide_input result of None; only in the remaining case is an input sent, namely decide_input's |
| `SessionControl.LoopStopsOnError` | clouddeploy/server.py:558-622 | over consecutive iterations, each sent input comes from a state without an error or completion and is exactly what decide_input chose; nothing is sent from the first state carrying an error onwards |
| `SessionControl.SelfHealDeadlocks` | clouddeploy/server.py:99-104 | with a dead runner the self-heal waits for ever when called from `api_session_start` (which holds the session lock) or from `start_autopilot` (which then holds both locks); callers holding no lock complete it |
| `SessionControl.DeadRunnerHangsStart` | clouddeploy/server.py:260-261 | a runner whose `is_running()` is false makes `api_session_start` wait for ever |
| `SessionControl.Controller.constructor` | clouddeploy/server.py:27-50 | at start-up there is no runner, autopilot is off, there is no task and there are no clients |
| `SessionControl.Controller.Broadcast` | clouddeploy/server.py:275-282 | the client set becomes the old set minus exactly the clients whose send failed; the others received the event |
| `SessionControl.Controller.Connect` | clouddeploy/server.py:474-477 | a new autopilot client joins the set; it receives the current status unless that send fails, in which case the handler ends and the client stays in the set |
| `SessionControl.Controller.Disconnect` | clouddeploy/server.py:496-497 | a closing autopilot client is removed |
| `SessionControl.Controller.CleanupDeadSession` | clouddeploy/server.py:75-123 | a dead runner leaves autopilot disabled, no task and no runner, after one status-false broadcast; no runner, or a live one, changes nothing |
| `SessionControl.Controller.SessionStatus` | clouddeploy/server.py:126-138 | never reports running while no runner is present: running exactly when the registry says so and a runner is present after self-heal |
| `SessionControl.Controller.SessionStop` | clouddeploy/server.py:203-247 | afterwards autopilot is disabled, the task is None and the runner is None |
| `SessionControl.Controller.SessionStart` | clouddeploy/server.py:250-268 | a blank cmd is refused and changes nothing; a running session keeps its command and answers already_running; otherwise the stripped cmd becomes the command and a runner is started; when "session.start" raises, the command is already set, no runner is installed and the answer is an error; a dead runner is cleared first, and the new session then starts |
| `SessionControl.Controller.StartAutopilot` | clouddeploy/server.py:504-529 | without a running session autopilot stays off and no task is created; with one it is enabled, a live task is kept, and a task is created only if none is live; a dead runner is cleared and leaves autopilot off with no task |
| `SessionControl.Controller.StopAutopilot` | clouddeploy/server.py:532-543 | autopilot is disabled and the task cleared; the runner is untouched |
| `SessionControl.Controller.BeginLoop` | clouddeploy/server.py:553-556 | the loop announces that it started to the connected clients |
| `SessionControl.Controller.AutopilotIteration` | clouddeploy/server.py:558-638 | one iteration: it exits when autopilot is off, waits while no session runs, and otherwise applies `Decide`; exactly one `cli.send`, with append_newline set, happens only on a send decision; nothing is sent while last_error is set; every stop outcome disables autopilot and ends the task |
| `SessionControl.Controller.FinishTask` | clouddeploy/server.py:556-638 | `autopilot_loop` returning or breaking marks its task done, so it is no longer live; with no task nothing changes |

## Findings

| source | as written | input that shows it | evidently intended | confidence | as-written member | corrected member |
|---|---|---|---|---|---|---|
| clouddeploy/server.py:260-261 | `api_session_start` holds `_session_lock` while `_session_status` self-heals, and the self-heal takes `_session_lock` again (line 103); `asyncio.Lock` is not reentrant | the runner's `is_running()` returns false, no other caller has healed it yet, and a non-blank `cmd` arrives | the docstring says the call self-heals a dead session: the dead runner is cleared and the new session starts | high; not executed | `SessionControl.DeadRunnerHangsStart` | `SessionControl.Controller.SessionStart` |
| clouddeploy/server.py:507-509 | `start_autopilot` holds `_autopilot_lock` while `_session_status` self-heals; the self-heal takes `_session_lock`, then waits for `_autopilot_lock` (line 104) for ever, blocking every later session operation | a dead runner when the operator turns autopilot on | the dead runner is cleared and autopilot stays off | high; not executed | `SessionControl.SelfHealDeadlocks` | `SessionControl.Controller.StartAutopilot` |

## Left out

- PTY mechanics: `pty.fork` and `os.execvp` in the child, `select.select`, `os.read` and `os.write`. These are operating-system I/O. The file descriptor and every read outcome are parameters, and writes are recorded in a field.
- UTF-8 encoding and decoding with `errors="ignore"`. Decoding is a function parameter, and chunks are opaque strings.
- `threading.Lock` and the asyncio locks, task scheduling, `_safe_cancel` and every `asyncio.sleep`. Each operation is one atomic step.
- `SessionControl.Controller.SessionStart`: with a dead runner, the code as written never returns (see Findings). The model returns, with the self-heal done and the new session started.
- `SessionControl.Controller.SessionStatus`: the registry's "session.status" call is assumed to return. A raising call would propagate to the endpoint, socket or loop that asked; that path is not modelled, here or in the callers of `SessionStatus`.
- `SessionControl.Controller.StartAutopilot`: with a dead runner, the code as written never returns and keeps both locks (see Findings). The model returns, with the self-heal done and autopilot off.
- `PtyRunner.PtySession.StreamOutput`: the Python generator may run forever. The model consumes a finite run of read outcomes; running out of them means the stream is still open.
- All cancellation effects are left out. This includes the `stopped` event that a cancelled `autopilot_loop` broadcasts from its own handler.
- Exceptions raised inside `autopilot_loop`. The `crashed` path is modelled only for a failure of `cli.wait_for_prompt`, which comes before the state broadcast and before any input is sent. A failure of `cli.read`, `decide_input` or `cli.send` is not modelled.
- `_session_status` self-heals. In the terminal socket's loop, that state effect is not folded into `TerminalStream.WsTerminal`. Each poll carries only whether a session was running and the tail text.
- Every broadcast within one operation sees the same set of failing clients.
- `ServerConfig.StrictPolicy`: `str.lower()` is modelled for the ASCII letters only. No other character lowers to a letter of the accepted words, so the classification is not affected.
- `ParseAction` uses the same ASCII lowering. A non-string `action` raises in Python and ends the socket. That path is not modelled.
- `ScriptPicker.DiscoverScripts`: the directory glob, its sorting and `str.title()` are parameters.
- HTTP and WebSocket framing and JSON bodies.
- The `index` page title substitution and the favicon.
- `ws_terminal_input` and `ws_state`.
- The LLM socket `ws_ai`, because it makes model calls and renders prompts.
- `clouddeploy/cli.py`, because it is command-line plumbing.
