# Code execution tool: retry, reconnect, reader and terminal rules

This project models the resilience core of the `code_execution_tool` module of
jsplan (`jsplan/tools/code_execution_tool.py`) and proves what it guarantees.
The tool runs shell commands for an agent. Around its sockets, readers and
subprocesses sit a few small control rules:

- `_Backoff` (module `Retry`, `backoff.dfy`) is an attempt counter. Its delay
  rule is `min(base * factor ** attempt, max_delay)`, jittered by at most 15%.
  Its `sleep` raises `backoff_exceeded` once the counter reaches `max_retries`.
- `_SocketWrapper` (module `Socket`, `socket_wrapper.dfy`) wraps `sendall` and
  `recv`. After a transport failure it closes the handle, reconnects with its
  own backoff, and retries the same operation under a second, outer backoff.
  The connect and operation calls form a scripted oracle (`Transport`). The
  wrapper's class is proved equal to recursive functions over that oracle
  (`ReconnectRun`, `WrapperRun`). The lemmas state call bounds, what is
  returned and what propagates.
- `_AsyncReader` (module `Reader`, `async_reader.dfy`) pumps chunks from a read
  function to a consumer. It stops at the first empty read, at a read error or
  at a consumer error, and always logs `reader_stopped` last. `start` and
  `stop` form a small task state machine.
- The read loop of `execute_terminal_command` (module `Terminal`,
  `terminal_pump.dfy`) collects output lines. It ends on end of stream. A poll
  timeout ends it 60 s after the start while there is no output, or 30 s after
  the latest line once output exists. The subprocess becomes a sequence of
  polls (`Line`, `PollTimeout`, `Eof`) that carry their clock readings.
- `CodeExecution.execute` (module `Session`, `code_execution.dfy`) lower-cases
  and strips the runtime name, then dispatches on it. The `terminal` branch
  recovers from a failed command in a single shot: it resets once, and reruns
  the command once only on session 0 with a non-empty command. Each command's
  subprocess and the outcome of Python's `exec` are inputs.

`common.dfy` holds the shared `byte` and `Option` types.

A few facts about the code that are easy to miss:

- When the retries run out, `send` and `recv` raise
  `TimeoutError('backoff_exceeded')` rather than the last transport error.
- A reconnect makes up to `max_retries + 1` connect calls: the connect
  function may fail 6 times and succeed on the 7th call.
- Automatic re-execution needs both session 0 and a non-empty last command.
- With a non-negative `stall_sec` the stall heartbeat never fires in a
  sequential run (see "Left out").
- On a timeout the subprocess is killed only if it then fails to exit within
  5 s.

## Model

| member | source | states |
|---|---|---|
| Retry.Delay | jsplan/tools/code_execution_tool.py:22 | the base delay never exceeds `max_delay` or `base * factor ** attempt`, and equals one of them (the minimum) |
| Retry.SleepFor | jsplan/tools/code_execution_tool.py:23-24 | the time slept is never negative; with a jitter draw within 15% of the delay it lies in `[0.85 * delay, 1.15 * delay]` |
| Retry.DelayMonotone | jsplan/tools/code_execution_tool.py:22 | with a non-negative base and a factor of at least 1 the base delay never decreases from one attempt to the next |
| Retry.DefaultSchedule | jsplan/tools/code_execution_tool.py:13 | the default policy's base delays are 0.2, 0.4, 0.8, 1.6, 3.2, 5.0 s and they sum to 11.2 s |
| Retry.SumPrefixAtMost | jsplan/tools/code_execution_tool.py:22-24 | a prefix of a schedule of non-negative delays sums to no more than the whole schedule |
| Retry.SleptWithin | jsplan/tools/code_execution_tool.py:22-24 | sleeps each drawn within 15% jitter of a non-negative delay add up to at most 1.15 times the sum of those delays |
| Retry.DefaultBackoffSleepsAtMost | jsplan/tools/code_execution_tool.py:13-25 | a default backoff that was never reset has slept at most 12.88 s in total, whatever its jitter draws |
| Retry.DelayNonNegative | jsplan/tools/code_execution_tool.py:22 | with a non-negative base and max delay and a factor of at least 1 the base delay is never negative |
| Retry.Backoff.constructor | jsplan/tools/code_execution_tool.py:13-18 | a new backoff keeps its four parameters and starts at attempt 0 with no sleep taken; its sleeps are numbered by attempt until the first reset |
| Retry.Backoff.Sleep | jsplan/tools/code_execution_tool.py:19-25 | `sleep` raises exactly when `attempt >= max_retries` and then changes nothing; otherwise it takes one sleep of the jittered capped delay of the current attempt and increments `attempt` by exactly 1; started from 0 the counter never exceeds `max_retries`; without a reset the k-th sleep is the one of attempt k |
| Retry.Backoff.Reset | jsplan/tools/code_execution_tool.py:26-27 | `reset` sets `attempt` to 0 and changes nothing else |
| Socket.ClassifyVerdicts | jsplan/tools/code_execution_tool.py:108-127 | an operation succeeds exactly when it returns (for `recv`, a non-empty read, passed on unchanged); it is retried exactly on an `OSError` or an empty `recv`; any other exception is fatal and keeps its message |
| Socket.ReconnectPhase | jsplan/tools/code_execution_tool.py:113-118 | the reconnect step of `send` is exactly `_reconnect_with_backoff` followed by the give-up log and re-raise, or by the outer backoff step |
| Socket.ReconnectCalls | jsplan/tools/code_execution_tool.py:93-104 | a reconnect makes between 1 and `max_retries + 1 - attempt` connect calls and no operation call; every connect call but the last one failed; the log only grows |
| Socket.ReconnectSucceeds | jsplan/tools/code_execution_tool.py:97-101 | on success the handle of the last connect call is installed and the logged `attempts` is 0 |
| Socket.ReconnectGivesUp | jsplan/tools/code_execution_tool.py:102-104 | a reconnect gives up only after `max_retries + 1 - attempt` failed connect calls; `backoff_exceeded` propagates and no handle is left |
| Socket.FirstSuccessInstalled | jsplan/tools/code_execution_tool.py:95-101 | a successful reconnect installs the handle of the first connect call that succeeded |
| Socket.ReconnectSucceedsWithin | jsplan/tools/code_execution_tool.py:93-104 | a connect function that fails `n <= 6` times and then succeeds gives a successful reconnect after exactly `n + 1` calls, with that handle installed |
| Socket.WrapperCalls | jsplan/tools/code_execution_tool.py:105-118 | from any point of its loops, `send`/`recv` makes at most one operation call per remaining outer attempt and at most 7 connect calls per operation call |
| Socket.OperationCalls | jsplan/tools/code_execution_tool.py:119-134 | one `send`/`recv` makes at most `max_retries + 1` = 7 operation calls and at most 7 connect calls per operation call, and calls the operation again only after a call that failed with a retried error |
| Socket.WrapperRetriesBeforeLast | jsplan/tools/code_execution_tool.py:107-118 | from any point of its loops, every operation call of `send`/`recv` but the last one failed with a retried error |
| Socket.RecoversAfterReconnect | jsplan/tools/code_execution_tool.py:105-134 | an operation that fails with a retried error, a reconnect whose connect calls fail `n <= 6` times and then succeed, and a retry that succeeds make `send`/`recv` return the retry's value with the new handle installed, after exactly 2 operation calls and `n + 1` connect calls |
| Socket.WrapperReturns | jsplan/tools/code_execution_tool.py:107-110 | whenever `send`/`recv` returns, its last operation call succeeded on an installed handle and the value returned is that call's value |
| Socket.OperationReturns | jsplan/tools/code_execution_tool.py:121-126 | `recv` returns only a non-empty read, unchanged, from its last operation call on an installed handle |
| Socket.WrapperExhausts | jsplan/tools/code_execution_tool.py:105-118 | from any point, when every operation call from there on fails with a retried error and the next connect calls, one per remaining outer attempt, succeed, `backoff_exceeded` propagates after exactly one operation call and one reconnect per remaining outer attempt |
| Socket.OperationExhausts | jsplan/tools/code_execution_tool.py:119-134 | under persistent retried failures with the next 7 connect calls succeeding, `send`/`recv` makes exactly 7 operation calls and 7 connect calls and then raises `backoff_exceeded` |
| Socket.SendExhaustsAgainstDeadPeer | jsplan/tools/code_execution_tool.py:105-118 | a `send` to a peer that always accepts the connection but never the data raises `backoff_exceeded` after 7 operation calls and 7 connect calls |
| Socket.UncaughtPropagatesAtOnce | jsplan/tools/code_execution_tool.py:107-111 | an exception outside the caught kinds propagates from the first operation call, with no reconnect and nothing logged |
| Socket.ReconnectDependsOnConnect | jsplan/tools/code_execution_tool.py:93-104 | a reconnect's outcome, state and log depend only on the connect function's outcomes |
| Socket.WrapperSeesOnlyVerdicts | jsplan/tools/code_execution_tool.py:123-127 | outcomes that classify alike give identical runs; an empty read and an `OSError('socket_eof')` cannot be told apart |
| Socket.GiveUpIsPermanent | jsplan/tools/code_execution_tool.py:113-117 | after an operation leaves no handle it has failed, and every later `send`/`recv` raises `AttributeError` at once without touching the transport |
| Socket.SocketWrapper.constructor | jsplan/tools/code_execution_tool.py:74-79 | after the first connect returned a handle it is installed, one connect call was made and `socket_connected` was logged |
| Socket.SocketWrapper.Open | jsplan/tools/code_execution_tool.py:79-83 | construction fails exactly when the first connect call raises; otherwise the wrapper holds that handle |
| Socket.SocketWrapper.Connect | jsplan/tools/code_execution_tool.py:80-83 | one connect call is made and `socket_connected` is logged exactly when it succeeds |
| Socket.SocketWrapper.Close | jsplan/tools/code_execution_tool.py:84-92 | `close` always leaves no handle (an exception from the handle's own `close` is swallowed) |
| Socket.SocketWrapper.ReconnectAttempt | jsplan/tools/code_execution_tool.py:96-103 | one pass of the reconnect loop closes the handle and makes one connect call; on success it installs the handle, resets the backoff and finishes `ReconnectRun`, on failure it leaves no handle and what remains is `ReconnectRun` from the next attempt (or `backoff_exceeded` at the ceiling) |
| Socket.SocketWrapper.ReconnectWithBackoff | jsplan/tools/code_execution_tool.py:93-104 | the loop's result, new handle, call counts and log are those of `ReconnectRun`, whose properties the reconnect lemmas state |
| Socket.SocketWrapper.TryAndReconnect | jsplan/tools/code_execution_tool.py:108-117 | one try of the operation plus, after a retried error, the reconnect: either it finishes the run as `WrapperRun` says, or what remains is the run from the next outer attempt (or `backoff_exceeded` at the ceiling) |
| Socket.SocketWrapper.Pass | jsplan/tools/code_execution_tool.py:107-118 | one pass of the retry loop, ending with the outer backoff step, keeps the backoff valid and either finishes the run or advances the outer attempt |
| Socket.SocketWrapper.Operate | jsplan/tools/code_execution_tool.py:105-118 | the retry loop's result, new state and log are those of `OperationRun` from attempt 0, with a fresh default backoff |
| Socket.SocketWrapper.Send | jsplan/tools/code_execution_tool.py:105-118 | `send` succeeds or fails exactly as `OperationRun` for `sendall` says, leaving its state and log |
| Socket.SocketWrapper.Recv | jsplan/tools/code_execution_tool.py:119-134 | `recv` returns exactly what `OperationRun` for `recv(n)` gives, leaving its state and log |
| Reader.Events | jsplan/tools/code_execution_tool.py:39-57 | one run logs at most one ending event and then `reader_stopped`, exactly once and last; a run that finds the stop flag set logs only `reader_stopped` |
| Reader.ForwardedInOrder | jsplan/tools/code_execution_tool.py:41-47 | the consumer receives the data of the reads in order, with no gap and no empty chunk; it gets one chunk per read before the ending read, plus the ending read's chunk when the consumer raised on it |
| Reader.ActivityMeaning | jsplan/tools/code_execution_tool.py:47-48 | `_last_activity` ends at the clock of the latest chunk the consumer accepted, or is unchanged when there was none |
| Reader.EndEventMeaning | jsplan/tools/code_execution_tool.py:43-51 | `reader_eof` is logged exactly when an empty read comes first among the ending reads; `reader_error` carries the error of the read function or of the consumer on the ending read; no ending event exactly when no read ended the run |
| Reader.EofStopsForwarding | jsplan/tools/code_execution_tool.py:43-46 | reads `a`, empty, `c`: only `a` is forwarded, and `reader_eof` then `reader_stopped` are logged |
| Reader.ConsumerErrorStops | jsplan/tools/code_execution_tool.py:47-51 | a consumer raising on the second chunk still received it; the run ends with `reader_error` and `_last_activity` stays at the first chunk |
| Reader.AsyncReader.constructor | jsplan/tools/code_execution_tool.py:30-38 | a new reader has no task, no stop request and its activity clock at the creation time |
| Reader.AsyncReader.Run | jsplan/tools/code_execution_tool.py:39-57 | `_run` forwards exactly `Forwarded`, leaves `_last_activity` at `ActivityAfter` and logs exactly `Events`, or forwards nothing when stop was already requested; the task is then done |
| Reader.AsyncReader.Start | jsplan/tools/code_execution_tool.py:58-60 | `start` creates a new task exactly when there is none or the current one is done, and otherwise changes nothing |
| Reader.AsyncReader.Stop | jsplan/tools/code_execution_tool.py:61-68 | `stop` sets the stop flag and clears the task; a task that existed is finished |
| Terminal.ReadLoop | jsplan/tools/code_execution_tool.py:191-211 | the loop consumes exactly the polls up to the first one that ends it, ends as `EndingOf` says, and returns the concatenation of the lines consumed |
| Terminal.OutputGrowsByLines | jsplan/tools/code_execution_tool.py:210 | the output is the in-order join of every line received: more polls extend the output by exactly the lines in between |
| Terminal.LastLineAtIsLatestLine | jsplan/tools/code_execution_tool.py:211 | `last_ts` is the clock of the latest line received; polls without a line do not move it |
| Terminal.LastLineAtWithoutLines | jsplan/tools/code_execution_tool.py:193 | before any line, `last_ts` is the start time |
| Terminal.LinesEmptyIffNoLine | jsplan/tools/code_execution_tool.py:201-204 | there is output exactly when some consumed poll was a line |
| Terminal.EndsByFirstEof | jsplan/tools/code_execution_tool.py:208-209 | the loop never reads past the first end of stream |
| Terminal.EndingMeaning | jsplan/tools/code_execution_tool.py:196-209 | every poll before the last consumed one kept the loop going; end of stream ends on `Eof`; the first-output timeout ends more than 60 s after the start with no line; the between-output timeout ends more than 30 s after the latest line with one; the loop is still polling exactly when the polls ran out |
| Terminal.SilentCommandTimesOut | jsplan/tools/code_execution_tool.py:199-203 | timeouts at 30, 60 and 60.5 s with no output: the loop stops at 60.5 s (not at 60 s) with empty output |
| Terminal.QuietAfterOutputTimesOut | jsplan/tools/code_execution_tool.py:204-206 | a line at 10 s then a timeout at 70 s ends the loop with the between-output timeout and that line as output |
| Terminal.LateFirstLineOutput | jsplan/tools/code_execution_tool.py:219 | two lines give the output `"a\nb\n"` |
| Terminal.LateFirstLineKeepsReading | jsplan/tools/code_execution_tool.py:199-209 | once a line has arrived, more than 60 s since the start is no reason to stop, nor is a 17 s pause; the loop reads on to end of stream |
| Session.LowerMeaning | jsplan/tools/code_execution_tool.py:151 | lower-casing keeps the length, maps each character on its own and leaves no upper-case letter |
| Session.StripMeaning | jsplan/tools/code_execution_tool.py:151 | `strip` returns a slice of its input; everything cut off is whitespace, and the result neither starts nor ends with whitespace |
| Session.NormalizeIdempotent | jsplan/tools/code_execution_tool.py:151 | normalising a runtime name twice gives the same as normalising it once |
| Session.NormalizeExample | jsplan/tools/code_execution_tool.py:151 | `" Reset\n"` normalises to `"reset"` |
| Session.CommandEvents | jsplan/tools/code_execution_tool.py:184-220 | a command run logs `terminal_exec_start` first, only start, timeout and end events, and on success ends with `terminal_exec_end` carrying the output's length |
| Session.TerminalRetryPolicy | jsplan/tools/code_execution_tool.py:157-170 | the command runs once, and a second time exactly when the first run failed on session 0 with a non-empty command; success returns the first output; an unretried failure re-raises the first error; a retry's outcome is returned as it is |
| Session.RecoveryResetsOnce | jsplan/tools/code_execution_tool.py:163-170 | the `except` block resets the terminal exactly once, whether or not it retries |
| Session.TerminalResetsOnFailure | jsplan/tools/code_execution_tool.py:157-170 | the `terminal` branch resets exactly once when the first run fails, and never when it succeeds |
| Session.OtherRuntimes | jsplan/tools/code_execution_tool.py:153-179 | every runtime other than `terminal` runs no command and only `reset` resets; the replies are the fixed messages, the Python outcome, or `unknown_runtime:` followed by the normalised name |
| Session.DispatchIgnoresCaseAndPadding | jsplan/tools/code_execution_tool.py:151-153 | a request behaves exactly like the same request with its runtime already normalised |
| Session.CodeExecution.constructor | jsplan/tools/code_execution_tool.py:143-146 | a new tool has no last terminal command |
| Session.CodeExecution.ResetTerminal | jsplan/tools/code_execution_tool.py:180-182 | `reset_terminal` logs one reset of the session and returns the fixed reset message |
| Session.CodeExecution.ExecuteTerminalCommand | jsplan/tools/code_execution_tool.py:183-221 | a command run returns the read loop's joined output (or the error that spawning the command or one of its `readline` calls raised) and logs `CommandEvents`, whose properties are stated above |
| Session.CodeExecution.Recover | jsplan/tools/code_execution_tool.py:163-170 | the `except` block does exactly what `RecoverySpec` says, with the last terminal command as the rerun command |
| Session.CodeExecution.RunTerminal | jsplan/tools/code_execution_tool.py:157-170 | the `terminal` branch records the command as the last one and does exactly what `TerminalSpec` says |
| Session.CodeExecution.Execute | jsplan/tools/code_execution_tool.py:150-179 | `execute` returns, logs and runs exactly what `ExecuteSpec` says; it records the last terminal command only on the `terminal` branch |

## Left out

- Real sleeping and the `random.uniform` draw: the jitter is a nondeterministic choice within its bounds, and the sleeps taken are kept as ghost history.
- Floating point: delays and clock readings are exact reals, so rounding at the 60 s and 30 s thresholds is not modelled.
- The wall clock: every clock reading the source takes is a field of the input (`Data.at`, `Line.at`, `PollTimeout.now`, the start time).
- Reader.AsyncReader.Run, Reader.ActivityMeaning: the stall heartbeat of `_AsyncReader._run` (lines 52-54) is left out. That holds for a non-negative `stall_sec`: `_last_activity` is refreshed at line 48 right before the check, so in a sequential run the check never fires. With a negative `stall_sec` it would fire after every chunk, log `reader_stall_heartbeat` and move `_last_activity` again, which these members do not capture.
- asyncio: task scheduling, the `asyncio.sleep(0.01)` yield, the 5 s `readline` timeout (each timeout is one `PollTimeout` input), and the 2 s `wait_for` grace period and cancellation in `stop`. `Stop` treats the task as finished when the wait returns.
- Reader.AsyncReader.Run: the read script ends where the task next observes the stop flag, so a `stop` that lands during a run is the end of its script.
- Session.CodeExecution.ExecuteTerminalCommand: an exception from `readline` (line 198) is the `Raised` outcome, the same as a failed spawn, so the lines read before it are lost with it.
- Subprocess creation, `proc.wait`, `proc.kill` and their timeouts (lines 185-190, 212-218): each command's subprocess is an input `CommandRun`, and draining or killing it has no effect on the result.
- Session.CodeExecution.ExecuteTerminalCommand: requires that the read loop ends within its finite poll script (`Completes`); a subprocess that is never silent for long enough makes the source loop forever.
- `bytes.decode(errors='replace')` (line 210): lines are already-decoded strings.
- The `getattr` lookup of the operation names: the wrapper uses the default `sendall` and `recv`.
- Socket.Transport: past the end of its script, connect raises and every operation raises an `OSError` ("connection refused").
- The exception class hierarchy: only caught versus uncaught failures are modelled (`IoRaised.isOSError`); `_SocketClosedError` is the `socket_eof` retry.
- The `python` runtime's `exec` (lines 172-175): a foreign call into the interpreter, so its outcome is an input.
- Session.Lower, Session.LowerMeaning: `str.lower` is modelled on ASCII letters only, and other characters are left unchanged. The length-preserving, character-by-character contract holds only for that model: Python's `'İ'.lower()` has length 2.
- `int(self.args.get('session', 0))`: the session is already an integer, and non-string runtime or code values are not modelled.
- Log timestamps and `print` (lines 147-149): the logs are ghost sequences of events, with the logged fields that matter kept as event arguments.
- Concurrent `execute` calls racing on `_last_terminal_command`: calls are sequential.
