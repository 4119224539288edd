/**
 * The `CodeExecution` tool: `execute` normalises the requested runtime and
 * dispatches on it. A terminal command that fails is retried once after a
 * terminal reset, but only on session 0 and for a non-empty command.
 *
 * The subprocess behind each terminal command is an input: either spawning it
 * or reading its output raised, or it produced a stream of polls that the
 * read loop of the `Terminal` module consumes. The outcome of running Python code is an input
 * as well.
 */
module Session {
  import opened Common
  import opened Terminal

  datatype Result<T> = Ok(value: T) | Err(error: string)

  /** The tool's arguments: `runtime` and `code` may be missing. */
  datatype Args = Args(runtime: Option<string>, session: int, code: Option<string>)

  /**
   * One subprocess as the tool sees it: spawning it or one of its `readline`
   * calls raised `error` (whatever was read before is then lost), or its
   * output arrived as `polls`.
   */
  datatype CommandRun = Raised(error: string) | Spawned(polls: seq<Poll>, start: real)

  datatype SessionEvent =
    | ExecStart(session: int)
    | FirstOutputTimeoutLogged
    | BetweenOutputTimeoutLogged
    | ExecEnd(length: nat)
    | TerminalError(error: string)
    | TerminalReset(session: int)
    | AutoContinue(session: int)

  const ResetMessage: string := "[SYSTEM: Terminal session has been reset.] "
  const OutputMessage: string := "output_wait_not_implemented_in_jsplan_scaffold"
  const NodejsMessage: string := "nodejs_not_implemented_in_jsplan_scaffold"
  const UnknownRuntimePrefix: string := "unknown_runtime:"

  // ---------------------------------------------------------------------
  // Normalising the runtime name: lower-case, then strip whitespace
  // ---------------------------------------------------------------------

  predicate IsUpper(c: char)
  {
    'A' <= c <= 'Z'
  }

  function LowerChar(c: char): char
  {
    if IsUpper(c) then (c as int + 32) as char else c
  }

  /** The characters Python's `str.strip` removes. */
  predicate IsSpace(c: char)
  {
    c == ' ' || '\t' <= c <= '\r' || '\U{1c}' <= c <= '\U{1f}' || c == '\U{85}' || c == '\U{a0}'
    || c == '\U{1680}' || '\U{2000}' <= c <= '\U{200a}' || c == '\U{2028}' || c == '\U{2029}'
    || c == '\U{202f}' || c == '\U{205f}' || c == '\U{3000}'
  }

  /** `s.lower()` on ASCII letters. */
  function Lower(s: string): string
  {
    if s == [] then [] else [LowerChar(s[0])] + Lower(s[1..])
  }

  /** Lower-casing maps each character on its own and leaves no upper-case letter. */
  lemma {:induction false} LowerMeaning(s: string)
    ensures |Lower(s)| == |s|
    ensures forall i :: 0 <= i < |s| ==> Lower(s)[i] == LowerChar(s[i]) && !IsUpper(Lower(s)[i])
    decreases |s|
  {
    if s != [] {
      LowerMeaning(s[1..]);
    }
  }

  /** The number of whitespace characters `s` starts with. */
  function LeadingSpaces(s: string): (n: nat)
    ensures n <= |s|
    ensures forall i :: 0 <= i < n ==> IsSpace(s[i])
    ensures n < |s| ==> !IsSpace(s[n])
  {
    if s == [] || !IsSpace(s[0]) then 0 else 1 + LeadingSpaces(s[1..])
  }

  /** The number of whitespace characters `s` ends with. */
  function TrailingSpaces(s: string): (n: nat)
    ensures n <= |s|
    ensures forall i :: |s| - n <= i < |s| ==> IsSpace(s[i])
    ensures n < |s| ==> !IsSpace(s[|s| - n - 1])
  {
    if s == [] || !IsSpace(s[|s| - 1]) then 0 else 1 + TrailingSpaces(s[..|s| - 1])
  }

  /** `s.strip()` */
  function Strip(s: string): string
  {
    var a := LeadingSpaces(s);
    var rest := s[a..];
    rest[..|rest| - TrailingSpaces(rest)]
  }

  /** `(runtime or '').lower().strip()` */
  function Normalize(raw: string): string
  {
    Strip(Lower(raw))
  }

  /**
   * Stripping removes whitespace at both ends and nothing else: the result is
   * a slice of the input, everything cut off is whitespace, and the result
   * neither starts nor ends with whitespace.
   */
  lemma StripMeaning(s: string)
    ensures exists a, b ::
      0 <= a <= b <= |s| && Strip(s) == s[a..b] &&
      (forall i :: 0 <= i < a ==> IsSpace(s[i])) &&
      (forall i :: b <= i < |s| ==> IsSpace(s[i]))
    ensures Strip(s) != [] ==> !IsSpace(Strip(s)[0]) && !IsSpace(Strip(s)[|Strip(s)| - 1])
  {
    var a := LeadingSpaces(s);
    var rest := s[a..];
    var t := TrailingSpaces(rest);
    var b := a + |rest| - t;
    assert Strip(s) == s[a..b];
    assert forall i :: b <= i < |s| ==> s[i] == rest[i - a];
    if Strip(s) != [] {
      assert Strip(s)[0] == s[a];
      assert Strip(s)[|Strip(s)| - 1] == rest[|rest| - t - 1];
    }
  }

  /** Lower-casing text without upper-case letters changes nothing. */
  lemma {:induction false} LowerOfLower(s: string)
    requires forall i :: 0 <= i < |s| ==> !IsUpper(s[i])
    ensures Lower(s) == s
    decreases |s|
  {
    if s != [] {
      LowerOfLower(s[1..]);
    }
  }

  /** Text that neither starts nor ends with whitespace is left as it is by stripping. */
  lemma StripTrimmed(n: string)
    requires n != [] ==> !IsSpace(n[0]) && !IsSpace(n[|n| - 1])
    ensures Strip(n) == n
  {
  }

  /** Stripping text without upper-case letters leaves none. */
  lemma StripKeepsNoUpper(s: string)
    requires forall i :: 0 <= i < |s| ==> !IsUpper(s[i])
    ensures forall i :: 0 <= i < |Strip(s)| ==> !IsUpper(Strip(s)[i])
  {
  }

  /** Normalising a runtime name twice is the same as normalising it once. */
  lemma NormalizeIdempotent(raw: string)
    ensures Normalize(Normalize(raw)) == Normalize(raw)
  {
    var low := Lower(raw);
    LowerMeaning(raw);
    StripKeepsNoUpper(low);
    LowerOfLower(Strip(low));
    StripMeaning(low);
    StripTrimmed(Strip(low));
  }

  lemma LowerExample()
    ensures Lower(" Reset\n") == " reset\n"
  {
    LowerMeaning(" Reset\n");
  }

  lemma StripExample()
    ensures Strip(" reset\n") == "reset"
  {
    var s := " reset\n";
    assert IsSpace(' ') && !IsSpace('r') && IsSpace('\n') && !IsSpace('t');
    assert s[1..] == "reset\n";
    assert LeadingSpaces(s[1..]) == 0;
    assert "reset\n"[..5] == "reset";
    assert TrailingSpaces("reset") == 0;
  }

  /** Case and surrounding whitespace do not matter. */
  lemma NormalizeExample()
    ensures Normalize(" Reset\n") == "reset"
  {
    LowerExample();
    StripExample();
  }

  /** The runtime name dispatched on; a missing runtime is the empty name. */
  function Runtime(args: Args): string
  {
    Normalize(match args.runtime case None => "" case Some(r) => r)
  }

  /** The command to run; a missing command is the empty command. */
  function Code(args: Args): string
  {
    match args.code case None => "" case Some(c) => c
  }

  // ---------------------------------------------------------------------
  // One terminal command
  // ---------------------------------------------------------------------

  /** A run whose read loop ends, so that `execute_terminal_command` returns. */
  predicate Completes(run: CommandRun)
  {
    run.Spawned? ==> EndingOf(run.polls, run.start) != StillPolling
  }

  /** What `execute_terminal_command` returns or raises. */
  function CommandResult(run: CommandRun): Result<string>
  {
    match run
    case Raised(e) => Err(e)
    case Spawned(polls, start) => Ok(Concat(Lines(polls[..Consumed(polls, start)])))
  }

  /** What `execute_terminal_command` logs. */
  function CommandEvents(run: CommandRun, session: int): (ev: seq<SessionEvent>)
    ensures |ev| >= 1 && ev[0] == ExecStart(session)
    ensures forall i :: 0 <= i < |ev| ==>
      ev[i].ExecStart? || ev[i].FirstOutputTimeoutLogged? || ev[i].BetweenOutputTimeoutLogged? || ev[i].ExecEnd?
    ensures CommandResult(run).Ok? ==> ev[|ev| - 1] == ExecEnd(|CommandResult(run).value|)
  {
    match run
    case Raised(_) => [ExecStart(session)]
    case Spawned(polls, start) =>
      var timeout := match EndingOf(polls, start)
        case FirstOutputTimeout => [FirstOutputTimeoutLogged]
        case BetweenOutputTimeout => [BetweenOutputTimeoutLogged]
        case _ => [];
      [ExecStart(session)] + timeout + [ExecEnd(|CommandResult(run).value|)]
  }

  // ---------------------------------------------------------------------
  // execute
  // ---------------------------------------------------------------------

  /** The outcome of one `execute` call: its result, its log and the commands it ran. */
  datatype Effect = Effect(result: Result<string>, events: seq<SessionEvent>, commands: seq<string>)

  /**
   * The `except` block of the `terminal` branch after a run of `cmd` raised
   * `error`: log it and reset the terminal, then on session 0 with a
   * non-empty command run it once more and return that run's outcome,
   * otherwise re-raise.
   */
  function RecoverySpec(cmd: string, session: int, error: string, second: CommandRun): Effect
  {
    var handled := [TerminalError(error), TerminalReset(session)];
    if session == 0 && cmd != "" then
      Effect(CommandResult(second), handled + [AutoContinue(session)] + CommandEvents(second, session), [cmd])
    else Effect(Err(error), handled, [])
  }

  /** The `terminal` branch of `execute` for command `cmd`. */
  function TerminalSpec(cmd: string, session: int, first: CommandRun, second: CommandRun): Effect
  {
    var r1 := CommandResult(first);
    var ev1 := CommandEvents(first, session);
    if r1.Ok? then Effect(r1, ev1, [cmd])
    else
      var rec := RecoverySpec(cmd, session, r1.error, second);
      Effect(rec.result, ev1 + rec.events, [cmd] + rec.commands)
  }

  /**
   * `execute`, given the subprocess of the first terminal command, that of the
   * retry, and the outcome of running Python code.
   */
  function ExecuteSpec(args: Args, first: CommandRun, second: CommandRun, python: Result<string>): Effect
  {
    Dispatch(Runtime(args), args.session, Code(args), first, second, python)
  }

  /** `execute` once the runtime name is normalised. */
  function Dispatch(runtime: string, session: int, code: string, first: CommandRun, second: CommandRun, python: Result<string>): Effect
  {
    if runtime == "reset" then Effect(Ok(ResetMessage), [TerminalReset(session)], [])
    else if runtime == "output" then Effect(Ok(OutputMessage), [], [])
    else if runtime == "terminal" then TerminalSpec(code, session, first, second)
    else if runtime == "python" then Effect(python, [], [])
    else if runtime == "nodejs" then Effect(Ok(NodejsMessage), [], [])
    else Effect(Ok(UnknownRuntimePrefix + runtime), [], [])
  }

  lemma AppendAssociates<T>(a: seq<T>, b: seq<T>, c: seq<T>)
    ensures (a + b) + c == a + (b + c)
  {
  }

  /** The number of terminal resets among `ev`. */
  function Resets(ev: seq<SessionEvent>): nat
  {
    if ev == [] then 0 else Resets(ev[..|ev| - 1]) + if ev[|ev| - 1].TerminalReset? then 1 else 0
  }

  lemma {:induction false} ResetsAppend(a: seq<SessionEvent>, b: seq<SessionEvent>)
    ensures Resets(a + b) == Resets(a) + Resets(b)
    decreases |b|
  {
    if b == [] {
      assert a + b == a;
    } else {
      assert (a + b)[..|a + b| - 1] == a + b[..|b| - 1];
      ResetsAppend(a, b[..|b| - 1]);
    }
  }

  lemma {:induction false} NoResetsInCommand(ev: seq<SessionEvent>)
    requires forall i :: 0 <= i < |ev| ==> !ev[i].TerminalReset?
    ensures Resets(ev) == 0
    decreases |ev|
  {
    if ev != [] {
      NoResetsInCommand(ev[..|ev| - 1]);
    }
  }

  /**
   * The terminal retry policy: the command runs once, and a second time only
   * when the first run failed on session 0 with a non-empty command; both
   * runs are of the command given. Success returns the first run's output; a
   * failure that is not retried re-raises the first error; a retry's result
   * (output or error) is returned as is.
   */
  lemma TerminalRetryPolicy(cmd: string, session: int, first: CommandRun, second: CommandRun)
    ensures var eff := TerminalSpec(cmd, session, first, second);
      1 <= |eff.commands| <= 2 && forall i :: 0 <= i < |eff.commands| ==> eff.commands[i] == cmd
    ensures var eff := TerminalSpec(cmd, session, first, second);
      |eff.commands| == 2 <==> CommandResult(first).Err? && session == 0 && cmd != ""
    ensures var eff := TerminalSpec(cmd, session, first, second);
      CommandResult(first).Ok? ==> eff.result == CommandResult(first)
    ensures var eff := TerminalSpec(cmd, session, first, second);
      CommandResult(first).Err? && (session != 0 || cmd == "") ==> eff.result == CommandResult(first)
    ensures var eff := TerminalSpec(cmd, session, first, second);
      |eff.commands| == 2 ==> eff.result == CommandResult(second)
  {
  }

  /** The `except` block resets the terminal exactly once, whether it retries or not. */
  lemma RecoveryResetsOnce(cmd: string, session: int, error: string, second: CommandRun)
    ensures Resets(RecoverySpec(cmd, session, error, second).events) == 1
  {
    var handled := [TerminalError(error), TerminalReset(session)];
    assert handled[..1] == [TerminalError(error)] && handled[..1][..0] == [];
    assert Resets(handled[..1]) == 0;
    assert Resets(handled) == 1;
    if session == 0 && cmd != "" {
      var ev2 := CommandEvents(second, session);
      NoResetsInCommand(ev2);
      assert [AutoContinue(session)][..0] == [];
      ResetsAppend(handled, [AutoContinue(session)]);
      ResetsAppend(handled + [AutoContinue(session)], ev2);
    }
  }

  /** A failed terminal command resets the terminal exactly once, retried or not; success never does. */
  lemma TerminalResetsOnFailure(cmd: string, session: int, first: CommandRun, second: CommandRun)
    ensures Resets(TerminalSpec(cmd, session, first, second).events) == if CommandResult(first).Err? then 1 else 0
  {
    var ev1 := CommandEvents(first, session);
    NoResetsInCommand(ev1);
    if CommandResult(first).Err? {
      var rec := RecoverySpec(cmd, session, CommandResult(first).error, second);
      RecoveryResetsOnce(cmd, session, CommandResult(first).error, second);
      ResetsAppend(ev1, rec.events);
    }
  }

  /**
   * Every runtime other than `terminal` runs no command, and only `reset`
   * resets the terminal; the fixed replies, and the unknown-runtime reply
   * naming the normalised runtime.
   */
  lemma OtherRuntimes(args: Args, first: CommandRun, second: CommandRun, python: Result<string>)
    requires Runtime(args) != "terminal"
    ensures var eff := ExecuteSpec(args, first, second, python);
      eff.commands == [] && Resets(eff.events) == (if Runtime(args) == "reset" then 1 else 0)
    ensures var eff := ExecuteSpec(args, first, second, python);
      match Runtime(args)
      case "reset" => eff.result == Ok(ResetMessage)
      case "output" => eff.result == Ok(OutputMessage)
      case "nodejs" => eff.result == Ok(NodejsMessage)
      case "python" => eff.result == python
      case _ => eff.result == Ok(UnknownRuntimePrefix + Runtime(args))
  {
  }

  /**
   * The runtime is matched regardless of letter case and surrounding
   * whitespace: a request and its normalised form behave the same.
   */
  lemma DispatchIgnoresCaseAndPadding(args: Args, first: CommandRun, second: CommandRun, python: Result<string>)
    ensures var normal := args.(runtime := Some(Runtime(args)));
      ExecuteSpec(normal, first, second, python) == ExecuteSpec(args, first, second, python)
  {
    var raw := match args.runtime case None => "" case Some(r) => r;
    NormalizeIdempotent(raw);
  }

  class CodeExecution {
    var lastTerminalCommand: Option<string>
    ghost var log: seq<SessionEvent>
    /** Every terminal command started so far, in order. */
    ghost var commandsRun: seq<string>

    constructor ()
      ensures lastTerminalCommand.None? && log == [] && commandsRun == []
    {
      lastTerminalCommand := None;
      log := [];
      commandsRun := [];
    }

    /** `reset_terminal` */
    method ResetTerminal(session: int) returns (message: string)
      modifies this`log
      ensures message == ResetMessage && log == old(log) + [TerminalReset(session)]
    {
      log := log + [TerminalReset(session)];
      message := ResetMessage;
    }

    /** `execute_terminal_command`: spawns the command and collects its output. */
    method ExecuteTerminalCommand(command: string, session: int, run: CommandRun) returns (r: Result<string>)
      requires Completes(run)
      modifies this`log, this`commandsRun
      ensures r == CommandResult(run)
      ensures log == old(log) + CommandEvents(run, session) && commandsRun == old(commandsRun) + [command]
    {
      log := log + [ExecStart(session)];
      commandsRun := commandsRun + [command];
      match run {
        case Raised(e) =>
          return Err(e);
        case Spawned(polls, start) =>
          var out, ending, k := ReadLoop(polls, start);
          if ending == FirstOutputTimeout {
            log := log + [FirstOutputTimeoutLogged];
          } else if ending == BetweenOutputTimeout {
            log := log + [BetweenOutputTimeoutLogged];
          }
          log := log + [ExecEnd(|out|)];
          return Ok(out);
      }
    }

    /** The `except` block of the `terminal` branch, after the run of `cmd` raised `error`. */
    method Recover(cmd: string, session: int, error: string, second: CommandRun) returns (r: Result<string>)
      requires Completes(second) && lastTerminalCommand == Some(cmd)
      modifies this`log, this`commandsRun
      ensures var rec := RecoverySpec(cmd, session, error, second);
        r == rec.result && log == old(log) + rec.events && commandsRun == old(commandsRun) + rec.commands
    {
      log := log + [TerminalError(error)];
      var _ := ResetTerminal(session);
      if session == 0 && lastTerminalCommand.value != "" {
        log := log + [AutoContinue(session)];
        r := ExecuteTerminalCommand(lastTerminalCommand.value, session, second);
        return r;
      }
      return Err(error);
    }

    /** The `terminal` branch of `execute`. */
    method RunTerminal(cmd: string, session: int, first: CommandRun, second: CommandRun) returns (r: Result<string>)
      requires Completes(first) && Completes(second)
      modifies this`lastTerminalCommand, this`log, this`commandsRun
      ensures var eff := TerminalSpec(cmd, session, first, second);
        r == eff.result && log == old(log) + eff.events && commandsRun == old(commandsRun) + eff.commands
      ensures lastTerminalCommand == Some(cmd)
    {
      lastTerminalCommand := Some(cmd);
      var out := ExecuteTerminalCommand(cmd, session, first);
      if out.Ok? {
        return out;
      }
      ghost var ev1 := log[|old(log)|..];
      assert log == old(log) + ev1;
      r := Recover(cmd, session, out.error, second);
      AppendAssociates(old(log), ev1, RecoverySpec(cmd, session, out.error, second).events);
    }

    /** `execute` */
    method Execute(args: Args, first: CommandRun, second: CommandRun, python: Result<string>) returns (r: Result<string>)
      requires Completes(first) && Completes(second)
      modifies this`lastTerminalCommand, this`log, this`commandsRun
      ensures var eff := ExecuteSpec(args, first, second, python);
        r == eff.result && log == old(log) + eff.events && commandsRun == old(commandsRun) + eff.commands
      ensures lastTerminalCommand == if Runtime(args) == "terminal" then Some(Code(args)) else old(lastTerminalCommand)
    {
      var runtime := Normalize(match args.runtime case None => "" case Some(raw) => raw);
      var session := args.session;
      if runtime == "reset" {
        var message := ResetTerminal(session);
        return Ok(message);
      } else if runtime == "output" {
        return Ok(OutputMessage);
      } else if runtime == "terminal" {
        r := RunTerminal(Code(args), session, first, second);
      } else if runtime == "python" {
        return python;
      } else if runtime == "nodejs" {
        return Ok(NodejsMessage);
      } else {
        return Ok(UnknownRuntimePrefix + runtime);
      }
    }
  }
}
