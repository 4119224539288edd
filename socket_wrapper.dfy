/**
 * The `_SocketWrapper`: `send` and `recv` that survive connection loss by
 * closing the broken handle, reconnecting with backoff and retrying the same
 * operation.
 *
 * The transport is an oracle: `connect` gives the outcome of the k-th call of
 * the connect function, `io` the outcome of the k-th send or receive call on a
 * handle. Every retry loop is specified by a recursive function over these
 * oracles (`ReconnectRun`, `OperationRun`) and the methods are proved to
 * behave exactly as those functions say; the lemmas state what the functions
 * guarantee.
 */
module Socket {
  import opened Common
  import opened Retry

  /** An open transport handle. */
  datatype Handle = Handle(id: nat)

  datatype ConnectResult = Connected(handle: Handle) | ConnectRaised(error: string)

  /** The two operations the wrapper retries: `sendall(data)` and `recv(n)`. */
  datatype Op = SendOp(data: seq<byte>) | RecvOp(n: int)

  /**
   * What the handle's operation did: returned a value (the bytes read; nothing
   * for `sendall`) or raised, where `isOSError` says whether the exception is
   * an `OSError` (which covers `BrokenPipeError` and `ConnectionResetError`).
   */
  datatype IoResult = Returned(data: seq<byte>) | IoRaised(isOSError: bool, error: string)

  /**
   * The scripted transport: the outcomes of successive connect calls and of
   * successive operation calls. Past the end of its script the peer is gone:
   * connect raises and every operation raises an `OSError`.
   */
  datatype Transport = Transport(connects: seq<ConnectResult>, ios: seq<IoResult>) {
    /** The outcome of the `k`-th call of the connect function. */
    function connect(k: nat): ConnectResult
    {
      if k < |connects| then connects[k] else ConnectRaised(PeerGoneMessage)
    }

    /** The outcome of the `k`-th `sendall` or `recv` call. */
    function io(k: nat): IoResult
    {
      if k < |ios| then ios[k] else IoRaised(true, PeerGoneMessage)
    }
  }

  /** What a wrapper operation raises: the backoff give-up, or an exception it does not catch. */
  datatype Failure = BackoffExceeded | Propagated(error: string)

  datatype Result<T> = Ok(value: T) | Err(failure: Failure)

  /** The events the wrapper logs. */
  datatype Event =
    | SocketConnected
    | SocketReconnected(attempts: nat)
    | SocketReconnectFailed(attempt: nat, error: string)
    | SocketSendError(error: string)
    | SocketSendGiveup(error: string)
    | SocketRecvError(error: string)
    | SocketRecvGiveup(error: string)

  /** The wrapper's state as a value: the handle and how many oracle calls were made. */
  datatype Snapshot = Snapshot(sock: Option<Handle>, connects: nat, ios: nat)

  /** The outcome of a loop: its result, the state it leaves and the whole log afterwards. */
  datatype Run<T> = Run(result: Result<T>, after: Snapshot, log: seq<Event>)

  const SocketEofMessage: string := "socket_eof"
  const PeerGoneMessage: string := "connection refused"
  const BackoffExceededMessage: string := "backoff_exceeded"

  function FailureMessage(f: Failure): string
  {
    match f
    case BackoffExceeded => BackoffExceededMessage
    case Propagated(e) => e
  }

  /** The `AttributeError` raised when the operation is looked up on a `None` handle. */
  function NoHandleMessage(op: Op): string
  {
    if op.SendOp? then "'NoneType' object has no attribute 'sendall'"
    else "'NoneType' object has no attribute 'recv'"
  }

  function ErrorEvent(op: Op, error: string): Event
  {
    if op.SendOp? then SocketSendError(error) else SocketRecvError(error)
  }

  function GiveupEvent(op: Op, error: string): Event
  {
    if op.SendOp? then SocketSendGiveup(error) else SocketRecvGiveup(error)
  }

  /** How an operation's outcome is handled. */
  datatype Verdict = Success(data: seq<byte>) | Retry(error: string) | Fatal(error: string)

  /**
   * `sendall` succeeds on any return; `recv` succeeds on a non-empty read and
   * turns an empty read into `_SocketClosedError('socket_eof')`, which is
   * retried like a transport error; an `OSError` is retried and any other
   * exception propagates.
   */
  function Classify(op: Op, r: IoResult): Verdict
  {
    match r
    case IoRaised(os, e) => if os then Retry(e) else Fatal(e)
    case Returned(d) =>
      if op.SendOp? then Success([])
      else if d == [] then Retry(SocketEofMessage)
      else Success(d)
  }

  /**
   * An operation succeeds exactly when it returns (for `recv`, returns a
   * non-empty read, which is passed on unchanged); it is retried exactly when
   * it raises an `OSError` or `recv` returns nothing; any other exception is
   * fatal and propagates as it is.
   */
  lemma ClassifyVerdicts(op: Op, r: IoResult)
    ensures Classify(op, r).Success? <==> r.Returned? && (op.RecvOp? ==> r.data != [])
    ensures Classify(op, r).Success? && op.RecvOp? ==> Classify(op, r).data == r.data
    ensures Classify(op, r).Retry? <==> (r.IoRaised? && r.isOSError) || (op.RecvOp? && r == Returned([]))
    ensures Classify(op, r).Fatal? ==> r.IoRaised? && Classify(op, r).error == r.error
  {
  }

  /**
   * `_reconnect_with_backoff` from backoff attempt `attempt`, with `log`
   * logged so far: close, call connect; on success install the handle and log
   * `attempts = 0`; on failure log the attempt and take one backoff step,
   * giving up once the backoff is exhausted.
   */
  function ReconnectRun(t: Transport, s: Snapshot, attempt: nat, log: seq<Event>): Run<()>
    requires attempt <= DefaultMaxRetries
    decreases DefaultMaxRetries - attempt
  {
    var closed := Snapshot(None, s.connects + 1, s.ios);
    match t.connect(s.connects)
    case Connected(h) =>
      Run(Ok(()), Snapshot(Some(h), s.connects + 1, s.ios), log + [SocketConnected, SocketReconnected(0)])
    case ConnectRaised(e) =>
      var logged := log + [SocketReconnectFailed(attempt + 1, e)];
      if attempt >= DefaultMaxRetries then Run(Err(BackoffExceeded), closed, logged)
      else ReconnectRun(t, closed, attempt + 1, logged)
  }

  /**
   * Where `send` / `recv` is in its two retry loops: about to try the
   * operation at outer backoff attempt `outer`, or inside
   * `_reconnect_with_backoff` at inner backoff attempt `inner` after a retried
   * failure at outer attempt `outer`.
   */
  datatype Phase = Trying(outer: nat) | Reconnecting(outer: nat, inner: nat)

  predicate PhaseInRange(ph: Phase)
  {
    ph.outer <= DefaultMaxRetries && (ph.Reconnecting? ==> ph.inner <= DefaultMaxRetries)
  }

  /**
   * `send` / `recv` from phase `ph`, with `log` logged so far. Trying: look the
   * operation up on the handle (`AttributeError` when there is none) and call
   * it; a success returns, an exception outside the retried kinds propagates,
   * a retried one is logged and a reconnect starts. Reconnecting: close and
   * connect; a failure is logged and either retried or, once the inner backoff
   * is exhausted, logged as the operation's give-up and raised; a success is
   * logged and followed by the outer backoff step.
   */
  function WrapperRun(t: Transport, s: Snapshot, op: Op, ph: Phase, log: seq<Event>): Run<seq<byte>>
    requires PhaseInRange(ph)
    decreases DefaultMaxRetries - ph.outer, if ph.Trying? then 1 else 0,
              if ph.Reconnecting? then DefaultMaxRetries - ph.inner else 0
  {
    match ph
    case Trying(a) =>
      if s.sock.None? then Run(Err(Propagated(NoHandleMessage(op))), s, log)
      else
        var tried := Snapshot(s.sock, s.connects, s.ios + 1);
        (match Classify(op, t.io(s.ios))
         case Success(d) => Run(Ok(d), tried, log)
         case Fatal(e) => Run(Err(Propagated(e)), tried, log)
         case Retry(e) => WrapperRun(t, tried, op, Reconnecting(a, 0), log + [ErrorEvent(op, e)]))
    case Reconnecting(a, i) =>
      match t.connect(s.connects)
      case Connected(h) =>
        var installed := Snapshot(Some(h), s.connects + 1, s.ios);
        var logged := log + [SocketConnected, SocketReconnected(0)];
        if a >= DefaultMaxRetries then Run(Err(BackoffExceeded), installed, logged)
        else WrapperRun(t, installed, op, Trying(a + 1), logged)
      case ConnectRaised(e) =>
        var closed := Snapshot(None, s.connects + 1, s.ios);
        var logged := log + [SocketReconnectFailed(i + 1, e)];
        if i >= DefaultMaxRetries then
          Run(Err(BackoffExceeded), closed, logged + [GiveupEvent(op, BackoffExceededMessage)])
        else WrapperRun(t, closed, op, Reconnecting(a, i + 1), logged)
  }

  /** `send` / `recv` from outer backoff attempt `attempt`. */
  function OperationRun(t: Transport, s: Snapshot, op: Op, attempt: nat, log: seq<Event>): Run<seq<byte>>
    requires attempt <= DefaultMaxRetries
  {
    WrapperRun(t, s, op, Trying(attempt), log)
  }

  /** A try whose operation call succeeds returns its value. */
  lemma TrySucceeds(t: Transport, s: Snapshot, op: Op, a: nat, log: seq<Event>)
    requires a <= DefaultMaxRetries && s.sock.Some? && Classify(op, t.io(s.ios)).Success?
    ensures WrapperRun(t, s, op, Trying(a), log)
            == Run(Ok(Classify(op, t.io(s.ios)).data), Snapshot(s.sock, s.connects, s.ios + 1), log)
  {
  }

  /** A try whose operation call fails with a retried error logs it and starts a reconnect. */
  lemma TryRetried(t: Transport, s: Snapshot, op: Op, a: nat, log: seq<Event>)
    requires a <= DefaultMaxRetries && s.sock.Some? && Classify(op, t.io(s.ios)).Retry?
    ensures WrapperRun(t, s, op, Trying(a), log)
            == WrapperRun(t, Snapshot(s.sock, s.connects, s.ios + 1), op, Reconnecting(a, 0),
                          log + [ErrorEvent(op, Classify(op, t.io(s.ios)).error)])
  {
  }

  /**
   * The reconnect phase of `send` / `recv` is exactly `_reconnect_with_backoff`
   * followed by the operation's own handling of its outcome: a give-up is
   * logged and re-raised, a success is followed by the outer backoff step.
   */
  lemma {:induction false} ReconnectPhase(t: Transport, s: Snapshot, op: Op, a: nat, i: nat, log: seq<Event>)
    requires a <= DefaultMaxRetries && i <= DefaultMaxRetries
    ensures var rc := ReconnectRun(t, s, i, log);
      WrapperRun(t, s, op, Reconnecting(a, i), log)
      == if rc.result.Err? then Run(Err(rc.result.failure), rc.after, rc.log + [GiveupEvent(op, FailureMessage(rc.result.failure))])
         else if a >= DefaultMaxRetries then Run(Err(BackoffExceeded), rc.after, rc.log)
         else WrapperRun(t, rc.after, op, Trying(a + 1), rc.log)
    decreases DefaultMaxRetries - i
  {
    var c := t.connect(s.connects);
    if c.ConnectRaised? && i < DefaultMaxRetries {
      ReconnectPhase(t, Snapshot(None, s.connects + 1, s.ios), op, a, i + 1, log + [SocketReconnectFailed(i + 1, c.error)]);
    }
  }

  /**
   * A reconnect makes at least one and at most `max_retries + 1 - attempt`
   * connect calls, no operation call, only appends to the log, and every
   * connect call but its last one failed.
   */
  lemma {:induction false} ReconnectCalls(t: Transport, s: Snapshot, attempt: nat, log: seq<Event>)
    requires attempt <= DefaultMaxRetries
    ensures var r := ReconnectRun(t, s, attempt, log);
      s.connects < r.after.connects <= s.connects + DefaultMaxRetries + 1 - attempt && r.after.ios == s.ios
    ensures var r := ReconnectRun(t, s, attempt, log);
      forall k :: s.connects <= k < r.after.connects - 1 ==> t.connect(k).ConnectRaised?
    ensures var r := ReconnectRun(t, s, attempt, log);
      |r.log| > |log| && r.log[..|log|] == log
    decreases DefaultMaxRetries - attempt
  {
    if t.connect(s.connects).ConnectRaised? && attempt < DefaultMaxRetries {
      var logged := log + [SocketReconnectFailed(attempt + 1, t.connect(s.connects).error)];
      ReconnectCalls(t, Snapshot(None, s.connects + 1, s.ios), attempt + 1, logged);
      var r := ReconnectRun(t, s, attempt, log);
      assert r.log[..|logged|][..|log|] == log;
    }
  }

  /**
   * On success the reconnect installs the handle of its last connect call,
   * and the attempt count it logs is always 0 (`reset` runs before the log).
   */
  lemma {:induction false} ReconnectSucceeds(t: Transport, s: Snapshot, attempt: nat, log: seq<Event>)
    requires attempt <= DefaultMaxRetries
    requires ReconnectRun(t, s, attempt, log).result.Ok?
    ensures var r := ReconnectRun(t, s, attempt, log);
      0 < r.after.connects && t.connect(r.after.connects - 1).Connected?
      && r.after.sock == Some(t.connect(r.after.connects - 1).handle)
    ensures var r := ReconnectRun(t, s, attempt, log);
      |r.log| >= 2 && r.log[|r.log| - 2..] == [SocketConnected, SocketReconnected(0)]
    decreases DefaultMaxRetries - attempt
  {
    if t.connect(s.connects).ConnectRaised? {
      var logged := log + [SocketReconnectFailed(attempt + 1, t.connect(s.connects).error)];
      ReconnectSucceeds(t, Snapshot(None, s.connects + 1, s.ios), attempt + 1, logged);
    }
  }

  /**
   * A reconnect gives up only after `max_retries + 1 - attempt` failed
   * connect calls; `TimeoutError('backoff_exceeded')` propagates and no
   * handle is left.
   */
  lemma {:induction false} ReconnectGivesUp(t: Transport, s: Snapshot, attempt: nat, log: seq<Event>)
    requires attempt <= DefaultMaxRetries
    requires ReconnectRun(t, s, attempt, log).result.Err?
    ensures var r := ReconnectRun(t, s, attempt, log);
      r.result.failure == BackoffExceeded && r.after.sock == None
      && r.after.connects == s.connects + DefaultMaxRetries + 1 - attempt
      && t.connect(r.after.connects - 1).ConnectRaised?
    decreases DefaultMaxRetries - attempt
  {
    if attempt < DefaultMaxRetries && t.connect(s.connects).ConnectRaised? {
      var logged := log + [SocketReconnectFailed(attempt + 1, t.connect(s.connects).error)];
      ReconnectGivesUp(t, Snapshot(None, s.connects + 1, s.ios), attempt + 1, logged);
    }
  }

  /** A successful reconnect installs the first handle its connect calls return. */
  lemma FirstSuccessInstalled(t: Transport, s: Snapshot, n: nat, log: seq<Event>)
    requires n <= DefaultMaxRetries
    requires forall k :: s.connects <= k < s.connects + n ==> t.connect(k).ConnectRaised?
    requires t.connect(s.connects + n).Connected?
    requires ReconnectRun(t, s, 0, log).result.Ok?
    ensures ReconnectRun(t, s, 0, log).after == Snapshot(Some(t.connect(s.connects + n).handle), s.connects + n + 1, s.ios)
  {
    var r := ReconnectRun(t, s, 0, log);
    ReconnectCalls(t, s, 0, log);
    ReconnectSucceeds(t, s, 0, log);
    var last := r.after.connects - 1;
    if last < s.connects + n {
      assert false;
    } else if last > s.connects + n {
      assert false;
    }
  }

  /**
   * A reconnect whose connect function fails `n` times and then succeeds, with
   * `n <= max_retries`, installs that handle after exactly `n + 1` calls.
   */
  lemma ReconnectSucceedsWithin(t: Transport, s: Snapshot, n: nat, log: seq<Event>)
    requires n <= DefaultMaxRetries
    requires forall k :: s.connects <= k < s.connects + n ==> t.connect(k).ConnectRaised?
    requires t.connect(s.connects + n).Connected?
    ensures ReconnectRun(t, s, 0, log).result == Ok(())
    ensures ReconnectRun(t, s, 0, log).after == Snapshot(Some(t.connect(s.connects + n).handle), s.connects + n + 1, s.ios)
  {
    ReconnectCalls(t, s, 0, log);
    if ReconnectRun(t, s, 0, log).result.Err? {
      ReconnectGivesUp(t, s, 0, log);
      assert false;
    }
    FirstSuccessInstalled(t, s, n, log);
  }

  /**
   * From any phase, `send` / `recv` makes at most one operation call per
   * remaining outer backoff attempt, and at most `max_retries + 1` connect
   * calls per operation call (plus those left to a reconnect in progress).
   */
  lemma {:induction false} WrapperCalls(t: Transport, s: Snapshot, op: Op, ph: Phase, log: seq<Event>)
    requires PhaseInRange(ph)
    ensures var r := WrapperRun(t, s, op, ph, log);
      s.ios <= r.after.ios <= s.ios + DefaultMaxRetries + 1 - ph.outer - (if ph.Reconnecting? then 1 else 0)
    ensures var r := WrapperRun(t, s, op, ph, log);
      s.connects <= r.after.connects
      <= s.connects + (if ph.Reconnecting? then DefaultMaxRetries + 1 - ph.inner else 0) + 7 * (r.after.ios - s.ios)
    decreases DefaultMaxRetries - ph.outer, if ph.Trying? then 1 else 0,
              if ph.Reconnecting? then DefaultMaxRetries - ph.inner else 0
  {
    match ph
    case Trying(a) =>
      if s.sock.Some? {
        var v := Classify(op, t.io(s.ios));
        if v.Retry? {
          WrapperCalls(t, Snapshot(s.sock, s.connects, s.ios + 1), op, Reconnecting(a, 0), log + [ErrorEvent(op, v.error)]);
        }
      }
    case Reconnecting(a, i) =>
      var c := t.connect(s.connects);
      if c.Connected? && a < DefaultMaxRetries {
        WrapperCalls(t, Snapshot(Some(c.handle), s.connects + 1, s.ios), op, Trying(a + 1),
                     log + [SocketConnected, SocketReconnected(0)]);
      } else if c.ConnectRaised? && i < DefaultMaxRetries {
        WrapperCalls(t, Snapshot(None, s.connects + 1, s.ios), op, Reconnecting(a, i + 1),
                     log + [SocketReconnectFailed(i + 1, c.error)]);
      }
  }

  /**
   * One `send` or `recv` makes at most `max_retries + 1` operation calls, at
   * most `max_retries + 1` connect calls per operation call, and calls the
   * operation again only after a retried failure.
   */
  lemma OperationCalls(t: Transport, s: Snapshot, op: Op, log: seq<Event>)
    ensures var r := OperationRun(t, s, op, 0, log);
      s.ios <= r.after.ios <= s.ios + DefaultMaxRetries + 1
      && s.connects <= r.after.connects <= s.connects + 7 * (r.after.ios - s.ios)
    ensures var r := OperationRun(t, s, op, 0, log);
      forall k :: s.ios <= k < r.after.ios - 1 ==> Classify(op, t.io(k)).Retry?
  {
    WrapperCalls(t, s, op, Trying(0), log);
    WrapperRetriesBeforeLast(t, s, op, Trying(0), log);
  }

  /**
   * When `send`/`recv` returns, its last operation call succeeded on the
   * installed handle and the value is what that call returned (for `recv`, a
   * non-empty read, unchanged).
   */
  lemma {:induction false} WrapperReturns(t: Transport, s: Snapshot, op: Op, ph: Phase, log: seq<Event>)
    requires PhaseInRange(ph)
    requires WrapperRun(t, s, op, ph, log).result.Ok?
    ensures var r := WrapperRun(t, s, op, ph, log);
      r.after.sock.Some? && r.after.ios > 0
      && Classify(op, t.io(r.after.ios - 1)) == Success(r.result.value)
    decreases DefaultMaxRetries - ph.outer, if ph.Trying? then 1 else 0,
              if ph.Reconnecting? then DefaultMaxRetries - ph.inner else 0
  {
    match ph
    case Trying(a) =>
      var v := Classify(op, t.io(s.ios));
      if s.sock.Some? && v.Retry? {
        var next := Snapshot(s.sock, s.connects, s.ios + 1);
        var logged := log + [ErrorEvent(op, v.error)];
        assert WrapperRun(t, s, op, ph, log) == WrapperRun(t, next, op, Reconnecting(a, 0), logged);
        WrapperReturns(t, next, op, Reconnecting(a, 0), logged);
      }
    case Reconnecting(a, i) =>
      var c := t.connect(s.connects);
      if c.Connected? && a < DefaultMaxRetries {
        var next := Snapshot(Some(c.handle), s.connects + 1, s.ios);
        var logged := log + [SocketConnected, SocketReconnected(0)];
        assert WrapperRun(t, s, op, ph, log) == WrapperRun(t, next, op, Trying(a + 1), logged);
        WrapperReturns(t, next, op, Trying(a + 1), logged);
      } else if c.ConnectRaised? && i < DefaultMaxRetries {
        var next := Snapshot(None, s.connects + 1, s.ios);
        var logged := log + [SocketReconnectFailed(i + 1, c.error)];
        assert WrapperRun(t, s, op, ph, log) == WrapperRun(t, next, op, Reconnecting(a, i + 1), logged);
        WrapperReturns(t, next, op, Reconnecting(a, i + 1), logged);
      }
  }

  /**
   * `send` / `recv` calls the operation again only after a retried failure:
   * every operation call of the run but its last one raised an `OSError` (or,
   * for `recv`, read nothing).
   */
  lemma {:induction false} WrapperRetriesBeforeLast(t: Transport, s: Snapshot, op: Op, ph: Phase, log: seq<Event>)
    requires PhaseInRange(ph)
    ensures var r := WrapperRun(t, s, op, ph, log);
      forall k :: s.ios <= k < r.after.ios - 1 ==> Classify(op, t.io(k)).Retry?
    decreases DefaultMaxRetries - ph.outer, if ph.Trying? then 1 else 0,
              if ph.Reconnecting? then DefaultMaxRetries - ph.inner else 0
  {
    var r := WrapperRun(t, s, op, ph, log);
    match ph
    case Trying(a) =>
      var v := Classify(op, t.io(s.ios));
      if s.sock.Some? && v.Retry? {
        var next := Snapshot(s.sock, s.connects, s.ios + 1);
        var logged := log + [ErrorEvent(op, v.error)];
        assert r == WrapperRun(t, next, op, Reconnecting(a, 0), logged);
        WrapperRetriesBeforeLast(t, next, op, Reconnecting(a, 0), logged);
        forall k | s.ios <= k < r.after.ios - 1 ensures Classify(op, t.io(k)).Retry? {
          if k == s.ios { assert v.Retry?; }
        }
      } else {
        assert r.after.ios <= s.ios + 1;
      }
    case Reconnecting(a, i) =>
      var c := t.connect(s.connects);
      if c.Connected? && a < DefaultMaxRetries {
        var next := Snapshot(Some(c.handle), s.connects + 1, s.ios);
        var logged := log + [SocketConnected, SocketReconnected(0)];
        assert r == WrapperRun(t, next, op, Trying(a + 1), logged);
        WrapperRetriesBeforeLast(t, next, op, Trying(a + 1), logged);
      } else if c.ConnectRaised? && i < DefaultMaxRetries {
        var next := Snapshot(None, s.connects + 1, s.ios);
        var logged := log + [SocketReconnectFailed(i + 1, c.error)];
        assert r == WrapperRun(t, next, op, Reconnecting(a, i + 1), logged);
        WrapperRetriesBeforeLast(t, next, op, Reconnecting(a, i + 1), logged);
      } else {
        assert r.after.ios == s.ios;
      }
  }

  /**
   * Transparent recovery: an operation that fails with a retried error, a
   * reconnect whose connect function fails `n <= max_retries` times and then
   * succeeds, and a retry that succeeds on the new handle make `send`/`recv`
   * return that retry's value, with the new handle installed.
   */
  lemma RecoversAfterReconnect(t: Transport, s: Snapshot, op: Op, n: nat, log: seq<Event>)
    requires s.sock.Some? && Classify(op, t.io(s.ios)).Retry?
    requires n <= DefaultMaxRetries
    requires forall k :: s.connects <= k < s.connects + n ==> t.connect(k).ConnectRaised?
    requires t.connect(s.connects + n).Connected?
    requires Classify(op, t.io(s.ios + 1)).Success?
    ensures var r := OperationRun(t, s, op, 0, log);
      r.result == Ok(Classify(op, t.io(s.ios + 1)).data)
      && r.after == Snapshot(Some(t.connect(s.connects + n).handle), s.connects + n + 1, s.ios + 2)
  {
    var tried := Snapshot(s.sock, s.connects, s.ios + 1);
    var logged := log + [ErrorEvent(op, Classify(op, t.io(s.ios)).error)];
    TryRetried(t, s, op, 0, log);
    ReconnectPhase(t, tried, op, 0, 0, logged);
    ReconnectSucceedsWithin(t, tried, n, logged);
    var rc := ReconnectRun(t, tried, 0, logged);
    assert WrapperRun(t, tried, op, Reconnecting(0, 0), logged) == WrapperRun(t, rc.after, op, Trying(1), rc.log);
    TrySucceeds(t, rc.after, op, 1, rc.log);
  }

  /** `send` / `recv` returns only what its last, successful operation call gave. */
  lemma OperationReturns(t: Transport, s: Snapshot, op: Op, log: seq<Event>)
    requires OperationRun(t, s, op, 0, log).result.Ok?
    ensures var r := OperationRun(t, s, op, 0, log);
      s.sock.Some? && r.after.sock.Some? && r.after.ios > 0
      && Classify(op, t.io(r.after.ios - 1)) == Success(r.result.value)
    ensures var r := OperationRun(t, s, op, 0, log);
      op.RecvOp? ==> r.result.value != [] && t.io(r.after.ios - 1) == Returned(r.result.value)
  {
    var r := OperationRun(t, s, op, 0, log);
    WrapperReturns(t, s, op, Trying(0), log);
    ClassifyVerdicts(op, t.io(r.after.ios - 1));
  }

  /**
   * When every operation call from here on fails with a retried error and each
   * of the connect calls left to the outer backoff succeeds at once, the outer
   * backoff runs out: `TimeoutError('backoff_exceeded')` propagates after one
   * operation call and one connect call per remaining outer attempt.
   */
  lemma {:induction false} WrapperExhausts(t: Transport, s: Snapshot, op: Op, ph: Phase, log: seq<Event>)
    requires PhaseInRange(ph)
    requires ph.Trying? ==> s.sock.Some?
    requires forall k :: s.ios <= k ==> Classify(op, t.io(k)).Retry?
    requires forall k :: s.connects <= k < s.connects + DefaultMaxRetries + 1 - ph.outer ==> t.connect(k).Connected?
    ensures var r := WrapperRun(t, s, op, ph, log);
      && r.result == Err(BackoffExceeded)
      && r.after.ios == s.ios + DefaultMaxRetries + 1 - ph.outer - (if ph.Reconnecting? then 1 else 0)
      && r.after.connects == s.connects + DefaultMaxRetries + 1 - ph.outer
    decreases DefaultMaxRetries - ph.outer, if ph.Trying? then 1 else 0,
              if ph.Reconnecting? then DefaultMaxRetries - ph.inner else 0
  {
    match ph
    case Trying(a) =>
      var v := Classify(op, t.io(s.ios));
      assert v.Retry?;
      WrapperExhausts(t, Snapshot(s.sock, s.connects, s.ios + 1), op, Reconnecting(a, 0), log + [ErrorEvent(op, v.error)]);
    case Reconnecting(a, i) =>
      var c := t.connect(s.connects);
      assert c.Connected?;
      if a < DefaultMaxRetries {
        WrapperExhausts(t, Snapshot(Some(c.handle), s.connects + 1, s.ios), op, Trying(a + 1),
                        log + [SocketConnected, SocketReconnected(0)]);
      }
  }

  /**
   * With a handle, every operation call failing with a retried error and every
   * connect succeeding, `send`/`recv` makes exactly `max_retries + 1` operation
   * calls and reconnects and then gives up with `backoff_exceeded`.
   */
  lemma OperationExhausts(t: Transport, s: Snapshot, op: Op, log: seq<Event>)
    requires s.sock.Some?
    requires forall k :: s.ios <= k ==> Classify(op, t.io(k)).Retry?
    requires forall k :: s.connects <= k < s.connects + DefaultMaxRetries + 1 ==> t.connect(k).Connected?
    ensures var r := OperationRun(t, s, op, 0, log);
      && r.result == Err(BackoffExceeded)
      && r.after.ios == s.ios + DefaultMaxRetries + 1
      && r.after.connects == s.connects + DefaultMaxRetries + 1
  {
    WrapperExhausts(t, s, op, Trying(0), log);
  }

  /**
   * A peer that accepts every reconnect but never lets an operation through:
   * seven connect calls succeed, and every operation call past the (empty)
   * script raises an `OSError`.
   */
  function AlwaysReconnects(): Transport
  {
    Transport(seq(DefaultMaxRetries + 1, _ => Connected(Handle(1))), [])
  }

  /**
   * Against that peer, `send` from a connected wrapper makes seven `sendall`
   * calls and seven reconnects, then raises `backoff_exceeded`.
   */
  lemma SendExhaustsAgainstDeadPeer(data: seq<byte>)
    ensures var r := OperationRun(AlwaysReconnects(), Snapshot(Some(Handle(0)), 0, 0), SendOp(data), 0, []);
      r.result == Err(BackoffExceeded) && r.after.ios == 7 && r.after.connects == 7
  {
    var t := AlwaysReconnects();
    forall k: nat
      ensures Classify(SendOp(data), t.io(k)).Retry?
    {
    }
    OperationExhausts(t, Snapshot(Some(Handle(0)), 0, 0), SendOp(data), []);
  }

  /**
   * An exception outside the retried kinds propagates from the first call:
   * one operation call, no reconnect, nothing logged.
   */
  lemma UncaughtPropagatesAtOnce(t: Transport, s: Snapshot, op: Op, attempt: nat, log: seq<Event>)
    requires attempt <= DefaultMaxRetries
    requires s.sock.Some?
    requires t.io(s.ios).IoRaised? && !t.io(s.ios).isOSError
    ensures OperationRun(t, s, op, attempt, log)
            == Run(Err(Propagated(t.io(s.ios).error)), Snapshot(s.sock, s.connects, s.ios + 1), log)
  {
    var r := t.io(s.ios);
    assert Classify(op, r) == Fatal(r.error);
  }

  /** A reconnect depends on the transport's connect function only. */
  lemma {:induction false} ReconnectDependsOnConnect(t1: Transport, t2: Transport, s: Snapshot, attempt: nat, log: seq<Event>)
    requires attempt <= DefaultMaxRetries
    requires forall k :: t1.connect(k) == t2.connect(k)
    ensures ReconnectRun(t1, s, attempt, log) == ReconnectRun(t2, s, attempt, log)
    decreases DefaultMaxRetries - attempt
  {
    if attempt < DefaultMaxRetries && t1.connect(s.connects).ConnectRaised? {
      var logged := log + [SocketReconnectFailed(attempt + 1, t1.connect(s.connects).error)];
      ReconnectDependsOnConnect(t1, t2, Snapshot(None, s.connects + 1, s.ios), attempt + 1, logged);
    }
  }

  /**
   * `send`/`recv` sees an operation's outcome only through `Classify`: two
   * transports whose outcomes classify alike give the same run. In particular
   * an empty `recv` and a `recv` raising `OSError('socket_eof')` are
   * indistinguishable, since both classify as `Retry("socket_eof")`.
   */
  lemma {:induction false} WrapperSeesOnlyVerdicts(t1: Transport, t2: Transport, s: Snapshot, op: Op, ph: Phase, log: seq<Event>)
    requires PhaseInRange(ph)
    requires forall k :: t1.connect(k) == t2.connect(k)
    requires forall k :: Classify(op, t1.io(k)) == Classify(op, t2.io(k))
    ensures WrapperRun(t1, s, op, ph, log) == WrapperRun(t2, s, op, ph, log)
    decreases DefaultMaxRetries - ph.outer, if ph.Trying? then 1 else 0,
              if ph.Reconnecting? then DefaultMaxRetries - ph.inner else 0
  {
    match ph
    case Trying(a) =>
      var v := Classify(op, t1.io(s.ios));
      assert v == Classify(op, t2.io(s.ios));
      if s.sock.Some? && v.Retry? {
        WrapperSeesOnlyVerdicts(t1, t2, Snapshot(s.sock, s.connects, s.ios + 1), op, Reconnecting(a, 0), log + [ErrorEvent(op, v.error)]);
      }
    case Reconnecting(a, i) =>
      var c := t1.connect(s.connects);
      assert c == t2.connect(s.connects);
      if c.Connected? && a < DefaultMaxRetries {
        WrapperSeesOnlyVerdicts(t1, t2, Snapshot(Some(c.handle), s.connects + 1, s.ios), op, Trying(a + 1),
                                log + [SocketConnected, SocketReconnected(0)]);
      } else if c.ConnectRaised? && i < DefaultMaxRetries {
        WrapperSeesOnlyVerdicts(t1, t2, Snapshot(None, s.connects + 1, s.ios), op, Reconnecting(a, i + 1),
                                log + [SocketReconnectFailed(i + 1, c.error)]);
      }
  }

  /**
   * After an operation that leaves no handle (its reconnect gave up), every
   * later `send` or `recv` raises `AttributeError` on the `None` handle at
   * once, without touching the transport: the wrapper does not recover.
   */
  lemma GiveUpIsPermanent(t: Transport, s: Snapshot, op: Op, log: seq<Event>, next: Op)
    requires OperationRun(t, s, op, 0, log).after.sock.None?
    ensures OperationRun(t, s, op, 0, log).result.Err?
    ensures var r := OperationRun(t, s, op, 0, log);
      OperationRun(t, r.after, next, 0, r.log) == Run(Err(Propagated(NoHandleMessage(next))), r.after, r.log)
  {
    var r := OperationRun(t, s, op, 0, log);
    if r.result.Ok? {
      WrapperReturns(t, s, op, Trying(0), log);
    }
  }

  /** `_SocketWrapper` with the default `recv` / `sendall` operation names. */
  class SocketWrapper {
    const transport: Transport
    var sock: Option<Handle>
    var connectCalls: nat
    var ioCalls: nat
    ghost var log: seq<Event>

    function Snap(): Snapshot
      reads this
    {
      Snapshot(sock, connectCalls, ioCalls)
    }

    /** The state right after `__init__`'s connect call returned `h`. */
    constructor (t: Transport, h: Handle)
      ensures transport == t && Snap() == Snapshot(Some(h), 1, 0) && log == [SocketConnected]
    {
      transport := t;
      sock := Some(h);
      connectCalls := 1;
      ioCalls := 0;
      log := [SocketConnected];
    }

    /**
     * `__init__`: the first connect call; if it raises, the exception
     * propagates and no wrapper exists (`None`).
     */
    static method Open(t: Transport) returns (w: Option<SocketWrapper>)
      ensures t.connect(0).ConnectRaised? <==> w.None?
      ensures w.Some? ==> fresh(w.value) && w.value.transport == t && w.value.log == [SocketConnected]
      ensures w.Some? ==> w.value.Snap() == Snapshot(Some(t.connect(0).handle), 1, 0)
    {
      match t.connect(0)
      case ConnectRaised(_) =>
        w := None;
      case Connected(h) =>
        var created := new SocketWrapper(t, h);
        w := Some(created);
    }

    /** `_connect`: one call of the connect function, logged when it succeeds. */
    method Connect() returns (c: ConnectResult)
      modifies this`connectCalls, this`log
      ensures c == transport.connect(old(connectCalls)) && connectCalls == old(connectCalls) + 1
      ensures log == old(log) + if c.Connected? then [SocketConnected] else []
    {
      c := transport.connect(connectCalls);
      connectCalls := connectCalls + 1;
      if c.Connected? {
        log := log + [SocketConnected];
      }
    }

    /** `close`: whatever the handle's own `close()` does, no handle is left. */
    method Close()
      modifies this`sock
      ensures sock == None
    {
      sock := None;
    }

    /**
     * The body of the loop of `_reconnect_with_backoff` up to the backoff's
     * sleep: close, connect, and either install the handle (resetting the
     * backoff) or log the failed attempt. `done` when the handle is installed.
     */
    method ReconnectAttempt(backoff: Backoff) returns (done: bool)
      requires backoff.Valid() && backoff.attempt <= DefaultMaxRetries
      modifies this`sock, this`connectCalls, this`log, backoff`attempt
      ensures backoff.Valid() && (done ==> backoff.attempt == 0)
      ensures !done ==> backoff.attempt == old(backoff.attempt)
      ensures done ==> ReconnectRun(transport, old(Snapshot(sock, connectCalls, ioCalls)), old(backoff.attempt), old(log))
                       == Run(Ok(()), Snapshot(sock, connectCalls, ioCalls), log)
      ensures !done ==> sock.None? && ReconnectRun(transport, old(Snapshot(sock, connectCalls, ioCalls)), old(backoff.attempt), old(log))
                        == if old(backoff.attempt) >= DefaultMaxRetries then Run(Err(BackoffExceeded), Snapshot(sock, connectCalls, ioCalls), log)
                           else ReconnectRun(transport, Snapshot(sock, connectCalls, ioCalls), old(backoff.attempt) + 1, log)
    {
      ghost var before := Snapshot(sock, connectCalls, ioCalls);
      ghost var logBefore := log;
      ghost var attempt := backoff.attempt;
      Close();
      var c := Connect();
      assert transport.connect(before.connects) == c;
      if c.Connected? {
        sock := Some(c.handle);
        backoff.Reset();
        log := log + [SocketReconnected(backoff.attempt)];
        assert log == logBefore + [SocketConnected, SocketReconnected(0)];
        return true;
      }
      log := log + [SocketReconnectFailed(backoff.attempt + 1, c.error)];
      assert Snapshot(sock, connectCalls, ioCalls) == Snapshot(None, before.connects + 1, before.ios);
      assert log == logBefore + [SocketReconnectFailed(attempt + 1, c.error)];
      return false;
    }

    /** `_reconnect_with_backoff`, with a fresh default `_Backoff`. */
    method ReconnectWithBackoff() returns (r: Result<()>)
      modifies this`sock, this`connectCalls, this`log
      ensures ReconnectRun(transport, old(Snapshot(sock, connectCalls, ioCalls)), 0, old(log)) == Run(r, Snapshot(sock, connectCalls, ioCalls), log)
    {
      ghost var goal := ReconnectRun(transport, Snapshot(sock, connectCalls, ioCalls), 0, log);
      var backoff := new Backoff(DefaultBase, DefaultFactor, DefaultMaxDelay, DefaultMaxRetries);
      while true
        invariant fresh(backoff) && backoff.Valid() && backoff.Jittered() && backoff.maxRetries == DefaultMaxRetries
        invariant backoff.attempt <= DefaultMaxRetries
        invariant goal == ReconnectRun(transport, Snapshot(sock, connectCalls, ioCalls), backoff.attempt, log)
        decreases DefaultMaxRetries - backoff.attempt
      {
        var done := ReconnectAttempt(backoff);
        if done {
          return Ok(());
        }
        var exceeded := backoff.Sleep();
        if exceeded {
          return Err(BackoffExceeded);
        }
      }
    }

    /**
     * The body of the retry loop of `send` and `recv` up to the backoff's
     * sleep, on backoff attempt `a`: the operation, and after a retryable
     * error the reconnect. `done` when it returned or raised.
     */
    method TryAndReconnect(op: Op, ghost a: nat) returns (done: bool, r: Result<seq<byte>>)
      requires a <= DefaultMaxRetries
      modifies this`sock, this`connectCalls, this`ioCalls, this`log
      ensures done ==> WrapperRun(transport, old(Snapshot(sock, connectCalls, ioCalls)), op, Trying(a), old(log))
                       == Run(r, Snapshot(sock, connectCalls, ioCalls), log)
      ensures !done ==> WrapperRun(transport, old(Snapshot(sock, connectCalls, ioCalls)), op, Trying(a), old(log))
                        == if a >= DefaultMaxRetries then Run(Err(BackoffExceeded), Snapshot(sock, connectCalls, ioCalls), log)
                           else WrapperRun(transport, Snapshot(sock, connectCalls, ioCalls), op, Trying(a + 1), log)
    {
      if sock.None? {
        return true, Err(Propagated(NoHandleMessage(op)));
      }
      var outcome := transport.io(ioCalls);
      ioCalls := ioCalls + 1;
      var verdict := Classify(op, outcome);
      if verdict.Success? {
        return true, Ok(verdict.data);
      } else if verdict.Fatal? {
        return true, Err(Propagated(verdict.error));
      }
      log := log + [ErrorEvent(op, verdict.error)];
      ghost var tried := Snapshot(sock, connectCalls, ioCalls);
      ghost var logTried := log;
      var rc := ReconnectWithBackoff();
      ReconnectPhase(transport, tried, op, a, 0, logTried);
      if rc.Err? {
        log := log + [GiveupEvent(op, FailureMessage(rc.failure))];
        return true, Err(rc.failure);
      }
      return false, Ok([]);
    }

    /** One pass of the retry loop of `send` and `recv`, ending with the backoff's sleep. */
    method Pass(op: Op, backoff: Backoff) returns (done: bool, r: Result<seq<byte>>)
      requires backoff.Valid() && backoff.Jittered() && backoff.maxRetries == DefaultMaxRetries
      requires backoff.attempt <= DefaultMaxRetries
      modifies this`sock, this`connectCalls, this`ioCalls, this`log, backoff`attempt, backoff`naps
      ensures backoff.Valid() && backoff.Jittered() && backoff.attempt <= DefaultMaxRetries
      ensures !done ==> old(backoff.attempt) < backoff.attempt
      ensures done ==> WrapperRun(transport, old(Snapshot(sock, connectCalls, ioCalls)), op, Trying(old(backoff.attempt)), old(log))
                       == Run(r, Snapshot(sock, connectCalls, ioCalls), log)
      ensures !done ==> WrapperRun(transport, old(Snapshot(sock, connectCalls, ioCalls)), op, Trying(old(backoff.attempt)), old(log))
                        == WrapperRun(transport, Snapshot(sock, connectCalls, ioCalls), op, Trying(backoff.attempt), log)
    {
      done, r := TryAndReconnect(op, backoff.attempt);
      if done {
        return;
      }
      var exceeded := backoff.Sleep();
      if exceeded {
        return true, Err(BackoffExceeded);
      }
    }

    /** The retry loop shared by `send` and `recv`, with a fresh default `_Backoff`. */
    method Operate(op: Op) returns (r: Result<seq<byte>>)
      modifies this`sock, this`connectCalls, this`ioCalls, this`log
      ensures OperationRun(transport, old(Snapshot(sock, connectCalls, ioCalls)), op, 0, old(log))
              == Run(r, Snapshot(sock, connectCalls, ioCalls), log)
    {
      ghost var goal := WrapperRun(transport, Snapshot(sock, connectCalls, ioCalls), op, Trying(0), log);
      var backoff := new Backoff(DefaultBase, DefaultFactor, DefaultMaxDelay, DefaultMaxRetries);
      while true
        invariant fresh(backoff) && backoff.Valid() && backoff.Jittered() && backoff.maxRetries == DefaultMaxRetries
        invariant backoff.attempt <= DefaultMaxRetries
        invariant goal == WrapperRun(transport, Snapshot(sock, connectCalls, ioCalls), op, Trying(backoff.attempt), log)
        decreases DefaultMaxRetries - backoff.attempt
      {
        var done;
        done, r := Pass(op, backoff);
        if done {
          return;
        }
      }
    }

    /** `send`: `sendall(data)` with reconnect-and-retry. */
    method Send(data: seq<byte>) returns (r: Result<()>)
      modifies this`sock, this`connectCalls, this`ioCalls, this`log
      ensures var run := OperationRun(transport, old(Snapshot(sock, connectCalls, ioCalls)), SendOp(data), 0, old(log));
        (r.Ok? <==> run.result.Ok?) && (r.Err? ==> r.failure == run.result.failure)
        && Snapshot(sock, connectCalls, ioCalls) == run.after && log == run.log
    {
      var res := Operate(SendOp(data));
      r := if res.Ok? then Ok(()) else Err(res.failure);
    }

    /** `recv(n)`: a non-empty read with reconnect-and-retry; an empty read is retried. */
    method Recv(n: int) returns (r: Result<seq<byte>>)
      modifies this`sock, this`connectCalls, this`ioCalls, this`log
      ensures OperationRun(transport, old(Snapshot(sock, connectCalls, ioCalls)), RecvOp(n), 0, old(log)) == Run(r, Snapshot(sock, connectCalls, ioCalls), log)
    {
      r := Operate(RecvOp(n));
    }
  }
}
