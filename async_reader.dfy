/**
 * `_AsyncReader`: a background task that pulls chunks from a read function
 * and hands each one to a consumer, until end of stream, a failure, or a
 * stop request.
 *
 * The read function, the consumer and the clock are inputs: one run of the
 * task sees a script of reads, each either data (with the clock reading taken
 * after the consumer returned, and the error the consumer raised, if any) or
 * the error the read function raised. The script ends where the task next
 * observes the stop flag. The task is specified by the index of the first
 * read that ends it.
 */
module Reader {
  import opened Common

  datatype ReadResult =
    | Data(bytes: seq<byte>, at: real, handlerError: Option<string>)
    | ReadRaised(error: string)

  datatype ReaderEvent = ReaderEof | ReaderError(error: string) | ReaderStopped

  /** A read ends the task: it raised, it returned nothing, or the consumer raised. */
  predicate Ends(r: ReadResult)
  {
    r.ReadRaised? || r.bytes == [] || r.handlerError.Some?
  }

  /** The index of the first read from `j` on that ends the task, or `|script|`. */
  function EndIndexFrom(script: seq<ReadResult>, j: nat): (k: nat)
    requires j <= |script|
    ensures j <= k <= |script|
    ensures forall i :: j <= i < k ==> !Ends(script[i])
    ensures k < |script| ==> Ends(script[k])
    decreases |script| - j
  {
    if j == |script| then j
    else if Ends(script[j]) then j
    else EndIndexFrom(script, j + 1)
  }

  function EndIndex(script: seq<ReadResult>): nat
  {
    EndIndexFrom(script, 0)
  }

  /** The data of every data read in `rs`, in order. */
  function Chunks(rs: seq<ReadResult>): seq<seq<byte>>
  {
    if rs == [] then []
    else Chunks(rs[..|rs| - 1]) + (if rs[|rs| - 1].Data? then [rs[|rs| - 1].bytes] else [])
  }

  /** The clock after the latest data read in `rs`, or `init` when there was none. */
  function LatestAt(rs: seq<ReadResult>, init: real): real
  {
    if rs == [] then init
    else if rs[|rs| - 1].Data? then rs[|rs| - 1].at
    else LatestAt(rs[..|rs| - 1], init)
  }

  /**
   * The chunks handed to the consumer: every read before the ending one, and
   * the ending one too when it was data the consumer raised on.
   */
  function Forwarded(script: seq<ReadResult>): seq<seq<byte>>
  {
    var k := EndIndex(script);
    Chunks(script[..k])
      + (if k < |script| && script[k].Data? && script[k].bytes != [] then [script[k].bytes] else [])
  }

  /** `_last_activity` after the run: the clock after the latest chunk the consumer accepted. */
  function ActivityAfter(script: seq<ReadResult>, init: real): real
  {
    LatestAt(script[..EndIndex(script)], init)
  }

  /** The event the ending read logs, if a read ended the task. */
  function EndEvent(script: seq<ReadResult>): Option<ReaderEvent>
  {
    var k := EndIndex(script);
    if k == |script| then None
    else match script[k]
      case ReadRaised(e) => Some(ReaderError(e))
      case Data(b, _, h) => if b == [] then Some(ReaderEof) else Some(ReaderError(h.value))
  }

  /**
   * The events one run logs: the ending event, if any, and always
   * `reader_stopped`, last and once. A run that finds the stop flag already
   * set logs only `reader_stopped`.
   */
  function Events(script: seq<ReadResult>, stopped: bool): (e: seq<ReaderEvent>)
    ensures 1 <= |e| <= 2 && e[|e| - 1] == ReaderStopped
    ensures forall i :: 0 <= i < |e| - 1 ==> e[i] != ReaderStopped
    ensures stopped ==> e == [ReaderStopped]
  {
    if stopped then [ReaderStopped]
    else (match EndEvent(script) case None => [] case Some(ev) => [ev]) + [ReaderStopped]
  }

  /** What one more read does to the run's state and to the ending index. */
  lemma ReadStep(script: seq<ReadResult>, init: real, i: nat)
    requires i < |script|
    ensures Chunks(script[..i + 1]) == Chunks(script[..i]) + (if script[i].Data? then [script[i].bytes] else [])
    ensures LatestAt(script[..i + 1], init) == if script[i].Data? then script[i].at else LatestAt(script[..i], init)
    ensures EndIndexFrom(script, i) == if Ends(script[i]) then i else EndIndexFrom(script, i + 1)
  {
    assert script[..i + 1][..i] == script[..i];
  }

  /** Of reads that are all data, the chunks are their data, one for one. */
  lemma {:induction false} ChunksOfData(rs: seq<ReadResult>)
    requires forall i :: 0 <= i < |rs| ==> rs[i].Data?
    ensures |Chunks(rs)| == |rs|
    ensures forall i :: 0 <= i < |rs| ==> Chunks(rs)[i] == rs[i].bytes
    decreases |rs|
  {
    if rs != [] {
      var init := rs[..|rs| - 1];
      assert forall i :: 0 <= i < |init| ==> init[i] == rs[i];
      ChunksOfData(init);
    }
  }

  /**
   * The consumer receives the data read in order, with no gap and no empty
   * chunk, starting from the first read: one chunk per read before the ending
   * read, plus the ending read's data when the consumer raised on it. Nothing
   * read after the end reaches it.
   */
  lemma ForwardedInOrder(script: seq<ReadResult>)
    ensures var k, f := EndIndex(script), Forwarded(script);
      |f| == (if k < |script| && script[k].Data? && script[k].bytes != [] then k + 1 else k)
    ensures var f := Forwarded(script);
      forall i :: 0 <= i < |f| ==> script[i].Data? && f[i] == script[i].bytes && f[i] != []
  {
    var k := EndIndex(script);
    var prefix := script[..k];
    assert forall i :: 0 <= i < k ==> prefix[i] == script[i];
    ChunksOfData(prefix);
  }

  /**
   * `_last_activity` moves to the clock after the latest accepted chunk; a run
   * in which the consumer accepted nothing leaves it unchanged.
   */
  lemma ActivityMeaning(script: seq<ReadResult>, init: real)
    ensures var k := EndIndex(script);
      ActivityAfter(script, init) == if k == 0 then init else script[k - 1].at
  {
  }

  /**
   * The ending event names the ending read: `reader_eof` exactly for an empty
   * read, `reader_error` with the error raised by the read function or by the
   * consumer otherwise; no ending event exactly when no read ended the task.
   */
  lemma EndEventMeaning(script: seq<ReadResult>)
    ensures EndEvent(script) == Some(ReaderEof) <==>
      exists k :: 0 <= k < |script| && script[k].Data? && script[k].bytes == []
        && forall i :: 0 <= i < k ==> !Ends(script[i])
    ensures EndEvent(script).None? <==> forall i :: 0 <= i < |script| ==> !Ends(script[i])
    ensures forall e :: EndEvent(script) == Some(ReaderError(e)) ==>
      var k := EndIndex(script);
      k < |script| && (script[k] == ReadRaised(e) || (script[k].Data? && script[k].bytes != [] && script[k].handlerError == Some(e)))
  {
  }

  /** An empty read ends the task: later data is never read or forwarded. */
  lemma EofStopsForwarding()
    ensures var script := [Data([97], 1.0, None), Data([], 2.0, None), Data([99], 3.0, None)];
      Forwarded(script) == [[97]] && Events(script, false) == [ReaderEof, ReaderStopped]
      && ActivityAfter(script, 0.0) == 1.0
  {
  }

  /**
   * A consumer that raises still received the chunk, ends the task with
   * `reader_error`, and leaves `_last_activity` where it was.
   */
  lemma ConsumerErrorStops()
    ensures var script := [Data([104], 4.0, None), Data([105], 5.0, Some("boom")), Data([106], 6.0, None)];
      Forwarded(script) == [[104], [105]] && Events(script, false) == [ReaderError("boom"), ReaderStopped]
      && ActivityAfter(script, 0.0) == 4.0
  {
  }

  class AsyncReader {
    var stopRequested: bool
    /** The current task, by the number it was created under, and whether it has finished. */
    var task: Option<nat>
    var taskDone: bool
    var tasksCreated: nat
    var lastActivity: real
    /** Every chunk handed to the consumer so far. */
    var forwarded: seq<seq<byte>>
    ghost var log: seq<ReaderEvent>

    constructor (now: real)
      ensures !stopRequested && task.None? && !taskDone && tasksCreated == 0
      ensures lastActivity == now && forwarded == [] && log == []
    {
      stopRequested := false;
      task := None;
      taskDone := false;
      tasksCreated := 0;
      lastActivity := now;
      forwarded := [];
      log := [];
    }

    /** `_run`: one run of the task over `script`. */
    method Run(script: seq<ReadResult>)
      modifies this`forwarded, this`lastActivity, this`log, this`taskDone
      ensures forwarded == old(forwarded) + (if old(stopRequested) then [] else Forwarded(script))
      ensures lastActivity == if old(stopRequested) then old(lastActivity) else ActivityAfter(script, old(lastActivity))
      ensures log == old(log) + Events(script, old(stopRequested))
      ensures taskDone
    {
      var i := 0;
      var ending: Option<ReaderEvent> := None;
      while !stopRequested && i < |script|
        invariant i <= EndIndex(script) && EndIndexFrom(script, i) == EndIndex(script)
        invariant stopRequested ==> i == 0
        invariant forwarded == old(forwarded) + Chunks(script[..i])
        invariant lastActivity == LatestAt(script[..i], old(lastActivity))
        invariant ending.None? && log == old(log)
        decreases |script| - i
      {
        var r := script[i];
        ReadStep(script, old(lastActivity), i);
        match r {
          case ReadRaised(e) =>
            ending := Some(ReaderError(e));
            break;
          case Data(b, at, h) =>
            if b == [] {
              ending := Some(ReaderEof);
              break;
            }
            forwarded := forwarded + [b];
            if h.Some? {
              ending := Some(ReaderError(h.value));
              break;
            }
            lastActivity := at;
        }
        i := i + 1;
      }
      assert ending == if stopRequested then None else EndEvent(script);
      log := log + (match ending case None => [] case Some(ev) => [ev]) + [ReaderStopped];
      taskDone := true;
    }

    /** `start`: creates a task unless one exists that has not finished. */
    method Start()
      modifies this`task, this`taskDone, this`tasksCreated
      ensures old(task.None? || taskDone) ==>
        task == Some(old(tasksCreated)) && !taskDone && tasksCreated == old(tasksCreated) + 1
      ensures !old(task.None? || taskDone) ==>
        task == old(task) && taskDone == old(taskDone) && tasksCreated == old(tasksCreated)
    {
      if task.None? || taskDone {
        task := Some(tasksCreated);
        taskDone := false;
        tasksCreated := tasksCreated + 1;
      }
    }

    /**
     * `stop`: sets the stop flag and forgets the task, which has finished
     * (or was cancelled) by the time the wait returns.
     */
    method Stop()
      modifies this`stopRequested, this`task, this`taskDone
      ensures stopRequested && task.None?
      ensures taskDone == (old(task).Some? || old(taskDone))
    {
      stopRequested := true;
      if task.Some? {
        taskDone := true;
        task := None;
      }
    }
  }
}
