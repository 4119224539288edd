/**
 * The read loop of `execute_terminal_command`: it collects the command's
 * output line by line and stops at end of stream, or on a poll timeout when
 * the command has been silent for too long (60 s before any output, 30 s
 * between outputs).
 *
 * The subprocess and the clock are inputs: the loop sees a sequence of polls,
 * each a line (with the clock reading taken right after it was stored), a
 * 5-second `readline` timeout (with the clock reading then) or end of stream.
 * The loop is specified by the index of the first poll that ends it.
 */
module Terminal {
  import opened Common

  datatype Poll = Line(text: string, at: real) | PollTimeout(now: real) | Eof

  /** How the loop ended; `StillPolling` when the polls ran out first. */
  datatype Ending = EndOfStream | FirstOutputTimeout | BetweenOutputTimeout | StillPolling

  const FirstTimeout: real := 60.0
  const BetweenTimeout: real := 30.0

  /** The lines received in `ps`, in order (`output_chunks`). */
  function Lines(ps: seq<Poll>): seq<string>
  {
    if ps == [] then []
    else Lines(ps[..|ps| - 1]) + (if ps[|ps| - 1].Line? then [ps[|ps| - 1].text] else [])
  }

  /** `last_ts` after `ps`: the clock at the latest line, or `start` when none arrived yet. */
  function LastLineAt(ps: seq<Poll>, start: real): real
  {
    if ps == [] then start
    else if ps[|ps| - 1].Line? then ps[|ps| - 1].at
    else LastLineAt(ps[..|ps| - 1], start)
  }

  /** `''.join(chunks)` */
  function Concat(chunks: seq<string>): string
  {
    if chunks == [] then "" else Concat(chunks[..|chunks| - 1]) + chunks[|chunks| - 1]
  }

  /**
   * The loop's rule for poll `p` after the polls `before`: end of stream ends
   * it; a line never does; a poll timeout ends it when there is no output yet
   * and more than 60 s passed since the start, or when there is output and
   * more than 30 s passed since the latest line. `None` keeps polling.
   */
  function Decide(p: Poll, before: seq<Poll>, start: real): Option<Ending>
  {
    match p
    case Eof => Some(EndOfStream)
    case Line(_, _) => None
    case PollTimeout(now) =>
      if Lines(before) == [] && now - start > FirstTimeout then Some(FirstOutputTimeout)
      else if Lines(before) != [] && now - LastLineAt(before, start) > BetweenTimeout then Some(BetweenOutputTimeout)
      else None
  }

  /**
   * How many polls the loop consumes when it reaches poll `j`: every poll up
   * to and including the first one from `j` on that ends it, or all of them.
   */
  function ConsumedFrom(polls: seq<Poll>, start: real, j: nat): (k: nat)
    requires j <= |polls|
    ensures j <= k <= |polls|
    ensures forall i :: j <= i < k - 1 ==> Decide(polls[i], polls[..i], start).None?
    ensures k < |polls| ==> j < k && Decide(polls[k - 1], polls[..k - 1], start).Some?
    decreases |polls| - j
  {
    if j == |polls| then j
    else if Decide(polls[j], polls[..j], start).Some? then j + 1
    else ConsumedFrom(polls, start, j + 1)
  }

  /** The number of polls the whole loop consumes. */
  function Consumed(polls: seq<Poll>, start: real): nat
  {
    ConsumedFrom(polls, start, 0)
  }

  /** How the loop over `polls` ends. */
  function EndingOf(polls: seq<Poll>, start: real): Ending
  {
    var k := Consumed(polls, start);
    if k > 0 && Decide(polls[k - 1], polls[..k - 1], start).Some? then Decide(polls[k - 1], polls[..k - 1], start).value
    else StillPolling
  }

  /**
   * The loop of `execute_terminal_command`: returns the joined output, how the
   * loop ended and how many polls it consumed.
   */
  method ReadLoop(polls: seq<Poll>, start: real) returns (out: string, ending: Ending, k: nat)
    ensures k == Consumed(polls, start)
    ensures ending == EndingOf(polls, start)
    ensures out == Concat(Lines(polls[..k]))
  {
    var chunks: seq<string> := [];
    var lastTs := start;
    k := 0;
    ending := StillPolling;
    while k < |polls|
      invariant k <= |polls| && ending == StillPolling
      invariant chunks == Lines(polls[..k]) && lastTs == LastLineAt(polls[..k], start)
      invariant ConsumedFrom(polls, start, k) == Consumed(polls, start)
      invariant k > 0 ==> Decide(polls[k - 1], polls[..k - 1], start).None?
      decreases |polls| - k
    {
      var p := polls[k];
      PollStep(polls, start, k);
      PrefixStep(polls, start, k);
      if !p.Line? {
        assert Lines(polls[..k + 1]) == chunks;
      }
      k := k + 1;
      match p {
        case PollTimeout(now) =>
          if chunks == [] && now - start > FirstTimeout {
            ending := FirstOutputTimeout;
            break;
          }
          if chunks != [] && now - lastTs > BetweenTimeout {
            ending := BetweenOutputTimeout;
            break;
          }
        case Eof =>
          ending := EndOfStream;
          break;
        case Line(text, at) =>
          chunks := chunks + [text];
          lastTs := at;
      }
    }
    out := Concat(chunks);
  }

  /** What one more poll does to the lines received and to `last_ts`. */
  lemma PrefixStep(polls: seq<Poll>, start: real, k: nat)
    requires k < |polls|
    ensures Lines(polls[..k + 1]) == Lines(polls[..k]) + (if polls[k].Line? then [polls[k].text] else [])
    ensures LastLineAt(polls[..k + 1], start) == if polls[k].Line? then polls[k].at else LastLineAt(polls[..k], start)
  {
    assert polls[..k + 1][..k] == polls[..k];
  }

  /** What one more poll does to what remains to be consumed. */
  lemma PollStep(polls: seq<Poll>, start: real, k: nat)
    requires k < |polls|
    ensures ConsumedFrom(polls, start, k) ==
      if Decide(polls[k], polls[..k], start).Some? then k + 1 else ConsumedFrom(polls, start, k + 1)
  {
  }

  /** Receiving lines in two stretches gives the lines of each, in order. */
  lemma {:induction false} LinesAppend(a: seq<Poll>, b: seq<Poll>)
    ensures Lines(a + b) == Lines(a) + Lines(b)
    decreases |b|
  {
    if b == [] {
      assert a + b == a;
    } else {
      var b' := b[..|b| - 1];
      assert (a + b)[..|a + b| - 1] == a + b';
      LinesAppend(a, b');
    }
  }

  /** Joining two runs of chunks joins their texts. */
  lemma {:induction false} ConcatAppend(a: seq<string>, b: seq<string>)
    ensures Concat(a + b) == Concat(a) + Concat(b)
    decreases |b|
  {
    if b == [] {
      assert a + b == a;
    } else {
      var b' := b[..|b| - 1];
      assert (a + b)[..|a + b| - 1] == a + b';
      ConcatAppend(a, b');
      assert Concat(a + b) == Concat(a + b') + b[|b| - 1];
    }
  }

  /**
   * The output is the in-order concatenation of every line received: the
   * output after more polls extends the output after fewer, by exactly the
   * lines of the polls in between.
   */
  lemma OutputGrowsByLines(polls: seq<Poll>, i: nat, j: nat)
    requires i <= j <= |polls|
    ensures Concat(Lines(polls[..j])) == Concat(Lines(polls[..i])) + Concat(Lines(polls[i..j]))
  {
    assert polls[..j] == polls[..i] + polls[i..j];
    LinesAppend(polls[..i], polls[i..j]);
    ConcatAppend(Lines(polls[..i]), Lines(polls[i..j]));
  }

  /**
   * `last_ts` changes only when a line arrives: it is the clock at the
   * latest line received, or the start when there was none.
   */
  lemma {:induction false} LastLineAtIsLatestLine(ps: seq<Poll>, start: real, j: nat)
    requires j < |ps| && ps[j].Line?
    requires forall i :: j < i < |ps| ==> !ps[i].Line?
    ensures LastLineAt(ps, start) == ps[j].at
    decreases |ps|
  {
    if j < |ps| - 1 {
      var init := ps[..|ps| - 1];
      assert forall i :: j < i < |init| ==> init[i] == ps[i];
      LastLineAtIsLatestLine(init, start, j);
    }
  }

  /** With no line received yet, `last_ts` is still the start. */
  lemma {:induction false} LastLineAtWithoutLines(ps: seq<Poll>, start: real)
    requires forall i :: 0 <= i < |ps| ==> !ps[i].Line?
    ensures LastLineAt(ps, start) == start
    decreases |ps|
  {
    if ps != [] {
      var init := ps[..|ps| - 1];
      assert forall i :: 0 <= i < |init| ==> init[i] == ps[i];
      LastLineAtWithoutLines(init, start);
    }
  }

  /** There is output exactly when some consumed poll was a line. */
  lemma {:induction false} LinesEmptyIffNoLine(ps: seq<Poll>)
    ensures Lines(ps) == [] <==> forall i :: 0 <= i < |ps| ==> !ps[i].Line?
    decreases |ps|
  {
    if ps != [] {
      var init := ps[..|ps| - 1];
      LinesEmptyIffNoLine(init);
      assert forall i :: 0 <= i < |init| ==> init[i] == ps[i];
    }
  }

  /** The loop never reads past the first end of stream. */
  lemma EndsByFirstEof(polls: seq<Poll>, start: real, e: nat)
    requires e < |polls| && polls[e] == Eof
    ensures Consumed(polls, start) <= e + 1
  {
  }

  /**
   * How the loop ended determines the last poll consumed: end of stream; a
   * poll timeout more than 60 s after the start with no line received; or a
   * poll timeout more than 30 s after the latest of the lines received.
   * Every earlier poll kept the loop going.
   */
  lemma EndingMeaning(polls: seq<Poll>, start: real)
    ensures var k := Consumed(polls, start);
      forall i :: 0 <= i < k - 1 ==> Decide(polls[i], polls[..i], start).None?
    ensures var k, e := Consumed(polls, start), EndingOf(polls, start);
      e == EndOfStream ==> 0 < k && polls[k - 1] == Eof
    ensures var k, e := Consumed(polls, start), EndingOf(polls, start);
      e == FirstOutputTimeout ==>
        0 < k && polls[k - 1].PollTimeout? && polls[k - 1].now - start > FirstTimeout
        && forall i :: 0 <= i < k - 1 ==> !polls[i].Line?
    ensures var k, e := Consumed(polls, start), EndingOf(polls, start);
      e == BetweenOutputTimeout ==>
        0 < k && polls[k - 1].PollTimeout? && polls[k - 1].now - LastLineAt(polls[..k - 1], start) > BetweenTimeout
        && exists i :: 0 <= i < k - 1 && polls[i].Line?
    ensures var k, e := Consumed(polls, start), EndingOf(polls, start);
      e == StillPolling <==> k == |polls| && (k == 0 || Decide(polls[k - 1], polls[..k - 1], start).None?)
  {
    var k := Consumed(polls, start);
    if 0 < k {
      var before := polls[..k - 1];
      LinesEmptyIffNoLine(before);
      assert forall i :: 0 <= i < k - 1 ==> before[i] == polls[i];
    }
  }

  /** A command that prints nothing is given up on at the first poll timeout past 60 s. */
  lemma SilentCommandTimesOut()
    ensures var polls := [PollTimeout(30.0), PollTimeout(60.0), PollTimeout(60.5), Eof];
      Consumed(polls, 0.0) == 3 && EndingOf(polls, 0.0) == FirstOutputTimeout
      && Concat(Lines(polls[..3])) == ""
  {
    var polls := [PollTimeout(30.0), PollTimeout(60.0), PollTimeout(60.5), Eof];
    assert polls[..0] == [] && polls[..1] == [polls[0]] && polls[..2] == [polls[0], polls[1]];
    assert Lines(polls[..1]) == [] && Lines(polls[..2]) == [];
    assert polls[..3] == polls[..2] + [polls[2]];
    assert Lines(polls[..3]) == [];
  }

  /**
   * Once output exists only the 30 s rule applies, measured from the latest
   * line: the loop stops at the first poll timeout more than 30 s after it.
   */
  lemma QuietAfterOutputTimesOut()
    ensures var polls := [Line("a\n", 10.0), PollTimeout(70.0)];
      Consumed(polls, 0.0) == 2 && EndingOf(polls, 0.0) == BetweenOutputTimeout
      && Concat(Lines(polls[..2])) == "a\n"
  {
  }

  /** The polls of the example below: a late first line, a pause, a second line, end of stream. */
  function LateFirstLine(): seq<Poll>
  {
    [PollTimeout(55.0), Line("a\n", 58.0), PollTimeout(75.0), Line("b\n", 80.0), Eof]
  }

  /** The output of the example below: both lines, in order. */
  lemma LateFirstLineOutput()
    ensures Concat(Lines(LateFirstLine())) == "a\nb\n"
  {
    var q := LateFirstLine();
    assert q[..5] == q;
    PrefixStep(q, 0.0, 0);
    PrefixStep(q, 0.0, 1);
    PrefixStep(q, 0.0, 2);
    PrefixStep(q, 0.0, 3);
    PrefixStep(q, 0.0, 4);
    assert q[..0] == [];
    assert Concat(["a\n", "b\n"]) == Concat(["a\n"]) + "b\n";
    assert Concat(["a\n"]) == Concat([]) + "a\n";
  }

  /**
   * A silence of more than 60 s before the first line is no reason to stop
   * once that line has arrived, and a short pause between lines is none either.
   */
  lemma LateFirstLineKeepsReading()
    ensures Consumed(LateFirstLine(), 0.0) == 5 && EndingOf(LateFirstLine(), 0.0) == EndOfStream
  {
  }
}
