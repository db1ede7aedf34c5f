/**
 * Facts about a log of foreign calls: how often a call occurs in it, and
 * how deep the drawing bracket (`BeginDrawing` ... `EndDrawing`) is at its end.
 * Both are defined from the end of the log, so appending one call is one
 * unfolding step.
 */
module CallLog {
  import opened Wrappers
  import opened Ffi

  /** The number of entries of `log` equal to `c`. */
  function Occurrences(log: seq<Call>, c: Call): nat
  {
    if log == [] then 0
    else Occurrences(log[..|log| - 1], c) + (if log[|log| - 1] == c then 1 else 0)
  }

  /**
   * The nesting depth of the drawing bracket after `log`: `Some(0)` when
   * balanced, `Some(1)` inside a frame, and `None` once the log has nested a
   * `BeginDrawing` or ended a frame that was not open.
   */
  function FrameDepth(log: seq<Call>): Option<nat>
  {
    if log == [] then Some(0)
    else
      match FrameDepth(log[..|log| - 1])
      case None => None
      case Some(d) =>
        var c := log[|log| - 1];
        if c == BeginDrawing then (if d == 0 then Some(1) else None)
        else if c == EndDrawing then (if d == 1 then Some(0) else None)
        else Some(d)
  }

  /** Appending one call adds one occurrence exactly when it is the call counted. */
  lemma OccurrencesSnoc(log: seq<Call>, x: Call, c: Call)
    ensures Occurrences(log + [x], c) == Occurrences(log, c) + (if x == c then 1 else 0)
  {
    assert (log + [x])[..|log|] == log;
  }

  /** A one-call log holds `c` once if it is that call, else never. */
  lemma OccurrencesSingleton(x: Call, c: Call)
    ensures Occurrences([x], c) == (if x == c then 1 else 0)
  {
    assert [x][..0] == [];
  }

  /** Occurrences of a concatenation add up. */
  lemma {:induction false} OccurrencesAppend(a: seq<Call>, b: seq<Call>, c: Call)
    ensures Occurrences(a + b, c) == Occurrences(a, c) + Occurrences(b, c)
  {
    if b != [] {
      var b' := b[..|b| - 1];
      assert a + b == (a + b') + [b[|b| - 1]];
      assert b == b' + [b[|b| - 1]];
      OccurrencesSnoc(a + b', b[|b| - 1], c);
      OccurrencesSnoc(b', b[|b| - 1], c);
      OccurrencesAppend(a, b', c);
    } else {
      assert a + b == a;
    }
  }

  /** A call occurs no time exactly when it is not in the log. */
  lemma {:induction false} OccurrencesZero(log: seq<Call>, c: Call)
    ensures Occurrences(log, c) == 0 <==> c !in log
  {
    if log != [] {
      var pre := log[..|log| - 1];
      OccurrencesZero(pre, c);
      assert log == pre + [log[|log| - 1]];
    }
  }

  /** Appending a call that is neither bracket leaves the depth alone. */
  lemma FrameDepthSnocOther(log: seq<Call>, x: Call)
    requires x != BeginDrawing && x != EndDrawing
    ensures FrameDepth(log + [x]) == FrameDepth(log)
  {
    assert (log + [x])[..|log|] == log;
  }

  /** `BeginDrawing` opens a frame on a balanced log. */
  lemma FrameDepthSnocBegin(log: seq<Call>)
    requires FrameDepth(log) == Some(0)
    ensures FrameDepth(log + [BeginDrawing]) == Some(1)
  {
    assert (log + [BeginDrawing])[..|log|] == log;
  }

  /** `EndDrawing` closes an open frame. */
  lemma FrameDepthSnocEnd(log: seq<Call>)
    requires FrameDepth(log) == Some(1)
    ensures FrameDepth(log + [EndDrawing]) == Some(0)
  {
    assert (log + [EndDrawing])[..|log|] == log;
  }

  /** A log whose depth is defined never went deeper than one frame, and neither did any prefix of it. */
  lemma {:induction false} FrameDepthPrefix(log: seq<Call>, n: nat)
    requires n <= |log| && FrameDepth(log).Some?
    ensures FrameDepth(log[..n]).Some? && FrameDepth(log[..n]).value <= 1
  {
    if n < |log| {
      var pre := log[..|log| - 1];
      assert FrameDepth(pre).Some?;
      assert log[..n] == pre[..n];
      FrameDepthPrefix(pre, n);
    } else {
      assert log[..n] == log;
      FrameDepthBound(log);
    }
  }

  /**
   * A defined depth is 0 or 1. `FrameDepth` never produces a larger value
   * (it gives `None` for a nested `BeginDrawing`); this lemma only makes that
   * fact available at once, for the prefix argument above.
   */
  lemma {:induction false} FrameDepthBound(log: seq<Call>)
    requires FrameDepth(log).Some?
    ensures FrameDepth(log).value <= 1
  {
    if log != [] {
      FrameDepthBound(log[..|log| - 1]);
    }
  }

  /**
   * Appending a call other than the two brackets, a successful readiness
   * query and `CloseWindow` leaves the counters of `Valid` alone.
   */
  lemma AppendNeutral(log: seq<Call>, x: Call)
    requires x != BeginDrawing && x != EndDrawing && x != CloseWindow && x != IsWindowReady(true)
    ensures Occurrences(log + [x], IsWindowReady(true)) == Occurrences(log, IsWindowReady(true))
    ensures Occurrences(log + [x], CloseWindow) == Occurrences(log, CloseWindow)
    ensures FrameDepth(log + [x]) == FrameDepth(log)
  {
    OccurrencesSnoc(log, x, IsWindowReady(true));
    OccurrencesSnoc(log, x, CloseWindow);
    FrameDepthSnocOther(log, x);
  }

  /** The log one drawing bracket adds around the calls made inside it. */
  function Bracketed(calls: seq<Call>): (framed: seq<Call>)
    ensures |framed| == |calls| + 2
    ensures framed[0] == BeginDrawing && framed[|framed| - 1] == EndDrawing
  {
    [BeginDrawing] + calls + [EndDrawing]
  }

  /** Opening a bracket, making calls and closing it appends one bracket. */
  lemma BracketedAppend(log: seq<Call>, calls: seq<Call>)
    ensures log + [BeginDrawing] + calls + [EndDrawing] == log + Bracketed(calls)
  {
  }

  /** Calls that are neither bracket leave the nesting depth alone. */
  lemma {:induction false} DepthIgnores(log: seq<Call>, calls: seq<Call>)
    requires BeginDrawing !in calls && EndDrawing !in calls
    ensures FrameDepth(log + calls) == FrameDepth(log)
    decreases |calls|
  {
    if calls == [] {
      assert log + calls == log;
    } else {
      var pre := calls[..|calls| - 1];
      assert calls == pre + [calls[|calls| - 1]];
      DepthIgnores(log, pre);
      assert log + calls == (log + pre) + [calls[|calls| - 1]];
      FrameDepthSnocOther(log + pre, calls[|calls| - 1]);
    }
  }

  /** A bracket around calls without brackets holds one `BeginDrawing` and one `EndDrawing`. */
  lemma BracketedOnce(calls: seq<Call>)
    requires BeginDrawing !in calls && EndDrawing !in calls
    ensures Occurrences(Bracketed(calls), BeginDrawing) == 1
    ensures Occurrences(Bracketed(calls), EndDrawing) == 1
  {
    OccurrencesZero(calls, BeginDrawing);
    OccurrencesZero(calls, EndDrawing);
    OccurrencesAppend([BeginDrawing] + calls, [EndDrawing], BeginDrawing);
    OccurrencesAppend([BeginDrawing], calls, BeginDrawing);
    OccurrencesAppend([BeginDrawing] + calls, [EndDrawing], EndDrawing);
    OccurrencesAppend([BeginDrawing], calls, EndDrawing);
    OccurrencesSingleton(BeginDrawing, BeginDrawing);
    OccurrencesSingleton(BeginDrawing, EndDrawing);
    OccurrencesSingleton(EndDrawing, BeginDrawing);
    OccurrencesSingleton(EndDrawing, EndDrawing);
  }

  /** Such a bracket appended to a balanced log leaves it balanced. */
  lemma BracketedBalanced(log: seq<Call>, calls: seq<Call>)
    requires FrameDepth(log) == Some(0)
    requires BeginDrawing !in calls && EndDrawing !in calls
    ensures FrameDepth(log + Bracketed(calls)) == Some(0)
  {
    FrameDepthSnocBegin(log);
    DepthIgnores(log + [BeginDrawing], calls);
    FrameDepthSnocEnd(log + [BeginDrawing] + calls);
    assert log + Bracketed(calls) == log + [BeginDrawing] + calls + [EndDrawing];
  }

  /** A balanced log never went deeper than one frame, at any prefix. */
  lemma FramesNeverNest(log: seq<Call>)
    requires FrameDepth(log) == Some(0)
    ensures forall n :: 0 <= n <= |log| ==> FrameDepth(log[..n]).Some? && FrameDepth(log[..n]).value <= 1
  {
    forall n | 0 <= n <= |log|
      ensures FrameDepth(log[..n]).Some? && FrameDepth(log[..n]).value <= 1
    {
      FrameDepthPrefix(log, n);
    }
  }
}
