/** The pacing worker (writeWorker) as a function of what it observes: the
    provider's results, the clock read after each write and whether a
    cancellation arrives while it waits. */
module Pacing {
  import opened Media
  import opened Rtp
  import opened SampleWrite

  /** The worker's guard as written: it skips the wait only for a negative
      sleep, so a sleep of exactly zero reaches ticker.Reset. */
  function ReachesResetAsWritten(sleep: int): bool
  {
    !(sleep < 0)
  }

  /** time.Ticker.Reset panics unless its duration is positive. */
  predicate ResetPanics(d: int)
  {
    d <= 0
  }

  /** The guard as written lets a zero duration through to a Reset that
      panics. */
  lemma ZeroSleepResetsTickerAsWritten()
    ensures ReachesResetAsWritten(0) && ResetPanics(0)
  {
  }

  /** The corrected guard: wait only for a positive sleep, so every
      Reset receives a positive duration and a pipeline that is on or behind
      schedule goes straight on to the next sample. */
  function ReachesReset(sleep: int): (r: bool)
    ensures r ==> sleep > 0 && !ResetPanics(sleep)
    ensures !r ==> sleep <= 0 && ReachesResetAsWritten(sleep) == (sleep == 0)
  {
    sleep > 0
  }

  /** Why the worker stopped; StillRunning when the observed results ran
      out before any exit. */
  datatype Exit = StillRunning | EndOfStream | ProviderFailed(err: Error) | WriteFailed(err: Error) | Cancelled

  /** What the worker observes: the provider's results in order, the audio
      level of each iteration when the provider reports levels, the clock
      reading after the i-th write and whether a cancellation is signalled
      during the i-th wait. In a real execution `cancelAt` is monotone: once
      the context is cancelled it stays cancelled. Nothing here relies on
      that, so every lemma below holds for such scripts as well. */
  datatype Script = Script(pulls: seq<Pulled>, levelOf: Option<nat -> uint8>, now: nat -> int, cancelAt: nat -> bool)

  /** The options WriteSample receives in iteration `i`. */
  function OptionsAt(script: Script, i: nat): (o: Option<WriteOptions>)
    ensures o.Some? <==> script.levelOf.Some?
    ensures o.Some? ==> o.value.audioLevel == Some(script.levelOf.value(i))
  {
    if script.levelOf.Some? then Some(WriteOptions(Some(script.levelOf.value(i)))) else None
  }

  /** A run of the worker from iteration `i` on: the final packetization
      context, the packets handed to the transport, the target time, why it
      stopped and how many samples it wrote successfully. */
  datatype Run = Run(assembly: Assembly, sent: seq<Packet>, next: int, exit: Exit, written: nat)

  /** The run seen after a prefix that sent `sent` and wrote `written`
      samples. */
  function Prepend(sent: seq<Packet>, written: nat, r: Run): (r': Run)
    ensures r'.assembly == r.assembly && r'.next == r.next && r'.exit == r.exit
    ensures r'.sent == sent + r.sent && r'.written == written + r.written
  {
    r.(sent := sent + r.sent, written := written + r.written)
  }

  /** Prepending two prefixes is prepending their concatenation. */
  lemma PrependPrepend(sent: seq<Packet>, written: nat, sent': seq<Packet>, written': nat, r: Run)
    ensures Prepend(sent, written, Prepend(sent', written', r)) == Prepend(sent + sent', written + written', r)
  {
    assert sent + (sent' + r.sent) == (sent + sent') + r.sent;
  }

  /** One WriteSample call on a bound context, as the worker sees it. */
  type Writer = (Assembly, Sample, Option<WriteOptions>) -> WriteResult

  /** The writer of a binding: WriteSample with its clock rate, audio-level
      id and collaborators fixed. */
  function WriterOf(clockRate: uint32, audioLevelID: uint8, env: Env): Writer
  {
    (a, sample, opts) => WriteSpec(a, clockRate, audioLevelID, sample, opts, env)
  }

  /** The worker from iteration `i` on, with the target time `next`: it
      stops once the observed results run out, and otherwise runs one
      iteration. */
  function Pace(a: Assembly, write: Writer, script: Script,
                cancelled: bool, i: nat, next: int): (r: Run)
    ensures r.next >= next
    ensures i <= |script.pulls| ==> i + r.written <= |script.pulls|
    decreases |script.pulls| - i, 2
  {
    if i >= |script.pulls| then Run(a, [], next, StillRunning, 0)
    else Iteration(a, write, script, cancelled, i, next)
  }

  /** Iteration `i` and the rest of the run: EOF or another provider error
      stops before the write; a sample goes on to WriteStep. */
  function Iteration(a: Assembly, write: Writer, script: Script,
                     cancelled: bool, i: nat, next: int): (r: Run)
    requires i < |script.pulls|
    ensures r.next >= next && i + r.written <= |script.pulls|
    decreases |script.pulls| - i, 1
  {
    var p := script.pulls[i];
    if p.err == Some(EOF) then Run(a, [], next, EndOfStream, 0)
    else if p.err.Some? then Run(a, [], next, ProviderFailed(p.err.value), 0)
    else WriteStep(a, write, script, cancelled, i, next)
  }

  /** The write of iteration `i` and the rest of the run: a write error
      stops; otherwise the target time moves on by the sample's duration,
      and the worker waits only for a positive sleep, stopping if a
      cancellation arrives then. */
  function WriteStep(a: Assembly, write: Writer, script: Script,
                     cancelled: bool, i: nat, next: int): (r: Run)
    requires i < |script.pulls| && script.pulls[i].err.None?
    ensures r.next >= next && i + r.written <= |script.pulls|
    decreases |script.pulls| - i, 0
  {
    var p := script.pulls[i];
    var w := write(a, p.sample, OptionsAt(script, i));
    if w.err.Some? then Run(w.assembly, w.sent, next, WriteFailed(w.err.value), 0)
    else
      var next' := next + p.sample.duration;
      if ReachesReset(next' - script.now(i)) && (cancelled || script.cancelAt(i)) then
        Run(w.assembly, w.sent, next', Cancelled, 1)
      else
        Prepend(w.sent, 1, Pace(w.assembly, write, script, cancelled, i + 1, next'))
  }

  /** The sum of the durations of the samples pulled in iterations
      `i` up to (not including) `j`. */
  function Durations(pulls: seq<Pulled>, i: nat, j: nat): nat
    requires j <= |pulls|
    decreases j - i
  {
    if i >= j then 0 else pulls[i].sample.duration + Durations(pulls, i + 1, j)
  }

  /** A run writes a prefix of error-free samples, and its target time is
      the start plus their durations: it never resynchronises to the
      clock, however far behind the readings show it to be. */
  lemma {:induction false} PaceTargetTime(a: Assembly, write: Writer, script: Script,
                                          cancelled: bool, i: nat, next: int)
    requires i <= |script.pulls|
    ensures var r := Pace(a, write, script, cancelled, i, next);
      && i + r.written <= |script.pulls|
      && (forall j :: i <= j < i + r.written ==> script.pulls[j].err.None?)
      && r.next == next + Durations(script.pulls, i, i + r.written)
    decreases |script.pulls| - i
  {
    var r := Pace(a, write, script, cancelled, i, next);
    if i < |script.pulls| {
      assert r == Iteration(a, write, script, cancelled, i, next);
      var p := script.pulls[i];
      if p.err.None? {
        assert r == WriteStep(a, write, script, cancelled, i, next);
        var w := write(a, p.sample, OptionsAt(script, i));
        var next' := next + p.sample.duration;
        if w.err.Some? {
          assert r == Run(w.assembly, w.sent, next, WriteFailed(w.err.value), 0);
        } else if ReachesReset(next' - script.now(i)) && (cancelled || script.cancelAt(i)) {
          assert r == Run(w.assembly, w.sent, next', Cancelled, 1);
        } else {
          var rest := Pace(w.assembly, write, script, cancelled, i + 1, next');
          assert r == Prepend(w.sent, 1, rest);
          PaceTargetTime(w.assembly, write, script, cancelled, i + 1, next');
        }
      }
    }
  }

  /** Why a run stops: at the end of the observed results, on the first
      EOF, on the first other provider error, on a failed write, or, after
      a write, on a cancellation seen while waiting. */
  lemma {:induction false} PaceExit(a: Assembly, write: Writer, script: Script,
                                    cancelled: bool, i: nat, next: int)
    requires i <= |script.pulls|
    ensures var r := Pace(a, write, script, cancelled, i, next);
      var k := i + r.written;
      && k <= |script.pulls|
      && (r.exit == StillRunning ==> k == |script.pulls|)
      && (r.exit == EndOfStream ==> k < |script.pulls| && script.pulls[k].err == Some(EOF))
      && (r.exit.ProviderFailed? ==> k < |script.pulls| && script.pulls[k].err == Some(r.exit.err) && r.exit.err != EOF)
      && (r.exit.WriteFailed? ==> k < |script.pulls| && script.pulls[k].err.None?)
      && (r.exit == Cancelled ==> && r.written > 0 && (cancelled || script.cancelAt(k - 1))
                                   && ReachesReset(r.next - script.now(k - 1)))
    decreases |script.pulls| - i
  {
    var r := Pace(a, write, script, cancelled, i, next);
    if i < |script.pulls| {
      assert r == Iteration(a, write, script, cancelled, i, next);
      var p := script.pulls[i];
      if p.err.None? {
        assert r == WriteStep(a, write, script, cancelled, i, next);
        var w := write(a, p.sample, OptionsAt(script, i));
        var next' := next + p.sample.duration;
        if w.err.Some? {
          assert r == Run(w.assembly, w.sent, next, WriteFailed(w.err.value), 0);
        } else if ReachesReset(next' - script.now(i)) && (cancelled || script.cancelAt(i)) {
          assert r == Run(w.assembly, w.sent, next', Cancelled, 1);
        } else {
          var rest := Pace(w.assembly, write, script, cancelled, i + 1, next');
          assert r == Prepend(w.sent, 1, rest);
          PaceExit(w.assembly, write, script, cancelled, i + 1, next');
        }
      }
    }
  }

  /** The worker looks at cancellation only while waiting, and it does not
      wait while behind schedule: if every clock reading is at or past the
      target of its own iteration, a cancelled worker keeps pulling and
      writing samples and never stops for the cancellation. */
  lemma {:induction false} BehindScheduleIgnoresCancel(a: Assembly, write: Writer,
                                                      script: Script, cancelled: bool, i: nat, next: int)
    requires i <= |script.pulls|
    requires forall j :: i <= j < |script.pulls| ==> script.now(j) >= next + Durations(script.pulls, i, j + 1)
    ensures Pace(a, write, script, cancelled, i, next).exit != Cancelled
    decreases |script.pulls| - i
  {
    if i < |script.pulls| {
      assert Pace(a, write, script, cancelled, i, next) == Iteration(a, write, script, cancelled, i, next);
      var p := script.pulls[i];
      if p.err.None? {
        assert Iteration(a, write, script, cancelled, i, next) == WriteStep(a, write, script, cancelled, i, next);
        var w := write(a, p.sample, OptionsAt(script, i));
        var next' := next + p.sample.duration;
        assert Durations(script.pulls, i, i + 1) == p.sample.duration + Durations(script.pulls, i + 1, i + 1);
        assert next' <= script.now(i);
        if w.err.None? {
          forall j | i + 1 <= j < |script.pulls|
            ensures script.now(j) >= next' + Durations(script.pulls, i + 1, j + 1)
          {
            assert Durations(script.pulls, i, j + 1) == p.sample.duration + Durations(script.pulls, i + 1, j + 1);
          }
          BehindScheduleIgnoresCancel(w.assembly, write, script, cancelled, i + 1, next');
        }
      }
    }
  }

  /** Whether the deferred completion callback runs: when one was given,
      on every way out of the loop. */
  function CompletionFires(hasCallback: bool, exit: Exit): bool
  {
    hasCallback && exit != StillRunning
  }

  /** The completion callback of a run fires exactly when the worker left
      the loop before the observed results ran out, or was cancelled after
      its last write. */
  lemma CompletionOnEveryExit(a: Assembly, write: Writer, script: Script,
                              cancelled: bool, i: nat, next: int)
    requires i <= |script.pulls|
    ensures var r := Pace(a, write, script, cancelled, i, next);
      CompletionFires(true, r.exit) <==> r.exit == Cancelled || i + r.written < |script.pulls|
  {
    PaceExit(a, write, script, cancelled, i, next);
  }
}
