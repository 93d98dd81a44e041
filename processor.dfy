/** The batch processor: the single consumer of the channel. Each pass of its
    loop waits up to one second for a point, appends it, and hands the batch to
    the writer when it holds 500 points or when the wait's linked token has been
    cancelled with a non-empty batch. The clock and the channel's timing are
    outside the model: each pass is described by a `Round`, the environment's
    answer to that pass. */
module Processor {
  import opened Telemetry
  import opened BatchWriter

  const MaxBatchSize := 500

  /** What one pass of the loop observes.
      - `Read(p, timerFired, stop, sqlFails)`: the read returned `p`; `timerFired`
        says whether the one-second timer had fired by the flush test anyway.
      - `Timeout(stop, sqlFails)`: the timer cancelled the read while no
        shutdown was requested.
      - `Shutdown`: the stopping token cancelled the read; the exception passes
        the catch filter and ends the loop.
      `stop` says whether shutdown is requested from the flush test onwards (the
      writer then sees a cancelled token and the loop head exits); `sqlFails`
      is the store's answer should the writer reach it. */
  datatype Round =
    | Read(p: Point, timerFired: bool, stop: bool, sqlFails: bool)
    | Timeout(stop: bool, sqlFails: bool)
    | Shutdown

  /** The loop does not start another pass after this one. */
  predicate Halts(r: Round)
  {
    r.Shutdown? || r.stop
  }

  /** The linked token source is cancelled at the flush test: by its own timer
      or by the stopping token it is linked to. */
  predicate LinkedCancelled(r: Round)
    requires !r.Shutdown?
  {
    r.Timeout? || r.timerFired || r.stop
  }

  /** The two flush triggers. */
  predicate FlushDue(batch: seq<Point>, linkedCancelled: bool)
    ensures FlushDue(batch, linkedCancelled) ==> batch != []
    ensures |batch| >= MaxBatchSize ==> FlushDue(batch, linkedCancelled)
    ensures batch != [] && linkedCancelled ==> FlushDue(batch, linkedCancelled)
    ensures !linkedCancelled && |batch| < MaxBatchSize ==> !FlushDue(batch, linkedCancelled)
  {
    |batch| >= MaxBatchSize || (|batch| > 0 && linkedCancelled)
  }

  /** A call of the writer: the batch passed and what the call did. */
  datatype Attempt = Attempt(batch: seq<Point>, outcome: WriteOutcome)

  /** The loop's state at a loop head. */
  datatype Loop = Loop(batch: seq<Point>, attempts: seq<Attempt>, running: bool)

  const Start := Loop([], [], true)

  /** The batch after the pass's read. */
  function Appended(s: Loop, r: Round): seq<Point>
  {
    if r.Read? then s.batch + [r.p] else s.batch
  }

  /** One pass of the loop. A writer that throws is caught; the batch is
      cleared after every call, whatever the call did. */
  function Step(s: Loop, r: Round): (t: Loop)
    ensures !s.running ==> t == s
    ensures t.running <==> s.running && !Halts(r)
    ensures |s.attempts| <= |t.attempts| <= |s.attempts| + 1 && t.attempts[..|s.attempts|] == s.attempts
    ensures |t.attempts| > |s.attempts| ==> t.batch == []
  {
    if !s.running then s
    else if r.Shutdown? then s.(running := false)
    else
      var b := Appended(s, r);
      if FlushDue(b, LinkedCancelled(r)) then
        Loop([], s.attempts + [Attempt(b, WriteResult(b, r.stop, r.sqlFails))], !r.stop)
      else
        Loop(b, s.attempts, !r.stop)
  }

  function Run(s: Loop, rounds: seq<Round>): Loop
  {
    if rounds == [] then s else Step(Run(s, rounds[..|rounds| - 1]), rounds[|rounds| - 1])
  }

  /** Every point handed to the writer, in call order. */
  function Sent(attempts: seq<Attempt>): seq<Point>
  {
    if attempts == [] then [] else Sent(attempts[..|attempts| - 1]) + attempts[|attempts| - 1].batch
  }

  predicate Halted(rounds: seq<Round>)
  {
    exists i :: 0 <= i < |rounds| && Halts(rounds[i])
  }

  /** The points the loop reads from the channel: those of the passes up to
      and including the first pass that ends the loop. */
  function Reads(rounds: seq<Round>): seq<Point>
  {
    if rounds == [] then []
    else
      var init, last := rounds[..|rounds| - 1], rounds[|rounds| - 1];
      if !Halted(init) && last.Read? then Reads(init) + [last.p] else Reads(init)
  }

  /** The invariant of every loop head: the batch is below the size trigger,
      and every writer call got a non-empty batch of at most 500 points. */
  predicate Bounded(s: Loop)
  {
    && |s.batch| < MaxBatchSize
    && forall k :: 0 <= k < |s.attempts| ==> 0 < |s.attempts[k].batch| <= MaxBatchSize
  }

  /** The writer is called exactly when, after the pass's read, the batch holds
      500 points or is non-empty with the linked token cancelled. */
  lemma WriterCalledIff(s: Loop, r: Round)
    requires s.running && !r.Shutdown?
    ensures |Step(s, r).attempts|
         == |s.attempts| + (if FlushDue(Appended(s, r), LinkedCancelled(r)) then 1 else 0)
    ensures FlushDue(Appended(s, r), LinkedCancelled(r)) ==>
              Step(s, r).attempts[|s.attempts|].batch == Appended(s, r)
  {
  }

  /** A timeout with an empty batch never calls the writer. */
  lemma EmptyTimeoutWritesNothing(s: Loop, stop: bool, sqlFails: bool)
    requires s.batch == []
    ensures Step(s, Timeout(stop, sqlFails)).attempts == s.attempts
    ensures Step(s, Timeout(stop, sqlFails)).batch == []
  {
  }

  /** After every writer call the batch is empty, whether or not the call
      threw, and a call that threw does not end the loop: only shutdown does. */
  lemma WriterFailureSwallowed(s: Loop, r: Round)
    requires s.running && !r.Shutdown?
    requires |Step(s, r).attempts| > |s.attempts|
    ensures Step(s, r).batch == []
    ensures Step(s, r).running <==> !r.stop
  {
  }

  /** `Step` keeps the loop-head invariant. */
  lemma StepBounded(s: Loop, r: Round)
    requires Bounded(s)
    ensures Bounded(Step(s, r))
  {
  }

  /** At every loop head the batch is below 500 points, and no writer call
      ever gets an empty batch or more than 500 points. */
  lemma {:induction false} RunBounded(rounds: seq<Round>)
    ensures Bounded(Run(Start, rounds))
  {
    if rounds != [] {
      RunBounded(rounds[..|rounds| - 1]);
      StepBounded(Run(Start, rounds[..|rounds| - 1]), rounds[|rounds| - 1]);
    }
  }

  lemma HaltedExtend(rounds: seq<Round>)
    requires rounds != []
    ensures Halted(rounds) <==> Halted(rounds[..|rounds| - 1]) || Halts(rounds[|rounds| - 1])
  {
    var init := rounds[..|rounds| - 1];
    if Halted(rounds) && !Halts(rounds[|rounds| - 1]) {
      var i :| 0 <= i < |rounds| && Halts(rounds[i]);
      assert init[i] == rounds[i];
    }
    if Halted(init) {
      var i :| 0 <= i < |init| && Halts(init[i]);
      assert rounds[i] == init[i];
    }
  }

  /** The loop runs until the first pass that ends it. */
  lemma {:induction false} RunningUntilHalt(rounds: seq<Round>)
    ensures Run(Start, rounds).running <==> !Halted(rounds)
  {
    if rounds != [] {
      RunningUntilHalt(rounds[..|rounds| - 1]);
      HaltedExtend(rounds);
    }
  }

  /** One pass appends to the points sent or pending exactly the point it read,
      if the loop was still running. */
  lemma StepKeepsOrder(s: Loop, r: Round)
    ensures Sent(Step(s, r).attempts) + Step(s, r).batch
         == Sent(s.attempts) + s.batch + (if s.running && r.Read? then [r.p] else [])
  {
    if s.running && !r.Shutdown? && FlushDue(Appended(s, r), LinkedCancelled(r)) {
      var atts := Step(s, r).attempts;
      assert atts[..|atts| - 1] == s.attempts;
      assert Sent(atts) == Sent(s.attempts) + Appended(s, r);
    }
  }

  /** Ordering: the batches handed to the writer, concatenated, followed by the
      pending batch, are exactly the points read, in read order. No point is
      duplicated or retried, whatever the writer did. */
  lemma {:induction false} SentThenPendingIsReads(rounds: seq<Round>)
    ensures Sent(Run(Start, rounds).attempts) + Run(Start, rounds).batch == Reads(rounds)
  {
    if rounds != [] {
      var init := rounds[..|rounds| - 1];
      SentThenPendingIsReads(init);
      RunningUntilHalt(init);
      StepKeepsOrder(Run(Start, init), rounds[|rounds| - 1]);
    }
  }

  /** Once the loop has ended, later rounds change nothing. */
  lemma {:induction false} HaltedIsFinal(s: Loop, rounds: seq<Round>)
    requires !s.running
    ensures Run(s, rounds) == s
  {
    if rounds != [] {
      HaltedIsFinal(s, rounds[..|rounds| - 1]);
    }
  }

  /** Shutdown during the wait ends the loop with the pending batch unflushed. */
  lemma ShutdownDropsPending(s: Loop, later: seq<Round>)
    requires s.running
    ensures Run(Step(s, Shutdown), later) == s.(running := false)
  {
    HaltedIsFinal(Step(s, Shutdown), later);
  }

  /** A run that has ended by pass `k` is the run of its first `k` passes. */
  lemma {:induction false} RunStopsAt(rounds: seq<Round>, k: nat)
    requires k <= |rounds|
    requires !Run(Start, rounds[..k]).running
    ensures Run(Start, rounds) == Run(Start, rounds[..k])
  {
    if k < |rounds| {
      var init := rounds[..|rounds| - 1];
      assert init[..k] == rounds[..k];
      RunStopsAt(init, k);
    } else {
      assert rounds[..k] == rounds;
    }
  }

  function ReadPoints(rounds: seq<Round>): seq<Point>
    requires forall i :: 0 <= i < |rounds| ==> rounds[i].Read?
  {
    seq(|rounds|, i requires 0 <= i < |rounds| => rounds[i].p)
  }

  /** Under back-to-back reads the batch only accumulates until the size trigger. */
  lemma {:induction false} BusyAccumulates(rounds: seq<Round>)
    requires |rounds| < MaxBatchSize
    requires forall i :: 0 <= i < |rounds| ==> rounds[i].Read? && !rounds[i].timerFired && !rounds[i].stop
    ensures Run(Start, rounds) == Loop(ReadPoints(rounds), [], true)
  {
    if rounds != [] {
      var init := rounds[..|rounds| - 1];
      BusyAccumulates(init);
      assert ReadPoints(init) + [rounds[|rounds| - 1].p] == ReadPoints(rounds);
    }
  }

  /** Size-triggered flush: 500 back-to-back points make one writer call with
      exactly those 500 points, in order, and leave the batch empty. */
  lemma SizeTriggeredFlush(rounds: seq<Round>)
    requires |rounds| == MaxBatchSize
    requires forall i :: 0 <= i < |rounds| ==> rounds[i].Read? && !rounds[i].timerFired && !rounds[i].stop
    ensures Run(Start, rounds).batch == []
    ensures |Run(Start, rounds).attempts| == 1
    ensures Run(Start, rounds).attempts[0].batch == ReadPoints(rounds)
  {
    var init := rounds[..|rounds| - 1];
    BusyAccumulates(init);
    assert ReadPoints(init) + [rounds[|rounds| - 1].p] == ReadPoints(rounds);
  }

  /** Time-triggered flush: one point followed by a quiet second makes one
      writer call with that single point. */
  lemma TimeTriggeredFlush(p: Point, sqlFails: bool, sqlFailsLater: bool)
    ensures Run(Start, [Read(p, false, false, sqlFails), Timeout(false, sqlFailsLater)]).attempts
         == [Attempt([p], WriteResult([p], false, sqlFailsLater))]
  {
    var rounds := [Read(p, false, false, sqlFails), Timeout(false, sqlFailsLater)];
    assert rounds[..1][..0] == [];
    assert Run(Start, rounds[..1]) == Loop([p], [], true);
  }

  /** The processor's `ExecuteAsync` loop over the rounds the environment
      gives it (at most one pass per round). Returns the writer calls made, the
      batch still pending, and whether the loop ended on shutdown. */
  method ExecuteAsync(rounds: seq<Round>) returns (attempts: seq<Attempt>, pending: seq<Point>, stopped: bool)
    ensures Loop(pending, attempts, !stopped) == Run(Start, rounds)
    ensures Sent(attempts) + pending == Reads(rounds)
    ensures stopped <==> Halted(rounds)
    ensures |pending| < MaxBatchSize
    ensures forall k :: 0 <= k < |attempts| ==> 0 < |attempts[k].batch| <= MaxBatchSize
  {
    var batch: seq<Point> := [];
    attempts := [];
    stopped := false;
    var i := 0;
    while !stopped && i < |rounds|
      invariant 0 <= i <= |rounds|
      invariant Run(Start, rounds[..i]) == Loop(batch, attempts, !stopped)
    {
      var r := rounds[i];
      assert rounds[..i + 1][..i] == rounds[..i];
      if r.Shutdown? {
        // the read's cancellation does not pass the catch filter
        stopped := true;
      } else {
        if r.Read? {
          batch := batch + [r.p];
        }
        if |batch| >= MaxBatchSize || (|batch| > 0 && (r.Timeout? || r.timerFired || r.stop)) {
          var outcome := WriteBatchAsync(batch, r.stop, r.sqlFails);
          attempts := attempts + [Attempt(batch, outcome)];
          batch := [];
        }
        stopped := r.stop;
      }
      i := i + 1;
    }
    if stopped {
      RunStopsAt(rounds, i);
    } else {
      assert rounds[..i] == rounds;
    }
    pending := batch;
    SentThenPendingIsReads(rounds);
    RunningUntilHalt(rounds);
    RunBounded(rounds);
  }
}
