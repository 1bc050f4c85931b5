/**
 Draining an upstream body: a reader goroutine that owns a pooled buffer, and a main loop that
 hands its results to a callback.  They meet on an unbuffered channel; the main loop may give up
 at any time, and then waits for the reader before it returns.  Every interleaving of the two is
 a sequence of `Step`s.
 */
module StreamDrain {

  type Bytes = seq<bv8>

  datatype ReadError = NoError | Eof | Failure

  /** What one Read returned, copied out of the buffer. */
  datatype ReadResult = ReadResult(data: Bytes, err: ReadError)

  /** Why the drain ended. */
  datatype Ending = DrainEof | DrainUpstreamErr | DrainIdleTimeout | DrainContextCanceled

  /** Where the reader is.  The buffer is put back before readerDone is closed: deferred calls run in reverse. */
  datatype ReaderPc =
    | Starting
    | Reading
    | Sending(rr: ReadResult)
    | Sent(err: ReadError)
    | PuttingBack
    | ClosingDone
    | Exited

  /** Where the main loop is; it leaves through the deferred abort and the wait for readerDone. */
  datatype MainPc =
    | Waiting
    | Processing(rr: ReadResult)
    | Returning(ending: Ending)
    | Joining(ending: Ending)
    | Done(ending: Ending)

  /**
   `read` and `delivered` list the non-empty results that Read returned and that were given to the
   callback; `discarded` lists the results that the reader gave up sending.
   */
  datatype State = State(
    reader: ReaderPc,
    main: MainPc,
    aborted: bool,
    closed: bool,
    hasCloser: bool,
    read: seq<Bytes>,
    delivered: seq<Bytes>,
    discarded: seq<ReadResult>,
    gets: nat,
    puts: nat)

  function Init(hasCloser: bool): State {
    State(Starting, Waiting, false, false, hasCloser, [], [], [], 0, 0)
  }

  datatype Step =
    | Get                      // the reader takes a buffer from the pool
    | Read(rr: ReadResult)     // Read returns
    | Send                     // the two meet on the channel
    | GiveUp                   // the reader sees abort instead
    | Next                     // the reader goes on after a send, or leaves after an error
    | Put                      // the buffer goes back to the pool
    | CloseDone                // the reader is gone
    | Process(keep: bool)      // the main loop handles a result; `keep` is the callback's answer
    | Timeout                  // the main loop has waited too long
    | Cancel                   // the caller's context is cancelled
    | Abort                    // the deferred abort
    | Join                     // the main loop has seen readerDone

  function Chunk(data: Bytes): seq<Bytes> {
    if data == [] then [] else [data]
  }

  predicate Enabled(s: State, step: Step) {
    match step
    case Get => s.reader.Starting?
    case Read(_) => s.reader.Reading?
    case Send => s.reader.Sending? && s.main.Waiting?
    case GiveUp => s.reader.Sending? && s.aborted
    case Next => s.reader.Sent?
    case Put => s.reader.PuttingBack?
    case CloseDone => s.reader.ClosingDone?
    case Process(_) => s.main.Processing?
    case Timeout => s.main.Waiting?
    case Cancel => s.main.Waiting?
    case Abort => s.main.Returning?
    case Join => s.main.Joining? && s.reader.Exited?
  }

  /** The main loop after it has handled a result. */
  function Processed(rr: ReadResult, keep: bool): MainPc {
    if rr.data != [] && !keep then Returning(DrainContextCanceled)
    else match rr.err
      case NoError => Waiting
      case Eof => Returning(DrainEof)
      case Failure => Returning(DrainUpstreamErr)
  }

  function Do(s: State, step: Step): State
    requires Enabled(s, step)
  {
    match step
    case Get => s.(reader := Reading, gets := s.gets + 1)
    case Read(rr) => s.(reader := Sending(rr), read := s.read + Chunk(rr.data))
    case Send => s.(reader := Sent(s.reader.rr.err), main := Processing(s.reader.rr))
    case GiveUp => s.(reader := PuttingBack, discarded := s.discarded + [s.reader.rr])
    case Next => s.(reader := if s.reader.err.NoError? then Reading else PuttingBack)
    case Put => s.(reader := ClosingDone, puts := s.puts + 1)
    case CloseDone => s.(reader := Exited)
    case Process(keep) => s.(main := Processed(s.main.rr, keep), delivered := s.delivered + Chunk(s.main.rr.data))
    case Timeout => s.(main := Returning(DrainIdleTimeout))
    case Cancel => s.(main := Returning(DrainContextCanceled))
    case Abort => s.(main := Joining(s.main.ending), aborted := true, closed := s.hasCloser)
    case Join => s.(main := Done(s.main.ending))
  }

  /** The steps happen one after the other, each where it is enabled. */
  predicate Happens(s: State, steps: seq<Step>)
    decreases |steps|, 0
  {
    steps == [] ||
    (Happens(s, steps[..|steps| - 1]) && Enabled(After(s, steps[..|steps| - 1]), steps[|steps| - 1]))
  }

  function After(s: State, steps: seq<Step>): State
    requires Happens(s, steps)
    decreases |steps|, 1
  {
    if steps == [] then s else Do(After(s, steps[..|steps| - 1]), steps[|steps| - 1])
  }

  // ---------- what every step keeps ----------

  predicate Leaving(r: ReaderPc) {
    r.PuttingBack? || r.ClosingDone? || r.Exited?
  }

  /** A result on its way to the callback. */
  function UnderWay(s: State): seq<Bytes> {
    (if s.main.Processing? then Chunk(s.main.rr.data) else [])
        + (if s.reader.Sending? then Chunk(s.reader.rr.data) else [])
  }

  function Given(discarded: seq<ReadResult>): seq<Bytes> {
    if discarded == [] then [] else Chunk(discarded[0].data)
  }

  /** Whether the reader has sent a result with this error and sends no other. */
  predicate SentLast(s: State, err: ReadError) {
    s.discarded == [] && (s.reader == Sent(err) || Leaving(s.reader))
  }

  predicate Ends(m: MainPc, ending: Ending) {
    m == Returning(ending) || m == Joining(ending) || m == Done(ending)
  }

  ghost predicate Inv(s: State) {
    && s.read == s.delivered + UnderWay(s) + Given(s.discarded)
    && |s.discarded| <= 1 && (s.discarded != [] ==> Leaving(s.reader) && s.aborted)
    && (Leaving(s.reader) || (s.reader.Sent? && !s.reader.err.NoError?) ==> !s.main.Waiting?)
    && (s.main.Processing? && !s.main.rr.err.NoError? ==> SentLast(s, s.main.rr.err))
    && (s.main.Processing? && s.main.rr.err.NoError? ==>
        !Leaving(s.reader) && (s.reader.Sent? ==> s.reader.err.NoError?))
    && (Ends(s.main, DrainEof) ==> SentLast(s, Eof))
    && s.aborted == (s.main.Joining? || s.main.Done?)
    && s.closed == (s.aborted && s.hasCloser)
    && (s.main.Done? ==> s.reader.Exited?)
    && s.gets == (if s.reader.Starting? then 0 else 1)
    && s.puts == (if s.reader.ClosingDone? || s.reader.Exited? then 1 else 0)
  }

  predicate OfReader(step: Step) {
    step.Get? || step.Read? || step.Send? || step.GiveUp? || step.Next? || step.Put? || step.CloseDone?
  }

  lemma ReaderStepKeeps(s: State, step: Step)
    requires Inv(s) && Enabled(s, step)
    requires OfReader(step)
    ensures Inv(Do(s, step))
  {
  }

  lemma MainStepKeeps(s: State, step: Step)
    requires Inv(s) && Enabled(s, step)
    requires !OfReader(step)
    ensures Inv(Do(s, step))
  {
  }

  lemma StepKeeps(s: State, step: Step)
    requires Inv(s) && Enabled(s, step)
    ensures Inv(Do(s, step))
  {
    if OfReader(step) {
      ReaderStepKeeps(s, step);
    } else {
      MainStepKeeps(s, step);
    }
  }

  lemma {:induction false} RunKeeps(hasCloser: bool, steps: seq<Step>)
    requires Happens(Init(hasCloser), steps)
    ensures Inv(After(Init(hasCloser), steps))
  {
    if steps != [] {
      RunKeeps(hasCloser, steps[..|steps| - 1]);
      StepKeeps(After(Init(hasCloser), steps[..|steps| - 1]), steps[|steps| - 1]);
    }
  }

  // ---------- safety over every run ----------

  /**
   In every interleaving the callback gets the results that were read, in order and without a gap;
   at most one result is never sent, and then it is the last.  A drain that reports the end of the
   body has delivered everything.  It returns only when the reader is gone and has put its one
   buffer back, once.
   */
  lemma Safety(hasCloser: bool, steps: seq<Step>)
    requires Happens(Init(hasCloser), steps)
    ensures var s := After(Init(hasCloser), steps);
      && s.delivered <= s.read
      && |s.discarded| <= 1
      && (s.main.Done? ==> s.read == s.delivered + Given(s.discarded))
      && (s.main == Done(DrainEof) ==> s.delivered == s.read && s.discarded == [])
      && (s.main.Done? ==> s.reader.Exited? && s.gets == 1 && s.puts == 1)
      && s.puts <= s.gets <= 1
  {
    RunKeeps(hasCloser, steps);
    var s := After(Init(hasCloser), steps);
    AppendedIsPrefix(s.delivered, UnderWay(s), Given(s.discarded));
  }

  lemma AppendedIsPrefix(a: seq<Bytes>, b: seq<Bytes>, c: seq<Bytes>)
    ensures a <= a + b + c
    ensures b == [] ==> a + b + c == a + c
  {
  }

  // ---------- why a drain ended ----------

  /** Some Read has returned with this error. */
  predicate ReadReturned(steps: seq<Step>, err: ReadError) {
    exists i :: 0 <= i < |steps| && steps[i].Read? && steps[i].rr.err == err
  }

  /** The ending tells what has happened, and each thing that ends a drain has its own ending. */
  ghost predicate Explained(s: State, steps: seq<Step>) {
    && (Ends(s.main, DrainEof) ==> ReadReturned(steps, Eof))
    && (Ends(s.main, DrainUpstreamErr) ==> ReadReturned(steps, Failure))
    && (Ends(s.main, DrainIdleTimeout) <==> Timeout in steps)
    && (Ends(s.main, DrainContextCanceled) ==> Cancel in steps || Process(false) in steps)
    && (Cancel in steps ==> Ends(s.main, DrainContextCanceled))
    && (s.reader.Sending? ==> ReadReturned(steps, s.reader.rr.err))
    && (s.main.Processing? ==> ReadReturned(steps, s.main.rr.err))
  }

  lemma MoreSteps(steps: seq<Step>, step: Step)
    ensures forall err :: ReadReturned(steps, err) ==> ReadReturned(steps + [step], err)
    ensures step.Read? ==> ReadReturned(steps + [step], step.rr.err)
    ensures forall x :: x in steps + [step] <==> x in steps || x == step
  {
    var more := steps + [step];
    assert more[|steps|] == step;
    forall err | ReadReturned(steps, err) ensures ReadReturned(more, err) {
      var i :| 0 <= i < |steps| && steps[i].Read? && steps[i].rr.err == err;
      assert more[i] == steps[i];
    }
  }

  lemma ReaderStepExplained(s: State, steps: seq<Step>, step: Step)
    requires Enabled(s, step) && Explained(s, steps) && OfReader(step)
    ensures Explained(Do(s, step), steps + [step])
  {
    MoreSteps(steps, step);
  }

  lemma MainStepExplained(s: State, steps: seq<Step>, step: Step)
    requires Enabled(s, step) && Explained(s, steps) && !OfReader(step)
    ensures Explained(Do(s, step), steps + [step])
  {
    MoreSteps(steps, step);
  }

  /** In every run the ending is explained by what has happened. */
  lemma {:induction false} EndingIsExplained(hasCloser: bool, steps: seq<Step>)
    requires Happens(Init(hasCloser), steps)
    ensures Explained(After(Init(hasCloser), steps), steps)
  {
    if steps != [] {
      var n := |steps| - 1;
      EndingIsExplained(hasCloser, steps[..n]);
      if OfReader(steps[n]) {
        ReaderStepExplained(After(Init(hasCloser), steps[..n]), steps[..n], steps[n]);
      } else {
        MainStepExplained(After(Init(hasCloser), steps[..n]), steps[..n], steps[n]);
      }
      assert steps == steps[..n] + [steps[n]];
    }
  }

  /** A result with data goes on only if the callback wants more; then, and without data, its error decides. */
  lemma ProcessMeaning(s: State, keep: bool)
    requires s.main.Processing?
    ensures var rr, t := s.main.rr, Do(s, Process(keep));
      && t.delivered == s.delivered + (if rr.data == [] then [] else [rr.data])
      && (Ends(t.main, DrainContextCanceled) <==> rr.data != [] && !keep)
      && (keep || rr.data == [] ==>
            && (t.main == Waiting <==> rr.err == NoError) && (Ends(t.main, DrainEof) <==> rr.err == Eof)
            && (Ends(t.main, DrainUpstreamErr) <==> rr.err == Failure))
  {
  }

  // ---------- the exit ----------

  predicate Exiting(s: State) {
    s.main.Returning? || s.main.Joining? || s.main.Done?
  }

  function ReaderRank(r: ReaderPc): nat {
    match r
    case Sent(_) => 6
    case Starting => 6
    case Reading => 5
    case Sending(_) => 4
    case PuttingBack => 2
    case ClosingDone => 1
    case Exited => 0
  }

  function MainRank(m: MainPc): nat {
    if m.Returning? then 2 else if m.Joining? then 1 else 0
  }

  /** The steps that the exit can still take. */
  function Measure(s: State): nat {
    ReaderRank(s.reader) + MainRank(s.main)
  }

  /** Once the main loop has decided to return, every step brings the exit closer and none delivers anything. */
  lemma ExitAdvances(s: State, step: Step)
    requires Inv(s) && Exiting(s) && Enabled(s, step)
    ensures var t := Do(s, step);
      Exiting(t) && Measure(t) < Measure(s) && t.delivered == s.delivered && !s.main.Done?
  {
  }

  /** Until it is over, somebody can move, unless the reader sits in a Read that does not return. */
  lemma ExitNeverBlocks(s: State) returns (step: Step)
    requires Inv(s) && Exiting(s) && !s.main.Done?
    ensures Enabled(s, step)
    ensures step.Read? ==> s.reader.Reading? && s.aborted && s.closed == s.hasCloser
  {
    if s.main.Returning? {
      step := Abort;
    } else {
      step := match s.reader
        case Starting => Get
        case Reading => Read(ReadResult([], Failure))
        case Sending(_) => GiveUp
        case Sent(_) => Next
        case PuttingBack => Put
        case ClosingDone => CloseDone
        case Exited => Join;
    }
  }

  /** Of any run, at most eight steps happen after the main loop has decided to return. */
  lemma {:induction false} ExitTerminates(hasCloser: bool, before: seq<Step>, steps: seq<Step>)
    requires Happens(Init(hasCloser), before) && Exiting(After(Init(hasCloser), before))
    requires Happens(After(Init(hasCloser), before), steps)
    ensures var s, t := After(Init(hasCloser), before), After(After(Init(hasCloser), before), steps);
      Inv(t) && Exiting(t) && |steps| + Measure(t) <= Measure(s) <= 8
  {
    RunKeeps(hasCloser, before);
    if steps != [] {
      ExitTerminates(hasCloser, before, steps[..|steps| - 1]);
      var s := After(After(Init(hasCloser), before), steps[..|steps| - 1]);
      ExitAdvances(s, steps[|steps| - 1]);
      StepKeeps(s, steps[|steps| - 1]);
    }
  }

  /** Once the main loop has decided to return, it returns with that ending, and nothing more is delivered. */
  lemma {:induction false} DecisionStands(s: State, steps: seq<Step>, ending: Ending)
    requires Inv(s) && Ends(s.main, ending) && Happens(s, steps)
    ensures var t := After(s, steps); Inv(t) && Ends(t.main, ending) && t.delivered == s.delivered
  {
    if steps != [] {
      var t := After(s, steps[..|steps| - 1]);
      DecisionStands(s, steps[..|steps| - 1], ending);
      StepKeeps(t, steps[|steps| - 1]);
    }
  }

  /** A callback that refuses data gets no more, and the drain ends as if its context had been cancelled. */
  lemma RefusalEnds(s: State, steps: seq<Step>)
    requires Inv(s) && s.main.Processing? && s.main.rr.data != [] && Happens(Do(s, Process(false)), steps)
    ensures var t := After(Do(s, Process(false)), steps);
      Ends(t.main, DrainContextCanceled) && t.delivered == s.delivered + [s.main.rr.data]
  {
    StepKeeps(s, Process(false));
    DecisionStands(Do(s, Process(false)), steps, DrainContextCanceled);
  }

  /** If Read returns, the exit reaches its end: a run to it exists from every point of the exit. */
  lemma ExitCompletes(s: State) returns (steps: seq<Step>)
    requires Inv(s) && Exiting(s)
    ensures Happens(s, steps) && After(s, steps).main.Done? && |steps| <= Measure(s)
  {
    steps := [];
    while !After(s, steps).main.Done?
      invariant Happens(s, steps) && Inv(After(s, steps)) && Exiting(After(s, steps))
      invariant |steps| + Measure(After(s, steps)) <= Measure(s)
      decreases Measure(After(s, steps))
    {
      var t := After(s, steps);
      var step := ExitNeverBlocks(t);
      ExitAdvances(t, step);
      StepKeeps(t, step);
      assert (steps + [step])[..|steps|] == steps;
      steps := steps + [step];
    }
  }

  /** A drain that has returned leaves nothing behind that could still move. */
  lemma NothingLeftBehind(hasCloser: bool, steps: seq<Step>, step: Step)
    requires Happens(Init(hasCloser), steps) && After(Init(hasCloser), steps).main.Done?
    ensures !Enabled(After(Init(hasCloser), steps), step)
  {
    RunKeeps(hasCloser, steps);
  }
}
