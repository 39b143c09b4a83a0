/** One resource's Worker: the process loop, the Watch goroutine that feeds it, and the channels between them.

    Channels are unbuffered, so a send and its receive are one step.  Closing a channel adds one to its count in
    `Closes`; a count of two is the panic that a second close raises. */
module Workers {
  import opened Vertices

  /** Where the process loop is. */
  datatype Pc =
    | AwaitFirstResume  // starts paused
    | MainSelect
    | PausedInMain
    | Dispatch          // something was received in the main select; may Process run?
    | LimitWait         // rate limited
    | PausedInLimit
    | RetryWait         // a retry delay
    | PausedInRetry
    | RetryTop          // the receive that catches a waiting pause between two runs of Process
    | PausedAtRetryTop
    | RetryCheck        // the last check before Process
    | Processing
    | Exited

  /** Where the Watch goroutine is. */
  datatype WatchPc = Watching | SendingRestart | SendingFatal | Leaving | Gone

  datatype Closes = Closes(process: nat, watch: nat, limit: nat, retry: nat, remove: nat, events: nat,
                           resume: nat, channel: nat)

  /** How far a running Process got: which prerequisites are still to be compared, and whether all were good. */
  datatype Proc = Idle | Checking(ts: int, unread: set<Vertex>, good: bool) | Applying | Completing

  /** `resumedOnce`, `gen`, `seenGen`, `doneAt` and `born` record history: whether a resume was ever received, how
      often Watch was restarted, under which of those Watches the main select last received an event, and where in
      the engine's log this state was created and last completed (-1 for never). */
  datatype Worker = Worker(
    pc: Pc, watch: WatchPc, failed: bool, closed: bool, started: bool,
    closes: Closes, doneCancelled: bool, paused: bool, proc: Proc, stamp: int,
    resumedOnce: bool, gen: nat, seenGen: int, doneAt: int, born: nat)

  function NewWorker(born: nat): Worker {
    Worker(AwaitFirstResume, Watching, false, false, false, Closes(0, 0, 0, 0, 0, 0, 0, 0), false, true, Idle, 0,
           false, 0, -1, -1, born)
  }

  predicate AwaitsResume(pc: Pc) {
    pc in {AwaitFirstResume, PausedInMain, PausedInLimit, PausedInRetry, PausedAtRetryTop}
  }

  /** The selects that receive events. */
  predicate Selecting(pc: Pc) {
    pc in {MainSelect, LimitWait, RetryWait}
  }

  /** Where a pause request can be received. */
  predicate Pausable(pc: Pc) {
    pc in {MainSelect, LimitWait, RetryWait, RetryTop}
  }

  function PausedFrom(pc: Pc): Pc
    requires Pausable(pc)
  {
    match pc
    case MainSelect => PausedInMain
    case LimitWait => PausedInLimit
    case RetryWait => PausedInRetry
    case _ => PausedAtRetryTop
  }

  /** Where the loop goes on after the resume channel spoke. */
  function ResumedTo(pc: Pc): Pc
    requires AwaitsResume(pc)
  {
    match pc
    case AwaitFirstResume => MainSelect
    case PausedInMain => Dispatch
    case PausedInLimit => LimitWait
    case PausedInRetry => RetryWait
    case _ => RetryCheck
  }

  predicate MayProcess(w: Worker) {
    !w.failed && !w.closed && w.started
  }

  predicate AnyDoneClosed(c: Closes) {
    c.process + c.watch + c.limit + c.retry + c.remove + c.events > 0
  }

  /** How a run of Process ends, as the retry loop sees it. */
  datatype Outcome = Finished | RetryLater(delayed: bool) | Permanent(delayed: bool)

  /** The steps that one Worker takes without the engine. */
  datatype Move =
    | ReceiveEvent
    | WatchFailsAndRetries
    | WatchFailsForGood
    | WatchEnds
    | ReceiveRestart
    | SkipRestart
    | ReceiveFatal
    | CloseEvents
    | ReceiveClosed
    | ReceivePoke
    | DispatchBack
    | DispatchOn(limited: bool)
    | LimitOver
    | RetryOver
    | NoPauseWaiting
    | CheckBack
    | SeeResumeClosed
    | ProcessReturns(outcome: Outcome)
    | MuxFires

  predicate Enabled(w: Worker, m: Move) {
    match m
    case ReceiveEvent => w.watch == Watching && Selecting(w.pc)
    case WatchFailsAndRetries => w.watch == Watching
    case WatchFailsForGood => w.watch == Watching
    case WatchEnds => w.watch == Watching
    case ReceiveRestart => w.watch == SendingRestart && Selecting(w.pc)
    case SkipRestart => w.watch == SendingRestart && w.doneCancelled
    case ReceiveFatal => w.watch == SendingFatal && Selecting(w.pc)
    case CloseEvents => w.watch == Leaving
    case ReceiveClosed => w.watch == Gone && Selecting(w.pc)
    case ReceivePoke => w.pc == MainSelect
    case DispatchBack => w.pc == Dispatch && !MayProcess(w)
    case DispatchOn(_) => w.pc == Dispatch && MayProcess(w)
    case LimitOver => w.pc == LimitWait
    case RetryOver => w.pc == RetryWait
    case NoPauseWaiting => w.pc == RetryTop
    case CheckBack => w.pc == RetryCheck && !MayProcess(w)
    case SeeResumeClosed => AwaitsResume(w.pc) && w.closes.resume > 0
    case ProcessReturns(_) => w.pc == Processing
    case MuxFires => AnyDoneClosed(w.closes)
  }

  function Moved(w: Worker, m: Move): Worker
    requires Enabled(w, m)
  {
    match m
    case ReceiveEvent =>
      // only the main select marks the resource as started; the other two just consume the event
      if w.pc == MainSelect then w.(pc := Dispatch, started := true, seenGen := w.gen) else w
    case WatchFailsAndRetries => w.(watch := SendingRestart)
    case WatchFailsForGood => w.(watch := SendingFatal)
    case WatchEnds => w.(watch := Leaving)
    case ReceiveRestart => w.(watch := Watching, gen := w.gen + 1, started := false)
    case SkipRestart => w.(watch := Watching, gen := w.gen + 1)
    case ReceiveFatal =>
      var f := w.(watch := Leaving, failed := true);
      if w.pc == MainSelect then f.(closes := w.closes.(watch := w.closes.watch + 1))
      else if w.pc == LimitWait then f.(pc := MainSelect, closes := w.closes.(limit := w.closes.limit + 1))
      else f.(pc := RetryTop, closes := w.closes.(retry := w.closes.retry + 1))
    case CloseEvents => w.(watch := Gone, closes := w.closes.(channel := w.closes.channel + 1))
    case ReceiveClosed => w.(pc := Exited, closes := w.closes.(events := w.closes.events + 1))
    case ReceivePoke => w.(pc := Dispatch)
    case DispatchBack => w.(pc := MainSelect)
    case DispatchOn(limited) => w.(pc := if limited then LimitWait else RetryTop)
    case LimitOver => w.(pc := if MayProcess(w) then RetryTop else MainSelect)
    case RetryOver => w.(pc := RetryTop)
    case NoPauseWaiting => w.(pc := RetryCheck)
    case CheckBack => w.(pc := MainSelect)
    case SeeResumeClosed => w.(pc := ResumedTo(w.pc), closed := true)
    case ProcessReturns(o) =>
      var r := w.(proc := Idle);
      (match o
       case Finished => r.(pc := MainSelect)
       case RetryLater(delayed) => r.(pc := if delayed then RetryWait else RetryTop)
       case Permanent(delayed) =>
         r.(pc := if delayed then RetryWait else RetryTop, failed := true,
            closes := w.closes.(process := w.closes.process + 1)))
    case MuxFires => w.(doneCancelled := true)
  }

  /* ----- what a Worker never does ----- */

  /** It will not process again, whatever the engine does. */
  predicate Dead(w: Worker) {
    w.failed || w.closed || w.pc == Exited
  }

  /** It does not process, and will not unless the engine resumes it. */
  predicate Quiet(w: Worker) {
    Dead(w) || AwaitsResume(w.pc)
  }

  /** Each of the Worker's own channels is closed at most once, and for a reason. */
  predicate ClosesOk(w: Worker) {
    && w.closes.process <= 1 && (w.closes.process == 1 ==> w.failed)
    && w.closes.watch + w.closes.limit + w.closes.retry <= 1
    && (w.closes.watch + w.closes.limit + w.closes.retry == 1 ==> w.failed && w.watch in {Leaving, Gone})
    && w.closes.events == (if w.pc == Exited then 1 else 0)
    && w.closes.channel == (if w.watch == Gone then 1 else 0)
    && w.closes.remove == w.closes.resume
  }

  /** What holds of a Worker in every state of every run. */
  predicate WorkerOk(w: Worker) {
    && ClosesOk(w)
    && (w.pc == Processing ==> w.resumedOnce && MayProcess(w) && w.seenGen == w.gen)
    && (w.pc != Processing ==> w.proc == Idle)
    && (w.pc != AwaitFirstResume ==> w.resumedOnce || w.closed)
    && (w.started && !w.doneCancelled ==> w.seenGen == w.gen)
    && (w.doneCancelled ==> Dead(w) || w.closes.remove > 0)
    && (w.closes.remove > 0 ==> Quiet(w))
  }

  lemma NewWorkerOk(born: nat)
    ensures WorkerOk(NewWorker(born)) && Quiet(NewWorker(born))
  {
  }

  /** A dead or quiet Worker is not processing. */
  lemma QuietIsIdle(w: Worker)
    requires WorkerOk(w) && Quiet(w)
    ensures w.pc != Processing && w.proc == Idle
  {
  }

  /** No move of its own breaks a Worker, wakes a quiet one, takes back a cancellation, or touches what the engine
      and the clock own. */
  lemma MovePreserves(w: Worker, m: Move)
    requires WorkerOk(w) && Enabled(w, m)
    ensures var w' := Moved(w, m);
      && WorkerOk(w')
      && (Quiet(w) ==> Quiet(w')) && (Dead(w) ==> Dead(w'))
      && (w.doneCancelled ==> w'.doneCancelled)
      && w'.paused == w.paused && w'.stamp == w.stamp && w'.doneAt == w.doneAt && w'.born == w.born
      && w'.closes.remove == w.closes.remove
      && (w'.proc == w.proc || w'.proc == Idle)
      && (w'.pc == Processing ==> w.pc == Processing)
      && (w.pc == Exited ==> w'.pc == Exited)
  {
    match m
    case ReceiveEvent =>
    case ReceiveFatal =>
    case ProcessReturns(_) =>
    case SeeResumeClosed =>
    case _ =>
  }
}
