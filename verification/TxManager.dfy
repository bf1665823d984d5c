/**
 SimpleTxManager.Send as a protocol: the event loop, the goroutines it launches, the shared send state,
 the receipt channel of capacity one, the cancellable context and the wait group. One step is one atomic
 action of one participant; what the node, the clock and the callbacks answer is part of the step label,
 so a statement about all sequences of steps covers every interleaving and every behaviour of the backend.
 */
module TxManager {
  import opened Common
  import S = SendState

  datatype Config = Config(numConfirmations: nat, safeAbort: nat)

  predicate ValidConfig(cfg: Config) {
    0 < cfg.numConfirmations < U64_MODULUS && cfg.safeAbort != 0
  }

  datatype Receipt = Receipt(blockNumber: nat, failed: bool)

  /** What the publication error says, as far as Send looks at it. */
  datatype SendError = SendError(nonceTooLow: bool, canceled: bool)

  /** Where a goroutine is. */
  datatype Phase =
    | Updating
    | Failing                                               // fatal price update, about to cancel
    | Publishing(hash: S.Hash)
    | Recording(hash: S.Hash, err: Option<SendError>)       // publication returned, not yet recorded
    | Judging(hash: S.Hash)                                 // about to ask whether to abort
    | Aborting(hash: S.Hash)                                // told to abort, about to cancel
    | Querying(hash: S.Hash)
    | Found(hash: S.Hash, receipt: Receipt)                 // receipt seen, not yet recorded
    | Measuring(hash: S.Hash, receipt: Receipt)             // about to ask for the chain tip
    | Missing(hash: S.Hash)                                 // no receipt, not yet recorded
    | Sleeping(hash: S.Hash)
    | Delivering(hash: S.Hash, receipt: Receipt)
    | Finishing                                             // about to sign off at the wait group

  datatype Result = Got(receipt: Receipt, reverted: bool) | Stopped

  /** Where the event loop is. */
  datatype Main =
    | Init
    | Looping
    | Checking                       // a tick arrived
    | Adding                         // about to add to the wait group
    | Launching                      // added, about to launch
    | Canceling(result: Result)      // returning: deferred cancel
    | Waiting(result: Result)        // returning: deferred wait
    | Returned(result: Result)

  datatype Machine = Machine(
    main: Main,
    live: map<nat, Phase>,
    nextId: nat,
    wg: int,
    chan: Option<Receipt>,
    ctxDone: bool,
    send: S.State)

  const START := Machine(Init, map[], 0, 0, None, false, S.FRESH)

  datatype Action =
    | UpdateOk(hash: S.Hash) | UpdateSoftError | UpdateFatalError | CancelAfterFatal
    | SendReturns(err: Option<SendError>) | Record | Judge | CancelAfterAbort
    | QueryFound(receipt: Receipt) | QueryMissing | QueryError
    | MarkMined | MarkNotMined | Height(tip: nat) | HeightError
    | Wake | SeeCancel | Deliver | Finish

  datatype Step =
    | AddFirst | Launch | Tick | Check | Add | StopOnCancel | Receive | Cancel | Wait
    | CallerCancels
    | Worker(id: nat, action: Action)

  /** The confirmation test, in the program's uint64 arithmetic. */
  predicate Confirmed(cfg: Config, height: nat, tip: nat) {
    AddU64(height, cfg.numConfirmations) <= AddU64(tip, 1)
  }

  predicate CanAct(ctxDone: bool, p: Phase, a: Action) {
    match a
    case UpdateOk(_) => p.Updating?
    case UpdateSoftError => p.Updating?
    case UpdateFatalError => p.Updating?
    case CancelAfterFatal => p.Failing?
    case SendReturns(_) => p.Publishing?
    case Record => p.Recording?
    case Judge => p.Judging?
    case CancelAfterAbort => p.Aborting?
    case QueryFound(_) => p.Querying?
    case QueryMissing => p.Querying?
    case QueryError => p.Querying?
    case MarkMined => p.Found?
    case MarkNotMined => p.Missing?
    case Height(_) => p.Measuring?
    case HeightError => p.Measuring?
    case Wake => p.Sleeping?
    case SeeCancel => p.Sleeping? && ctxDone
    case Deliver => p.Delivering?
    case Finish => p.Finishing?
  }

  predicate Enabled(m: Machine, s: Step) {
    match s
    case AddFirst => m.main.Init?
    case Launch => m.main.Launching?
    case Tick => m.main.Looping?
    case Check => m.main.Checking?
    case Add => m.main.Adding?
    case StopOnCancel => m.main.Looping? && m.ctxDone
    case Receive => m.main.Looping? && m.chan.Some?
    case Cancel => m.main.Canceling?
    case Wait => m.main.Waiting? && m.wg == 0
    case CallerCancels => true
    case Worker(id, a) => id in m.live && CanAct(m.ctxDone, m.live[id], a)
  }

  function Observe(m: Machine, e: S.Event): Machine {
    m.(send := S.Apply(m.send, e))
  }

  /** Where the action leads the goroutine. */
  function NextPhase(cfg: Config, m: Machine, p: Phase, a: Action): Phase
    requires CanAct(m.ctxDone, p, a)
  {
    match a
    case UpdateOk(h) => Publishing(h)
    case UpdateSoftError => Finishing
    case UpdateFatalError => Failing
    case CancelAfterFatal => Finishing
    case SendReturns(err) => Recording(p.hash, err)
    case Record =>
      if p.err.None? then Querying(p.hash) else if p.err.value.canceled then Finishing else Judging(p.hash)
    case Judge => if S.ShouldAbort(m.send, cfg.safeAbort) then Aborting(p.hash) else Finishing
    case CancelAfterAbort => Finishing
    case QueryFound(r) => Found(p.hash, r)
    case QueryMissing => Missing(p.hash)
    case QueryError => Sleeping(p.hash)
    case MarkMined => Measuring(p.hash, p.receipt)
    case MarkNotMined => Sleeping(p.hash)
    case Height(tip) =>
      if Confirmed(cfg, p.receipt.blockNumber, tip) then Delivering(p.hash, p.receipt) else Sleeping(p.hash)
    case HeightError => Sleeping(p.hash)
    case Wake => Querying(p.hash)
    case SeeCancel => Finishing
    case Deliver => Finishing
    case Finish => Finishing
  }

  /** What the action does to everything but the goroutine's own phase. */
  function Effect(cfg: Config, m: Machine, p: Phase, a: Action): Machine
    requires CanAct(m.ctxDone, p, a)
  {
    match a
    case CancelAfterFatal => m.(ctxDone := true)
    case CancelAfterAbort => m.(ctxDone := true)
    case Record => if p.err.Some? && p.err.value.nonceTooLow then Observe(m, S.NonceTooLow) else m
    case MarkMined => Observe(m, S.Mined(p.hash))
    case MarkNotMined => Observe(m, S.NotMined(p.hash))
    case Deliver => if m.chan.None? then m.(chan := Some(p.receipt)) else m
    case _ => m
  }

  /** One step. */
  function Do(cfg: Config, m: Machine, s: Step): Machine
    requires Enabled(m, s)
  {
    if s.Worker? then DoWorker(cfg, m, s.id, s.action) else DoMain(m, s)
  }

  /** A step of the event loop or of the caller. */
  function DoMain(m: Machine, s: Step): Machine
    requires Enabled(m, s) && !s.Worker?
  {
    match s
    case AddFirst => m.(wg := m.wg + 1, main := Launching)
    case Launch => m.(live := m.live[m.nextId := Updating], nextId := m.nextId + 1, main := Looping)
    case Tick => m.(main := Checking)
    case Check => if m.send.mined != {} then m.(main := Looping) else m.(main := Adding)
    case Add => m.(wg := m.wg + 1, main := Launching)
    case StopOnCancel => m.(main := Canceling(Stopped))
    case Receive =>
      var r := m.chan.value;
      m.(main := Canceling(Got(r, r.failed)), chan := None)
    case Cancel => m.(ctxDone := true, main := Waiting(m.main.result))
    case Wait => m.(main := Returned(m.main.result))
    case CallerCancels => m.(ctxDone := true)
  }

  /** A step of a goroutine. */
  function DoWorker(cfg: Config, m: Machine, id: nat, a: Action): Machine
    requires id in m.live && CanAct(m.ctxDone, m.live[id], a)
  {
    var p := m.live[id];
    if a.Finish? then m.(live := m.live - {id}, wg := m.wg - 1)
    else Effect(cfg, m, p, a).(live := m.live[id := NextPhase(cfg, m, p, a)])
  }

  /** Step i was possible, and led from state i to the next. */
  predicate Goes(cfg: Config, steps: seq<Step>, ms: seq<Machine>, i: nat)
    requires i < |steps| && |ms| == |steps| + 1
  {
    Enabled(ms[i], steps[i]) && ms[i + 1] == Do(cfg, ms[i], steps[i])
  }

  /** The steps of one call of Send so far, with the states before, between and after them. */
  predicate Run(cfg: Config, steps: seq<Step>, ms: seq<Machine>) {
    && |ms| == |steps| + 1 && ms[0] == START
    && forall i: nat | i < |steps| :: Goes(cfg, steps, ms, i)
  }
}
