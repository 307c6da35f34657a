/**
  What one Pair Execution Cell remembers (abt/pair_cell.py).

  `Db` is the durable half (the SQLite tables and the effect journal), `Memory` the half a crash
  discards, `Broker` the account behind the Worker.  Every table is a map keyed as the source keys it.
*/
module PairState {
  import opened Prelude
  import J = EffectJournal

  datatype Role = Leader | Follower

  datatype Direction = LONG | SHORT

  function Mirror(d: Direction): Direction {
    if d == LONG then SHORT else LONG
  }

  /** The immutable attempt, as far as execution reads it. */
  datatype Attempt = Attempt(id: nat, symbol: nat, leaderDirection: Direction, lots: nat) {
    function DirectionOf(r: Role): Direction {
      if r == Leader then leaderDirection else Mirror(leaderDirection)
    }
  }

  // ---- effects and broker payloads -------------------------------------------------------------

  datatype EffectId =
    | Entry(attempt: nat)
    | Protection(attempt: nat)
    | Rollback(attempt: nat)
    | Cancel(attempt: nat, ticket: nat)
    | Close(attempt: nat, ticket: nat)

  datatype Payload =
    | Market(symbol: nat, volume: nat, direction: Direction)
    | ModifyStops(position: Option<nat>, sl: int, tp: int)
    | CancelOrder(ticket: nat)
    | ClosePosition(ticket: nat, volume: nat)

  datatype Evidence =
    | Receipt(success: bool)
    | NotStarted
    | PositionSeen
    | AbsenceSeen

  type Journal = J.Table<EffectId, Payload, Evidence>

  // ---- durable rows ----------------------------------------------------------------------------

  datatype TerminalReason = AdmissionRejected | NoLocalEffect | BothEmptyVerified

  datatype AttemptRow = AttemptRow(attempt: Attempt, terminal: Option<TerminalReason>)

  datatype EntryStatus = Pending | Sent | Rejected | ExpiredNotStarted | UnknownAfterSend | Filled

  datatype ProtectionStatus = Rough | Precise | Fallback | Frozen

  datatype Leg = Leg(
    entryStatus: EntryStatus,
    ticket: Option<nat>,
    protection: ProtectionStatus,
    emptyVerified: bool,
    attemptRelayed: bool,
    entryDispatched: bool)

  const NewLeg := Leg(Pending, None, Rough, false, false, false)

  /** A leg status as relayed to the peer; a fill carries its exact evidence. */
  datatype LegStatus =
    | StUnknown
    | StPending
    | StSent
    | StRejected
    | StExpired
    | StUnknownAfterSend
    | StFilled(symbol: nat, side: Direction, volume: nat)
    | StInconsistent
    | StPrecise
    | StFallback
    | StFrozen
    | StEmpty
    | StNoRecord

  /** `_PEER_TERMINAL_STATUSES`: what the cell counts as proof that no peer exposure exists. */
  predicate IsTerminalStatus(s: LegStatus) {
    s in {StRejected, StExpired, StNoRecord, StEmpty}
  }

  datatype Desired = NoDesire | ActiveDesired | EmptyDesired

  datatype Db = Db(
    attempts: map<nat, AttemptRow>,
    latest: Option<nat>,
    legs: map<nat, Leg>,
    peerLegs: map<nat, LegStatus>,
    desired: Desired,
    confirmed: bool,
    active: set<nat>,
    needsHuman: bool,
    journal: Journal)

  // ---- the broker account ----------------------------------------------------------------------

  /** One open position or, while `resting`, one pending order. */
  datatype Holding = Holding(attempt: nat, symbol: nat, direction: Direction, volume: nat, resting: bool)

  type Holdings = map<nat, Holding>

  /** `calls` is the broker's own record of every `order_send`, by effect; `filledFor` the attempts
      for which a position of the full attempt volume has existed. */
  datatype Broker = Broker(holdings: Holdings, nextTicket: nat, calls: map<EffectId, seq<Payload>>, filledFor: set<nat>)

  function CallsOf(b: Broker, e: EffectId): seq<Payload> {
    if e in b.calls then b.calls[e] else []
  }

  function Positions(h: Holdings): Holdings {
    map t | t in h && !h[t].resting :: h[t]
  }

  function Orders(h: Holdings): Holdings {
    map t | t in h && h[t].resting :: h[t]
  }

  /** `_position_matches`: exact symbol, side and volume. */
  function Matches(positions: Holdings, att: Attempt, r: Role): set<nat> {
    set t | t in positions && positions[t].symbol == att.symbol
         && positions[t].direction == att.DirectionOf(r) && positions[t].volume == att.lots
  }

  // ---- the running process ---------------------------------------------------------------------

  /** Which write the cell is in the middle of. */
  datatype Job =
    | EntryJob
    | ProtectionJob(sl: int, tp: int)
    | RollbackJob(roughSl: int, roughTp: int)
    | ContainJob(effect: EffectId, payload: Payload)

  datatype Reply = Answered(success: bool) | NoReceipt

  datatype WriteResult = Completed | RejectedByBroker | Refused | NeverStarted | Unclear

  datatype Stage = Admit | Granted | Started | Returned(reply: Reply) | Done(result: WriteResult)

  datatype Verdict = NoChange | SeenFilled | SeenInconsistent | SeenAbsent | SeenAmbiguous

  datatype FollowUp = NoFollowUp | CloseFollow | FreezeFollow | RollbackFollow(sl: int, tp: int)

  /** The next micro-step of a handler: one durable write, one broker call or one relay send each,
      so that a crash can fall between any two of them. */
  datatype Pc =
    | Idle
    // entry, leader and follower
    | NewRow
    | DesiredSaved
    | LegSaved
    | EffectPrepared
    | TimerArmed
    | RelayIntended
    | RelaySent
    | Write(job: Job, stage: Stage)
    // after an outcome
    | Reporting(status: LegStatus, notify: bool, thenClose: bool)
    | Closing
    | RejectReport(refused: nat)
    | ConfirmSend
    | FailNotice
    | PeerNoted(followUp: FollowUp)
    | Resetting
    // one broker snapshot: positions first, then orders, then the consequences
    | Looking(positions: Holdings)
    | Seen(positions: Holdings, orders: Holdings)
    | Attributed(positions: Holdings, orders: Holdings, verdict: Verdict)
    | Recorded(positions: Holdings, orders: Holdings, verdict: Verdict)
    | Observing(positions: Holdings, orders: Holdings, verdict: Verdict)
    | Converging(positions: Holdings, orders: Holdings)
    // restart
    | Recovering
    | RecoverObserve
    | RecoverClose

  datatype Memory =
    | Down
    | Up(attempt: Option<Attempt>, peer: LegStatus, desired: Desired, confirmed: bool,
         probes: nat, deadline: Option<nat>, pc: Pc)

  datatype Worker = Worker(db: Db, mem: Memory, broker: Broker, clock: nat)

  // ---- messages --------------------------------------------------------------------------------

  datatype Msg =
    | AttemptMsg(attempt: Attempt)
    | LegStatusMsg(id: nat, status: LegStatus)
    | RequestMsg(id: nat)
    | ConfirmedMsg(id: nat)
    | FailedMsg(id: nat)

  // ---- small persistence steps, one commit each ------------------------------------------------

  function WithPc(w: Worker, pc: Pc): Worker
    requires w.mem.Up?
  {
    w.(mem := w.mem.(pc := pc))
  }

  /** `_persist_leg` */
  function PutLeg(w: Worker, id: nat, leg: Leg): Worker {
    w.(db := w.db.(legs := w.db.legs[id := leg]))
  }

  /** `_persist_desired` */
  function PutDesired(w: Worker, desired: Desired, confirmed: bool): Worker
    requires w.mem.Up?
  {
    w.(db := w.db.(desired := desired, confirmed := confirmed),
       mem := w.mem.(desired := desired, confirmed := confirmed))
  }

  /** `_begin_close`: the first request wins; the local timer is gone. */
  function BeginClose(w: Worker): Worker
    requires w.mem.Up?
  {
    if w.mem.attempt.None? || w.mem.desired == EmptyDesired then w
    else
      var closed := PutDesired(w, EmptyDesired, w.mem.confirmed);
      closed.(mem := closed.mem.(deadline := None))
  }

  function PutJournal(w: Worker, j: Journal): Worker {
    w.(db := w.db.(journal := j))
  }

  /** `_record_effect_observation`: only an unresolved row is completed; nothing is ever resent. */
  function Observe(w: Worker, e: EffectId, v: Evidence): Worker {
    if J.IsUnresolved(w.db.journal, e) then
      var r := J.Complete(w.db.journal, e, J.Observed, v);
      if r.Ok? then PutJournal(w, r.value) else w
    else w
  }

  /** `_set_needs_human` */
  function Latch(w: Worker): Worker {
    w.(db := w.db.(needsHuman := true))
  }

  predicate AccountFlat(w: Worker) {
    w.broker.holdings == map[]
  }
}
