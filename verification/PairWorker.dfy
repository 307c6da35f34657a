/**
  One Worker's handlers as micro-steps (abt/pair_cell.py, live mode).

  A handler is a path through `Pc`: every step is one durable write, one relay send, one broker call
  or one broker read.  A step that is not enabled leaves the Worker alone, so every list of actions
  is a run.  Choices the source leaves to its environment are arguments of the step.
*/
module PairWorker {
  import opened Prelude
  import opened PairState
  import J = EffectJournal

  /** What a broker may do to a market entry, besides opening exactly the requested position or
      opening nothing. */
  datatype Config = Config(
    exposesOnReject: bool,   // a non-success receipt may come with exposure (retcode 10010)
    partialFills: bool,      // a position smaller than requested (IOC filling)
    restingOrders: bool,     // a pending order that fills later
    timeout: nat)
  {
    predicate Conclusive() {
      !exposesOnReject && !partialFills && !restingOrders
    }
  }

  datatype Exposure = NoExposure | FullPosition | PartialPosition(volume: nat) | RestingOrder

  datatype Decision = Grant | NoItem | Refuse(result: WriteResult)

  datatype Choice =
    | Proceed
    | Schedule(decision: Decision)
    | Outcome(reply: Reply, exposure: Exposure, removed: bool)
    | Pick(ticket: nat, flag: bool)

  datatype Move =
    | Create(attempt: Attempt)
    | Advance(choice: Choice)
    | RequestClose
    | ReadPositions
    | Finalize
    | Probe
    | Confirm(ownStops: bool, peerStops: bool)
    | Protect(executable: bool, sl: int, tp: int)
    | DeclareActive
    | ClearStop
    | StopLoudly
    | Crash
    | Boot
    | Tick
    // the broker moves on its own
    | FillOrder(ticket: nat)
    | StopOut(ticket: nat)

  datatype Stepped = Stepped(w: Worker, out: seq<Msg>)

  function Quiet(w: Worker): Stepped {
    Stepped(w, [])
  }

  predicate IdleWith(w: Worker) {
    w.mem.Up? && w.mem.pc == Idle && w.mem.attempt.Some? && w.mem.attempt.value.id in w.db.legs
  }

  // ---- jobs ------------------------------------------------------------------------------------

  function EntryPayload(att: Attempt, r: Role): Payload {
    Market(att.symbol, att.lots, att.DirectionOf(r))
  }

  function JobEffect(job: Job, id: nat): EffectId {
    match job
    case EntryJob => Entry(id)
    case ProtectionJob(_, _) => Protection(id)
    case RollbackJob(_, _) => Rollback(id)
    case ContainJob(e, _) => e
  }

  function JobPayload(job: Job, att: Attempt, r: Role, leg: Leg): Payload {
    match job
    case EntryJob => EntryPayload(att, r)
    case ProtectionJob(sl, tp) => ModifyStops(leg.ticket, sl, tp)
    case RollbackJob(sl, tp) => ModifyStops(leg.ticket, sl, tp)
    case ContainJob(_, p) => p
  }

  // ---- leader: one new attempt -----------------------------------------------------------------

  /** `_maybe_create_attempt`: ready, flat, nothing unresolved in memory; then the row. */
  function CreateAttempt(r: Role, w: Worker, att: Attempt): Worker {
    if r == Leader && w.mem.Up? && w.mem.pc == Idle && w.mem.attempt.None? && !w.db.needsHuman
       && AccountFlat(w) && att.id !in w.db.attempts
    then AdoptAttempt(w, att)
    else w
  }

  /** `self._attempt = attempt; self._persist_attempt(attempt)` */
  function AdoptAttempt(w: Worker, att: Attempt): Worker
    requires w.mem.Up?
  {
    w.(db := w.db.(attempts := w.db.attempts[att.id := AttemptRow(att, None)], latest := Some(att.id)),
       mem := w.mem.(attempt := Some(att), pc := NewRow))
  }

  // ---- the micro-steps of entry ----------------------------------------------------------------

  function StepNewRow(w: Worker): Worker
    requires w.mem.Up?
  {
    WithPc(PutDesired(w, ActiveDesired, w.mem.confirmed), DesiredSaved)
  }

  function StepDesiredSaved(w: Worker, id: nat): Worker
    requires w.mem.Up?
  {
    WithPc(PutLeg(w, id, NewLeg), LegSaved)
  }

  function StepLegSaved(r: Role, w: Worker, att: Attempt): Worker
    requires w.mem.Up?
  {
    match J.Prepare(w.db.journal, Entry(att.id), EntryPayload(att, r))
    case Ok((_, j)) => WithPc(PutJournal(w, j), EffectPrepared)
    case Err(_) =>
      if att.id in w.db.legs then
        WithPc(PutLeg(w, att.id, w.db.legs[att.id].(entryStatus := Rejected)), Reporting(StRejected, false, true))
      else w
  }

  /** `_start_timer`; only the leader goes on to relay. */
  function StepEffectPrepared(cfg: Config, r: Role, w: Worker): Worker
    requires w.mem.Up?
  {
    w.(mem := w.mem.(deadline := Some(w.clock + cfg.timeout), pc := if r == Leader then TimerArmed else RelaySent))
  }

  function StepTimerArmed(w: Worker, id: nat): Worker
    requires w.mem.Up? && id in w.db.legs
  {
    WithPc(PutLeg(w, id, w.db.legs[id].(attemptRelayed := true)), RelayIntended)
  }

  function StepRelaySent(w: Worker, id: nat): Worker
    requires w.mem.Up? && id in w.db.legs
  {
    WithPc(PutLeg(w, id, w.db.legs[id].(entryDispatched := true)), Write(EntryJob, Admit))
  }

  // ---- the micro-steps of `_run_broker_write` --------------------------------------------------

  function StepAdmit(w: Worker, job: Job, e: EffectId, d: Decision): Worker
    requires w.mem.Up?
  {
    match d
    case Grant => WithPc(w, Write(job, Granted))
    case NoItem => WithPc(w, Write(job, Done(Unclear)))
    case Refuse(result) =>
      if result in {Refused, NeverStarted, Unclear}
      then WithPc(Observe(w, e, NotStarted), Write(job, Done(result)))
      else w
  }

  function StepGranted(w: Worker, job: Job, e: EffectId): Worker
    requires w.mem.Up?
  {
    match J.MarkSendStarted(w.db.journal, e)
    case Ok(j) => WithPc(PutJournal(w, j), Write(job, Started))
    case Err(_) => WithPc(w, Write(job, Done(Unclear)))
  }

  /** Whether the broker may answer an entry of `lots` this way. */
  predicate EntryAnswer(cfg: Config, lots: nat, reply: Reply, exposure: Exposure) {
    match exposure
    case NoExposure => true
    case FullPosition => reply != Answered(false) || cfg.exposesOnReject
    case PartialPosition(v) => 0 < v < lots && (if reply == Answered(false) then cfg.exposesOnReject else cfg.partialFills)
    case RestingOrder => if reply == Answered(false) then cfg.exposesOnReject else cfg.restingOrders
  }

  /** `order_send` itself. */
  function CallBroker(b: Broker, e: EffectId, p: Payload, exposure: Exposure, removed: bool): Broker {
    var called := b.(calls := b.calls[e := CallsOf(b, e) + [p]]);
    match p
    case Market(symbol, volume, direction) =>
      if exposure == NoExposure then called
      else
        var v := if exposure.PartialPosition? then exposure.volume else volume;
        called.(holdings := called.holdings[b.nextTicket := Holding(e.attempt, symbol, direction, v, exposure.RestingOrder?)],
                nextTicket := b.nextTicket + 1,
                filledFor := if exposure.FullPosition? then b.filledFor + {e.attempt} else b.filledFor)
    case ModifyStops(_, _, _) => called
    case CancelOrder(t) => if removed then called.(holdings := called.holdings - {t}) else called
    case ClosePosition(t, _) => if removed then called.(holdings := called.holdings - {t}) else called
  }

  function StepStarted(cfg: Config, w: Worker, job: Job, e: EffectId, p: Payload, reply: Reply, exposure: Exposure, removed: bool): Worker
    requires w.mem.Up?
  {
    if p.Market? && !EntryAnswer(cfg, p.volume, reply, exposure) then w
    else WithPc(w.(broker := CallBroker(w.broker, e, p, exposure, removed)), Write(job, Returned(reply)))
  }

  function StepReturned(w: Worker, job: Job, e: EffectId, reply: Reply): Worker
    requires w.mem.Up?
  {
    match reply
    case NoReceipt => WithPc(w, Write(job, Done(Unclear)))
    case Answered(ok) =>
      match J.Complete(w.db.journal, e, J.HasReceipt, Receipt(ok))
      case Ok(j) => WithPc(PutJournal(w, j), Write(job, Done(if ok then Completed else RejectedByBroker)))
      case Err(_) => WithPc(w, Write(job, Done(Unclear)))
  }

  /** `_send_entry` after the write. */
  function EntryOutcome(leg: Leg, result: WriteResult): (Leg, Pc) {
    match result
    case Completed => (leg.(entryStatus := Sent), Reporting(StSent, false, false))
    case RejectedByBroker => (leg.(entryStatus := Rejected), Reporting(StRejected, true, true))
    case Refused => (leg.(entryStatus := Rejected), Reporting(StRejected, true, true))
    case NeverStarted => (leg.(entryStatus := ExpiredNotStarted), Reporting(StExpired, true, true))
    case Unclear => (leg.(entryStatus := UnknownAfterSend), Idle)
  }

  /** `_freeze_or_fallback_protection` */
  function FreezeOrFallback(leg: Leg): (Leg, Pc) {
    if leg.protection == Precise
    then (leg.(protection := Frozen), Reporting(StFrozen, false, false))
    else (leg.(protection := Fallback), Reporting(StFallback, false, false))
  }

  /** What the caller of `_run_broker_write` does to its leg with the result. */
  function AfterWrite(job: Job, leg: Leg, result: WriteResult): (Leg, Pc) {
    match job
    case EntryJob => EntryOutcome(leg, result)
    case ProtectionJob(_, _) =>
      if result == Completed then (leg.(protection := Precise), Reporting(StPrecise, false, false)) else FreezeOrFallback(leg)
    case RollbackJob(_, _) =>
      if result == Completed then (leg.(protection := Fallback), Reporting(StFallback, false, false)) else (leg, Closing)
    case ContainJob(_, _) => (leg, Idle)
  }

  /** A containment write that ends neither completed nor broker-rejected stops loudly. */
  function StepDone(w: Worker, job: Job, id: nat, result: WriteResult): Worker
    requires w.mem.Up? && id in w.db.legs
  {
    var (leg, pc) := AfterWrite(job, w.db.legs[id], result);
    var done := WithPc(PutLeg(w, id, leg), pc);
    if job.ContainJob? && result !in {Completed, RejectedByBroker} then Latch(done) else done
  }

  function StepWrite(cfg: Config, r: Role, w: Worker, att: Attempt, job: Job, stage: Stage, c: Choice): Worker
    requires w.mem.Up? && att.id in w.db.legs
  {
    var e := JobEffect(job, att.id);
    match stage
    case Admit => if c.Schedule? then StepAdmit(w, job, e, c.decision) else w
    case Granted => StepGranted(w, job, e)
    case Started =>
      if c.Outcome?
      then StepStarted(cfg, w, job, e, JobPayload(job, att, r, w.db.legs[att.id]), c.reply, c.exposure, c.removed)
      else w
    case Returned(reply) => StepReturned(w, job, e, reply)
    case Done(result) => StepDone(w, job, att.id, result)
  }

  // ---- one broker snapshot ---------------------------------------------------------------------

  /** Entry attribution in `_apply_broker_snapshot`: a unique exact match is the fill, several are
      ambiguous, none resolves an unknown send as absent.  `t` names the unique match when there is one. */
  function AttributeEntry(r: Role, leg: Leg, att: Attempt, ps: Holdings, t: nat, consistent: bool): Option<(Leg, Verdict)> {
    var m := Matches(ps, att, r);
    if leg.entryStatus !in {Sent, UnknownAfterSend} then Some((leg, NoChange))
    else if m == {} then
      if leg.entryStatus == UnknownAfterSend then Some((leg.(entryStatus := Rejected), SeenAbsent)) else Some((leg, NoChange))
    else if m == {t} then
      Some((leg.(ticket := Some(t), entryStatus := Filled), if consistent then SeenFilled else SeenInconsistent))
    else if t in m then None
    else Some((leg, SeenAmbiguous))
  }

  function StepSeen(r: Role, w: Worker, att: Attempt, ps: Holdings, os: Holdings, t: nat, consistent: bool): Worker
    requires w.mem.Up? && att.id in w.db.legs
  {
    match AttributeEntry(r, w.db.legs[att.id], att, ps, t, consistent)
    case None => w
    case Some((leg, verdict)) => WithPc(PutLeg(w, att.id, leg), Attributed(ps, os, verdict))
  }

  /** The journal learns what the snapshot proved about the entry effect. */
  function StepAttributed(w: Worker, id: nat, ps: Holdings, os: Holdings, v: Verdict): Worker
    requires w.mem.Up?
  {
    var seen :=
      if v in {SeenFilled, SeenInconsistent} then Observe(w, Entry(id), PositionSeen)
      else if v == SeenAbsent then Observe(w, Entry(id), AbsenceSeen)
      else w;
    WithPc(seen, Recorded(ps, os, v))
  }

  /** The report that goes with the verdict. */
  function VerdictMessages(r: Role, att: Attempt, v: Verdict): seq<Msg> {
    match v
    case NoChange => []
    case SeenFilled => [LegStatusMsg(att.id, StFilled(att.symbol, att.DirectionOf(r), att.lots))]
    case SeenInconsistent => [LegStatusMsg(att.id, StInconsistent), FailedMsg(att.id)]
    case SeenAbsent => [LegStatusMsg(att.id, StRejected), FailedMsg(att.id)]
    case SeenAmbiguous => []
  }

  /** What the snapshot tells the journal about effects on the owned ticket. */
  function ObservedTicket(w: Worker, id: nat, ps: Holdings): Worker
    requires id in w.db.legs
  {
    var leg := w.db.legs[id];
    if leg.ticket.None? then w
    else if leg.ticket.value in ps then Observe(w, Protection(id), PositionSeen)
    else Observe(Observe(w, Protection(id), AbsenceSeen), Close(id, leg.ticket.value), AbsenceSeen)
  }

  /** Protection and close effects of the owned ticket become observable, then every reason to
      close that a snapshot can give. */
  function StepObserving(w: Worker, id: nat, ps: Holdings, os: Holdings, v: Verdict, mismatch: bool): Worker
    requires w.mem.Up? && id in w.db.legs
  {
    var leg := w.db.legs[id];
    var seen := ObservedTicket(w, id, ps);
    var gone := leg.ticket.Some? && leg.ticket.value !in ps && leg.entryStatus == Filled && !leg.emptyVerified;
    var diverged := leg.ticket.Some? && leg.ticket.value in ps && leg.protection != Rough && mismatch;
    var next := if v in {SeenInconsistent, SeenAbsent, SeenAmbiguous} || gone || diverged then BeginClose(seen) else seen;
    WithPc(next, Converging(ps, os))
  }

  /** `_journaled_emergency_write` up to the broker write. */
  function StartContainment(w: Worker, e: EffectId, p: Payload): Worker
    requires w.mem.Up?
  {
    match J.Prepare(w.db.journal, e, p)
    case Err(_) => WithPc(Latch(w), Idle)
    case Ok((state, j)) =>
      if state == J.Prepared then WithPc(PutJournal(w, j), Write(ContainJob(e, p), Admit))
      else if state == J.SendStarted then WithPc(Latch(w), Idle)
      else WithPc(w, Idle)
  }

  datatype Convergence =
    | NotConverging
    | Contain(effect: EffectId, payload: Payload)
    | Unattributable
    | VerifiedEmpty
    | Undecided  // `t` must name one of the orders to cancel

  /** `_advance_convergence`: cancel first, then close the one attributed ticket, then either stop
      loudly or, on a flat account, record empty.  `t` is the first order of the attempt's symbol. */
  function Converge(desired: Desired, stopped: bool, leg: Leg, att: Attempt, ps: Holdings, os: Holdings, t: nat): Convergence {
    if desired != EmptyDesired then NotConverging
    else if exists o :: o in os && os[o].symbol == att.symbol then
      if t in os && os[t].symbol == att.symbol then Contain(Cancel(att.id, t), CancelOrder(t)) else Undecided
    else if leg.ticket.Some? && leg.ticket.value in ps then
      if stopped then NotConverging
      else Contain(Close(att.id, leg.ticket.value), ClosePosition(leg.ticket.value, ps[leg.ticket.value].volume))
    else if ps != map[] || os != map[] then Unattributable
    else if leg.emptyVerified then NotConverging
    else VerifiedEmpty
  }

  function StepConverging(w: Worker, att: Attempt, ps: Holdings, os: Holdings, t: nat): Worker
    requires w.mem.Up? && att.id in w.db.legs
  {
    match Converge(w.mem.desired, w.db.needsHuman, w.db.legs[att.id], att, ps, os, t)
    case NotConverging => WithPc(w, Idle)
    case Contain(e, p) => StartContainment(w, e, p)
    case Unattributable => WithPc(Latch(w), Idle)
    case VerifiedEmpty => WithPc(PutLeg(w, att.id, w.db.legs[att.id].(emptyVerified := true)), Reporting(StEmpty, false, false))
    case Undecided => w
  }

  // ---- restart ---------------------------------------------------------------------------------

  /** `_load_persisted_state`: only the most recent attempt row, and only while it is not terminal;
      the single desired-state row is applied whatever attempt wrote it. */
  function Load(db: Db): Memory {
    if db.latest.Some? && db.latest.value in db.attempts && db.attempts[db.latest.value].terminal.None? then
      var id := db.latest.value;
      Up(Some(db.attempts[id].attempt), if id in db.peerLegs then db.peerLegs[id] else StUnknown,
         db.desired, db.confirmed, 0, None, Recovering)
    else
      Up(None, StUnknown, NoDesire, false, 0, None, Recovering)
  }

  function Terminate(w: Worker, id: nat, reason: TerminalReason): Worker
    requires id in w.db.attempts
  {
    w.(db := w.db.(attempts := w.db.attempts[id := w.db.attempts[id].(terminal := Some(reason))]))
  }

  /** `_reconcile_entry_effect_state`: the journal, not the leg, is the authority on whether the send
      boundary may have been crossed.  Nothing is ever resent. */
  function ReconcileEntry(j: Journal, e: EffectId, leg: Leg): (Leg, Pc) {
    if leg.entryStatus != Pending then (leg, RecoverClose)
    else if J.IsUnresolved(j, e) then
      if j[e].state == J.Prepared then (leg.(entryStatus := ExpiredNotStarted), RecoverObserve)
      else (leg.(entryStatus := UnknownAfterSend, entryDispatched := true), RecoverClose)
    else if J.Evidence(j, e).Ok? then (leg.(entryStatus := UnknownAfterSend, entryDispatched := true), RecoverClose)
    else (leg.(entryStatus := ExpiredNotStarted), RecoverClose)
  }

  /** `recover`, first half: an attempt without a leg row provably did nothing. */
  function StepRecovering(w: Worker): Worker
    requires w.mem.Up?
  {
    if w.mem.attempt.None? then WithPc(w, Idle)
    else
      var id := w.mem.attempt.value.id;
      if id in w.db.legs then
        var (leg, pc) := ReconcileEntry(w.db.journal, Entry(id), w.db.legs[id]);
        WithPc(PutLeg(w, id, leg), pc)
      else if id in w.db.attempts then WithPc(Terminate(w, id, NoLocalEffect), Resetting)
      else w
  }

  /** `_recovered_state() == "ACTIVE"` */
  predicate RecoversActive(w: Worker, id: nat)
    requires w.mem.Up? && id in w.db.legs
  {
    w.db.legs[id].entryStatus != UnknownAfterSend && w.mem.desired != EmptyDesired
    && w.db.legs[id].protection != Rough && id in w.db.active
  }

  function StepRecoverClose(w: Worker, id: nat): Worker
    requires w.mem.Up? && id in w.db.legs
  {
    WithPc(if RecoversActive(w, id) then w else BeginClose(w), Idle)
  }

  /** `_reset_attempt` */
  function StepResetting(w: Worker): Worker
    requires w.mem.Up?
  {
    w.(db := w.db.(desired := NoDesire, confirmed := false),
       mem := Up(None, StUnknown, NoDesire, false, 0, None, Idle))
  }

  // ---- following up a peer status --------------------------------------------------------------

  function StepPeerNoted(w: Worker, id: nat, f: FollowUp): Worker
    requires w.mem.Up? && id in w.db.legs
  {
    match f
    case NoFollowUp => WithPc(w, Idle)
    case CloseFollow => WithPc(BeginClose(w), Idle)
    case FreezeFollow =>
      if w.db.legs[id].protection == Precise
      then WithPc(PutLeg(w, id, w.db.legs[id].(protection := Frozen)), Reporting(StFrozen, false, false))
      else WithPc(w, Idle)
    case RollbackFollow(sl, tp) =>
      if w.db.legs[id].protection != Precise then WithPc(w, Idle)
      else
        match J.Prepare(w.db.journal, Rollback(id), ModifyStops(w.db.legs[id].ticket, sl, tp))
        case Err(_) => WithPc(w, Closing)
        case Ok((_, j)) => WithPc(PutJournal(w, j), Write(RollbackJob(sl, tp), Admit))
  }

  // ---- one step of whatever handler is running -------------------------------------------------

  function AdvanceStep(cfg: Config, r: Role, w: Worker, c: Choice): Stepped {
    if w.mem.Down? then Quiet(w)
    else
      match w.mem.pc
      case Idle => Quiet(w)
      case Recovering => Quiet(StepRecovering(w))
      case Resetting => Quiet(StepResetting(w))
      case RejectReport(id) => Stepped(WithPc(w, Idle), [LegStatusMsg(id, StRejected)])
      case _ => if w.mem.attempt.None? then Quiet(w) else AdvanceAttempt(cfg, r, w, w.mem.attempt.value, c)
  }

  /** The points of the entry path before its broker write. */
  predicate EntryPc(pc: Pc) {
    pc.NewRow? || pc.DesiredSaved? || pc.LegSaved? || pc.EffectPrepared? || pc.TimerArmed? || pc.RelayIntended? || pc.RelaySent?
  }

  predicate SnapshotPc(pc: Pc) {
    pc.Looking? || pc.Seen? || pc.Attributed? || pc.Recorded? || pc.Observing? || pc.Converging?
  }

  function AdvanceEntry(cfg: Config, r: Role, w: Worker, att: Attempt): Stepped
    requires w.mem.Up?
  {
    var id := att.id;
    if w.mem.pc == NewRow then Quiet(StepNewRow(w))
    else if w.mem.pc == DesiredSaved then Quiet(StepDesiredSaved(w, id))
    else if id !in w.db.legs then Quiet(w)
    else
      match w.mem.pc
      case LegSaved => Quiet(StepLegSaved(r, w, att))
      case EffectPrepared => Quiet(StepEffectPrepared(cfg, r, w))
      case TimerArmed => Quiet(StepTimerArmed(w, id))
      case RelayIntended => Stepped(WithPc(w, RelaySent), [AttemptMsg(att)])
      case RelaySent => Quiet(StepRelaySent(w, id))
      case _ => Quiet(w)
  }

  function AdvanceSnapshot(r: Role, w: Worker, att: Attempt, c: Choice): Stepped
    requires w.mem.Up? && att.id in w.db.legs
  {
    match w.mem.pc
    case Looking(ps) => Quiet(WithPc(w, Seen(ps, Orders(w.broker.holdings))))
    case Seen(ps, os) => Quiet(if c.Pick? then StepSeen(r, w, att, ps, os, c.ticket, c.flag) else w)
    case Attributed(ps, os, v) => Quiet(StepAttributed(w, att.id, ps, os, v))
    case Recorded(ps, os, v) => Stepped(WithPc(w, Observing(ps, os, v)), VerdictMessages(r, att, v))
    case Observing(ps, os, v) => Quiet(if c.Pick? then StepObserving(w, att.id, ps, os, v, c.flag) else w)
    case Converging(ps, os) => Quiet(if c.Pick? then StepConverging(w, att, ps, os, c.ticket) else w)
    case _ => Quiet(w)
  }

  function AdvanceRest(w: Worker, id: nat): Stepped
    requires w.mem.Up? && id in w.db.legs
  {
    match w.mem.pc
    case Reporting(status, notify, close) =>
      Stepped(WithPc(w, if close then Closing else Idle),
              if notify then [LegStatusMsg(id, status), FailedMsg(id)] else [LegStatusMsg(id, status)])
    case Closing => Quiet(WithPc(BeginClose(w), Idle))
    case FailNotice => Stepped(WithPc(w, Closing), [FailedMsg(id)])
    case ConfirmSend => Stepped(WithPc(w, Idle), [ConfirmedMsg(id)])
    case PeerNoted(f) => Quiet(StepPeerNoted(w, id, f))
    case RecoverObserve => Quiet(WithPc(Observe(w, Entry(id), NotStarted), RecoverClose))
    case RecoverClose => Quiet(StepRecoverClose(w, id))
    case _ => Quiet(w)
  }

  function AdvanceAttempt(cfg: Config, r: Role, w: Worker, att: Attempt, c: Choice): Stepped
    requires w.mem.Up?
  {
    if EntryPc(w.mem.pc) then AdvanceEntry(cfg, r, w, att)
    else if att.id !in w.db.legs then Quiet(w)
    else if w.mem.pc.Write? then Quiet(StepWrite(cfg, r, w, att, w.mem.pc.job, w.mem.pc.stage, c))
    else if SnapshotPc(w.mem.pc) then AdvanceSnapshot(r, w, att, c)
    else AdvanceRest(w, att.id)
  }

  // ---- decisions taken between handlers --------------------------------------------------------

  /** `_peer_send_possible` */
  predicate PeerSendPossible(r: Role, w: Worker, id: nat)
    requires w.mem.Up? && id in w.db.legs
  {
    if IsTerminalStatus(w.mem.peer) then false
    else if w.mem.peer != StUnknown then true
    else !(r == Leader && !w.db.legs[id].attemptRelayed)
  }

  /** `_maybe_finalize_empty` up to the durable terminal row. */
  function FinalizeStep(r: Role, w: Worker): Worker {
    if IdleWith(w) then
      var id := w.mem.attempt.value.id;
      if w.db.legs[id].emptyVerified && !PeerSendPossible(r, w, id) && id in w.db.attempts
      then WithPc(Terminate(w, id, BothEmptyVerified), Resetting)
      else w
    else w
  }

  /** `_send_proof_probe`: report own empty, ask for the peer's position. */
  function ProbeStep(r: Role, w: Worker): Stepped {
    if IdleWith(w) && w.db.legs[w.mem.attempt.value.id].emptyVerified
       && PeerSendPossible(r, w, w.mem.attempt.value.id)
    then
      Stepped(w.(mem := w.mem.(probes := w.mem.probes + 1)),
              [LegStatusMsg(w.mem.attempt.value.id, StEmpty), RequestMsg(w.mem.attempt.value.id)])
    else Quiet(w)
  }

  /** `_maybe_emit_pair_confirmation`: exact own evidence, then exact peer evidence or a close. */
  function ConfirmStep(r: Role, w: Worker, ownStops: bool, peerStops: bool): Worker {
    if r == Leader && IdleWith(w) && !w.db.needsHuman && !w.mem.confirmed && w.mem.desired == ActiveDesired then
      var att := w.mem.attempt.value;
      var leg := w.db.legs[att.id];
      if leg.entryStatus == Filled && leg.ticket.Some? && ownStops && w.mem.peer.StFilled? then
        if w.mem.peer == StFilled(att.symbol, att.DirectionOf(Follower), att.lots) && peerStops
        then
          var c := PutDesired(w, ActiveDesired, true);
          c.(mem := c.mem.(deadline := None, pc := ConfirmSend))
        else WithPc(w, FailNotice)
      else w
    else w
  }

  /** `_maybe_apply_precise_protection`: once, from rough protection only. */
  function ProtectStep(w: Worker, executable: bool, sl: int, tp: int): Worker {
    if IdleWith(w) && !w.db.needsHuman && w.mem.confirmed && w.mem.desired == ActiveDesired
       && w.db.legs[w.mem.attempt.value.id].protection == Rough
    then
      var id := w.mem.attempt.value.id;
      var (fallback, pc) := FreezeOrFallback(w.db.legs[id]);
      if !executable then WithPc(PutLeg(w, id, fallback), pc)
      else
        match J.Prepare(w.db.journal, Protection(id), ModifyStops(w.db.legs[id].ticket, sl, tp))
        case Err(_) => WithPc(PutLeg(w, id, fallback), pc)
        case Ok((_, j)) => WithPc(PutJournal(w, j), Write(ProtectionJob(sl, tp), Admit))
    else w
  }

  /** `_maybe_declare_active` */
  function DeclareActiveStep(w: Worker): Worker {
    if IdleWith(w) && !w.db.needsHuman && w.mem.confirmed && w.mem.desired == ActiveDesired then
      var id := w.mem.attempt.value.id;
      var p := w.db.legs[id].protection;
      if (p == Precise && w.mem.peer == StPrecise) || (p == Fallback && w.mem.peer == StFallback)
         || (p == Frozen && w.mem.peer == StFrozen)
      then w.(db := w.db.(active := w.db.active + {id}))
      else w
    else w
  }

  /** A latched stop clears only with no attempt in memory or on a flat account. */
  function ClearStopStep(w: Worker): Worker {
    if w.mem.Up? && w.mem.pc == Idle && (w.mem.attempt.None? || AccountFlat(w))
    then w.(db := w.db.(needsHuman := false))
    else w
  }

  function FillOrderStep(w: Worker, t: nat): Worker {
    if t in w.broker.holdings && w.broker.holdings[t].resting then
      var h := w.broker.holdings[t];
      w.(broker := w.broker.(holdings := w.broker.holdings[t := h.(resting := false)],
                             filledFor := w.broker.filledFor + {h.attempt}))
    else w
  }

  function MoveStep(cfg: Config, r: Role, w: Worker, m: Move): Stepped {
    match m
    case Create(att) => Quiet(CreateAttempt(r, w, att))
    case Advance(c) => AdvanceStep(cfg, r, w, c)
    case RequestClose => Quiet(if IdleWith(w) then BeginClose(w) else w)
    case ReadPositions => Quiet(if IdleWith(w) then WithPc(w, Looking(Positions(w.broker.holdings))) else w)
    case Finalize => Quiet(FinalizeStep(r, w))
    case Probe => ProbeStep(r, w)
    case Confirm(own, peer) => Quiet(ConfirmStep(r, w, own, peer))
    case Protect(x, sl, tp) => Quiet(ProtectStep(w, x, sl, tp))
    case DeclareActive => Quiet(DeclareActiveStep(w))
    case ClearStop => Quiet(ClearStopStep(w))
    case StopLoudly => Quiet(if w.mem.Up? && w.mem.pc == Idle then Latch(w) else w)
    case Crash => Quiet(w.(mem := Down))
    case Boot => Quiet(if w.mem.Down? then w.(mem := Load(w.db)) else w)
    case Tick => Quiet(w.(clock := w.clock + 1))
    case FillOrder(t) => Quiet(FillOrderStep(w, t))
    case StopOut(t) => Quiet(w.(broker := w.broker.(holdings := w.broker.holdings - {t})))
  }

  // ---- receiving one message -------------------------------------------------------------------

  /** `_terminal_status_for` */
  function TerminalStatus(reason: TerminalReason): LegStatus {
    if reason == AdmissionRejected then StRejected else StEmpty
  }

  /** `_report_current_leg_status` */
  function CurrentStatus(att: Attempt, r: Role, leg: Leg): LegStatus {
    if leg.emptyVerified then StEmpty
    else if leg.protection == Precise then StPrecise
    else
      match leg.entryStatus
      case Pending => StPending
      case Sent => StSent
      case Rejected => StRejected
      case ExpiredNotStarted => StExpired
      case UnknownAfterSend => StUnknownAfterSend
      case Filled => StFilled(att.symbol, att.DirectionOf(r), att.lots)
  }

  predicate CurrentIs(w: Worker, id: nat) {
    w.mem.Up? && w.mem.attempt.Some? && w.mem.attempt.value.id == id
  }

  /** `_answer_leg_status`; with no leg the current attempt is not reported. */
  function Answer(r: Role, w: Worker, id: nat, allowNoRecord: bool): seq<Msg> {
    if CurrentIs(w, id) then
      if id in w.db.legs then [LegStatusMsg(id, CurrentStatus(w.mem.attempt.value, r, w.db.legs[id]))] else []
    else if id !in w.db.attempts then
      if allowNoRecord then [LegStatusMsg(id, StNoRecord)] else []
    else if w.db.attempts[id].terminal.Some? then [LegStatusMsg(id, TerminalStatus(w.db.attempts[id].terminal.value))]
    else []
  }

  /** `_persist_rejected_attempt`: the durable proof that this id never touched the broker here. */
  function RefuseAttempt(w: Worker, att: Attempt): Worker
    requires w.mem.Up?
  {
    w.(db := w.db.(attempts := w.db.attempts[att.id := AttemptRow(att, Some(AdmissionRejected))], latest := Some(att.id)),
       mem := w.mem.(pc := RejectReport(att.id)))
  }

  /** `_handle_attempt`: a known id replays its durable outcome; an unknown one is refused durably
      or admitted, and an unresolved, stopped or exposed Worker must refuse. */
  function ReceiveAttempt(r: Role, w: Worker, att: Attempt, admit: bool): Stepped
    requires w.mem.Up?
  {
    if r != Follower then Quiet(w)
    else if att.id in w.db.attempts then
      if w.db.attempts[att.id].attempt != att then Stepped(w, [LegStatusMsg(att.id, StRejected)])
      else Stepped(w, Answer(r, w, att.id, false))
    else if admit && w.mem.attempt.None? && !w.db.needsHuman && AccountFlat(w) then Quiet(AdoptAttempt(w, att))
    else Quiet(RefuseAttempt(w, att))
  }

  function FollowUpOf(s: LegStatus, sl: int, tp: int): FollowUp {
    match s
    case StRejected => CloseFollow
    case StExpired => CloseFollow
    case StInconsistent => CloseFollow
    case StNoRecord => CloseFollow
    case StEmpty => CloseFollow
    case StFallback => RollbackFollow(sl, tp)
    case StFrozen => FreezeFollow
    case _ => NoFollowUp
  }

  /** `_handle_peer_leg_status`; an unsolicited absence claim proves nothing. */
  function ReceiveLegStatus(r: Role, w: Worker, id: nat, s: LegStatus, sl: int, tp: int): Stepped
    requires w.mem.Up?
  {
    if !CurrentIs(w, id) then
      Stepped(w.(db := w.db.(peerLegs := w.db.peerLegs[id := s])),
              if IsTerminalStatus(s) then [] else Answer(r, w, id, false))
    else if s == StNoRecord && w.mem.probes == 0 then Quiet(w)
    else
      Quiet(w.(db := w.db.(peerLegs := w.db.peerLegs[id := s]),
               mem := w.mem.(peer := s, pc := if id in w.db.legs then PeerNoted(FollowUpOf(s, sl, tp)) else Idle)))
  }

  /** `_handle_pair_entry_confirmed`: only before the local receipt timer runs out. */
  function ReceiveConfirmed(r: Role, w: Worker, id: nat): Worker
    requires w.mem.Up?
  {
    if r != Follower || !CurrentIs(w, id) || id !in w.db.legs then w
    else if w.mem.desired != ActiveDesired || w.db.needsHuman then w
    else if w.mem.deadline.None? || w.clock >= w.mem.deadline.value then BeginClose(w)
    else
      var c := PutDesired(w, ActiveDesired, true);
      c.(mem := c.mem.(deadline := None))
  }

  datatype Reading = Reading(admit: bool, sl: int, tp: int)

  /** A message is handled only between handlers of a running Worker. */
  predicate CanReceive(w: Worker) {
    w.mem.Up? && w.mem.pc == Idle
  }

  function Receive(r: Role, w: Worker, m: Msg, how: Reading): Stepped {
    if !CanReceive(w) then Quiet(w)
    else
      match m
      case AttemptMsg(att) => ReceiveAttempt(r, w, att, how.admit)
      case LegStatusMsg(id, s) => ReceiveLegStatus(r, w, id, s, how.sl, how.tp)
      case RequestMsg(id) => Stepped(w, Answer(r, w, id, true))
      case ConfirmedMsg(id) => Quiet(ReceiveConfirmed(r, w, id))
      case FailedMsg(id) => Quiet(if CurrentIs(w, id) then BeginClose(w) else w)
  }
}
