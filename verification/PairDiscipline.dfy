/**
  What every micro-step of a Worker keeps, whatever the broker does: the write-ahead order, at most
  one broker call per effect, and truthful restart classification.
*/
module PairDiscipline {
  import opened Prelude
  import opened PairState
  import opened PairWorker
  import J = EffectJournal

  // ---- the invariant ---------------------------------------------------------------------------

  /** The broker was called at most once for `e`, only past a durable send boundary, and with the
      payload that was journaled. */
  predicate EffectOk(w: Worker, e: EffectId) {
    var calls := CallsOf(w.broker, e);
    if e in w.db.journal then
      && e.attempt in w.db.legs
      && |calls| <= 1
      && (calls != [] ==> w.db.journal[e].state != J.Prepared && calls[0] == w.db.journal[e].payload)
      && (w.db.journal[e].state in {J.HasReceipt, J.Observed} ==> w.db.journal[e].evidence.Some?)
    else calls == []
  }

  /** What a journaled payload says, by kind of effect: one entry order per attempt, and a close only
      of the ticket attributed to the attempt. */
  predicate PayloadOk(r: Role, w: Worker, e: EffectId) {
    e in w.db.journal && e.attempt in w.db.legs && e.attempt in w.db.attempts ==>
      match e
      case Entry(id) => w.db.journal[e].payload == EntryPayload(w.db.attempts[id].attempt, r)
      case Protection(id) => w.db.journal[e].payload.ModifyStops?
      case Rollback(id) => w.db.journal[e].payload.ModifyStops?
      case Cancel(id, t) => w.db.journal[e].payload == CancelOrder(t)
      case Close(id, t) =>
        w.db.legs[id].ticket == Some(t) && w.db.journal[e].payload.ClosePosition? && w.db.journal[e].payload.ticket == t
  }

  predicate AttemptOk(w: Worker, id: nat) {
    && (id in w.db.legs ==> id in w.db.attempts)
    && (id in w.db.attempts ==> w.db.attempts[id].attempt.id == id)
    && (id in w.db.attempts && w.db.attempts[id].terminal.Some? ==>
          if w.db.attempts[id].terminal.value == BothEmptyVerified
          then id in w.db.legs && w.db.legs[id].emptyVerified
          else id !in w.db.legs)
    && (id in w.db.legs && w.db.legs[id].entryStatus == ExpiredNotStarted ==> CallsOf(w.broker, Entry(id)) == [])
    && (id in w.db.legs ==> (w.db.legs[id].ticket.Some? <==> w.db.legs[id].entryStatus == Filled))
    && (id in w.db.legs && w.db.legs[id].emptyVerified ==> w.db.legs[id].entryStatus != Pending)
  }

  /** Exposure comes only from an entry call. */
  predicate HoldingOk(w: Worker, t: nat) {
    t in w.broker.holdings ==>
      t < w.broker.nextTicket && CallsOf(w.broker, Entry(w.broker.holdings[t].attempt)) != []
  }

  predicate JobOk(r: Role, w: Worker, att: Attempt, job: Job) {
    && att.id in w.db.legs
    && (job.EntryJob? <==> w.db.legs[att.id].entryStatus == Pending)
    && (job.ContainJob? ==>
          match job.effect
          case Cancel(id, t) => id == att.id && job.payload == CancelOrder(t)
          case Close(id, t) =>
            id == att.id && w.db.legs[id].ticket == Some(t) && job.payload.ClosePosition? && job.payload.ticket == t
          case _ => false)
  }

  predicate WriteOk(r: Role, w: Worker, att: Attempt, job: Job, stage: Stage) {
    && JobOk(r, w, att, job)
    && var e := JobEffect(job, att.id);
    && e in w.db.journal
    && (stage.Admit? || stage.Granted? ==>
          && (job.EntryJob? ==> w.db.journal[e].state == J.Prepared)
          && w.db.journal[e].payload == JobPayload(job, att, r, w.db.legs[att.id]))
    && (stage.Started? ==>
          && w.db.journal[e].state == J.SendStarted && CallsOf(w.broker, e) == []
          && w.db.journal[e].payload == JobPayload(job, att, r, w.db.legs[att.id]))
    && (stage.Returned? ==> w.db.journal[e].state == J.SendStarted)
    && (stage.Done? && stage.result in {NeverStarted, Refused} && job.EntryJob? ==> CallsOf(w.broker, e) == [])
  }

  /** What holds between two micro-steps of a running handler. */
  predicate PcOk(r: Role, w: Worker) {
    w.mem.Up? ==>
      if w.mem.attempt.None? then w.mem.pc.Idle? || w.mem.pc.Recovering? || w.mem.pc.RejectReport?
      else
        var att := w.mem.attempt.value;
        && att.id in w.db.attempts
        && w.db.attempts[att.id].attempt == att
        && (w.db.attempts[att.id].terminal.Some? <==> w.mem.pc.Resetting?)
        && match w.mem.pc
           case NewRow => att.id !in w.db.legs
           case DesiredSaved => att.id !in w.db.legs
           case Recovering => true
           case Resetting => true
           case LegSaved => att.id in w.db.legs && w.db.legs[att.id] == NewLeg && Entry(att.id) !in w.db.journal
           case EffectPrepared => BeforeDispatch(r, w, att)
           case TimerArmed => BeforeDispatch(r, w, att)
           case RelayIntended => BeforeDispatch(r, w, att) && w.db.legs[att.id].attemptRelayed
           case RelaySent => BeforeDispatch(r, w, att)
           case Write(job, stage) => WriteOk(r, w, att, job, stage)
           case _ => att.id in w.db.legs && w.db.legs[att.id].entryStatus != Pending
  }

  predicate BeforeDispatch(r: Role, w: Worker, att: Attempt) {
    WriteOk(r, w, att, EntryJob, Admit)
  }

  /** The part of the invariant about durable rows and the broker. */
  ghost predicate Core(r: Role, w: Worker) {
    && (forall e :: EffectOk(w, e))
    && (forall e :: PayloadOk(r, w, e))
    && (forall id :: AttemptOk(w, id))
    && (forall t :: HoldingOk(w, t))
    && (w.db.latest.Some? ==> w.db.latest.value in w.db.attempts)
  }

  ghost predicate Discipline(r: Role, w: Worker) {
    Core(r, w) && PcOk(r, w)
  }

  // ---- what one durable write or one broker call does to `Core` --------------------------------

  predicate SameCore(w: Worker, w': Worker) {
    && w'.db.attempts == w.db.attempts && w'.db.latest == w.db.latest
    && w'.db.legs == w.db.legs && w'.db.journal == w.db.journal && w'.broker == w.broker
  }

  lemma CoreSame(r: Role, w: Worker, w': Worker)
    requires Core(r, w) && SameCore(w, w')
    ensures Core(r, w')
  {
    forall e ensures EffectOk(w', e) && PayloadOk(r, w', e) { assert EffectOk(w, e) && PayloadOk(r, w, e); }
    forall id ensures AttemptOk(w', id) { assert AttemptOk(w, id); }
    forall t ensures HoldingOk(w', t) { assert HoldingOk(w, t); }
  }

  /** A leg row may be written for a live attempt, or rewritten without losing its ticket. */
  predicate LegWrite(w: Worker, id: nat, leg: Leg) {
    && id in w.db.attempts
    && (id in w.db.legs ==> w.db.legs[id].ticket == leg.ticket || w.db.legs[id].ticket.None?)
    && w.db.attempts[id].terminal.None?
    && (leg.entryStatus == ExpiredNotStarted ==> CallsOf(w.broker, Entry(id)) == [])
    && (leg.ticket.Some? <==> leg.entryStatus == Filled)
    && (leg.emptyVerified ==> leg.entryStatus != Pending)
  }

  lemma CorePutLeg(r: Role, w: Worker, id: nat, leg: Leg)
    requires Core(r, w) && LegWrite(w, id, leg)
    ensures Core(r, PutLeg(w, id, leg))
  {
    var w' := PutLeg(w, id, leg);
    forall e ensures EffectOk(w', e) && PayloadOk(r, w', e) { assert EffectOk(w, e) && PayloadOk(r, w, e); }
    forall i ensures AttemptOk(w', i) { assert AttemptOk(w, i); }
    forall t ensures HoldingOk(w', t) { assert HoldingOk(w, t); }
  }

  /** A journal write that adds one well-formed row or moves one row forward. */
  predicate JournalWrite(r: Role, w: Worker, e: EffectId, j: Journal) {
    && e in j && e.attempt in w.db.legs
    && j == w.db.journal[e := j[e]]
    && (j[e].state in {J.HasReceipt, J.Observed} ==> j[e].evidence.Some?)
    && (e in w.db.journal ==> j[e].payload == w.db.journal[e].payload && (w.db.journal[e].state != J.Prepared ==> j[e].state != J.Prepared))
  }

  lemma CorePutJournal(r: Role, w: Worker, e: EffectId, j: Journal)
    requires Core(r, w) && JournalWrite(r, w, e, j) && PayloadOk(r, PutJournal(w, j), e)
    ensures Core(r, PutJournal(w, j))
  {
    var w' := PutJournal(w, j);
    forall x ensures EffectOk(w', x) { assert EffectOk(w, x); }
    forall x ensures PayloadOk(r, w', x) { if x != e { assert PayloadOk(r, w, x); } }
    forall i ensures AttemptOk(w', i) { assert AttemptOk(w, i); }
    forall t ensures HoldingOk(w', t) { assert HoldingOk(w, t); }
  }

  lemma CoreObserve(r: Role, w: Worker, e: EffectId, v: Evidence)
    requires Core(r, w)
    ensures Core(r, Observe(w, e, v)) && Observe(w, e, v) == PutJournal(w, Observe(w, e, v).db.journal)
    ensures e in Observe(w, e, v).db.journal <==> e in w.db.journal
  {
    if J.IsUnresolved(w.db.journal, e) {
      assert EffectOk(w, e) && PayloadOk(r, w, e);
      CorePutJournal(r, w, e, J.Complete(w.db.journal, e, J.Observed, v).value);
    }
  }

  lemma CoreCall(cfg: Config, r: Role, w: Worker, e: EffectId, p: Payload, exposure: Exposure, removed: bool)
    requires Core(r, w)
    requires e in w.db.journal && w.db.journal[e].state != J.Prepared && w.db.journal[e].payload == p
    requires CallsOf(w.broker, e) == []
    requires p.Market? ==> e.Entry?
    requires e.Entry? && e.attempt in w.db.legs ==> w.db.legs[e.attempt].entryStatus != ExpiredNotStarted
    ensures Core(r, w.(broker := CallBroker(w.broker, e, p, exposure, removed)))
  {
    var w' := w.(broker := CallBroker(w.broker, e, p, exposure, removed));
    forall x ensures EffectOk(w', x) && PayloadOk(r, w', x) { assert EffectOk(w, x) && PayloadOk(r, w, x); }
    forall i ensures AttemptOk(w', i) { assert AttemptOk(w, i); }
    forall t ensures HoldingOk(w', t) { assert HoldingOk(w, t); }
  }

  /** Exposure that disappears, or an order that fills, keeps everything. */
  lemma CoreBroker(r: Role, w: Worker, b: Broker)
    requires Core(r, w) && b.calls == w.broker.calls && b.nextTicket == w.broker.nextTicket
    requires forall t :: t in b.holdings ==> t in w.broker.holdings && b.holdings[t].attempt == w.broker.holdings[t].attempt
    ensures Core(r, w.(broker := b))
  {
    var w' := w.(broker := b);
    forall x ensures EffectOk(w', x) && PayloadOk(r, w', x) { assert EffectOk(w, x) && PayloadOk(r, w, x); }
    forall i ensures AttemptOk(w', i) { assert AttemptOk(w, i); }
    forall t ensures HoldingOk(w', t) { assert HoldingOk(w, t); }
  }

  /** A new row, live or refused, for an id that has none. */
  lemma CoreNewRow(r: Role, w: Worker, id: nat, row: AttemptRow)
    requires Core(r, w) && id !in w.db.attempts && row.attempt.id == id
    requires row.terminal.Some? ==> row.terminal.value == AdmissionRejected
    ensures id !in w.db.legs
    ensures Core(r, w.(db := w.db.(attempts := w.db.attempts[id := row], latest := Some(id))))
  {
    var w' := w.(db := w.db.(attempts := w.db.attempts[id := row], latest := Some(id)));
    assert AttemptOk(w, id);
    forall e ensures EffectOk(w', e) && PayloadOk(r, w', e) { assert EffectOk(w, e) && PayloadOk(r, w, e); }
    forall i ensures AttemptOk(w', i) { assert AttemptOk(w, i); }
    forall t ensures HoldingOk(w', t) { assert HoldingOk(w, t); }
  }

  lemma CoreTerminate(r: Role, w: Worker, id: nat, reason: TerminalReason)
    requires Core(r, w) && id in w.db.attempts
    requires if reason == BothEmptyVerified then id in w.db.legs && w.db.legs[id].emptyVerified else id !in w.db.legs
    ensures Core(r, Terminate(w, id, reason))
  {
    var w' := Terminate(w, id, reason);
    forall e ensures EffectOk(w', e) && PayloadOk(r, w', e) { assert EffectOk(w, e) && PayloadOk(r, w, e); }
    forall i ensures AttemptOk(w', i) { assert AttemptOk(w, i); }
    forall t ensures HoldingOk(w', t) { assert HoldingOk(w, t); }
  }

  // ---- a write together with the next program point ----------------------------------------------

  /** Program points that promise nothing beyond a settled leg. */
  predicate PlainPc(pc: Pc) {
    match pc
    case NewRow => false
    case DesiredSaved => false
    case LegSaved => false
    case EffectPrepared => false
    case TimerArmed => false
    case RelayIntended => false
    case RelaySent => false
    case Write(_, _) => false
    case Recovering => false
    case Resetting => false
    case _ => true
  }

  /** `w'` is the running `w` at a plain point, with this attempt's leg rewritten. */
  predicate LegAndPc(w: Worker, att: Attempt, leg: Leg, w': Worker) {
    && w.mem.Up? && w'.mem.Up? && w.mem.attempt == Some(att) && w'.mem.attempt == Some(att)
    && PlainPc(w'.mem.pc) && !w.mem.pc.Resetting?
    && w'.db.attempts == w.db.attempts && w'.db.latest == w.db.latest && w'.db.journal == w.db.journal
    && w'.broker == w.broker && w'.db.legs == w.db.legs[att.id := leg]
    && leg.entryStatus != Pending
  }

  lemma LegAndPcKeeps(r: Role, w: Worker, att: Attempt, leg: Leg, w': Worker)
    requires Discipline(r, w) && LegAndPc(w, att, leg, w') && LegWrite(w, att.id, leg)
    ensures Discipline(r, w')
  {
    CorePutLeg(r, w, att.id, leg);
    CoreSame(r, PutLeg(w, att.id, leg), w');
  }

  /** `w'` is the running `w` at a plain point; no durable row of the invariant changed. */
  lemma PcKeeps(r: Role, w: Worker, att: Attempt, w': Worker)
    requires Core(r, w) && w'.mem.Up? && w'.mem.attempt == Some(att) && SameCore(w, w') && PlainPc(w'.mem.pc)
    requires att.id in w.db.legs && w.db.legs[att.id].entryStatus != Pending
    requires att.id in w.db.attempts && w.db.attempts[att.id] == AttemptRow(att, None)
    ensures Discipline(r, w')
  {
    CoreSame(r, w, w');
  }

  /** A journaled write begins. */
  lemma WriteBegins(r: Role, w: Worker, att: Attempt, job: Job, p: Payload, w': Worker)
    requires Discipline(r, w) && w.mem.Up? && w.mem.attempt == Some(att) && !w.mem.pc.Resetting?
    requires JobOk(r, w, att, job) && !job.EntryJob? && p == JobPayload(job, att, r, w.db.legs[att.id])
    requires J.Prepare(w.db.journal, JobEffect(job, att.id), p).Ok?
    requires w' == WithPc(PutJournal(w, J.Prepare(w.db.journal, JobEffect(job, att.id), p).value.1), Write(job, Admit))
    ensures Discipline(r, w')
  {
    var e := JobEffect(job, att.id);
    assert AttemptOk(w, att.id) && EffectOk(w, e) && PayloadOk(r, w, e);
    var j := J.Prepare(w.db.journal, e, p).value.1;
    CorePutJournal(r, w, e, j);
    CoreSame(r, PutJournal(w, j), w');
  }

  // ---- the micro-steps of a handler ------------------------------------------------------------

  lemma RowKeeps(r: Role, w: Worker, att: Attempt)
    requires Discipline(r, w) && w.mem.Up? && w.mem.attempt == Some(att)
    ensures w.mem.pc == NewRow ==> Discipline(r, StepNewRow(w))
    ensures w.mem.pc == DesiredSaved ==> Discipline(r, StepDesiredSaved(w, att.id))
  {
    assert AttemptOk(w, att.id) && EffectOk(w, Entry(att.id));
    match w.mem.pc {
      case NewRow => CoreSame(r, w, StepNewRow(w));
      case DesiredSaved => CorePutLeg(r, w, att.id, NewLeg); CoreSame(r, PutLeg(w, att.id, NewLeg), StepDesiredSaved(w, att.id));
      case _ =>
    }
  }

  lemma PrepareKeeps(cfg: Config, r: Role, w: Worker, att: Attempt)
    requires Discipline(r, w) && w.mem.Up? && w.mem.attempt == Some(att)
    ensures w.mem.pc == LegSaved ==> att.id in w.db.legs && Discipline(r, StepLegSaved(r, w, att))
    ensures w.mem.pc == EffectPrepared ==> Discipline(r, StepEffectPrepared(cfg, r, w))
  {
    var id := att.id;
    match w.mem.pc {
      case LegSaved =>
        assert AttemptOk(w, id) && EffectOk(w, Entry(id));
        var j := J.Prepare(w.db.journal, Entry(id), EntryPayload(att, r)).value.1;
        CorePutJournal(r, w, Entry(id), j);
        CoreSame(r, PutJournal(w, j), StepLegSaved(r, w, att));
      case EffectPrepared => CoreSame(r, w, StepEffectPrepared(cfg, r, w));
      case _ =>
    }
  }

  lemma DispatchKeeps(r: Role, w: Worker, att: Attempt)
    requires Discipline(r, w) && w.mem.Up? && w.mem.attempt == Some(att)
    ensures w.mem.pc == TimerArmed ==> att.id in w.db.legs && Discipline(r, StepTimerArmed(w, att.id))
    ensures w.mem.pc == RelayIntended ==> Discipline(r, WithPc(w, RelaySent))
    ensures w.mem.pc == RelaySent ==> att.id in w.db.legs && Discipline(r, StepRelaySent(w, att.id))
  {
    var id := att.id;
    match w.mem.pc {
      case TimerArmed =>
        var leg := w.db.legs[id].(attemptRelayed := true);
        assert AttemptOk(w, id);
        CorePutLeg(r, w, id, leg); CoreSame(r, PutLeg(w, id, leg), StepTimerArmed(w, id));
      case RelayIntended => CoreSame(r, w, WithPc(w, RelaySent));
      case RelaySent =>
        var leg := w.db.legs[id].(entryDispatched := true);
        assert AttemptOk(w, id);
        CorePutLeg(r, w, id, leg); CoreSame(r, PutLeg(w, id, leg), StepRelaySent(w, id));
      case _ =>
    }
  }

  lemma AdmitKeeps(r: Role, w: Worker, att: Attempt, job: Job, d: Decision)
    requires Discipline(r, w) && w.mem.Up? && w.mem.attempt == Some(att) && w.mem.pc == Write(job, Admit)
    ensures Discipline(r, StepAdmit(w, job, JobEffect(job, att.id), d))
  {
    var e := JobEffect(job, att.id);
    assert AttemptOk(w, att.id) && EffectOk(w, e);
    CoreObserve(r, w, e, NotStarted);
    CoreSame(r, w, StepAdmit(w, job, e, Grant));
    CoreSame(r, w, StepAdmit(w, job, e, NoItem));
    if d.Refuse? && d.result in {Refused, NeverStarted, Unclear} {
      CoreSame(r, Observe(w, e, NotStarted), StepAdmit(w, job, e, d));
    }
  }

  lemma GrantedKeeps(r: Role, w: Worker, att: Attempt, job: Job)
    requires Discipline(r, w) && w.mem.Up? && w.mem.attempt == Some(att) && w.mem.pc == Write(job, Granted)
    ensures Discipline(r, StepGranted(w, job, JobEffect(job, att.id)))
  {
    var e := JobEffect(job, att.id);
    assert AttemptOk(w, att.id) && EffectOk(w, e) && PayloadOk(r, w, e);
    match J.MarkSendStarted(w.db.journal, e) {
      case Ok(j) =>
        CorePutJournal(r, w, e, j);
        CoreSame(r, PutJournal(w, j), StepGranted(w, job, e));
      case Err(_) => CoreSame(r, w, StepGranted(w, job, e));
    }
  }

  lemma StartedKeeps(cfg: Config, r: Role, w: Worker, att: Attempt, job: Job, reply: Reply, x: Exposure, removed: bool)
    requires Discipline(r, w) && w.mem.Up? && w.mem.attempt == Some(att) && w.mem.pc == Write(job, Started)
    requires att.id in w.db.legs
    ensures Discipline(r, StepStarted(cfg, w, job, JobEffect(job, att.id), JobPayload(job, att, r, w.db.legs[att.id]), reply, x, removed))
  {
    var e, p := JobEffect(job, att.id), JobPayload(job, att, r, w.db.legs[att.id]);
    assert AttemptOk(w, att.id);
    if p.Market? && !EntryAnswer(cfg, p.volume, reply, x) {
      return;
    }
    CoreCall(cfg, r, w, e, p, x, removed);
    CoreSame(r, w.(broker := CallBroker(w.broker, e, p, x, removed)), StepStarted(cfg, w, job, e, p, reply, x, removed));
  }

  lemma ReturnedKeeps(r: Role, w: Worker, att: Attempt, job: Job, reply: Reply)
    requires Discipline(r, w) && w.mem.Up? && w.mem.attempt == Some(att) && w.mem.pc == Write(job, Returned(reply))
    ensures Discipline(r, StepReturned(w, job, JobEffect(job, att.id), reply))
  {
    var e := JobEffect(job, att.id);
    assert AttemptOk(w, att.id) && EffectOk(w, e) && PayloadOk(r, w, e);
    if reply.Answered? {
      var j := J.Complete(w.db.journal, e, J.HasReceipt, Receipt(reply.success)).value;
      CorePutJournal(r, w, e, j);
      CoreSame(r, PutJournal(w, j), StepReturned(w, job, e, reply));
    } else {
      CoreSame(r, w, StepReturned(w, job, e, reply));
    }
  }

  lemma DoneKeeps(r: Role, w: Worker, att: Attempt, job: Job, result: WriteResult)
    requires Discipline(r, w) && w.mem.Up? && w.mem.attempt == Some(att) && w.mem.pc == Write(job, Done(result))
    requires att.id in w.db.legs
    ensures Discipline(r, StepDone(w, job, att.id, result))
  {
    assert AttemptOk(w, att.id);
    LegAndPcKeeps(r, w, att, AfterWrite(job, w.db.legs[att.id], result).0, StepDone(w, job, att.id, result));
  }

  lemma WriteKeeps(cfg: Config, r: Role, w: Worker, att: Attempt, job: Job, stage: Stage, c: Choice)
    requires Discipline(r, w) && w.mem.Up? && w.mem.attempt == Some(att) && w.mem.pc == Write(job, stage)
    requires att.id in w.db.legs
    ensures Discipline(r, StepWrite(cfg, r, w, att, job, stage, c))
  {
    match stage {
      case Admit => if c.Schedule? { AdmitKeeps(r, w, att, job, c.decision); }
      case Granted => GrantedKeeps(r, w, att, job);
      case Started => if c.Outcome? { StartedKeeps(cfg, r, w, att, job, c.reply, c.exposure, c.removed); }
      case Returned(reply) => ReturnedKeeps(r, w, att, job, reply);
      case Done(result) => DoneKeeps(r, w, att, job, result);
    }
  }

  // ---- snapshots and containment ---------------------------------------------------------------

  lemma SeenKeeps(r: Role, w: Worker, att: Attempt, ps: Holdings, os: Holdings, t: nat, ok: bool)
    requires Discipline(r, w) && w.mem.Up? && w.mem.attempt == Some(att) && w.mem.pc == Seen(ps, os)
    requires att.id in w.db.legs
    ensures Discipline(r, StepSeen(r, w, att, ps, os, t, ok))
  {
    assert AttemptOk(w, att.id);
    match AttributeEntry(r, w.db.legs[att.id], att, ps, t, ok) {
      case None =>
      case Some((leg, v)) => LegAndPcKeeps(r, w, att, leg, StepSeen(r, w, att, ps, os, t, ok));
    }
  }

  lemma AttributedKeeps(r: Role, w: Worker, att: Attempt, ps: Holdings, os: Holdings, v: Verdict)
    requires Discipline(r, w) && w.mem.Up? && w.mem.attempt == Some(att) && w.mem.pc == Attributed(ps, os, v)
    ensures Discipline(r, StepAttributed(w, att.id, ps, os, v))
  {
    CoreObserve(r, w, Entry(att.id), PositionSeen);
    CoreObserve(r, w, Entry(att.id), AbsenceSeen);
    var seen :=
      if v in {SeenFilled, SeenInconsistent} then Observe(w, Entry(att.id), PositionSeen)
      else if v == SeenAbsent then Observe(w, Entry(att.id), AbsenceSeen) else w;
    PcKeeps(r, seen, att, StepAttributed(w, att.id, ps, os, v));
  }

  lemma TicketObserved(r: Role, w: Worker, id: nat, ps: Holdings)
    requires Core(r, w) && id in w.db.legs
    ensures var o := ObservedTicket(w, id, ps); Core(r, o) && o == PutJournal(w, o.db.journal)
  {
    CoreObserve(r, w, Protection(id), PositionSeen);
    CoreObserve(r, w, Protection(id), AbsenceSeen);
    var t := w.db.legs[id].ticket;
    if t.Some? {
      CoreObserve(r, Observe(w, Protection(id), AbsenceSeen), Close(id, t.value), AbsenceSeen);
    }
  }

  lemma ObservingKeeps(r: Role, w: Worker, att: Attempt, ps: Holdings, os: Holdings, v: Verdict, mismatch: bool)
    requires Discipline(r, w) && w.mem.Up? && w.mem.attempt == Some(att) && w.mem.pc == Observing(ps, os, v)
    requires att.id in w.db.legs
    ensures Discipline(r, StepObserving(w, att.id, ps, os, v, mismatch))
  {
    var o := ObservedTicket(w, att.id, ps);
    TicketObserved(r, w, att.id, ps);
    assert SameCore(o, StepObserving(w, att.id, ps, os, v, mismatch));
    PcKeeps(r, o, att, StepObserving(w, att.id, ps, os, v, mismatch));
  }

  /** A containment effect names the attempt, and a close names its one attributed ticket. */
  lemma StartContainmentKeeps(r: Role, w: Worker, att: Attempt, e: EffectId, p: Payload)
    requires Discipline(r, w) && w.mem.Up? && w.mem.attempt == Some(att) && w.mem.pc.Converging?
    requires JobOk(r, w, att, ContainJob(e, p))
    ensures Discipline(r, StartContainment(w, e, p))
  {
    var w' := StartContainment(w, e, p);
    if w'.mem.pc.Write? {
      WriteBegins(r, w, att, ContainJob(e, p), p, w');
    } else {
      PcKeeps(r, w, att, w');
    }
  }

  lemma ConvergingKeeps(r: Role, w: Worker, att: Attempt, ps: Holdings, os: Holdings, t: nat)
    requires Discipline(r, w) && w.mem.Up? && w.mem.attempt == Some(att) && w.mem.pc == Converging(ps, os)
    requires att.id in w.db.legs
    ensures Discipline(r, StepConverging(w, att, ps, os, t))
  {
    var leg := w.db.legs[att.id];
    assert AttemptOk(w, att.id);
    match Converge(w.mem.desired, w.db.needsHuman, leg, att, ps, os, t) {
      case NotConverging => PcKeeps(r, w, att, WithPc(w, Idle));
      case Contain(e, p) => StartContainmentKeeps(r, w, att, e, p);
      case Unattributable => PcKeeps(r, w, att, WithPc(Latch(w), Idle));
      case VerifiedEmpty => LegAndPcKeeps(r, w, att, leg.(emptyVerified := true), StepConverging(w, att, ps, os, t));
      case Undecided =>
    }
  }

  // ---- restart ---------------------------------------------------------------------------------

  lemma LoadKeeps(r: Role, w: Worker)
    requires Discipline(r, w)
    ensures Discipline(r, w.(mem := Load(w.db)))
  {
    CoreSame(r, w, w.(mem := Load(w.db)));
    if w.db.latest.Some? {
      assert AttemptOk(w, w.db.latest.value);
    }
  }

  lemma RecoveringKeeps(r: Role, w: Worker)
    requires Discipline(r, w) && w.mem.Up? && w.mem.pc == Recovering
    ensures Discipline(r, StepRecovering(w))
  {
    var w' := StepRecovering(w);
    if w.mem.attempt.None? {
      CoreSame(r, w, w');
    } else {
      var att := w.mem.attempt.value;
      assert AttemptOk(w, att.id) && EffectOk(w, Entry(att.id));
      if att.id !in w.db.legs {
        CoreTerminate(r, w, att.id, NoLocalEffect);
        CoreSame(r, Terminate(w, att.id, NoLocalEffect), w');
      } else {
        LegAndPcKeeps(r, w, att, ReconcileEntry(w.db.journal, Entry(att.id), w.db.legs[att.id]).0, w');
      }
    }
  }

  /** What a restart makes of a leg that was still pending: it may have been sent exactly if the journal's
      send boundary was crossed, and then, only then, may the broker have been called. */
  lemma RecoveryFollowsTheJournal(r: Role, w: Worker, id: nat)
    requires Discipline(r, w) && w.mem.Up? && w.mem.pc == Recovering && w.mem.attempt.Some? && w.mem.attempt.value.id == id
    requires id in w.db.legs && w.db.legs[id].entryStatus == Pending
    ensures var status := StepRecovering(w).db.legs[id].entryStatus;
            && status in {ExpiredNotStarted, UnknownAfterSend}
            && (status == UnknownAfterSend <==> Entry(id) in w.db.journal && w.db.journal[Entry(id)].state != J.Prepared)
            && (CallsOf(w.broker, Entry(id)) != [] ==> status == UnknownAfterSend)
  {
    assert EffectOk(w, Entry(id));
    hide Core;
  }

  // ---- every move and every message ------------------------------------------------------------

  lemma PeerNotedKeeps(r: Role, w: Worker, att: Attempt, f: FollowUp)
    requires Discipline(r, w) && w.mem.Up? && w.mem.attempt == Some(att) && w.mem.pc == PeerNoted(f)
    requires att.id in w.db.legs
    ensures Discipline(r, StepPeerNoted(w, att.id, f))
  {
    var id := att.id;
    var w' := StepPeerNoted(w, id, f);
    assert AttemptOk(w, id);
    if w'.mem.pc.Write? {
      WriteBegins(r, w, att, RollbackJob(f.sl, f.tp), ModifyStops(w.db.legs[id].ticket, f.sl, f.tp), w');
    } else {
      LegAndPcKeeps(r, w, att, w'.db.legs[id], w');
    }
  }

  lemma PointKeeps(r: Role, w: Worker, att: Attempt, w': Worker)
    requires Discipline(r, w) && w.mem.Up? && w.mem.attempt == Some(att)
    requires !w.mem.pc.Idle? && !w.mem.pc.Recovering? && !w.mem.pc.Resetting? && !EntryPc(w.mem.pc) && !w.mem.pc.Write?
    requires w'.mem.Up? && w'.mem.attempt == Some(att) && SameCore(w, w') && PlainPc(w'.mem.pc)
    ensures Discipline(r, w')
  {
    PcKeeps(r, w, att, w');
    hide Core;
  }

  lemma EntryKeeps(cfg: Config, r: Role, w: Worker, att: Attempt)
    requires Discipline(r, w) && w.mem.Up? && w.mem.attempt == Some(att) && EntryPc(w.mem.pc)
    ensures Discipline(r, AdvanceEntry(cfg, r, w, att).w)
  {
    RowKeeps(r, w, att);
    PrepareKeeps(cfg, r, w, att);
    DispatchKeeps(r, w, att);
    hide Core, StepNewRow, StepDesiredSaved, StepLegSaved, StepEffectPrepared, StepTimerArmed, StepRelaySent;
  }

  lemma SnapshotKeeps(r: Role, w: Worker, att: Attempt, c: Choice)
    requires Discipline(r, w) && w.mem.Up? && w.mem.attempt == Some(att) && SnapshotPc(w.mem.pc) && att.id in w.db.legs
    ensures Discipline(r, AdvanceSnapshot(r, w, att, c).w)
  {
    match w.mem.pc {
      case Looking(ps) => PointKeeps(r, w, att, AdvanceSnapshot(r, w, att, c).w);
      case Seen(ps, os) => if c.Pick? { SeenKeeps(r, w, att, ps, os, c.ticket, c.flag); }
      case Attributed(ps, os, v) => AttributedKeeps(r, w, att, ps, os, v);
      case Recorded(ps, os, v) => PointKeeps(r, w, att, AdvanceSnapshot(r, w, att, c).w);
      case Observing(ps, os, v) => if c.Pick? { ObservingKeeps(r, w, att, ps, os, v, c.flag); }
      case Converging(ps, os) => if c.Pick? { ConvergingKeeps(r, w, att, ps, os, c.ticket); }
    }
    hide Core, StepSeen, StepAttributed, StepObserving, StepConverging;
  }

  lemma RecoverObserveKeeps(r: Role, w: Worker, att: Attempt)
    requires Discipline(r, w) && w.mem.Up? && w.mem.attempt == Some(att) && w.mem.pc == RecoverObserve
    ensures Discipline(r, WithPc(Observe(w, Entry(att.id), NotStarted), RecoverClose))
  {
    CoreObserve(r, w, Entry(att.id), NotStarted);
    PcKeeps(r, Observe(w, Entry(att.id), NotStarted), att, WithPc(Observe(w, Entry(att.id), NotStarted), RecoverClose));
  }

  lemma RestKeeps(r: Role, w: Worker, att: Attempt)
    requires Discipline(r, w) && w.mem.Up? && w.mem.attempt == Some(att) && att.id in w.db.legs
    requires !w.mem.pc.Idle? && !w.mem.pc.Recovering? && !w.mem.pc.Resetting? && !EntryPc(w.mem.pc) && !w.mem.pc.Write?
    ensures Discipline(r, AdvanceRest(w, att.id).w)
  {
    if w.mem.pc == RecoverObserve {
      RecoverObserveKeeps(r, w, att);
    } else if w.mem.pc.PeerNoted? {
      PeerNotedKeeps(r, w, att, w.mem.pc.followUp);
    } else {
      PointKeeps(r, w, att, AdvanceRest(w, att.id).w);
    }
    hide Core, StepPeerNoted, Observe;
  }

  lemma AdvanceAttemptKeeps(cfg: Config, r: Role, w: Worker, att: Attempt, c: Choice)
    requires Discipline(r, w) && w.mem.Up? && w.mem.attempt == Some(att)
    requires !w.mem.pc.Idle? && !w.mem.pc.Recovering? && !w.mem.pc.Resetting? && !w.mem.pc.RejectReport?
    ensures Discipline(r, AdvanceAttempt(cfg, r, w, att, c).w)
  {
    if w.mem.pc.Write? {
      WriteKeeps(cfg, r, w, att, w.mem.pc.job, w.mem.pc.stage, c);
    } else if EntryPc(w.mem.pc) {
      EntryKeeps(cfg, r, w, att);
    } else if att.id in w.db.legs && SnapshotPc(w.mem.pc) {
      SnapshotKeeps(r, w, att, c);
    } else if att.id in w.db.legs {
      RestKeeps(r, w, att);
    }
    hide Core, AdvanceEntry, AdvanceSnapshot, AdvanceRest, StepWrite;
  }

  lemma AdvanceKeeps(cfg: Config, r: Role, w: Worker, c: Choice)
    requires Discipline(r, w)
    ensures Discipline(r, AdvanceStep(cfg, r, w, c).w)
  {
    var w' := AdvanceStep(cfg, r, w, c).w;
    if w.mem.Down? || w.mem.pc == Idle {
    } else if w.mem.pc == Recovering {
      RecoveringKeeps(r, w);
    } else if w.mem.pc == Resetting || w.mem.pc.RejectReport? || w.mem.attempt.None? {
      CoreSame(r, w, w');
    } else {
      AdvanceAttemptKeeps(cfg, r, w, w.mem.attempt.value, c);
    }
  }

  lemma CreateKeeps(r: Role, w: Worker, att: Attempt)
    requires Discipline(r, w) && w.mem.Up? && w.mem.pc == Idle && att.id !in w.db.attempts
    ensures Discipline(r, AdoptAttempt(w, att))
  {
    var row := AttemptRow(att, None);
    CoreNewRow(r, w, att.id, row);
    CoreSame(r, w.(db := w.db.(attempts := w.db.attempts[att.id := row], latest := Some(att.id))), AdoptAttempt(w, att));
  }

  lemma ProtectKeeps(r: Role, w: Worker, x: bool, sl: int, tp: int)
    requires Discipline(r, w)
    ensures Discipline(r, ProtectStep(w, x, sl, tp))
  {
    var w' := ProtectStep(w, x, sl, tp);
    if w' != w {
      var att := w.mem.attempt.value;
      assert AttemptOk(w, att.id);
      if w'.mem.pc.Write? {
        WriteBegins(r, w, att, ProtectionJob(sl, tp), ModifyStops(w.db.legs[att.id].ticket, sl, tp), w');
      } else {
        LegAndPcKeeps(r, w, att, w'.db.legs[att.id], w');
      }
    }
  }

  /** The decisions between handlers that leave rows, legs, journal and broker alone. */
  predicate IsDecision(m: Move) {
    m.RequestClose? || m.ReadPositions? || m.Probe? || m.Confirm? || m.DeclareActive? || m.ClearStop? || m.StopLoudly? || m.Tick?
  }

  predicate MinorStep(w: Worker, w': Worker) {
    && SameCore(w, w') && w'.db.peerLegs == w.db.peerLegs
    && (w'.mem.Up? <==> w.mem.Up?)
    && (w.mem.Up? ==>
          && w'.mem.attempt == w.mem.attempt && w'.mem.peer == w.mem.peer
          && (w'.mem.pc == w.mem.pc || (IdleWith(w) && w'.mem.pc in {ConfirmSend, FailNotice, Looking(Positions(w.broker.holdings))})))
  }

  lemma DecisionIsMinor(cfg: Config, r: Role, w: Worker, m: Move)
    requires IsDecision(m)
    ensures MinorStep(w, MoveStep(cfg, r, w, m).w)
  {
    match m {
      case Confirm(own, peer) => ConfirmIsMinor(r, w, own, peer);
      case _ =>
    }
  }

  lemma ConfirmIsMinor(r: Role, w: Worker, own: bool, peer: bool)
    ensures MinorStep(w, ConfirmStep(r, w, own, peer))
  {
  }

  lemma MinorKeeps(r: Role, w: Worker, w': Worker)
    requires Discipline(r, w) && MinorStep(w, w')
    ensures Discipline(r, w')
  {
    CoreSame(r, w, w');
    hide Core;
  }

  lemma FinalizeKeeps(r: Role, w: Worker)
    requires Discipline(r, w)
    ensures Discipline(r, FinalizeStep(r, w))
  {
    var w' := FinalizeStep(r, w);
    if w' != w {
      var id := w.mem.attempt.value.id;
      CoreTerminate(r, w, id, BothEmptyVerified);
      CoreSame(r, Terminate(w, id, BothEmptyVerified), w');
    }
  }

  lemma BrokerMovesKeep(r: Role, w: Worker, t: nat)
    requires Discipline(r, w)
    ensures Discipline(r, FillOrderStep(w, t)) && Discipline(r, w.(broker := w.broker.(holdings := w.broker.holdings - {t})))
  {
    CoreBroker(r, w, FillOrderStep(w, t).broker);
    CoreBroker(r, w, w.broker.(holdings := w.broker.holdings - {t}));
  }

  lemma CrashKeeps(r: Role, w: Worker)
    requires Discipline(r, w)
    ensures Discipline(r, w.(mem := Down))
  {
    CoreSame(r, w, w.(mem := Down));
  }

  lemma MoveKeeps(cfg: Config, r: Role, w: Worker, m: Move)
    requires Discipline(r, w)
    ensures Discipline(r, MoveStep(cfg, r, w, m).w)
  {
    match m {
      case Create(att) => if CreateAttempt(r, w, att) != w { CreateKeeps(r, w, att); }
      case Advance(c) => AdvanceKeeps(cfg, r, w, c);
      case Finalize => FinalizeKeeps(r, w);
      case Protect(x, sl, tp) => ProtectKeeps(r, w, x, sl, tp);
      case Boot => LoadKeeps(r, w);
      case Crash => CrashKeeps(r, w);
      case FillOrder(t) => BrokerMovesKeep(r, w, t);
      case StopOut(t) => BrokerMovesKeep(r, w, t);
      case _ =>
        DecisionIsMinor(cfg, r, w, m);
        MinorKeeps(r, w, MoveStep(cfg, r, w, m).w);
    }
    hide Discipline, ProtectStep, FinalizeStep, ConfirmStep, AdvanceStep, CreateAttempt, FillOrderStep, Load;
  }

  lemma RefuseKeeps(r: Role, w: Worker, att: Attempt)
    requires Discipline(r, w) && w.mem.Up? && w.mem.pc == Idle && att.id !in w.db.attempts
    ensures Discipline(r, RefuseAttempt(w, att))
  {
    var row := AttemptRow(att, Some(AdmissionRejected));
    CoreNewRow(r, w, att.id, row);
    CoreSame(r, w.(db := w.db.(attempts := w.db.attempts[att.id := row], latest := Some(att.id))), RefuseAttempt(w, att));
  }

  lemma ReceiveAttemptKeeps(r: Role, w: Worker, att: Attempt, admit: bool)
    requires Discipline(r, w) && CanReceive(w)
    ensures Discipline(r, ReceiveAttempt(r, w, att, admit).w)
  {
    if r == Follower && att.id !in w.db.attempts {
      CreateKeeps(r, w, att);
      RefuseKeeps(r, w, att);
    }
  }

  lemma ReceiveLegStatusKeeps(r: Role, w: Worker, id: nat, s: LegStatus, sl: int, tp: int)
    requires Discipline(r, w) && CanReceive(w)
    ensures Discipline(r, ReceiveLegStatus(r, w, id, s, sl, tp).w)
  {
    CoreSame(r, w, ReceiveLegStatus(r, w, id, s, sl, tp).w);
  }

  lemma ReceiveKeeps(r: Role, w: Worker, m: Msg, how: Reading)
    requires Discipline(r, w)
    ensures Discipline(r, Receive(r, w, m, how).w)
  {
    if CanReceive(w) {
      match m {
        case AttemptMsg(att) => ReceiveAttemptKeeps(r, w, att, how.admit);
        case LegStatusMsg(id, st) => ReceiveLegStatusKeeps(r, w, id, st, how.sl, how.tp);
        case RequestMsg(_) =>
        case ConfirmedMsg(id) => CoreSame(r, w, ReceiveConfirmed(r, w, id));
        case FailedMsg(id) => CoreSame(r, w, BeginClose(w));
      }
    }
  }
}
