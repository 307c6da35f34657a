/**
  What the desired state and the pair confirmation mean over one Worker's steps, whatever the broker
  does: a close request is never taken back, a fill stays a fill, and a confirmation appears only where
  the cell decides it.
*/
module PairConduct {
  import opened Prelude
  import opened PairState
  import opened PairWorker
  import opened PairDiscipline
  import opened PairTruth
  import opened PairEvolution
  import J = EffectJournal

  // ---- the invariant ---------------------------------------------------------------------------

  /** The entry or the precise protection may still be written by the running handler. */
  predicate BeforeWrite(pc: Pc) {
    BeforeCall(pc)
    || (pc.Write? && pc.job.ProtectionJob? && (pc.stage.Admit? || pc.stage.Granted? || pc.stage.Started?))
  }

  /** A restart would load this attempt. */
  predicate Loads(db: Db, id: nat) {
    db.latest == Some(id) && id in db.attempts && db.attempts[id].terminal.None?
  }

  /** The leg was attributed a unique exact position. */
  predicate FilledLeg(w: Worker, id: nat) {
    id in w.db.attempts && id in w.db.legs && w.db.legs[id].entryStatus == Filled && w.db.legs[id].ticket.Some?
  }

  predicate CurrentConduct(w: Worker)
    requires w.mem.Up? && w.mem.attempt.Some?
  {
    var id := w.mem.attempt.value.id;
    && id in w.db.attempts
    && (id in w.db.legs || w.mem.pc == DesiredSaved ==> w.mem.desired == w.db.desired && w.mem.confirmed == w.db.confirmed)
    && (w.mem.pc in {NewRow, DesiredSaved} ==> !w.mem.confirmed)
    && (BeforeWrite(w.mem.pc) && w.mem.pc != NewRow ==> w.mem.desired == ActiveDesired)
    && (w.mem.pc == ConfirmSend ==> w.mem.confirmed && id in w.db.legs)
    && ((w.mem.pc.Attributed? || w.mem.pc.Recorded?) && w.mem.pc.verdict == SeenFilled ==> FilledLeg(w, id))
    && (w.mem.pc.Reporting? ==> !w.mem.pc.status.StFilled?)
    && (w.mem.desired == EmptyDesired ==> w.mem.deadline.None?)
  }

  predicate Conduct(w: Worker) {
    && LatestTrue(w)
    && (w.mem.Up? ==>
          if w.mem.attempt.Some? then CurrentConduct(w) else !w.mem.confirmed && w.mem.desired == NoDesire && w.mem.pc != ConfirmSend)
  }

  // ---- what lasts ------------------------------------------------------------------------------

  /** Desired EMPTY was recorded for this attempt. */
  predicate ClosedFor(w: Worker, id: nat) {
    && id in w.db.attempts && id in w.db.legs
    && (CurrentIs(w, id) ==> w.mem.desired == EmptyDesired)
    && (Loads(w.db, id) ==> w.db.desired == EmptyDesired)
  }

  /** The attempt is confirmed, in memory or by what a restart would load. */
  predicate Confirmed(w: Worker, id: nat) {
    id in w.db.legs && ((CurrentIs(w, id) && w.mem.confirmed) || (Loads(w.db, id) && w.db.confirmed))
  }

  predicate LastsAt(w: Worker, w': Worker, id: nat) {
    && (FilledLeg(w, id) ==> FilledLeg(w', id) && w'.db.legs[id].ticket == w.db.legs[id].ticket)
    && (ClosedFor(w, id) ==>
          && ClosedFor(w', id)
          && CallsOf(w'.broker, Entry(id)) == CallsOf(w.broker, Entry(id))
          && CallsOf(w'.broker, Protection(id)) == CallsOf(w.broker, Protection(id)))
  }

  ghost predicate Lasts(w: Worker, w': Worker) {
    forall id :: LastsAt(w, w', id)
  }

  /** No confirmation that was not there before. */
  ghost predicate Unconfirming(w: Worker, w': Worker) {
    forall id :: Confirmed(w', id) ==> Confirmed(w, id)
  }

  ghost predicate Steadily(r: Role, w: Worker, w': Worker) {
    Conduct(w') && Lasts(w, w') && Traced(r, w, w') && Unconfirming(w, w')
  }

  // ---- where a fill comes from -----------------------------------------------------------------

  function SnapshotAt(w: Worker): Option<Holdings> {
    if w.mem.Up? && w.mem.attempt.Some? then SnapshotOf(w.mem.pc) else None
  }

  /** Every position of its attempt's full volume has been recorded by the broker. */
  ghost predicate Backed(w: Worker) {
    forall t :: t in w.broker.holdings ==>
      var h := w.broker.holdings[t];
      !h.resting && h.attempt in w.db.attempts && h.volume == w.db.attempts[h.attempt].attempt.lots ==> h.attempt in w.broker.filledFor
  }

  /** A leg is filled only by the one exact match (symbol, side and volume) of its snapshot. */
  predicate FillTraced(r: Role, w: Worker, w': Worker, id: nat) {
    FilledLeg(w', id) && !FilledLeg(w, id) ==>
      && CurrentIs(w, id) && w.mem.pc.Seen?
      && Matches(w.mem.pc.positions, w.mem.attempt.value, r) == {w'.db.legs[id].ticket.value}
  }

  predicate Emptied(w: Worker, id: nat) {
    id in w.db.legs && w.db.legs[id].emptyVerified
  }

  /** A leg is verified empty only while closing, on a snapshot with neither positions nor orders. */
  predicate EmptyTraced(w: Worker, w': Worker, id: nat) {
    Emptied(w', id) && !Emptied(w, id) ==> CurrentIs(w, id) && w.mem.desired == EmptyDesired && w.mem.pc == Converging(map[], map[])
  }

  predicate SnapshotTraced(w: Worker, w': Worker) {
    SnapshotAt(w').Some? ==>
      w.mem.Up? && w'.mem.attempt == w.mem.attempt && SnapshotAt(w').value in {Positions(w.broker.holdings)} + (if SnapshotAt(w).Some? then {SnapshotAt(w).value} else {})
  }

  /** A new fill was read in this attempt's snapshot, and a snapshot in the account. */
  ghost predicate Traced(r: Role, w: Worker, w': Worker) {
    && w.broker.filledFor <= w'.broker.filledFor
    && (Backed(w) ==> Backed(w'))
    && (forall id :: FillTraced(r, w, w', id))
    && (forall id :: EmptyTraced(w, w', id))
    && SnapshotTraced(w, w')
  }

  // ---- the shapes of a step --------------------------------------------------------------------

  predicate KeepsFills(w: Worker, w': Worker, id: nat) {
    && (forall i :: i in w.db.legs ==> i in w'.db.legs)
    && (forall i :: i in w'.db.legs ==> i == id || (i in w.db.legs && w'.db.legs[i] == w.db.legs[i]))
    && (FilledLeg(w, id) ==> FilledLeg(w', id) && w'.db.legs[id].ticket == w.db.legs[id].ticket)
  }

  /** The same attempt goes on; desired and confirmed stay, or a close request is recorded. */
  predicate Steady(r: Role, w: Worker, w': Worker) {
    && w.mem.Up? && w'.mem.Up? && w.mem.attempt.Some? && w'.mem.attempt == w.mem.attempt
    && w'.db.attempts == w.db.attempts && w'.db.latest == w.db.latest
    && w'.broker == w.broker
    && SnapshotTraced(w, w') && FillTraced(r, w, w', w.mem.attempt.value.id) && EmptyTraced(w, w', w.mem.attempt.value.id)
    && w'.mem.confirmed == w.mem.confirmed && w'.db.confirmed == w.db.confirmed
    && ((w'.mem.desired == w.mem.desired && w'.db.desired == w.db.desired)
        || (w'.mem.desired == EmptyDesired && w'.db.desired == EmptyDesired))
    && (w'.mem.deadline.None? || w'.mem.desired == ActiveDesired || (w'.mem.deadline == w.mem.deadline && w'.mem.desired == w.mem.desired))
    && KeepsFills(w, w', w.mem.attempt.value.id)
  }

  lemma SteadyLasts(r: Role, w: Worker, w': Worker)
    requires Conduct(w) && Steady(r, w, w') && CurrentConduct(w')
    requires w.mem.attempt.value.id in w'.db.legs ==>
               w.mem.attempt.value.id in w.db.legs || (!w'.mem.confirmed && !w'.db.confirmed)
    ensures Steadily(r, w, w')
  {
  }

  /** The usual case: a running handler past the point of the call. */
  lemma PlainlyLasts(r: Role, w: Worker, w': Worker)
    requires Conduct(w) && Steady(r, w, w') && w.mem.attempt.value.id in w.db.legs
    requires BeforeWrite(w'.mem.pc) ==> BeforeWrite(w.mem.pc) && w.mem.pc != NewRow && w'.mem.desired == w.mem.desired
    requires w'.mem.pc !in {NewRow, DesiredSaved, ConfirmSend}
    requires (w'.mem.pc.Attributed? || w'.mem.pc.Recorded?) && w'.mem.pc.verdict == SeenFilled ==> FilledLeg(w', w.mem.attempt.value.id)
    requires w'.mem.pc.Reporting? ==> !w'.mem.pc.status.StFilled?
    ensures Steadily(r, w, w')
  {
    SteadyLasts(r, w, w');
  }

  lemma SameLasts(r: Role, w: Worker)
    requires Conduct(w)
    ensures Steadily(r, w, w)
  {
  }

  /** A leg rewritten without touching a fill, and the next plain point. */
  lemma LegLasts(r: Role, w: Worker, att: Attempt, leg: Leg, pc: Pc)
    requires Conduct(w) && Running(w, att) && !BeforeWrite(w.mem.pc)
    requires (leg.ticket.Some? && leg.entryStatus == Filled) <==> FilledLeg(w, att.id)
    requires leg.ticket == w.db.legs[att.id].ticket && leg.emptyVerified == w.db.legs[att.id].emptyVerified
    requires !BeforeWrite(pc) && !SnapshotPc(pc) && pc != ConfirmSend && (pc.Reporting? ==> !pc.status.StFilled?)
    ensures Steadily(r, w, WithPc(PutLeg(w, att.id, leg), pc)) && Steadily(r, w, Latch(WithPc(PutLeg(w, att.id, leg), pc)))
  {
    PlainlyLasts(r, w, WithPc(PutLeg(w, att.id, leg), pc));
    PlainlyLasts(r, w, Latch(WithPc(PutLeg(w, att.id, leg), pc)));
  }

  // ---- the steps -------------------------------------------------------------------------------

  lemma RowLasts(r: Role, w: Worker, att: Attempt)
    requires Conduct(w) && w.mem.Up? && w.mem.attempt == Some(att) && att.id !in w.db.legs
    ensures w.mem.pc == NewRow ==> Steadily(r, w, StepNewRow(w))
    ensures w.mem.pc == DesiredSaved ==> Steadily(r, w, StepDesiredSaved(w, att.id))
  {
    if w.mem.pc == DesiredSaved { SteadyLasts(r, w, StepDesiredSaved(w, att.id)); }
  }

  lemma PrepareLasts(cfg: Config, r: Role, w: Worker, att: Attempt)
    requires Conduct(w) && w.mem.Up? && w.mem.attempt == Some(att) && att.id in w.db.legs
    ensures w.mem.pc == LegSaved && Entry(att.id) !in w.db.journal ==> Steadily(r, w, StepLegSaved(r, w, att))
    ensures w.mem.pc == EffectPrepared ==> Steadily(r, w, StepEffectPrepared(cfg, r, w))
    ensures w.mem.pc == RelayIntended ==> Steadily(r, w, WithPc(w, RelaySent))
  {
    hide Steadily;
    match w.mem.pc {
      case LegSaved => if Entry(att.id) !in w.db.journal { PlainlyLasts(r, w, StepLegSaved(r, w, att)); }
      case EffectPrepared => PlainlyLasts(r, w, StepEffectPrepared(cfg, r, w));
      case RelayIntended => PlainlyLasts(r, w, WithPc(w, RelaySent));
      case _ =>
    }
  }

  lemma DispatchLasts(r: Role, w: Worker, att: Attempt)
    requires Conduct(w) && w.mem.Up? && w.mem.attempt == Some(att) && att.id in w.db.legs
    ensures w.mem.pc == TimerArmed ==> Steadily(r, w, StepTimerArmed(w, att.id))
    ensures w.mem.pc == RelaySent ==> Steadily(r, w, StepRelaySent(w, att.id))
  {
    hide Steadily;
    match w.mem.pc {
      case TimerArmed => PlainlyLasts(r, w, StepTimerArmed(w, att.id));
      case RelaySent => PlainlyLasts(r, w, StepRelaySent(w, att.id));
      case _ =>
    }
  }

  lemma EntryLasts(cfg: Config, r: Role, w: Worker, att: Attempt)
    requires Discipline(r, w) && Conduct(w) && w.mem.Up? && w.mem.attempt == Some(att) && EntryPc(w.mem.pc)
    ensures Steadily(r, w, AdvanceEntry(cfg, r, w, att).w)
  {
    if att.id in w.db.legs {
      PrepareLasts(cfg, r, w, att);
      DispatchLasts(r, w, att);
    } else {
      RowLasts(r, w, att);
    }
    hide Core, Steadily, StepNewRow, StepDesiredSaved, StepLegSaved, StepEffectPrepared, StepTimerArmed, StepRelaySent;
  }

  /** Once closed the running handler cannot be on its way to an entry or protection call. */
  lemma StartedLasts(cfg: Config, r: Role, w: Worker, att: Attempt, job: Job, reply: Reply, x: Exposure, removed: bool)
    requires Discipline(r, w) && Conduct(w) && Running(w, att) && w.mem.pc == Write(job, Started)
    ensures Steadily(r, w, StepStarted(cfg, w, job, JobEffect(job, att.id), JobPayload(job, att, r, w.db.legs[att.id]), reply, x, removed))
  {
    assert JobOk(r, w, att, job);
    hide Core;
  }

  lemma AdmitLasts(r: Role, w: Worker, att: Attempt, job: Job, d: Decision)
    requires Conduct(w) && Running(w, att) && w.mem.pc == Write(job, Admit)
    ensures Steadily(r, w, StepAdmit(w, job, JobEffect(job, att.id), d))
  {
    PlainlyLasts(r, w, StepAdmit(w, job, JobEffect(job, att.id), d));
    hide Steadily;
  }

  lemma GrantedLasts(r: Role, w: Worker, att: Attempt, job: Job)
    requires Conduct(w) && Running(w, att) && w.mem.pc == Write(job, Granted)
    ensures Steadily(r, w, StepGranted(w, job, JobEffect(job, att.id)))
  {
    PlainlyLasts(r, w, StepGranted(w, job, JobEffect(job, att.id)));
    hide Steadily;
  }

  lemma ReturnedLasts(r: Role, w: Worker, att: Attempt, job: Job, reply: Reply)
    requires Conduct(w) && Running(w, att) && w.mem.pc == Write(job, Returned(reply))
    ensures Steadily(r, w, StepReturned(w, job, JobEffect(job, att.id), reply))
  {
    PlainlyLasts(r, w, StepReturned(w, job, JobEffect(job, att.id), reply));
    hide Steadily;
  }

  lemma DoneLasts(r: Role, w: Worker, att: Attempt, job: Job, result: WriteResult)
    requires Discipline(r, w) && Conduct(w) && Running(w, att) && w.mem.pc == Write(job, Done(result))
    ensures Steadily(r, w, StepDone(w, job, att.id, result))
  {
    assert JobOk(r, w, att, job) && AttemptOk(w, att.id);
    var (leg, pc) := AfterWrite(job, w.db.legs[att.id], result);
    LegLasts(r, w, att, leg, pc);
    hide Steadily;
  }

  lemma WriteLasts(cfg: Config, r: Role, w: Worker, att: Attempt, job: Job, stage: Stage, c: Choice)
    requires Discipline(r, w) && Conduct(w) && Running(w, att) && w.mem.pc == Write(job, stage)
    ensures Steadily(r, w, StepWrite(cfg, r, w, att, job, stage, c))
  {
    SameLasts(r, w);
    hide Steadily;
    match stage {
      case Admit => if c.Schedule? { AdmitLasts(r, w, att, job, c.decision); }
      case Granted => GrantedLasts(r, w, att, job);
      case Started => if c.Outcome? { StartedLasts(cfg, r, w, att, job, c.reply, c.exposure, c.removed); }
      case Returned(reply) => ReturnedLasts(r, w, att, job, reply);
      case Done(result) => DoneLasts(r, w, att, job, result);
    }
    hide Discipline, StepAdmit, StepGranted, StepStarted, StepReturned, StepDone;
  }

  /** The leg after attribution: as it was, filled with a ticket of the full volume, or rejected. */
  lemma AttributedLegLasts(r: Role, w: Worker, att: Attempt, leg: Leg, v: Verdict, ps: Holdings, os: Holdings)
    requires Conduct(w) && Running(w, att) && w.mem.pc == Seen(ps, os)
    requires leg.emptyVerified == w.db.legs[att.id].emptyVerified
    requires leg == w.db.legs[att.id]
             || (w.db.legs[att.id].entryStatus != Filled
                 && (leg.entryStatus == Filled ==> leg.ticket.Some? && Matches(ps, att, r) == {leg.ticket.value}))
    requires v == SeenFilled ==> leg.entryStatus == Filled
    requires v == SeenFilled ==> leg.ticket.Some?
    ensures Steadily(r, w, WithPc(PutLeg(w, att.id, leg), Attributed(ps, os, v)))
  {
    PlainlyLasts(r, w, WithPc(PutLeg(w, att.id, leg), Attributed(ps, os, v)));
    hide Steadily;
  }

  lemma SeenLasts(r: Role, w: Worker, att: Attempt, ps: Holdings, os: Holdings, t: nat, ok: bool)
    requires Conduct(w) && Running(w, att) && w.mem.pc == Seen(ps, os)
    ensures Steadily(r, w, StepSeen(r, w, att, ps, os, t, ok))
  {
    hide Steadily;
    SameLasts(r, w);
    match AttributeEntry(r, w.db.legs[att.id], att, ps, t, ok) {
      case None =>
      case Some((leg, v)) =>
        AttributedLegLasts(r, w, att, leg, v, ps, os);
    }
  }

  lemma ContainWriteLasts(r: Role, w: Worker, att: Attempt, j: Journal, e: EffectId, p: Payload)
    requires Conduct(w) && Running(w, att) && w.mem.pc.Converging?
    ensures Steadily(r, w, WithPc(PutJournal(w, j), Write(ContainJob(e, p), Admit)))
  {
    PlainlyLasts(r, w, WithPc(PutJournal(w, j), Write(ContainJob(e, p), Admit)));
    hide Steadily;
  }

  lemma ContainmentLasts(r: Role, w: Worker, att: Attempt, e: EffectId, p: Payload)
    requires Conduct(w) && Running(w, att) && w.mem.pc.Converging?
    ensures Steadily(r, w, StartContainment(w, e, p))
  {
    hide Steadily;
    var prepared := J.Prepare(w.db.journal, e, p);
    if prepared.Ok? { ContainWriteLasts(r, w, att, prepared.value.1, e, p); }
    LegLasts(r, w, att, w.db.legs[att.id], Idle);
    assert PutLeg(w, att.id, w.db.legs[att.id]).db.legs == w.db.legs;
  }

  lemma VerifiedEmptyLasts(r: Role, w: Worker, att: Attempt)
    requires Conduct(w) && Running(w, att) && w.mem.pc == Converging(map[], map[]) && w.mem.desired == EmptyDesired
    ensures Steadily(r, w, WithPc(PutLeg(w, att.id, w.db.legs[att.id].(emptyVerified := true)), Reporting(StEmpty, false, false)))
  {
    PlainlyLasts(r, w, WithPc(PutLeg(w, att.id, w.db.legs[att.id].(emptyVerified := true)), Reporting(StEmpty, false, false)));
    hide Steadily;
  }

  lemma ConvergingLasts(r: Role, w: Worker, att: Attempt, ps: Holdings, os: Holdings, t: nat)
    requires Conduct(w) && Running(w, att) && w.mem.pc == Converging(ps, os)
    ensures Steadily(r, w, StepConverging(w, att, ps, os, t))
  {
    hide Steadily;
    SameLasts(r, w);
    LegLasts(r, w, att, w.db.legs[att.id], Idle);
    assert PutLeg(w, att.id, w.db.legs[att.id]).db.legs == w.db.legs;
    match Converge(w.mem.desired, w.db.needsHuman, w.db.legs[att.id], att, ps, os, t) {
      case Contain(e, p) => ContainmentLasts(r, w, att, e, p);
      case VerifiedEmpty => VerifiedEmptyLasts(r, w, att);
      case _ =>
    }
    hide StartContainment;
  }

  /** Journal observations come first, then possibly a close request. */
  lemma NotedLasts(r: Role, w: Worker, att: Attempt, j: Journal, ps: Holdings, os: Holdings, v: Verdict)
    requires Conduct(w) && Running(w, att) && w.mem.pc == Observing(ps, os, v)
    ensures Steadily(r, w, WithPc(PutJournal(w, j), Converging(ps, os)))
    ensures Steadily(r, w, WithPc(BeginClose(PutJournal(w, j)), Converging(ps, os)))
  {
    PlainlyLasts(r, w, WithPc(PutJournal(w, j), Converging(ps, os)));
    PlainlyLasts(r, w, WithPc(BeginClose(PutJournal(w, j)), Converging(ps, os)));
  }

  lemma ObservingLasts(r: Role, w: Worker, att: Attempt, ps: Holdings, os: Holdings, v: Verdict, mismatch: bool)
    requires Conduct(w) && Running(w, att) && w.mem.pc == Observing(ps, os, v)
    ensures Steadily(r, w, StepObserving(w, att.id, ps, os, v, mismatch))
  {
    var o := ObservedTicket(w, att.id, ps);
    assert o == PutJournal(w, o.db.journal);
    NotedLasts(r, w, att, o.db.journal, ps, os, v);
    hide Steadily, ObservedTicket, Observe;
  }

  lemma PointLasts(r: Role, w: Worker, att: Attempt, pc: Pc)
    requires Conduct(w) && Running(w, att)
    requires pc.Idle? || pc.Closing? || pc.Observing? || (pc.Seen? && w.mem.pc == Looking(pc.positions))
    requires pc.Observing? ==> w.mem.pc == Recorded(pc.positions, pc.orders, pc.verdict)
    ensures Steadily(r, w, WithPc(w, pc))
  {
    PlainlyLasts(r, w, WithPc(w, pc));
    hide Steadily;
  }

  lemma AttributedLasts(r: Role, w: Worker, att: Attempt, ps: Holdings, os: Holdings, v: Verdict)
    requires Conduct(w) && Running(w, att) && w.mem.pc == Attributed(ps, os, v)
    ensures Steadily(r, w, StepAttributed(w, att.id, ps, os, v))
  {
    PlainlyLasts(r, w, StepAttributed(w, att.id, ps, os, v));
    hide Steadily;
  }

  lemma SnapshotLasts(r: Role, w: Worker, att: Attempt, c: Choice)
    requires Conduct(w) && Running(w, att) && SnapshotPc(w.mem.pc)
    ensures Steadily(r, w, AdvanceSnapshot(r, w, att, c).w)
  {
    SameLasts(r, w);
    hide Steadily;
    match w.mem.pc {
      case Looking(ps) => PointLasts(r, w, att, Seen(ps, Orders(w.broker.holdings)));
      case Seen(ps, os) => if c.Pick? { SeenLasts(r, w, att, ps, os, c.ticket, c.flag); }
      case Attributed(ps, os, v) => AttributedLasts(r, w, att, ps, os, v);
      case Recorded(ps, os, v) => PointLasts(r, w, att, Observing(ps, os, v));
      case Observing(ps, os, v) => if c.Pick? { ObservingLasts(r, w, att, ps, os, v, c.flag); }
      case Converging(ps, os) => if c.Pick? { ConvergingLasts(r, w, att, ps, os, c.ticket); }
    }
    hide Conduct, StepSeen, StepAttributed, StepObserving, StepConverging;
  }

  lemma RollbackLasts(r: Role, w: Worker, att: Attempt, j: Journal, sl: int, tp: int)
    requires Conduct(w) && Running(w, att) && w.mem.pc.PeerNoted?
    ensures Steadily(r, w, WithPc(PutJournal(w, j), Write(RollbackJob(sl, tp), Admit)))
  {
    PlainlyLasts(r, w, WithPc(PutJournal(w, j), Write(RollbackJob(sl, tp), Admit)));
    hide Steadily;
  }

  lemma PeerNotedLasts(r: Role, w: Worker, att: Attempt, f: FollowUp)
    requires Conduct(w) && Running(w, att) && w.mem.pc == PeerNoted(f)
    ensures Steadily(r, w, StepPeerNoted(w, att.id, f))
  {
    PointLasts(r, w, att, Idle);
    PointLasts(r, w, att, Closing);
    match f {
      case CloseFollow => ClosingLasts(r, w, att);
      case FreezeFollow => LegLasts(r, w, att, w.db.legs[att.id].(protection := Frozen), Reporting(StFrozen, false, false));
      case RollbackFollow(sl, tp) =>
        var p := J.Prepare(w.db.journal, Rollback(att.id), ModifyStops(w.db.legs[att.id].ticket, sl, tp));
        if p.Ok? { RollbackLasts(r, w, att, p.value.1, sl, tp); }
      case NoFollowUp =>
    }
    hide Conduct, Steadily, BeginClose;
  }

  lemma ClosingLasts(r: Role, w: Worker, att: Attempt)
    requires Conduct(w) && Running(w, att)
    ensures Steadily(r, w, WithPc(BeginClose(w), Idle))
  {
    PlainlyLasts(r, w, WithPc(BeginClose(w), Idle));
    hide Steadily;
  }

  lemma RecoverObserveLasts(r: Role, w: Worker, att: Attempt)
    requires Conduct(w) && Running(w, att) && w.mem.pc == RecoverObserve
    ensures Steadily(r, w, WithPc(Observe(w, Entry(att.id), NotStarted), RecoverClose))
  {
    PlainlyLasts(r, w, WithPc(Observe(w, Entry(att.id), NotStarted), RecoverClose));
    hide Steadily;
  }

  lemma RestLasts(r: Role, w: Worker, att: Attempt)
    requires Conduct(w) && Running(w, att) && !BeforeWrite(w.mem.pc) && !w.mem.pc.Write? && !SnapshotPc(w.mem.pc)
    ensures Steadily(r, w, AdvanceRest(w, att.id).w)
  {
    SameLasts(r, w);
    hide Steadily;
    match w.mem.pc {
      case PeerNoted(f) => PeerNotedLasts(r, w, att, f);
      case RecoverObserve => RecoverObserveLasts(r, w, att);
      case RecoverClose => ClosingLasts(r, w, att); PointLasts(r, w, att, Idle);
      case Closing => ClosingLasts(r, w, att);
      case _ => PointLasts(r, w, att, Idle); PointLasts(r, w, att, Closing);
    }
    hide Conduct, StepPeerNoted, Observe, BeginClose;
  }

  lemma AdvanceAttemptLasts(cfg: Config, r: Role, w: Worker, att: Attempt, c: Choice)
    requires Discipline(r, w) && Conduct(w) && w.mem.Up? && w.mem.attempt == Some(att)
    requires !w.mem.pc.Idle? && !w.mem.pc.Recovering? && !w.mem.pc.Resetting? && !w.mem.pc.RejectReport?
    ensures Steadily(r, w, AdvanceAttempt(cfg, r, w, att, c).w)
  {
    if w.mem.pc.Write? {
      WriteLasts(cfg, r, w, att, w.mem.pc.job, w.mem.pc.stage, c);
    } else if EntryPc(w.mem.pc) {
      EntryLasts(cfg, r, w, att);
    } else if SnapshotPc(w.mem.pc) {
      SnapshotLasts(r, w, att, c);
    } else {
      RestLasts(r, w, att);
    }
    hide Core, Conduct, Steadily, AdvanceEntry, AdvanceSnapshot, AdvanceRest, StepWrite;
  }

  lemma RecoveringLasts(r: Role, w: Worker)
    requires Discipline(r, w) && Conduct(w) && w.mem.Up? && w.mem.pc == Recovering
    ensures Steadily(r, w, StepRecovering(w))
  {
    if w.mem.attempt.Some? && w.mem.attempt.value.id in w.db.legs {
      var att := w.mem.attempt.value;
      var (leg, pc) := ReconcileEntry(w.db.journal, Entry(att.id), w.db.legs[att.id]);
      assert AttemptOk(w, att.id);
      LegLasts(r, w, att, leg, pc);
      hide Steadily;
    }
    hide Core;
  }

  lemma ResettingLasts(r: Role, w: Worker)
    requires Discipline(r, w) && Conduct(w) && w.mem.Up? && w.mem.pc == Resetting
    ensures Steadily(r, w, StepResetting(w))
  {
    hide Core;
  }

  lemma RefusedLasts(r: Role, w: Worker)
    requires Conduct(w) && w.mem.Up? && w.mem.pc.RejectReport?
    ensures Steadily(r, w, WithPc(w, Idle))
  {
  }

  lemma AdvanceLasts(cfg: Config, r: Role, w: Worker, c: Choice)
    requires Discipline(r, w) && Conduct(w)
    ensures Steadily(r, w, AdvanceStep(cfg, r, w, c).w)
  {
    SameLasts(r, w);
    if w.mem.Up? {
      if w.mem.pc == Recovering {
        RecoveringLasts(r, w);
      } else if w.mem.pc == Resetting {
        ResettingLasts(r, w);
      } else if w.mem.pc.RejectReport? {
        RefusedLasts(r, w);
      } else if w.mem.attempt.Some? && !w.mem.pc.Idle? {
        AdvanceAttemptLasts(cfg, r, w, w.mem.attempt.value, c);
      }
    }
    hide Discipline, Conduct, Steadily, AdvanceAttempt, StepRecovering, StepResetting;
  }

  // ---- decisions between handlers, and the world around them --------------------------------------

  /** Nothing but a close request, a stop or a read. */
  predicate QuietDecision(w: Worker, w': Worker) {
    && MinorStep(w, w') && w'.db.confirmed == w.db.confirmed
    && (w.mem.Down? ==> w'.db.desired == w.db.desired)
    && (w.mem.Up? ==>
          && w'.mem.confirmed == w.mem.confirmed && (w'.mem.pc == w.mem.pc || w'.mem.pc != ConfirmSend)
          && ((w'.mem.desired == w.mem.desired && w'.db.desired == w.db.desired)
              || (IdleWith(w) && w'.mem.desired == EmptyDesired && w'.db.desired == EmptyDesired))
          && (w'.mem.deadline.None? || (w'.mem.deadline == w.mem.deadline && w'.mem.desired == w.mem.desired)))
  }

  lemma DecisionIsQuiet(cfg: Config, r: Role, w: Worker, m: Move)
    requires Conduct(w) && IsDecision(m) && !m.Confirm?
    ensures QuietDecision(w, MoveStep(cfg, r, w, m).w)
  {
    DecisionIsMinor(cfg, r, w, m);
  }

  lemma QuietDecisionLasts(r: Role, w: Worker, w': Worker)
    requires Conduct(w) && QuietDecision(w, w')
    ensures Steadily(r, w, w')
  {
    if IdleWith(w) {
      PlainlyLasts(r, w, w');
      hide Steadily;
    }
  }

  lemma ProtectLasts(r: Role, w: Worker, executable: bool, sl: int, tp: int)
    requires Discipline(r, w) && Conduct(w)
    ensures Steadily(r, w, ProtectStep(w, executable, sl, tp))
  {
    SameLasts(r, w);
    if ProtectStep(w, executable, sl, tp) != w {
      var id := w.mem.attempt.value.id;
      var (fallback, pc) := FreezeOrFallback(w.db.legs[id]);
      LegLasts(r, w, w.mem.attempt.value, fallback, pc);
      var p := J.Prepare(w.db.journal, Protection(id), ModifyStops(w.db.legs[id].ticket, sl, tp));
      if p.Ok? { ProtectionBegins(r, w, p.value.1, sl, tp); }
    }
    hide Core, Steadily;
  }

  lemma ProtectionBegins(r: Role, w: Worker, j: Journal, sl: int, tp: int)
    requires Conduct(w) && IdleWith(w) && w.mem.desired == ActiveDesired
    ensures Steadily(r, w, WithPc(PutJournal(w, j), Write(ProtectionJob(sl, tp), Admit)))
  {
    SteadyLasts(r, w, WithPc(PutJournal(w, j), Write(ProtectionJob(sl, tp), Admit)));
    hide Steadily;
  }

  lemma BrokerLasts(r: Role, w: Worker, t: nat)
    requires Conduct(w)
    ensures Steadily(r, w, FillOrderStep(w, t))
    ensures Steadily(r, w, w.(broker := w.broker.(holdings := w.broker.holdings - {t})))
  {
  }

  lemma CrashLasts(r: Role, w: Worker)
    requires Conduct(w)
    ensures Steadily(r, w, w.(mem := Down))
  {
  }

  lemma BootLasts(r: Role, w: Worker)
    requires Discipline(r, w) && Conduct(w)
    ensures Steadily(r, w, w.(mem := Load(w.db)))
  {
    if w.db.latest.Some? { assert AttemptOk(w, w.db.latest.value); }
    hide Core;
  }

  lemma HoldingsAreRecorded(r: Role, w: Worker)
    requires Discipline(r, w)
    ensures forall t :: t in w.broker.holdings ==> w.broker.holdings[t].attempt in w.db.attempts
  {
    forall t | t in w.broker.holdings ensures w.broker.holdings[t].attempt in w.db.attempts {
      var id := w.broker.holdings[t].attempt;
      assert HoldingOk(w, t) && EffectOk(w, Entry(id)) && AttemptOk(w, id);
    }
  }

  lemma CreateLasts(r: Role, w: Worker, att: Attempt)
    requires Discipline(r, w) && Conduct(w)
    ensures Steadily(r, w, CreateAttempt(r, w, att))
  {
    HoldingsAreRecorded(r, w);
    assert AttemptOk(w, att.id);
    hide Core;
  }

  lemma FinalizeLasts(r: Role, w: Worker)
    requires Discipline(r, w) && Conduct(w)
    ensures Steadily(r, w, FinalizeStep(r, w))
  {
    hide Core;
  }

  /** Where the leader may confirm: exact evidence of its own fill and of the mirrored peer fill. */
  predicate MayConfirm(r: Role, w: Worker, m: Move, id: nat) {
    && m.Confirm? && r == Leader && CurrentIs(w, id) && FilledLeg(w, id) && w.mem.desired == ActiveDesired
    && w.mem.peer == StFilled(w.mem.attempt.value.symbol, w.mem.attempt.value.DirectionOf(Follower), w.mem.attempt.value.lots)
  }

  lemma ConfirmLasts(r: Role, w: Worker, own: bool, peer: bool)
    requires Discipline(r, w) && Conduct(w)
    ensures var w' := ConfirmStep(r, w, own, peer);
            Conduct(w') && Lasts(w, w') && Traced(r, w, w') && forall id :: Confirmed(w', id) ==> Confirmed(w, id) || MayConfirm(r, w, Confirm(own, peer), id)
  {
    if IdleWith(w) { PlainlyLasts(r, w, WithPc(w, FailNotice)); }
  }

  lemma MoveLasts(cfg: Config, r: Role, w: Worker, m: Move)
    requires Discipline(r, w) && Conduct(w)
    ensures var w' := MoveStep(cfg, r, w, m).w;
            Conduct(w') && Lasts(w, w') && Traced(r, w, w') && forall id :: Confirmed(w', id) ==> Confirmed(w, id) || MayConfirm(r, w, m, id)
  {
    match m {
      case Advance(c) => AdvanceLasts(cfg, r, w, c);
      case Create(att) => CreateLasts(r, w, att);
      case Finalize => FinalizeLasts(r, w);
      case Confirm(own, peer) => ConfirmLasts(r, w, own, peer);
      case Protect(x, sl, tp) => ProtectLasts(r, w, x, sl, tp);
      case Crash => CrashLasts(r, w);
      case Boot => BootLasts(r, w); SameLasts(r, w);
      case FillOrder(t) => BrokerLasts(r, w, t);
      case StopOut(t) => BrokerLasts(r, w, t);
      case _ =>
        DecisionIsQuiet(cfg, r, w, m);
        QuietDecisionLasts(r, w, MoveStep(cfg, r, w, m).w);
    }
    hide Discipline, Conduct, Lasts, Traced, Confirmed, AdvanceStep, CreateAttempt, FinalizeStep, ConfirmStep, ProtectStep, FillOrderStep, Load;
  }

  /** Where the follower may confirm: told to, on an open attempt, before its own receipt timer. */
  predicate MayAcceptConfirmation(r: Role, w: Worker, m: Msg, id: nat) {
    && m == ConfirmedMsg(id) && r == Follower && CurrentIs(w, id) && w.mem.desired == ActiveDesired
    && w.mem.deadline.Some? && w.clock < w.mem.deadline.value
  }

  lemma ReceiveAttemptLasts(r: Role, w: Worker, att: Attempt, admit: bool)
    requires Discipline(r, w) && Conduct(w) && CanReceive(w)
    ensures Steadily(r, w, ReceiveAttempt(r, w, att, admit).w)
  {
    HoldingsAreRecorded(r, w);
    assert AttemptOk(w, att.id);
    hide Core;
  }

  lemma ReceiveConfirmedLasts(r: Role, w: Worker, id: nat)
    requires Discipline(r, w) && Conduct(w) && CanReceive(w)
    ensures var w' := ReceiveConfirmed(r, w, id);
            Conduct(w') && Lasts(w, w') && Traced(r, w, w') && forall i :: Confirmed(w', i) ==> Confirmed(w, i) || MayAcceptConfirmation(r, w, ConfirmedMsg(id), i)
  {
    if IdleWith(w) { PlainlyLasts(r, w, BeginClose(w)); }
  }

  lemma CloseLasts(r: Role, w: Worker)
    requires Conduct(w) && IdleWith(w)
    ensures Steadily(r, w, BeginClose(w))
  {
    PlainlyLasts(r, w, BeginClose(w));
  }

  /** A peer status is written down and, for the current attempt, followed up. */
  lemma HeardLasts(r: Role, w: Worker, peers: map<nat, LegStatus>, s: LegStatus, f: FollowUp)
    requires Conduct(w) && IdleWith(w)
    ensures Steadily(r, w, w.(db := w.db.(peerLegs := peers), mem := w.mem.(peer := s, pc := PeerNoted(f))))
  {
    PlainlyLasts(r, w, w.(db := w.db.(peerLegs := peers), mem := w.mem.(peer := s, pc := PeerNoted(f))));
  }

  lemma ReceiveStatusLasts(r: Role, w: Worker, id: nat, s: LegStatus, sl: int, tp: int)
    requires Discipline(r, w) && Conduct(w) && CanReceive(w)
    ensures Steadily(r, w, ReceiveLegStatus(r, w, id, s, sl, tp).w)
  {
    if CurrentIs(w, id) {
      HeardLasts(r, w, w.db.peerLegs[id := s], s, FollowUpOf(s, sl, tp));
    }
  }

  lemma ReceiveLasts(r: Role, w: Worker, m: Msg, how: Reading)
    requires Discipline(r, w) && Conduct(w)
    ensures var w' := Receive(r, w, m, how).w;
            Conduct(w') && Lasts(w, w') && Traced(r, w, w') && forall id :: Confirmed(w', id) ==> Confirmed(w, id) || MayAcceptConfirmation(r, w, m, id)
  {
    if CanReceive(w) {
      match m {
        case AttemptMsg(att) => ReceiveAttemptLasts(r, w, att, how.admit);
        case LegStatusMsg(id, s) => ReceiveStatusLasts(r, w, id, s, how.sl, how.tp);
        case ConfirmedMsg(id) => ReceiveConfirmedLasts(r, w, id);
        case FailedMsg(id) => if CurrentIs(w, id) { CloseLasts(r, w); }
        case RequestMsg(_) =>
      }
    }
    SameLasts(r, w);
    hide Discipline, Conduct, Lasts, Traced, ReceiveAttempt, ReceiveLegStatus;
  }

  // ---- what a Worker says about fills and confirmations -------------------------------------------

  /** A fill is reported only for a leg that was attributed its exact position. */
  predicate SaidWithEvidence(r: Role, w: Worker, m: Msg) {
    match m
    case LegStatusMsg(id, s) =>
      s.StFilled? ==>
        FilledLeg(w, id) && var att := w.db.attempts[id].attempt; s == StFilled(att.symbol, att.DirectionOf(r), att.lots)
    case ConfirmedMsg(id) => Confirmed(w, id)
    case _ => true
  }

  lemma SnapshotSaysWithEvidence(r: Role, w: Worker, att: Attempt, c: Choice, k: nat)
    requires Conduct(w) && Running(w, att) && SnapshotPc(w.mem.pc) && k < |AdvanceSnapshot(r, w, att, c).out|
    ensures SaidWithEvidence(r, AdvanceSnapshot(r, w, att, c).w, AdvanceSnapshot(r, w, att, c).out[k])
  {
    hide StepSeen, StepAttributed, StepObserving, StepConverging;
  }

  lemma RestSaysWithEvidence(r: Role, w: Worker, att: Attempt, k: nat)
    requires Conduct(w) && Running(w, att) && k < |AdvanceRest(w, att.id).out|
    ensures SaidWithEvidence(r, AdvanceRest(w, att.id).w, AdvanceRest(w, att.id).out[k])
  {
    hide StepPeerNoted, StepRecoverClose, Observe, BeginClose;
  }

  lemma EntrySaysNoEvidence(cfg: Config, r: Role, w: Worker, att: Attempt, k: nat)
    requires w.mem.Up? && k < |AdvanceEntry(cfg, r, w, att).out|
    ensures AdvanceEntry(cfg, r, w, att).out[k].AttemptMsg?
  {
    hide StepNewRow, StepDesiredSaved, StepLegSaved, StepEffectPrepared, StepTimerArmed, StepRelaySent;
  }

  lemma AdvanceSaysWithEvidence(cfg: Config, r: Role, w: Worker, c: Choice, k: nat)
    requires Discipline(r, w) && Conduct(w) && k < |AdvanceStep(cfg, r, w, c).out|
    ensures SaidWithEvidence(r, AdvanceStep(cfg, r, w, c).w, AdvanceStep(cfg, r, w, c).out[k])
  {
    if w.mem.pc.RejectReport? {
    } else if EntryPc(w.mem.pc) {
      EntrySaysNoEvidence(cfg, r, w, w.mem.attempt.value, k);
    } else if SnapshotPc(w.mem.pc) {
      SnapshotSaysWithEvidence(r, w, w.mem.attempt.value, c, k);
    } else if !w.mem.pc.Write? {
      RestSaysWithEvidence(r, w, w.mem.attempt.value, k);
    }
    hide Core, Conduct, AdvanceEntry, AdvanceSnapshot, AdvanceRest, StepWrite;
  }

  lemma MoveSaysWithEvidence(cfg: Config, r: Role, w: Worker, m: Move, k: nat)
    requires Discipline(r, w) && Conduct(w) && k < |MoveStep(cfg, r, w, m).out|
    ensures SaidWithEvidence(r, MoveStep(cfg, r, w, m).w, MoveStep(cfg, r, w, m).out[k])
  {
    if m.Advance? { AdvanceSaysWithEvidence(cfg, r, w, m.choice, k); }
    hide Discipline, Conduct, AdvanceStep, CreateAttempt, FinalizeStep, ConfirmStep, ProtectStep, FillOrderStep, Load;
  }

  lemma ReceiveSaysWithEvidence(r: Role, w: Worker, m: Msg, how: Reading, k: nat)
    requires Discipline(r, w) && Conduct(w) && k < |Receive(r, w, m, how).out|
    ensures SaidWithEvidence(r, Receive(r, w, m, how).w, Receive(r, w, m, how).out[k])
  {
    var id := match m case AttemptMsg(att) => att.id case LegStatusMsg(i, _) => i case RequestMsg(i) => i case _ => 0;
    assert AttemptOk(w, id);
  }
}
