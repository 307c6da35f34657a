/**
  What a Worker's durable claims say about its own account, when the broker answers an entry
  conclusively: a leg that is rejected, expired or verified empty has no exposure behind it.
*/
module PairTruth {
  import opened Prelude
  import opened PairState
  import opened PairWorker
  import opened PairDiscipline
  import J = EffectJournal

  function ExactHolding(att: Attempt, r: Role): Holding {
    Holding(att.id, att.symbol, att.DirectionOf(r), att.lots, false)
  }

  /** The positions a running snapshot has read, while it is being acted on. */
  function SnapshotOf(pc: Pc): Option<Holdings> {
    if SnapshotPc(pc) then Some(pc.positions)
    else None
  }

  /** Program points at which the current attempt provably has no exposure. */
  predicate NothingYet(pc: Pc) {
    EntryPc(pc) || pc.Resetting?
    || (pc.Write? && pc.job.EntryJob? && NotFilled(pc.stage))
  }

  predicate NotFilled(s: Stage) {
    s.Admit? || s.Granted? || s.Started?
    || s == Returned(Answered(false))
    || (s.Done? && (s.result.RejectedByBroker? || s.result.Refused? || s.result.NeverStarted?))
  }

  /** Everything a holding tells about the durable rows of the attempt that opened it. */
  predicate HoldingTrue(r: Role, w: Worker, t: nat) {
    t in w.broker.holdings ==>
      var h := w.broker.holdings[t];
      var id := h.attempt;
      && id in w.db.attempts && h == ExactHolding(w.db.attempts[id].attempt, r)
      && id in w.db.legs
      && w.db.legs[id].entryStatus !in {Rejected, ExpiredNotStarted}
      && !w.db.legs[id].emptyVerified
      && (LatestLive(w) ==> w.db.latest.value == id)
      && (w.mem.Up? && w.mem.attempt.Some? ==>
            && w.mem.attempt.value.id == id
            && !NothingYet(w.mem.pc)
            && (SnapshotOf(w.mem.pc).Some? ==> t in SnapshotOf(w.mem.pc).value && SnapshotOf(w.mem.pc).value[t] == h))
  }

  /** A pending report is already backed by the durable leg. */
  predicate ReportTrue(w: Worker) {
    w.mem.Up? ==>
      match w.mem.pc
      case Reporting(s, _, _) => w.mem.attempt.Some? && w.mem.attempt.value.id in w.db.legs && StatusBacked(w.db.legs[w.mem.attempt.value.id], s)
      case Attributed(_, _, v) => v == SeenAbsent ==> CurrentRejected(w)
      case Recorded(_, _, v) => v == SeenAbsent ==> CurrentRejected(w)
      case RejectReport(id) => id in w.db.attempts && w.db.attempts[id].terminal == Some(AdmissionRejected)
      case _ => true
  }

  predicate CurrentRejected(w: Worker)
    requires w.mem.Up?
  {
    w.mem.attempt.Some? && w.mem.attempt.value.id in w.db.legs
    && w.db.legs[w.mem.attempt.value.id].entryStatus == Rejected
  }

  predicate StatusBacked(leg: Leg, s: LegStatus) {
    && (s == StRejected ==> leg.entryStatus == Rejected)
    && (s == StExpired ==> leg.entryStatus == ExpiredNotStarted)
    && (s == StEmpty ==> leg.emptyVerified)
    && s != StNoRecord
  }

  predicate LatestLive(w: Worker) {
    w.db.latest.Some? && w.db.latest.value in w.db.attempts && w.db.attempts[w.db.latest.value].terminal.None?
  }

  /** The attempt in memory is the one a restart would load, unless a refusal was recorded since. */
  predicate LatestTrue(w: Worker) {
    w.mem.Up? && w.mem.attempt.Some? && LatestLive(w) ==> w.db.latest.value == w.mem.attempt.value.id
  }

  ghost predicate Truth(r: Role, w: Worker) {
    (forall t :: HoldingTrue(r, w, t)) && ReportTrue(w) && LatestTrue(w)
  }

  /** The part of the discipline a snapshot step needs. */
  predicate Running(w: Worker, att: Attempt) {
    w.mem.Up? && w.mem.attempt == Some(att) && att.id in w.db.legs
    && att.id in w.db.attempts && w.db.attempts[att.id].attempt == att
  }

  // ---- generic steps ---------------------------------------------------------------------------

  /** A step that leaves holdings, rows and legs alone and moves to a point with no new claim. */
  predicate QuietStep(w: Worker, w': Worker) {
    && w.mem.Up? && w'.mem.Up? && w'.mem.attempt == w.mem.attempt
    && w'.db.attempts == w.db.attempts && w'.db.latest == w.db.latest && w'.broker.holdings == w.broker.holdings
    && (NothingYet(w'.mem.pc) ==> NothingYet(w.mem.pc))
    && (SnapshotOf(w'.mem.pc).Some? ==> SnapshotOf(w'.mem.pc) == SnapshotOf(w.mem.pc))
  }

  lemma QuietKeeps(r: Role, w: Worker, w': Worker)
    requires Truth(r, w) && QuietStep(w, w') && w'.db.legs == w.db.legs && ReportTrue(w')
    ensures Truth(r, w')
  {
    forall t ensures HoldingTrue(r, w', t) { assert HoldingTrue(r, w, t); }
  }

  /** Rewriting the current leg: a negative claim needs an account with no exposure of it. */
  lemma LegKeeps(r: Role, w: Worker, att: Attempt, leg: Leg, w': Worker)
    requires Truth(r, w) && QuietStep(w, w') && w.mem.attempt == Some(att) && ReportTrue(w')
    requires w'.db.legs == w.db.legs[att.id := leg]
    requires leg.entryStatus in {Rejected, ExpiredNotStarted} || leg.emptyVerified ==>
               NothingYet(w.mem.pc) || (att.id in w.db.legs && (w.db.legs[att.id].entryStatus in {Rejected, ExpiredNotStarted} || w.db.legs[att.id].emptyVerified))
               || w.broker.holdings == map[]
    ensures Truth(r, w')
  {
    forall t ensures HoldingTrue(r, w', t) { assert HoldingTrue(r, w, t); }
  }

  // ---- the micro-steps -------------------------------------------------------------------------

  lemma StartedTruth(cfg: Config, r: Role, w: Worker, att: Attempt, job: Job, reply: Reply, x: Exposure, removed: bool)
    requires cfg.Conclusive() && Discipline(r, w) && Truth(r, w) && Running(w, att)
    requires w.mem.pc == Write(job, Started)
    ensures Truth(r, StepStarted(cfg, w, job, JobEffect(job, att.id), JobPayload(job, att, r, w.db.legs[att.id]), reply, x, removed))
  {
    var w' := StepStarted(cfg, w, job, JobEffect(job, att.id), JobPayload(job, att, r, w.db.legs[att.id]), reply, x, removed);
    assert AttemptOk(w, att.id);
    forall t ensures HoldingTrue(r, w', t) { assert HoldingTrue(r, w, t) && HoldingOk(w, t); }
  }

  lemma DoneTruth(r: Role, w: Worker, att: Attempt, job: Job, result: WriteResult)
    requires Truth(r, w) && Running(w, att) && w.mem.pc == Write(job, Done(result))
    ensures Truth(r, StepDone(w, job, att.id, result))
  {
    LegKeeps(r, w, att, AfterWrite(job, w.db.legs[att.id], result).0, StepDone(w, job, att.id, result));
  }

  lemma BoundaryTruth(r: Role, w: Worker, att: Attempt, job: Job, d: Decision, reply: Reply)
    requires Truth(r, w) && Running(w, att) && w.mem.pc.Write? && w.mem.pc.job == job
    ensures w.mem.pc.stage.Admit? ==> Truth(r, StepAdmit(w, job, JobEffect(job, att.id), d))
    ensures w.mem.pc.stage.Granted? ==> Truth(r, StepGranted(w, job, JobEffect(job, att.id)))
    ensures w.mem.pc.stage == Returned(reply) ==> Truth(r, StepReturned(w, job, JobEffect(job, att.id), reply))
  {
    match w.mem.pc.stage {
      case Admit => QuietKeeps(r, w, StepAdmit(w, job, JobEffect(job, att.id), d));
      case Granted => QuietKeeps(r, w, StepGranted(w, job, JobEffect(job, att.id)));
      case Returned(rep) => if rep == reply { QuietKeeps(r, w, StepReturned(w, job, JobEffect(job, att.id), reply)); }
      case _ =>
    }
  }

  lemma WriteTruth(cfg: Config, r: Role, w: Worker, att: Attempt, job: Job, stage: Stage, c: Choice)
    requires cfg.Conclusive() && Discipline(r, w) && Truth(r, w) && Running(w, att) && w.mem.pc == Write(job, stage)
    ensures Truth(r, StepWrite(cfg, r, w, att, job, stage, c))
  {
    match stage {
      case Admit => if c.Schedule? { BoundaryTruth(r, w, att, job, c.decision, NoReceipt); }
      case Granted => BoundaryTruth(r, w, att, job, Grant, NoReceipt);
      case Started => if c.Outcome? { StartedTruth(cfg, r, w, att, job, c.reply, c.exposure, c.removed); }
      case Returned(reply) => BoundaryTruth(r, w, att, job, Grant, reply);
      case Done(result) => DoneTruth(r, w, att, job, result);
    }
  }

  /** A position of the current attempt is always an exact match, so finding none means having none. */
  lemma NoMatchMeansFlat(r: Role, w: Worker, att: Attempt, ps: Holdings)
    requires Truth(r, w) && Running(w, att)
    requires SnapshotOf(w.mem.pc) == Some(ps) && (Matches(ps, att, r) == {} || ps == map[])
    ensures w.broker.holdings == map[]
  {
    forall t ensures t !in w.broker.holdings {
      assert HoldingTrue(r, w, t);
      assert t in w.broker.holdings ==> t in ps && t in Matches(ps, att, r);
    }
  }

  lemma SeenTruth(r: Role, w: Worker, att: Attempt, ps: Holdings, os: Holdings, t: nat, ok: bool)
    requires Truth(r, w) && Running(w, att)
    requires w.mem.pc == Seen(ps, os)
    ensures Truth(r, StepSeen(r, w, att, ps, os, t, ok))
  {
    match AttributeEntry(r, w.db.legs[att.id], att, ps, t, ok) {
      case None =>
      case Some((leg, v)) =>
        if v == SeenAbsent { NoMatchMeansFlat(r, w, att, ps); }
        AttributedLegTruth(r, w, att, leg, v, ps, os);
    }
    hide Truth;
  }

  lemma AttributedLegTruth(r: Role, w: Worker, att: Attempt, leg: Leg, v: Verdict, ps: Holdings, os: Holdings)
    requires Truth(r, w) && Running(w, att) && w.mem.pc == Seen(ps, os)
    requires v == SeenAbsent ==> leg.entryStatus == Rejected && w.broker.holdings == map[]
    requires v != SeenAbsent ==> leg == w.db.legs[att.id] || (leg.entryStatus == Filled && leg.emptyVerified == w.db.legs[att.id].emptyVerified)
    ensures Truth(r, WithPc(PutLeg(w, att.id, leg), Attributed(ps, os, v)))
  {
    LegKeeps(r, w, att, leg, WithPc(PutLeg(w, att.id, leg), Attributed(ps, os, v)));
  }

  lemma ContainmentTruth(r: Role, w: Worker, e: EffectId, p: Payload)
    requires Truth(r, w) && w.mem.Up? && w.mem.pc.Converging?
    ensures Truth(r, StartContainment(w, e, p))
  {
    QuietKeeps(r, w, StartContainment(w, e, p));
  }

  lemma VerifiedEmptyTruth(r: Role, w: Worker, att: Attempt, ps: Holdings, os: Holdings)
    requires Truth(r, w) && Running(w, att) && w.mem.pc == Converging(ps, os) && ps == map[]
    ensures Truth(r, WithPc(PutLeg(w, att.id, w.db.legs[att.id].(emptyVerified := true)), Reporting(StEmpty, false, false)))
  {
    var leg := w.db.legs[att.id].(emptyVerified := true);
    NoMatchMeansFlat(r, w, att, ps);
    LegKeeps(r, w, att, leg, WithPc(PutLeg(w, att.id, leg), Reporting(StEmpty, false, false)));
  }

  lemma ConvergingTruth(r: Role, w: Worker, att: Attempt, ps: Holdings, os: Holdings, t: nat)
    requires Truth(r, w) && Running(w, att)
    requires w.mem.pc == Converging(ps, os)
    ensures Truth(r, StepConverging(w, att, ps, os, t))
  {
    match Converge(w.mem.desired, w.db.needsHuman, w.db.legs[att.id], att, ps, os, t) {
      case NotConverging => QuietKeeps(r, w, WithPc(w, Idle));
      case Contain(e, p) => ContainmentTruth(r, w, e, p);
      case Unattributable => QuietKeeps(r, w, WithPc(Latch(w), Idle));
      case VerifiedEmpty => VerifiedEmptyTruth(r, w, att, ps, os);
      case Undecided =>
    }
    hide Truth, StartContainment;
  }

  lemma ObservingTruth(r: Role, w: Worker, att: Attempt, ps: Holdings, os: Holdings, v: Verdict, mismatch: bool)
    requires Truth(r, w) && Running(w, att) && w.mem.pc == Observing(ps, os, v)
    ensures Truth(r, StepObserving(w, att.id, ps, os, v, mismatch))
  {
    var o := ObservedTicket(w, att.id, ps);
    assert o == PutJournal(w, o.db.journal);
    QuietKeeps(r, w, StepObserving(w, att.id, ps, os, v, mismatch));
  }

  lemma AttributedTruth(r: Role, w: Worker, att: Attempt, ps: Holdings, os: Holdings, v: Verdict)
    requires Truth(r, w) && Running(w, att) && w.mem.pc in {Attributed(ps, os, v), Recorded(ps, os, v)}
    ensures w.mem.pc.Attributed? ==> Truth(r, StepAttributed(w, att.id, ps, os, v))
    ensures w.mem.pc.Recorded? ==> Truth(r, WithPc(w, Observing(ps, os, v)))
  {
    if w.mem.pc.Attributed? {
      QuietKeeps(r, w, StepAttributed(w, att.id, ps, os, v));
    } else {
      QuietKeeps(r, w, WithPc(w, Observing(ps, os, v)));
    }
  }

  lemma LookingTruth(r: Role, w: Worker, ps: Holdings)
    requires Truth(r, w) && w.mem.Up? && w.mem.pc == Looking(ps)
    ensures Truth(r, WithPc(w, Seen(ps, Orders(w.broker.holdings))))
  {
    QuietKeeps(r, w, WithPc(w, Seen(ps, Orders(w.broker.holdings))));
  }

  lemma SnapshotTruth(r: Role, w: Worker, att: Attempt, c: Choice)
    requires Truth(r, w) && Running(w, att) && SnapshotPc(w.mem.pc)
    ensures Truth(r, AdvanceSnapshot(r, w, att, c).w)
  {
    match w.mem.pc {
      case Looking(ps) => LookingTruth(r, w, ps);
      case Seen(ps, os) => if c.Pick? { SeenTruth(r, w, att, ps, os, c.ticket, c.flag); }
      case Attributed(ps, os, v) => AttributedTruth(r, w, att, ps, os, v);
      case Recorded(ps, os, v) => AttributedTruth(r, w, att, ps, os, v);
      case Observing(ps, os, v) => if c.Pick? { ObservingTruth(r, w, att, ps, os, v, c.flag); }
      case Converging(ps, os) => if c.Pick? { ConvergingTruth(r, w, att, ps, os, c.ticket); }
    }
    hide Truth, StepSeen, StepAttributed, StepObserving, StepConverging;
  }

  lemma RecoveringTruth(r: Role, w: Worker)
    requires Discipline(r, w) && Truth(r, w) && w.mem.Up? && w.mem.pc == Recovering
    ensures Truth(r, StepRecovering(w))
  {
    var w' := StepRecovering(w);
    if w.mem.attempt.Some? {
      var id := w.mem.attempt.value.id;
      assert EffectOk(w, Entry(id)) && AttemptOk(w, id);
    }
    forall t ensures HoldingTrue(r, w', t) { assert HoldingTrue(r, w, t) && HoldingOk(w, t); }
  }

  lemma PlainTruth(r: Role, w: Worker, c: Choice)
    requires Truth(r, w) && w.mem.Up? && (w.mem.pc == Resetting || w.mem.pc.RejectReport?)
    ensures Truth(r, StepResetting(w)) && Truth(r, WithPc(w, Idle))
  {
    forall w' | w' in {StepResetting(w), WithPc(w, Idle)} ensures Truth(r, w') {
      forall t ensures HoldingTrue(r, w', t) { assert HoldingTrue(r, w, t); }
    }
  }

  lemma AdvanceTruth(cfg: Config, r: Role, w: Worker, c: Choice)
    requires cfg.Conclusive() && Discipline(r, w) && Truth(r, w)
    ensures Truth(r, AdvanceStep(cfg, r, w, c).w)
  {
    if w.mem.Up? {
      if w.mem.pc == Recovering {
        RecoveringTruth(r, w);
      } else if w.mem.pc == Resetting || w.mem.pc.RejectReport? {
        PlainTruth(r, w, c);
      } else if w.mem.pc != Idle && w.mem.attempt.Some? {
        AdvanceAttemptTruth(cfg, r, w, w.mem.attempt.value, c);
      }
    }
    hide Discipline, Truth, AdvanceAttempt, StepRecovering, StepResetting;
  }

  lemma RowTruth(r: Role, w: Worker, att: Attempt)
    requires Discipline(r, w) && Truth(r, w) && w.mem.Up? && w.mem.attempt == Some(att)
    ensures w.mem.pc == NewRow ==> Truth(r, StepNewRow(w))
    ensures w.mem.pc == DesiredSaved ==> Truth(r, StepDesiredSaved(w, att.id))
  {
    match w.mem.pc {
      case NewRow => QuietKeeps(r, w, StepNewRow(w));
      case DesiredSaved => LegKeeps(r, w, att, NewLeg, StepDesiredSaved(w, att.id));
      case _ =>
    }
  }

  lemma PrepareTruth(cfg: Config, r: Role, w: Worker, att: Attempt)
    requires Discipline(r, w) && Truth(r, w) && w.mem.Up? && w.mem.attempt == Some(att)
    ensures w.mem.pc == LegSaved ==> att.id in w.db.legs && Truth(r, StepLegSaved(r, w, att))
    ensures w.mem.pc == EffectPrepared ==> Truth(r, StepEffectPrepared(cfg, r, w))
    ensures w.mem.pc == RelayIntended ==> Truth(r, WithPc(w, RelaySent))
  {
    match w.mem.pc {
      case LegSaved => QuietKeeps(r, w, StepLegSaved(r, w, att));
      case EffectPrepared => QuietKeeps(r, w, StepEffectPrepared(cfg, r, w));
      case RelayIntended => QuietKeeps(r, w, WithPc(w, RelaySent));
      case _ =>
    }
  }

  lemma DispatchTruth(r: Role, w: Worker, att: Attempt)
    requires Discipline(r, w) && Truth(r, w) && w.mem.Up? && w.mem.attempt == Some(att)
    ensures w.mem.pc == TimerArmed ==> att.id in w.db.legs && Truth(r, StepTimerArmed(w, att.id))
    ensures w.mem.pc == RelaySent ==> att.id in w.db.legs && Truth(r, StepRelaySent(w, att.id))
  {
    match w.mem.pc {
      case TimerArmed => LegKeeps(r, w, att, w.db.legs[att.id].(attemptRelayed := true), StepTimerArmed(w, att.id));
      case RelaySent => LegKeeps(r, w, att, w.db.legs[att.id].(entryDispatched := true), StepRelaySent(w, att.id));
      case _ =>
    }
  }

  lemma EntryTruth(cfg: Config, r: Role, w: Worker, att: Attempt)
    requires Discipline(r, w) && Truth(r, w) && w.mem.Up? && w.mem.attempt == Some(att) && EntryPc(w.mem.pc)
    ensures Truth(r, AdvanceEntry(cfg, r, w, att).w)
  {
    RowTruth(r, w, att);
    PrepareTruth(cfg, r, w, att);
    DispatchTruth(r, w, att);
    hide Discipline, Truth, StepNewRow, StepDesiredSaved, StepLegSaved, StepEffectPrepared, StepTimerArmed, StepRelaySent;
  }

  lemma PeerNotedTruth(r: Role, w: Worker, att: Attempt, f: FollowUp)
    requires Truth(r, w) && Running(w, att) && w.mem.pc == PeerNoted(f)
    ensures Truth(r, StepPeerNoted(w, att.id, f))
  {
    var w' := StepPeerNoted(w, att.id, f);
    assert w'.db.legs == w.db.legs[att.id := w'.db.legs[att.id]];
    LegKeeps(r, w, att, w'.db.legs[att.id], w');
  }

  /** The remaining points: reports, closes, and the rest of a restart. */
  lemma RestTruth(r: Role, w: Worker, att: Attempt)
    requires Truth(r, w) && Running(w, att)
    requires !NothingYet(w.mem.pc) && !SnapshotPc(w.mem.pc) && !w.mem.pc.Write?
    ensures Truth(r, AdvanceRest(w, att.id).w)
  {
    var w' := AdvanceRest(w, att.id).w;
    if w.mem.pc.PeerNoted? {
      PeerNotedTruth(r, w, att, w.mem.pc.followUp);
    } else {
      assert w'.db.attempts == w.db.attempts && w'.db.legs == w.db.legs;
      QuietKeeps(r, w, w');
    }
    hide StepPeerNoted;
  }

  lemma AdvanceAttemptTruth(cfg: Config, r: Role, w: Worker, att: Attempt, c: Choice)
    requires cfg.Conclusive() && Discipline(r, w) && Truth(r, w) && w.mem.Up? && w.mem.attempt == Some(att)
    requires !w.mem.pc.Idle? && !w.mem.pc.Recovering? && !w.mem.pc.Resetting? && !w.mem.pc.RejectReport?
    ensures Truth(r, AdvanceAttempt(cfg, r, w, att, c).w)
  {
    if w.mem.pc.Write? {
      WriteTruth(cfg, r, w, att, w.mem.pc.job, w.mem.pc.stage, c);
    } else if EntryPc(w.mem.pc) {
      EntryTruth(cfg, r, w, att);
    } else if SnapshotPc(w.mem.pc) {
      SnapshotTruth(r, w, att, c);
    } else {
      RestTruth(r, w, att);
    }
    hide Truth, Core, AdvanceEntry, AdvanceSnapshot, AdvanceRest, StepWrite;
  }

  lemma OutsideTruth(cfg: Config, r: Role, w: Worker, m: Move)
    requires Truth(r, w) && (m.FillOrder? || m.StopOut? || m.Crash?)
    ensures Truth(r, MoveStep(cfg, r, w, m).w)
  {
    var w' := MoveStep(cfg, r, w, m).w;
    forall t ensures HoldingTrue(r, w', t) { assert HoldingTrue(r, w, t); }
  }

  lemma BootTruth(r: Role, w: Worker)
    requires Discipline(r, w) && Truth(r, w)
    ensures Truth(r, w.(mem := Load(w.db)))
  {
    assert w.db.latest.Some? ==> AttemptOk(w, w.db.latest.value);
    var w' := w.(mem := Load(w.db));
    forall t ensures HoldingTrue(r, w', t) { assert HoldingTrue(r, w, t); }
  }

  lemma CreateTruth(r: Role, w: Worker, att: Attempt)
    requires Truth(r, w)
    ensures Truth(r, CreateAttempt(r, w, att))
  {
    var w' := CreateAttempt(r, w, att);
    forall t ensures HoldingTrue(r, w', t) { assert HoldingTrue(r, w, t); }
  }

  lemma FinalizeTruth(r: Role, w: Worker)
    requires Discipline(r, w) && Truth(r, w)
    ensures Truth(r, FinalizeStep(r, w))
  {
    var w' := FinalizeStep(r, w);
    forall t ensures HoldingTrue(r, w', t) { assert HoldingTrue(r, w, t); }
  }

  lemma ProtectTruth(r: Role, w: Worker, x: bool, sl: int, tp: int)
    requires Discipline(r, w) && Truth(r, w)
    ensures Truth(r, ProtectStep(w, x, sl, tp))
  {
    var w' := ProtectStep(w, x, sl, tp);
    if w' != w {
      LegKeeps(r, w, w.mem.attempt.value, w'.db.legs[w.mem.attempt.value.id], w');
    }
  }

  lemma MinorTruth(r: Role, w: Worker, w': Worker)
    requires Truth(r, w) && MinorStep(w, w')
    ensures Truth(r, w')
  {
    forall t ensures HoldingTrue(r, w', t) { assert HoldingTrue(r, w, t); }
  }

  lemma MoveTruth(cfg: Config, r: Role, w: Worker, m: Move)
    requires cfg.Conclusive() && Discipline(r, w) && Truth(r, w)
    ensures Truth(r, MoveStep(cfg, r, w, m).w)
  {
    match m {
      case Advance(c) => AdvanceTruth(cfg, r, w, c);
      case Create(att) => CreateTruth(r, w, att);
      case Finalize => FinalizeTruth(r, w);
      case Protect(x, sl, tp) => ProtectTruth(r, w, x, sl, tp);
      case Boot => BootTruth(r, w);
      case FillOrder(_) => OutsideTruth(cfg, r, w, m);
      case StopOut(_) => OutsideTruth(cfg, r, w, m);
      case Crash => OutsideTruth(cfg, r, w, m);
      case _ =>
        DecisionIsMinor(cfg, r, w, m);
        MinorTruth(r, w, MoveStep(cfg, r, w, m).w);
    }
    hide Discipline, Truth, ProtectStep, FinalizeStep, ConfirmStep, AdvanceStep, CreateAttempt, Load;
  }

  lemma ReceiveAttemptTruth(r: Role, w: Worker, att: Attempt, admit: bool)
    requires Discipline(r, w) && Truth(r, w) && CanReceive(w)
    ensures Truth(r, ReceiveAttempt(r, w, att, admit).w)
  {
    var w' := ReceiveAttempt(r, w, att, admit).w;
    forall t ensures HoldingTrue(r, w', t) { assert HoldingTrue(r, w, t); }
  }

  lemma HeardTruth(r: Role, w: Worker, w': Worker)
    requires Truth(r, w) && CanReceive(w) && w'.mem.Up? && w'.mem.attempt == w.mem.attempt && (w'.mem.pc.Idle? || w'.mem.pc.PeerNoted?)
    requires w'.db.attempts == w.db.attempts && w'.db.latest == w.db.latest && w'.db.legs == w.db.legs && w'.broker == w.broker
    ensures Truth(r, w')
  {
    forall t ensures HoldingTrue(r, w', t) { assert HoldingTrue(r, w, t); }
  }

  lemma ReceiveTruth(r: Role, w: Worker, m: Msg, how: Reading)
    requires Discipline(r, w) && Truth(r, w)
    ensures Truth(r, Receive(r, w, m, how).w)
  {
    if CanReceive(w) {
      match m {
        case AttemptMsg(att) => ReceiveAttemptTruth(r, w, att, how.admit);
        case LegStatusMsg(id, s) => HeardTruth(r, w, ReceiveLegStatus(r, w, id, s, how.sl, how.tp).w);
        case ConfirmedMsg(id) => HeardTruth(r, w, ReceiveConfirmed(r, w, id));
        case FailedMsg(id) => HeardTruth(r, w, BeginClose(w));
        case RequestMsg(_) =>
      }
    }
    hide Discipline, Truth;
  }
}
