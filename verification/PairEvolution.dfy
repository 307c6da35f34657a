/**
  How one Worker may change in one step: rows only gain facts, and an attempt that is settled (recorded,
  not being sent, no exposure) stays settled whatever the broker does.
*/
module PairEvolution {
  import opened Prelude
  import opened PairState
  import opened PairWorker
  import opened PairDiscipline
  import opened PairTruth
  import J = EffectJournal

  /** The entry has not been relayed yet, but will be unless the process dies first. */
  predicate BeforeRelay(pc: Pc) {
    EntryPc(pc) && !pc.RelaySent?
  }

  /** The entry call is still ahead of the running handler. */
  predicate BeforeCall(pc: Pc) {
    EntryPc(pc)
    || (pc.Write? && pc.job.EntryJob? && (pc.stage.Admit? || pc.stage.Granted? || pc.stage.Started?))
  }

  predicate WillRelay(w: Worker, id: nat) {
    CurrentIs(w, id) && BeforeRelay(w.mem.pc)
  }

  predicate WillCall(w: Worker, id: nat) {
    CurrentIs(w, id) && BeforeCall(w.mem.pc)
  }

  ghost predicate Unexposed(w: Worker, id: nat) {
    forall t :: t in w.broker.holdings ==> w.broker.holdings[t].attempt != id
  }

  /** Recorded, not about to be sent, and nothing open: proof that lasts. */
  ghost predicate Settled(w: Worker, id: nat) {
    id in w.db.attempts && !WillCall(w, id) && Unexposed(w, id)
  }

  predicate Relayed(w: Worker, att: Attempt) {
    && att.id in w.db.attempts && w.db.attempts[att.id].attempt == att
    && att.id in w.db.legs && w.db.legs[att.id].attemptRelayed
    && !WillRelay(w, att.id)
  }

  ghost predicate EvolvesAt(w: Worker, w': Worker, id: nat) {
    && (id in w.db.attempts ==>
          && id in w'.db.attempts && w'.db.attempts[id].attempt == w.db.attempts[id].attempt
          && (w.db.attempts[id].terminal.Some? ==> w'.db.attempts[id] == w.db.attempts[id]))
    && (id in w.db.legs ==> id in w'.db.legs && (w.db.legs[id].attemptRelayed ==> w'.db.legs[id].attemptRelayed))
    && (id in w.db.attempts && !WillRelay(w, id) ==> !WillRelay(w', id))
    && (id in w.db.attempts && !WillCall(w, id) ==> !WillCall(w', id) && CallsOf(w'.broker, Entry(id)) == CallsOf(w.broker, Entry(id)))
    && (Settled(w, id) ==> Settled(w', id))
  }

  ghost predicate Evolves(w: Worker, w': Worker) {
    forall id :: EvolvesAt(w, w', id)
  }

  /** ... and no attempt row appears or disappears. */
  ghost predicate Progresses(w: Worker, w': Worker) {
    Evolves(w, w') && w'.db.attempts.Keys == w.db.attempts.Keys
  }

  // ---- the shapes of a step --------------------------------------------------------------------

  /** Same attempt in memory, same attempt rows, no new exposure, no step back towards the call. */
  ghost predicate Onward(w: Worker, w': Worker) {
    && w'.db.attempts == w.db.attempts
    && (forall id :: id in w.db.legs ==> id in w'.db.legs && (w.db.legs[id].attemptRelayed ==> w'.db.legs[id].attemptRelayed))
    && w'.broker == w.broker
    && (w'.mem.Up? && w'.mem.attempt.Some? ==>
          && w.mem.Up? && w'.mem.attempt == w.mem.attempt
          && (BeforeRelay(w'.mem.pc) ==> BeforeRelay(w.mem.pc))
          && (BeforeCall(w'.mem.pc) ==> BeforeCall(w.mem.pc)))
  }

  lemma OnwardEvolves(w: Worker, w': Worker)
    requires Onward(w, w')
    ensures Progresses(w, w')
  {
  }

  /** Only the current leg is rewritten, never losing its relay mark. */
  lemma LegEvolves(w: Worker, id: nat, leg: Leg, w': Worker)
    requires w.mem.Up? && w'.mem.Up? && w'.mem.attempt == w.mem.attempt
    requires w'.db.attempts == w.db.attempts && w'.broker == w.broker && w'.db.legs == w.db.legs[id := leg]
    requires id in w.db.legs && w.db.legs[id].attemptRelayed ==> leg.attemptRelayed
    requires BeforeRelay(w'.mem.pc) ==> BeforeRelay(w.mem.pc)
    requires BeforeCall(w'.mem.pc) ==> BeforeCall(w.mem.pc)
    ensures Progresses(w, w')
  {
  }

  lemma SameEvolves(w: Worker)
    ensures Progresses(w, w)
  {
    OnwardEvolves(w, w);
  }

  lemma AdoptEvolves(w: Worker, att: Attempt)
    requires w.mem.Up? && w.mem.attempt.None? && att.id !in w.db.attempts
    ensures Evolves(w, AdoptAttempt(w, att))
  {
  }

  lemma RefuseEvolves(w: Worker, att: Attempt)
    requires CanReceive(w) && att.id !in w.db.attempts
    ensures Evolves(w, RefuseAttempt(w, att))
  {
  }

  lemma TerminateEvolves(w: Worker, id: nat, reason: TerminalReason)
    requires w.mem.Up? && id in w.db.attempts && w.db.attempts[id].terminal.None?
    ensures Progresses(w, WithPc(Terminate(w, id, reason), Resetting))
  {
  }

  /** Exposure may vanish or turn from order to position; nothing else changes. */
  lemma BrokerEvolves(w: Worker, b: Broker)
    requires b.calls == w.broker.calls
    requires forall t :: t in b.holdings ==> t in w.broker.holdings && b.holdings[t].attempt == w.broker.holdings[t].attempt
    ensures Progresses(w, w.(broker := b))
  {
  }

  // ---- the steps -------------------------------------------------------------------------------

  lemma StartedEvolves(cfg: Config, r: Role, w: Worker, att: Attempt, job: Job, reply: Reply, x: Exposure, removed: bool)
    requires Discipline(r, w) && Running(w, att) && w.mem.pc == Write(job, Started)
    ensures Progresses(w, StepStarted(cfg, w, job, JobEffect(job, att.id), JobPayload(job, att, r, w.db.legs[att.id]), reply, x, removed))
  {
    assert JobOk(r, w, att, job);
  }

  lemma BoundaryEvolves(w: Worker, att: Attempt, job: Job, d: Decision, reply: Reply)
    requires Running(w, att) && w.mem.pc.Write? && w.mem.pc.job == job
    ensures w.mem.pc.stage.Admit? ==> Progresses(w, StepAdmit(w, job, JobEffect(job, att.id), d))
    ensures w.mem.pc.stage.Granted? ==> Progresses(w, StepGranted(w, job, JobEffect(job, att.id)))
    ensures w.mem.pc.stage == Returned(reply) ==> Progresses(w, StepReturned(w, job, JobEffect(job, att.id), reply))
  {
    var e := JobEffect(job, att.id);
    match w.mem.pc.stage {
      case Admit => OnwardEvolves(w, StepAdmit(w, job, e, d));
      case Granted => OnwardEvolves(w, StepGranted(w, job, e));
      case Returned(rep) => if rep == reply { OnwardEvolves(w, StepReturned(w, job, e, reply)); }
      case _ =>
    }
    hide Progresses;
  }

  lemma DoneEvolves(w: Worker, att: Attempt, job: Job, result: WriteResult)
    requires Running(w, att) && w.mem.pc == Write(job, Done(result))
    ensures Progresses(w, StepDone(w, job, att.id, result))
  {
    LegEvolves(w, att.id, AfterWrite(job, w.db.legs[att.id], result).0, StepDone(w, job, att.id, result));
    hide Progresses;
  }

  lemma WriteEvolves(cfg: Config, r: Role, w: Worker, att: Attempt, job: Job, stage: Stage, c: Choice)
    requires Discipline(r, w) && Running(w, att) && w.mem.pc == Write(job, stage)
    ensures Progresses(w, StepWrite(cfg, r, w, att, job, stage, c))
  {
    SameEvolves(w);
    match stage {
      case Started => if c.Outcome? { StartedEvolves(cfg, r, w, att, job, c.reply, c.exposure, c.removed); }
      case Done(result) => DoneEvolves(w, att, job, result);
      case Returned(reply) => BoundaryEvolves(w, att, job, Grant, reply);
      case _ => BoundaryEvolves(w, att, job, if c.Schedule? then c.decision else Grant, NoReceipt);
    }
    hide Discipline, Progresses, StepAdmit, StepGranted, StepStarted, StepReturned, StepDone;
  }

  lemma RowEvolves(w: Worker, att: Attempt)
    requires w.mem.Up? && w.mem.attempt == Some(att)
    ensures w.mem.pc == NewRow ==> Progresses(w, StepNewRow(w))
    ensures w.mem.pc == DesiredSaved && att.id !in w.db.legs ==> Progresses(w, StepDesiredSaved(w, att.id))
    ensures w.mem.pc == RelayIntended ==> Progresses(w, WithPc(w, RelaySent))
  {
    match w.mem.pc {
      case NewRow => OnwardEvolves(w, StepNewRow(w));
      case DesiredSaved => if att.id !in w.db.legs { LegEvolves(w, att.id, NewLeg, StepDesiredSaved(w, att.id)); }
      case RelayIntended => OnwardEvolves(w, WithPc(w, RelaySent));
      case _ =>
    }
  }

  lemma PrepareEvolves(cfg: Config, r: Role, w: Worker, att: Attempt)
    requires Discipline(r, w) && w.mem.Up? && w.mem.attempt == Some(att) && att.id in w.db.legs
    ensures w.mem.pc == LegSaved ==> Progresses(w, StepLegSaved(r, w, att))
    ensures w.mem.pc == EffectPrepared ==> Progresses(w, StepEffectPrepared(cfg, r, w))
  {
    match w.mem.pc {
      case LegSaved => OnwardEvolves(w, StepLegSaved(r, w, att));
      case EffectPrepared => OnwardEvolves(w, StepEffectPrepared(cfg, r, w));
      case _ =>
    }
  }

  lemma DispatchEvolves(w: Worker, att: Attempt)
    requires w.mem.Up? && w.mem.attempt == Some(att) && att.id in w.db.legs
    ensures w.mem.pc == TimerArmed ==> Progresses(w, StepTimerArmed(w, att.id))
    ensures w.mem.pc == RelaySent ==> Progresses(w, StepRelaySent(w, att.id))
  {
    match w.mem.pc {
      case TimerArmed => LegEvolves(w, att.id, w.db.legs[att.id].(attemptRelayed := true), StepTimerArmed(w, att.id));
      case RelaySent => LegEvolves(w, att.id, w.db.legs[att.id].(entryDispatched := true), StepRelaySent(w, att.id));
      case _ =>
    }
  }

  lemma EntryEvolves(cfg: Config, r: Role, w: Worker, att: Attempt)
    requires Discipline(r, w) && w.mem.Up? && w.mem.attempt == Some(att) && EntryPc(w.mem.pc)
    ensures Progresses(w, AdvanceEntry(cfg, r, w, att).w)
  {
    SameEvolves(w);
    RowEvolves(w, att);
    assert w.mem.pc == DesiredSaved ==> att.id !in w.db.legs;
    if att.id in w.db.legs {
      PrepareEvolves(cfg, r, w, att);
      DispatchEvolves(w, att);
    }
    hide Core, Progresses, StepNewRow, StepDesiredSaved, StepLegSaved, StepEffectPrepared, StepTimerArmed, StepRelaySent;
  }

  lemma ContainmentEvolves(w: Worker, e: EffectId, p: Payload)
    requires w.mem.Up? && w.mem.pc.Converging?
    ensures Progresses(w, StartContainment(w, e, p))
  {
    OnwardEvolves(w, StartContainment(w, e, p));
  }

  lemma ConvergingEvolves(w: Worker, att: Attempt, ps: Holdings, os: Holdings, t: nat)
    requires Running(w, att) && w.mem.pc == Converging(ps, os)
    ensures Progresses(w, StepConverging(w, att, ps, os, t))
  {
    var leg := w.db.legs[att.id];
    match Converge(w.mem.desired, w.db.needsHuman, leg, att, ps, os, t) {
      case NotConverging => OnwardEvolves(w, WithPc(w, Idle));
      case Contain(e, p) => ContainmentEvolves(w, e, p);
      case Unattributable => OnwardEvolves(w, WithPc(Latch(w), Idle));
      case VerifiedEmpty => LegEvolves(w, att.id, leg.(emptyVerified := true), StepConverging(w, att, ps, os, t));
      case Undecided =>
    }
  }

  lemma SeenEvolves(r: Role, w: Worker, att: Attempt, ps: Holdings, os: Holdings, t: nat, ok: bool)
    requires Running(w, att) && w.mem.pc == Seen(ps, os)
    ensures Progresses(w, StepSeen(r, w, att, ps, os, t, ok))
  {
    SameEvolves(w);
    match AttributeEntry(r, w.db.legs[att.id], att, ps, t, ok) {
      case None =>
      case Some((leg, v)) => LegEvolves(w, att.id, leg, StepSeen(r, w, att, ps, os, t, ok));
    }
  }

  lemma ObservingEvolves(w: Worker, att: Attempt, ps: Holdings, os: Holdings, v: Verdict, mismatch: bool)
    requires Running(w, att) && w.mem.pc == Observing(ps, os, v)
    ensures Progresses(w, StepObserving(w, att.id, ps, os, v, mismatch))
  {
    var o := ObservedTicket(w, att.id, ps);
    assert o == PutJournal(w, o.db.journal);
    OnwardEvolves(w, StepObserving(w, att.id, ps, os, v, mismatch));
  }

  lemma PointEvolves(w: Worker, pc: Pc)
    requires w.mem.Up? && !BeforeCall(pc)
    ensures Progresses(w, WithPc(w, pc))
  {
    OnwardEvolves(w, WithPc(w, pc));
  }

  lemma AttributedEvolves(w: Worker, att: Attempt, ps: Holdings, os: Holdings, v: Verdict)
    requires Running(w, att)
    ensures Progresses(w, StepAttributed(w, att.id, ps, os, v))
  {
    OnwardEvolves(w, StepAttributed(w, att.id, ps, os, v));
  }

  lemma SnapshotEvolves(r: Role, w: Worker, att: Attempt, c: Choice)
    requires Running(w, att) && SnapshotPc(w.mem.pc)
    ensures Progresses(w, AdvanceSnapshot(r, w, att, c).w)
  {
    SameEvolves(w);
    match w.mem.pc {
      case Looking(ps) => PointEvolves(w, Seen(ps, Orders(w.broker.holdings)));
      case Seen(ps, os) => if c.Pick? { SeenEvolves(r, w, att, ps, os, c.ticket, c.flag); }
      case Attributed(ps, os, v) => AttributedEvolves(w, att, ps, os, v);
      case Recorded(ps, os, v) => PointEvolves(w, Observing(ps, os, v));
      case Observing(ps, os, v) => if c.Pick? { ObservingEvolves(w, att, ps, os, v, c.flag); }
      case Converging(ps, os) => if c.Pick? { ConvergingEvolves(w, att, ps, os, c.ticket); }
    }
    hide Progresses, StepSeen, StepAttributed, StepObserving, StepConverging;
  }

  lemma PeerNotedEvolves(w: Worker, att: Attempt, f: FollowUp)
    requires Running(w, att) && w.mem.pc == PeerNoted(f)
    ensures Progresses(w, StepPeerNoted(w, att.id, f))
  {
    var w' := StepPeerNoted(w, att.id, f);
    assert w'.db.legs == w.db.legs[att.id := w'.db.legs[att.id]];
    LegEvolves(w, att.id, w'.db.legs[att.id], w');
  }

  lemma ClosedEvolves(w: Worker)
    requires w.mem.Up?
    ensures Progresses(w, WithPc(BeginClose(w), Idle))
  {
    OnwardEvolves(w, WithPc(BeginClose(w), Idle));
  }

  lemma ObservedEvolves(w: Worker, id: nat)
    requires w.mem.Up?
    ensures Progresses(w, WithPc(Observe(w, Entry(id), NotStarted), RecoverClose))
  {
    OnwardEvolves(w, WithPc(Observe(w, Entry(id), NotStarted), RecoverClose));
  }

  lemma RestEvolves(w: Worker, att: Attempt)
    requires Running(w, att) && !BeforeCall(w.mem.pc) && !w.mem.pc.Write?
    ensures Progresses(w, AdvanceRest(w, att.id).w)
  {
    SameEvolves(w);
    match w.mem.pc {
      case PeerNoted(f) => PeerNotedEvolves(w, att, f);
      case RecoverObserve => ObservedEvolves(w, att.id);
      case RecoverClose => PointEvolves(w, Idle); ClosedEvolves(w);
      case Closing => ClosedEvolves(w);
      case _ => PointEvolves(w, Idle); PointEvolves(w, Closing);
    }
    hide Progresses, StepPeerNoted, Observe, BeginClose;
  }

  lemma AdvanceAttemptEvolves(cfg: Config, r: Role, w: Worker, att: Attempt, c: Choice)
    requires Discipline(r, w) && w.mem.Up? && w.mem.attempt == Some(att)
    requires !w.mem.pc.Idle? && !w.mem.pc.Recovering? && !w.mem.pc.Resetting? && !w.mem.pc.RejectReport?
    ensures Progresses(w, AdvanceAttempt(cfg, r, w, att, c).w)
  {
    if w.mem.pc.Write? {
      WriteEvolves(cfg, r, w, att, w.mem.pc.job, w.mem.pc.stage, c);
    } else if EntryPc(w.mem.pc) {
      EntryEvolves(cfg, r, w, att);
    } else if SnapshotPc(w.mem.pc) {
      SnapshotEvolves(r, w, att, c);
    } else {
      RestEvolves(w, att);
    }
    hide Core, Progresses, AdvanceEntry, AdvanceSnapshot, AdvanceRest, StepWrite;
  }

  lemma RecoveringEvolves(r: Role, w: Worker)
    requires Discipline(r, w) && w.mem.Up? && w.mem.pc == Recovering
    ensures Progresses(w, StepRecovering(w))
  {
    if w.mem.attempt.None? {
      OnwardEvolves(w, StepRecovering(w));
    } else {
      var id := w.mem.attempt.value.id;
      if id in w.db.legs {
        LegEvolves(w, id, ReconcileEntry(w.db.journal, Entry(id), w.db.legs[id]).0, StepRecovering(w));
      } else {
        TerminateEvolves(w, id, NoLocalEffect);
      }
    }
  }

  lemma AdvanceEvolves(cfg: Config, r: Role, w: Worker, c: Choice)
    requires Discipline(r, w)
    ensures Progresses(w, AdvanceStep(cfg, r, w, c).w)
  {
    if w.mem.Down? || w.mem.pc == Idle {
      OnwardEvolves(w, w);
    } else if w.mem.pc == Recovering {
      RecoveringEvolves(r, w);
    } else if w.mem.pc == Resetting {
      OnwardEvolves(w, StepResetting(w));
    } else if w.mem.pc.RejectReport? || w.mem.attempt.None? {
      OnwardEvolves(w, AdvanceStep(cfg, r, w, c).w);
    } else {
      AdvanceAttemptEvolves(cfg, r, w, w.mem.attempt.value, c);
    }
  }

  lemma ProtectEvolves(r: Role, w: Worker, x: bool, sl: int, tp: int)
    requires Discipline(r, w)
    ensures Progresses(w, ProtectStep(w, x, sl, tp))
  {
    OnwardEvolves(w, ProtectStep(w, x, sl, tp));
  }

  lemma CreateEvolves(r: Role, w: Worker, att: Attempt)
    requires Discipline(r, w)
    ensures Evolves(w, CreateAttempt(r, w, att))
    ensures r == Leader || CreateAttempt(r, w, att) == w
    ensures CreateAttempt(r, w, att).db.attempts.Keys <= w.db.attempts.Keys + {att.id}
  {
    SameEvolves(w);
    if CreateAttempt(r, w, att) != w { AdoptEvolves(w, att); }
  }

  lemma FinalizeEvolves(r: Role, w: Worker)
    requires Discipline(r, w)
    ensures Progresses(w, FinalizeStep(r, w))
  {
    SameEvolves(w);
    if FinalizeStep(r, w) != w { TerminateEvolves(w, w.mem.attempt.value.id, BothEmptyVerified); }
  }

  lemma OutsideEvolves(w: Worker, t: nat)
    ensures Progresses(w, FillOrderStep(w, t)) && Progresses(w, w.(broker := w.broker.(holdings := w.broker.holdings - {t})))
    ensures Progresses(w, w.(mem := Down))
  {
    BrokerEvolves(w, FillOrderStep(w, t).broker);
    BrokerEvolves(w, w.broker.(holdings := w.broker.holdings - {t}));
    OnwardEvolves(w, w.(mem := Down));
  }

  lemma MinorEvolves(w: Worker, w': Worker)
    requires MinorStep(w, w')
    ensures Progresses(w, w')
  {
    OnwardEvolves(w, w');
  }

  lemma MoveEvolves(cfg: Config, r: Role, w: Worker, m: Move)
    requires Discipline(r, w)
    ensures Evolves(w, MoveStep(cfg, r, w, m).w)
    ensures (m.Create? && r == Leader) || MoveStep(cfg, r, w, m).w.db.attempts.Keys == w.db.attempts.Keys
    ensures m.Create? ==> MoveStep(cfg, r, w, m).w.db.attempts.Keys <= w.db.attempts.Keys + {m.attempt.id}
  {
    match m {
      case Advance(c) => AdvanceEvolves(cfg, r, w, c);
      case Create(att) => CreateEvolves(r, w, att);
      case Finalize => FinalizeEvolves(r, w);
      case Boot => BootEvolves(w);
      case FillOrder(t) => OutsideEvolves(w, t);
      case StopOut(t) => OutsideEvolves(w, t);
      case Protect(x, sl, tp) => ProtectEvolves(r, w, x, sl, tp);
      case Crash => OutsideEvolves(w, 0);
      case _ =>
        DecisionIsMinor(cfg, r, w, m);
        MinorEvolves(w, MoveStep(cfg, r, w, m).w);
    }
    hide Discipline, Evolves, CreateAttempt, FinalizeStep, FillOrderStep, Load, ProtectStep, ConfirmStep, AdvanceStep;
  }

  lemma BootEvolves(w: Worker)
    ensures Progresses(w, if w.mem.Down? then w.(mem := Load(w.db)) else w)
  {
  }

  lemma ReceiveAttemptEvolves(r: Role, w: Worker, att: Attempt, admit: bool)
    requires Discipline(r, w) && CanReceive(w)
    ensures Evolves(w, ReceiveAttempt(r, w, att, admit).w)
    ensures r == Leader ==> ReceiveAttempt(r, w, att, admit).w == w
    ensures ReceiveAttempt(r, w, att, admit).w.db.attempts.Keys <= w.db.attempts.Keys + {att.id}
  {
    SameEvolves(w);
    if att.id !in w.db.attempts {
      if w.mem.attempt.None? { AdoptEvolves(w, att); }
      RefuseEvolves(w, att);
    }
    hide Core, Evolves;
  }

  /** A peer status, a confirmation or a failure notice changes no row. */
  lemma HeardEvolves(w: Worker, w': Worker)
    requires CanReceive(w) && w'.mem.Up? && w'.mem.attempt == w.mem.attempt && (w'.mem.pc.Idle? || w'.mem.pc.PeerNoted?)
    requires w'.db.attempts == w.db.attempts && w'.db.legs == w.db.legs && w'.broker == w.broker
    ensures Progresses(w, w')
  {
    OnwardEvolves(w, w');
  }

  lemma ReceiveEvolves(r: Role, w: Worker, m: Msg, how: Reading)
    requires Discipline(r, w)
    ensures Evolves(w, Receive(r, w, m, how).w)
    ensures r == Leader || !m.AttemptMsg? ==> Receive(r, w, m, how).w.db.attempts.Keys == w.db.attempts.Keys
    ensures m.AttemptMsg? ==> Receive(r, w, m, how).w.db.attempts.Keys <= w.db.attempts.Keys + {m.attempt.id}
  {
    SameEvolves(w);
    if CanReceive(w) {
      match m {
        case AttemptMsg(att) => ReceiveAttemptEvolves(r, w, att, how.admit);
        case LegStatusMsg(id, s) => HeardEvolves(w, ReceiveLegStatus(r, w, id, s, how.sl, how.tp).w);
        case RequestMsg(_) =>
        case ConfirmedMsg(id) => HeardEvolves(w, ReceiveConfirmed(r, w, id));
        case FailedMsg(_) => HeardEvolves(w, BeginClose(w));
      }
    }
    hide Discipline, Evolves, ReceiveAttempt;
  }
}
