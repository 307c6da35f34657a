/**
  What a Worker does about what it hears and decides, over whole runs: a peer leg that is gone or failed closes this
  one, and stops reach the broker exactly as they were decided, for the one position of the attempt.
*/
module PairResponses {
  import opened Prelude
  import opened PairState
  import opened PairWorker
  import opened PairDiscipline
  import opened PairTruth
  import opened PairEvolution
  import opened PairBelief
  import opened PairNetwork
  import opened PairConduct
  import opened PairConfirmation
  import J = EffectJournal

  // ---- one Worker ------------------------------------------------------------------------------

  predicate Kept(j: Journal, j': Journal, e: EffectId) {
    (e in j' <==> e in j) && (e in j ==> j'[e].payload == j[e].payload)
  }

  /** Precise protection appears only as the end of a protection write. */
  predicate PreciseTraced(w: Worker, w': Worker, id: nat) {
    id in w'.db.legs && w'.db.legs[id].protection == Precise ==>
      || (id in w.db.legs && w.db.legs[id].protection == Precise)
      || (CurrentIs(w, id) && w.mem.pc.Write? && w.mem.pc.job.ProtectionJob?)
  }

  /** A follow-up is pending only since it was heard. */
  predicate NotedTraced(w: Worker, w': Worker) {
    w'.mem.Up? && w'.mem.pc.PeerNoted? ==> w.mem.Up? && w.mem.pc == w'.mem.pc && w.mem.attempt == w'.mem.attempt
  }

  /** No stops are begun. */
  predicate StopsKept(w: Worker, w': Worker, id: nat) {
    && Kept(w.db.journal, w'.db.journal, Protection(id)) && Kept(w.db.journal, w'.db.journal, Rollback(id))
    && PreciseTraced(w, w', id) && NotedTraced(w, w')
  }

  /** A rollback is begun only by the follow-up it was noted for, with its prices, for the leg's ticket. */
  predicate RollbackTraced(w: Worker, w': Worker, id: nat) {
    && Kept(w.db.journal, w'.db.journal, Protection(id)) && PreciseTraced(w, w', id) && NotedTraced(w, w')
    && (Rollback(id) in w.db.journal ==> Kept(w.db.journal, w'.db.journal, Rollback(id)))
    && (Rollback(id) in w'.db.journal && Rollback(id) !in w.db.journal ==>
          && CurrentIs(w, id) && w.mem.pc.PeerNoted? && w.mem.pc.followUp.RollbackFollow?
          && id in w.db.legs && w.db.legs[id].protection == Precise
          && w'.db.journal[Rollback(id)].payload == ModifyStops(w.db.legs[id].ticket, w.mem.pc.followUp.sl, w.mem.pc.followUp.tp))
  }

  /** Precise protection is begun only by that decision, on a confirmed attempt, with its prices, for the leg's ticket. */
  predicate ProtectionTraced(w: Worker, w': Worker, m: Move, id: nat) {
    && Kept(w.db.journal, w'.db.journal, Rollback(id)) && PreciseTraced(w, w', id) && NotedTraced(w, w')
    && (Protection(id) in w.db.journal ==> Kept(w.db.journal, w'.db.journal, Protection(id)))
    && (Protection(id) in w'.db.journal && Protection(id) !in w.db.journal ==>
          && m.Protect? && m.executable && CurrentIs(w, id) && id in w.db.legs && w.mem.confirmed
          && w'.db.journal[Protection(id)].payload == ModifyStops(w.db.legs[id].ticket, m.sl, m.tp))
  }

  lemma ObserveKeeps(w: Worker, e: EffectId, v: Evidence, x: EffectId)
    ensures Kept(w.db.journal, Observe(w, e, v).db.journal, x) && Observe(w, e, v) == PutJournal(w, Observe(w, e, v).db.journal)
  {
  }

  /** A journal update that adds no row and keeps payloads. */
  lemma JournalStops(w: Worker, j: Journal, pc: Pc, id: nat)
    requires w.mem.Up? && !pc.PeerNoted? && Kept(w.db.journal, j, Protection(id)) && Kept(w.db.journal, j, Rollback(id))
    ensures StopsKept(w, WithPc(PutJournal(w, j), pc), id)
  {
  }

  lemma MarkedKeeps(j: Journal, e: EffectId, x: EffectId)
    ensures J.MarkSendStarted(j, e).Ok? ==> Kept(j, J.MarkSendStarted(j, e).value, x)
  {
  }

  lemma CompletedKeeps(j: Journal, e: EffectId, state: J.EffectState, v: Evidence, x: EffectId)
    ensures J.Complete(j, e, state, v).Ok? ==> Kept(j, J.Complete(j, e, state, v).value, x)
  {
  }

  lemma AdmitStops(w: Worker, job: Job, e: EffectId, d: Decision, id: nat)
    requires w.mem.Up?
    ensures StopsKept(w, StepAdmit(w, job, e, d), id) || StepAdmit(w, job, e, d) == w
  {
    hide Observe, StopsKept;
    ObserveKeeps(w, e, NotStarted, Protection(id));
    ObserveKeeps(w, e, NotStarted, Rollback(id));
    var j := Observe(w, e, NotStarted).db.journal;
    if d.Refuse? {
      JournalStops(w, j, Write(job, Done(d.result)), id);
    } else {
      assert w == PutJournal(w, w.db.journal);
      JournalStops(w, w.db.journal, if d.Grant? then Write(job, Granted) else Write(job, Done(Unclear)), id);
    }
  }

  lemma GrantedStops(w: Worker, job: Job, e: EffectId, id: nat)
    requires w.mem.Up?
    ensures StopsKept(w, StepGranted(w, job, e), id)
  {
    hide StopsKept;
    MarkedKeeps(w.db.journal, e, Protection(id));
    MarkedKeeps(w.db.journal, e, Rollback(id));
    assert w == PutJournal(w, w.db.journal);
    JournalStops(w, w.db.journal, Write(job, Done(Unclear)), id);
    if J.MarkSendStarted(w.db.journal, e).Ok? { JournalStops(w, J.MarkSendStarted(w.db.journal, e).value, Write(job, Started), id); }
  }

  lemma ReturnedStops(w: Worker, job: Job, e: EffectId, reply: Reply, id: nat)
    requires w.mem.Up?
    ensures StopsKept(w, StepReturned(w, job, e, reply), id)
  {
    hide StopsKept;
    assert w == PutJournal(w, w.db.journal);
    JournalStops(w, w.db.journal, Write(job, Done(Unclear)), id);
    if reply.Answered? {
      var c := J.Complete(w.db.journal, e, J.HasReceipt, Receipt(reply.success));
      CompletedKeeps(w.db.journal, e, J.HasReceipt, Receipt(reply.success), Protection(id));
      CompletedKeeps(w.db.journal, e, J.HasReceipt, Receipt(reply.success), Rollback(id));
      if c.Ok? { JournalStops(w, c.value, Write(job, Done(if reply.success then Completed else RejectedByBroker)), id); }
    }
  }

  lemma DoneStops(w: Worker, att: Attempt, job: Job, result: WriteResult, id: nat)
    requires Running(w, att) && w.mem.pc == Write(job, Done(result))
    ensures StopsKept(w, StepDone(w, job, att.id, result), id)
  {
  }

  lemma WriteStops(cfg: Config, r: Role, w: Worker, att: Attempt, job: Job, stage: Stage, c: Choice, id: nat)
    requires Running(w, att) && w.mem.pc == Write(job, stage)
    ensures StopsKept(w, StepWrite(cfg, r, w, att, job, stage, c), id)
  {
    SameStops(w, id);
    hide CallBroker, StepAdmit, StepGranted, StepReturned, StepDone;
    match stage {
      case Admit => if c.Schedule? { AdmitStops(w, job, JobEffect(job, att.id), c.decision, id); }
      case Granted => GrantedStops(w, job, JobEffect(job, att.id), id);
      case Returned(reply) => ReturnedStops(w, job, JobEffect(job, att.id), reply, id);
      case Done(result) => DoneStops(w, att, job, result, id);
      case Started =>
    }
  }

  lemma EntryStops(cfg: Config, r: Role, w: Worker, att: Attempt, id: nat)
    requires w.mem.Up? && w.mem.attempt == Some(att) && EntryPc(w.mem.pc)
    ensures StopsKept(w, AdvanceEntry(cfg, r, w, att).w, id)
  {
  }

  lemma SeenStops(r: Role, w: Worker, att: Attempt, ps: Holdings, os: Holdings, t: nat, ok: bool, id: nat)
    requires Running(w, att) && SnapshotPc(w.mem.pc)
    ensures StopsKept(w, StepSeen(r, w, att, ps, os, t, ok), id)
  {
    hide Matches;
  }

  lemma AttributedStops(w: Worker, att: Attempt, ps: Holdings, os: Holdings, v: Verdict, id: nat)
    requires Running(w, att) && SnapshotPc(w.mem.pc)
    ensures StopsKept(w, StepAttributed(w, att.id, ps, os, v), id)
  {
    hide Observe;
    forall e | e in {PositionSeen, AbsenceSeen} ensures ObservesOnly(w, Observe(w, Entry(att.id), e), id) { ObserveOnly(w, Entry(att.id), e, id); }
  }

  predicate ObservesOnly(w: Worker, w': Worker, id: nat) {
    && w' == PutJournal(w, w'.db.journal)
    && Kept(w.db.journal, w'.db.journal, Protection(id)) && Kept(w.db.journal, w'.db.journal, Rollback(id))
  }

  lemma ObserveOnly(w: Worker, e: EffectId, v: Evidence, id: nat)
    ensures ObservesOnly(w, Observe(w, e, v), id)
  {
    hide Observe;
    ObserveKeeps(w, e, v, Protection(id));
    ObserveKeeps(w, e, v, Rollback(id));
  }

  lemma TicketOnly(w: Worker, att: nat, ps: Holdings, id: nat)
    requires att in w.db.legs
    ensures ObservesOnly(w, ObservedTicket(w, att, ps), id)
  {
    hide Observe;
    var t := w.db.legs[att].ticket;
    ObserveOnly(w, Protection(att), PositionSeen, id);
    ObserveOnly(w, Protection(att), AbsenceSeen, id);
    if t.Some? { ObserveOnly(Observe(w, Protection(att), AbsenceSeen), Close(att, t.value), AbsenceSeen, id); }
  }

  lemma ObservedStops(w: Worker, att: Attempt, ps: Holdings, os: Holdings, v: Verdict, mismatch: bool, id: nat)
    requires Running(w, att) && SnapshotPc(w.mem.pc)
    ensures StopsKept(w, StepObserving(w, att.id, ps, os, v, mismatch), id)
  {
    hide ObservedTicket;
    TicketOnly(w, att.id, ps, id);
  }

  lemma ContainmentStops(w: Worker, e: EffectId, p: Payload, id: nat)
    requires w.mem.Up? && (e.Cancel? || e.Close?)
    ensures StopsKept(w, StartContainment(w, e, p), id)
  {
  }

  lemma ConvergingStops(w: Worker, att: Attempt, ps: Holdings, os: Holdings, t: nat, id: nat)
    requires Running(w, att) && SnapshotPc(w.mem.pc)
    ensures StopsKept(w, StepConverging(w, att, ps, os, t), id)
  {
    match Converge(w.mem.desired, w.db.needsHuman, w.db.legs[att.id], att, ps, os, t) {
      case Contain(e, p) => ContainmentStops(w, e, p, id);
      case _ =>
    }
    hide StartContainment;
  }

  lemma SnapshotStops(r: Role, w: Worker, att: Attempt, c: Choice, id: nat)
    requires Running(w, att) && SnapshotPc(w.mem.pc)
    ensures StopsKept(w, AdvanceSnapshot(r, w, att, c).w, id)
  {
    match w.mem.pc {
      case Seen(ps, os) => if c.Pick? { SeenStops(r, w, att, ps, os, c.ticket, c.flag, id); }
      case Attributed(ps, os, v) => AttributedStops(w, att, ps, os, v, id);
      case Observing(ps, os, v) => if c.Pick? { ObservedStops(w, att, ps, os, v, c.flag, id); }
      case Converging(ps, os) => if c.Pick? { ConvergingStops(w, att, ps, os, c.ticket, id); }
      case _ =>
    }
    hide StepSeen, StepAttributed, StepObserving, StepConverging;
  }

  lemma NotedStops(w: Worker, id: nat, f: FollowUp)
    requires w.mem.Up? && w.mem.attempt.Some? && w.mem.attempt.value.id in w.db.legs && w.mem.pc == PeerNoted(f)
    ensures RollbackTraced(w, StepPeerNoted(w, w.mem.attempt.value.id, f), id)
  {
  }

  lemma RestStops(w: Worker, att: Attempt, id: nat)
    requires Running(w, att) && !w.mem.pc.Write? && !SnapshotPc(w.mem.pc) && !EntryPc(w.mem.pc)
    ensures RollbackTraced(w, AdvanceRest(w, att.id).w, id)
  {
    hide StepPeerNoted, Observe, StepRecoverClose;
    ObserveOnly(w, Entry(att.id), NotStarted, id);
    if w.mem.pc.PeerNoted? { NotedStops(w, id, w.mem.pc.followUp); }
    if w.mem.pc.RecoverClose? { ClosedStops(w, att.id, id); }
  }

  lemma ClosedStops(w: Worker, att: nat, id: nat)
    requires w.mem.Up? && att in w.db.legs
    ensures StopsKept(w, StepRecoverClose(w, att), id)
  {
  }

  lemma StopsTraced(w: Worker, w': Worker, id: nat)
    requires StopsKept(w, w', id)
    ensures RollbackTraced(w, w', id) && forall m :: ProtectionTraced(w, w', m, id)
  {
  }

  lemma AttemptStops(cfg: Config, r: Role, w: Worker, att: Attempt, c: Choice, id: nat)
    requires Discipline(r, w) && w.mem.Up? && w.mem.attempt == Some(att)
    requires !w.mem.pc.Idle? && !w.mem.pc.Recovering? && !w.mem.pc.Resetting? && !w.mem.pc.RejectReport?
    ensures RollbackTraced(w, AdvanceAttempt(cfg, r, w, att, c).w, id)
  {
    var w' := AdvanceAttempt(cfg, r, w, att, c).w;
    if EntryPc(w.mem.pc) {
      EntryStops(cfg, r, w, att, id);
      StopsTraced(w, w', id);
    } else if w.mem.pc.Write? {
      WriteStops(cfg, r, w, att, w.mem.pc.job, w.mem.pc.stage, c, id);
      StopsTraced(w, w', id);
    } else if SnapshotPc(w.mem.pc) {
      SnapshotStops(r, w, att, c, id);
      StopsTraced(w, w', id);
    } else {
      RestStops(w, att, id);
    }
    hide Core, RollbackTraced, StopsKept, AdvanceEntry, AdvanceSnapshot, AdvanceRest, StepWrite;
  }

  lemma RestartStops(w: Worker, id: nat)
    requires w.mem.Up?
    ensures StopsKept(w, StepRecovering(w), id) && StopsKept(w, StepResetting(w), id)
  {
  }

  lemma SameStops(w: Worker, id: nat)
    ensures StopsKept(w, w, id) && RollbackTraced(w, w, id)
  {
  }

  lemma AdvanceStops(cfg: Config, r: Role, w: Worker, c: Choice, id: nat)
    requires Discipline(r, w)
    ensures RollbackTraced(w, AdvanceStep(cfg, r, w, c).w, id)
  {
    SameStops(w, id);
    if w.mem.Up? {
      if w.mem.pc == Recovering || w.mem.pc == Resetting {
        RestartStops(w, id);
        StopsTraced(w, AdvanceStep(cfg, r, w, c).w, id);
      } else if w.mem.attempt.Some? && w.mem.pc != Idle && !w.mem.pc.RejectReport? {
        AttemptStops(cfg, r, w, w.mem.attempt.value, c, id);
      }
    }
    hide Discipline, AdvanceAttempt, StepRecovering, StepResetting;
  }

  lemma ProtectStops(w: Worker, x: bool, sl: int, tp: int, id: nat)
    ensures ProtectionTraced(w, ProtectStep(w, x, sl, tp), Protect(x, sl, tp), id)
  {
  }

  lemma OtherMoveStops(cfg: Config, r: Role, w: Worker, m: Move, id: nat)
    requires !m.Advance? && !m.Protect?
    ensures StopsKept(w, MoveStep(cfg, r, w, m).w, id)
  {
  }

  /** A message begins no stops; what it may leave to follow up on is what it said. */
  predicate HeardStops(w: Worker, w': Worker, m: Msg, how: Reading, id: nat) {
    && Kept(w.db.journal, w'.db.journal, Protection(id)) && Kept(w.db.journal, w'.db.journal, Rollback(id)) && PreciseTraced(w, w', id)
    && (w'.mem.Up? && w'.mem.pc.PeerNoted? && w'.mem.pc.followUp.RollbackFollow? ==>
          || NotedTraced(w, w')
          || (w.mem.Up? && w'.mem.attempt == w.mem.attempt && w.mem.attempt.Some? && m == LegStatusMsg(w.mem.attempt.value.id, StFallback)
              && w'.mem.pc.followUp == RollbackFollow(how.sl, how.tp)))
  }

  lemma AttemptHeard(r: Role, w: Worker, att: Attempt, how: Reading, id: nat)
    requires CanReceive(w)
    ensures HeardStops(w, ReceiveAttempt(r, w, att, how.admit).w, AttemptMsg(att), how, id)
  {
  }

  lemma StatusHeard(r: Role, w: Worker, i: nat, s: LegStatus, how: Reading, id: nat)
    requires CanReceive(w)
    ensures HeardStops(w, ReceiveLegStatus(r, w, i, s, how.sl, how.tp).w, LegStatusMsg(i, s), how, id)
  {
  }

  lemma OtherHeard(r: Role, w: Worker, m: Msg, how: Reading, id: nat)
    requires CanReceive(w) && !m.AttemptMsg? && !m.LegStatusMsg?
    ensures HeardStops(w, Receive(r, w, m, how).w, m, how, id)
  {
  }

  lemma ReceiveStops(r: Role, w: Worker, m: Msg, how: Reading, id: nat)
    ensures HeardStops(w, Receive(r, w, m, how).w, m, how, id)
  {
    hide ReceiveAttempt, ReceiveLegStatus;
    SameStops(w, id);
    if CanReceive(w) {
      match m {
        case AttemptMsg(att) => AttemptHeard(r, w, att, how, id);
        case LegStatusMsg(i, s) => StatusHeard(r, w, i, s, how, id);
        case _ => OtherHeard(r, w, m, how, id);
      }
    }
  }

  // ---- a peer leg that is gone or failed closes this one -----------------------------------------

  /** With this action the Worker takes up a status of its running attempt's other leg; an absence only if it asked. */
  ghost predicate TakenUp(cfg: Config, acts: seq<Action>, k: nat, r: Role, id: nat, s: LegStatus) {
    && k < |acts| && acts[k].Deliver? && acts[k].role == r
    && var g := Run(cfg, Start, acts[..k]);
       && Inbox(g, r) != [] && Inbox(g, r)[0] == LegStatusMsg(id, s)
       && CanReceive(Member(g, r)) && CurrentIs(Member(g, r), id) && (s == StNoRecord ==> Member(g, r).mem.probes > 0)
  }

  /** The process has not died since. */
  predicate AliveSince(acts: seq<Action>, k: nat, r: Role) {
    forall j :: k < j < |acts| ==> acts[j] != Act(r, Crash)
  }

  /** EMPTY is wanted and recorded, without a timer, or about to be. */
  predicate ClosesOrClosed(w: Worker, id: nat) {
    && w.mem.Up? && id in w.db.legs && id in w.db.attempts
    && (CurrentIs(w, id) ==>
          || (w.mem.desired == EmptyDesired && w.db.desired == EmptyDesired && w.mem.deadline.None?)
          || w.mem.pc == PeerNoted(CloseFollow))
  }

  lemma StaysUp(cfg: Config, r: Role, w: Worker, m: Move)
    requires w.mem.Up? && m != Crash
    ensures MoveStep(cfg, r, w, m).w.mem.Up?
  {
  }

  /** A Worker that runs on takes up no attempt it has known before. */
  lemma SameOrNew(cfg: Config, r: Role, w: Worker, m: Move, id: nat)
    requires Discipline(r, w) && w.mem.Up? && id in w.db.attempts && CurrentIs(MoveStep(cfg, r, w, m).w, id)
    ensures CurrentIs(w, id)
  {
    match m {
      case Advance(c) => AdvanceSame(cfg, r, w, c);
      case _ => if IsDecision(m) { DecisionIsMinor(cfg, r, w, m); }
    }
    hide Discipline, AdvanceStep, ConfirmStep;
  }

  lemma AdvanceSame(cfg: Config, r: Role, w: Worker, c: Choice)
    requires Discipline(r, w) && w.mem.Up?
    ensures var w' := AdvanceStep(cfg, r, w, c).w;
            w'.mem.Up? && w'.mem.attempt in {w.mem.attempt, None}
  {
    if w.mem.pc != Recovering && w.mem.pc != Resetting && w.mem.attempt.Some? && w.mem.pc != Idle && !w.mem.pc.RejectReport? {
      AttemptBelief(cfg, r, w, w.mem.attempt.value, c);
      StaysUp(cfg, r, w, Advance(c));
    }
    hide Discipline, AdvanceAttempt;
  }

  lemma ReceiveSame(r: Role, w: Worker, m: Msg, how: Reading, id: nat)
    requires w.mem.Up? && id in w.db.attempts && CurrentIs(Receive(r, w, m, how).w, id)
    ensures CurrentIs(w, id)
  {
  }

  lemma ReceiveStaysUp(r: Role, w: Worker, m: Msg, how: Reading)
    requires w.mem.Up?
    ensures Receive(r, w, m, how).w.mem.Up?
  {
  }

  /** A noted close is carried out by the next step of its handler, and nothing else touches it. */
  lemma NotedCloses(cfg: Config, r: Role, w: Worker, m: Move, id: nat)
    requires w.mem.Up? && w.mem.pc == PeerNoted(CloseFollow) && CurrentIs(w, id) && id in w.db.legs && m != Crash
    ensures var w' := MoveStep(cfg, r, w, m).w;
            w'.mem.Up? && if m.Advance? then w'.mem.desired == EmptyDesired else w'.mem == w.mem
  {
    if m.Advance? { NotedAdvances(cfg, r, w, m.choice, id); }
    hide AdvanceStep;
  }

  lemma NotedAdvances(cfg: Config, r: Role, w: Worker, c: Choice, id: nat)
    requires w.mem.Up? && w.mem.pc == PeerNoted(CloseFollow) && CurrentIs(w, id) && id in w.db.legs
    ensures AdvanceStep(cfg, r, w, c).w == WithPc(BeginClose(w), Idle)
  {
    hide BeginClose;
  }

  lemma MoveCloses(cfg: Config, r: Role, w: Worker, m: Move, id: nat)
    requires Discipline(r, w) && Conduct(w) && ClosesOrClosed(w, id) && m != Crash
    ensures ClosesOrClosed(MoveStep(cfg, r, w, m).w, id)
  {
    hide MoveStep, Core;
    var w' := MoveStep(cfg, r, w, m).w;
    MoveLasts(cfg, r, w, m);
    MoveEvolves(cfg, r, w, m);
    StaysUp(cfg, r, w, m);
    assert EvolvesAt(w, w', id) && LastsAt(w, w', id);
    if CurrentIs(w', id) {
      SameOrNew(cfg, r, w, m, id);
      if w.mem.pc == PeerNoted(CloseFollow) { NotedCloses(cfg, r, w, m, id); }
    }
  }

  lemma ReceiveCloses(r: Role, w: Worker, m: Msg, how: Reading, id: nat)
    requires Discipline(r, w) && Conduct(w) && ClosesOrClosed(w, id)
    ensures ClosesOrClosed(Receive(r, w, m, how).w, id)
  {
    if CanReceive(w) {
      hide Receive, Core;
      var w' := Receive(r, w, m, how).w;
      ReceiveLasts(r, w, m, how);
      ReceiveEvolves(r, w, m, how);
      ReceiveStaysUp(r, w, m, how);
      assert EvolvesAt(w, w', id) && LastsAt(w, w', id);
      if CurrentIs(w', id) { ReceiveSame(r, w, m, how, id); }
    }
  }

  lemma StepCloses(cfg: Config, g: World, a: Action, r: Role, id: nat)
    requires PairConfirmation.Evidence(g) && ClosesOrClosed(Member(g, r), id) && a != Act(r, Crash)
    ensures ClosesOrClosed(Member(Step(cfg, g, a), r), id)
  {
    hide MoveStep, Receive, Discipline, Conduct, ClosesOrClosed, Agreed, FollowerFilled;
    match a {
      case Act(q, m) => if q == r { MoveCloses(cfg, q, Member(g, q), m, id); }
      case Deliver(q, _, how) => if q == r && Inbox(g, q) != [] { ReceiveCloses(q, Member(g, q), Inbox(g, q)[0], how, id); }
      case Drop(_) =>
    }
  }

  lemma TakingUpNotes(cfg: Config, g: World, again: bool, how: Reading, r: Role, id: nat, s: LegStatus)
    requires PairConfirmation.Evidence(g) && Inbox(g, r) != [] && Inbox(g, r)[0] == LegStatusMsg(id, s) && CanReceive(Member(g, r)) && CurrentIs(Member(g, r), id)
    requires s == StNoRecord ==> Member(g, r).mem.probes > 0
    requires s in {StRejected, StExpired, StInconsistent, StEmpty, StNoRecord}
    ensures ClosesOrClosed(Member(Step(cfg, g, Deliver(r, again, how)), r), id)
  {
    hide Core, Agreed, FollowerFilled;
  }

  /** Over every run: once a Worker has taken up, for its running attempt, that the other leg is rejected, expired,
      inconsistent, empty or without a record it asked for, it wants EMPTY as soon as it is idle again, in memory and in
      its row and without a timer, for as long as that attempt runs in that process. */
  lemma {:induction false} NegativePeerCloses(cfg: Config, acts: seq<Action>, k: nat, r: Role, id: nat, s: LegStatus)
    requires TakenUp(cfg, acts, k, r, id, s) && s in {StRejected, StExpired, StInconsistent, StEmpty, StNoRecord} && AliveSince(acts, k, r)
    ensures var w := Member(Run(cfg, Start, acts), r);
            CurrentIs(w, id) && w.mem.pc == Idle ==> w.mem.desired == EmptyDesired && w.db.desired == EmptyDesired && w.mem.deadline.None?
  {
    PeerClosesRun(cfg, acts, k, r, id, s);
  }

  lemma {:induction false} PeerClosesRun(cfg: Config, acts: seq<Action>, k: nat, r: Role, id: nat, s: LegStatus)
    requires TakenUp(cfg, acts, k, r, id, s) && s in {StRejected, StExpired, StInconsistent, StEmpty, StNoRecord} && AliveSince(acts, k, r)
    ensures ClosesOrClosed(Member(Run(cfg, Start, acts), r), id)
    decreases |acts|
  {
    var n := |acts| - 1;
    assert acts[..n + 1] == acts;
    RunLast(cfg, Start, acts, n);
    EvidenceEverywhere(cfg, acts[..n]);
    hide Run, Step, PairConfirmation.Evidence, ClosesOrClosed;
    if k < n {
      assert acts[..n][..k] == acts[..k];
      PeerClosesRun(cfg, acts[..n], k, r, id, s);
      StepCloses(cfg, Run(cfg, Start, acts[..n]), acts[n], r, id);
    } else {
      assert acts[..k] == acts[..n];
      TakingUpNotes(cfg, Run(cfg, Start, acts[..n]), acts[n].again, acts[n].how, r, id, s);
    }
  }

  // ---- stops reach the broker as they were decided -----------------------------------------------

  /** With this action the Worker decides on precise protection of its running, confirmed attempt at these prices. */
  ghost predicate Decided(cfg: Config, acts: seq<Action>, k: nat, r: Role, id: nat, sl: int, tp: int) {
    && k < |acts| && acts[k] == Act(r, Protect(true, sl, tp))
    && CurrentIs(Member(Run(cfg, Start, acts[..k]), r), id) && Member(Run(cfg, Start, acts[..k]), r).mem.confirmed
  }

  /** With this action it hears that the other leg fell back, while its own rough prices are these. */
  ghost predicate Told(cfg: Config, acts: seq<Action>, k: nat, r: Role, id: nat, sl: int, tp: int) {
    TakenUp(cfg, acts, k, r, id, StFallback) && acts[k].how.sl == sl && acts[k].how.tp == tp
  }

  /** The journaled payload is those prices for the leg's one attributed ticket. */
  predicate StopsFor(w: Worker, e: EffectId, id: nat, sl: int, tp: int) {
    FilledLeg(w, id) && e in w.db.journal && w.db.journal[e].payload == ModifyStops(w.db.legs[id].ticket, sl, tp)
  }

  ghost predicate Stopped(cfg: Config, acts: seq<Action>, r: Role, id: nat) {
    var w := Member(Run(cfg, Start, acts), r);
    && (Protection(id) in w.db.journal ==> exists k: nat, sl, tp :: Decided(cfg, acts, k, r, id, sl, tp) && StopsFor(w, Protection(id), id, sl, tp))
    && (Rollback(id) in w.db.journal ==> exists k: nat, sl, tp :: Told(cfg, acts, k, r, id, sl, tp) && StopsFor(w, Rollback(id), id, sl, tp))
    && (id in w.db.legs && w.db.legs[id].protection == Precise ==> Protection(id) in w.db.journal)
    && (w.mem.Up? && w.mem.pc.PeerNoted? && w.mem.pc.followUp.RollbackFollow? && CurrentIs(w, id) ==>
          exists k: nat :: Told(cfg, acts, k, r, id, w.mem.pc.followUp.sl, w.mem.pc.followUp.tp))
  }

  lemma DecidedLonger(cfg: Config, acts: seq<Action>, n: nat, k: nat, r: Role, id: nat, sl: int, tp: int)
    requires n <= |acts| && Decided(cfg, acts[..n], k, r, id, sl, tp)
    ensures Decided(cfg, acts, k, r, id, sl, tp)
  {
    PrefixPoints(cfg, acts, n, k);
    hide Run;
  }

  lemma ToldLonger(cfg: Config, acts: seq<Action>, n: nat, k: nat, r: Role, id: nat, sl: int, tp: int)
    requires n <= |acts| && Told(cfg, acts[..n], k, r, id, sl, tp)
    ensures Told(cfg, acts, k, r, id, sl, tp)
  {
    PrefixPoints(cfg, acts, n, k);
    hide Run;
  }

  /** What one action does to the stops of one attempt at one Worker. */
  predicate StopsMove(g: World, a: Action, r: Role, w: Worker, w': Worker, id: nat) {
    && (Protection(id) in w.db.journal ==> Kept(w.db.journal, w'.db.journal, Protection(id)))
    && (Protection(id) in w'.db.journal && Protection(id) !in w.db.journal ==>
          && a.Act? && a.role == r && a.move.Protect? && a.move.executable && CurrentIs(w, id) && id in w.db.legs && w.mem.confirmed
          && w'.db.journal[Protection(id)].payload == ModifyStops(w.db.legs[id].ticket, a.move.sl, a.move.tp))
    && (Rollback(id) in w.db.journal ==> Kept(w.db.journal, w'.db.journal, Rollback(id)))
    && (Rollback(id) in w'.db.journal && Rollback(id) !in w.db.journal ==>
          && CurrentIs(w, id) && w.mem.pc.PeerNoted? && w.mem.pc.followUp.RollbackFollow?
          && id in w.db.legs && w.db.legs[id].protection == Precise
          && w'.db.journal[Rollback(id)].payload == ModifyStops(w.db.legs[id].ticket, w.mem.pc.followUp.sl, w.mem.pc.followUp.tp))
    && PreciseTraced(w, w', id)
    && (w'.mem.Up? && w'.mem.pc.PeerNoted? && w'.mem.pc.followUp.RollbackFollow? && CurrentIs(w', id) ==>
          || (CurrentIs(w, id) && w.mem.pc == w'.mem.pc)
          || (a.Deliver? && a.role == r && Inbox(g, r) != [] && Inbox(g, r)[0] == LegStatusMsg(id, StFallback) && CanReceive(w) && CurrentIs(w, id)
              && w'.mem.pc.followUp == RollbackFollow(a.how.sl, a.how.tp)))
  }

  lemma MoveStops(cfg: Config, g: World, r: Role, m: Move, id: nat)
    requires Discipline(r, Member(g, r))
    ensures StopsMove(g, Act(r, m), r, Member(g, r), MoveStep(cfg, r, Member(g, r), m).w, id)
  {
    var w := Member(g, r);
    match m {
      case Advance(c) => AdvanceStops(cfg, r, w, c, id);
      case Protect(x, sl, tp) => ProtectStops(w, x, sl, tp, id);
      case _ => OtherMoveStops(cfg, r, w, m, id);
    }
    hide Discipline, AdvanceStep, ProtectStep, CreateAttempt, FinalizeStep, ConfirmStep, DeclareActiveStep, FillOrderStep, Load, BeginClose;
  }

  lemma DeliverStops(g: World, again: bool, how: Reading, r: Role, id: nat)
    requires Inbox(g, r) != [] && CanReceive(Member(g, r))
    ensures StopsMove(g, Deliver(r, again, how), r, Member(g, r), Receive(r, Member(g, r), Inbox(g, r)[0], how).w, id)
  {
    ReceiveStops(r, Member(g, r), Inbox(g, r)[0], how, id);
    hide Receive;
  }

  lemma StepStops(cfg: Config, g: World, a: Action, r: Role, id: nat)
    requires Disciplined(g)
    ensures StopsMove(g, a, r, Member(g, r), Member(Step(cfg, g, a), r), id)
  {
    hide MoveStep, Receive, Discipline, StopsMove;
    StillStops(g, a, r, id);
    match a {
      case Act(q, m) => if q == r { MoveStops(cfg, g, r, m, id); }
      case Deliver(q, again, how) => if q == r && Inbox(g, q) != [] && CanReceive(Member(g, q)) { DeliverStops(g, again, how, r, id); }
      case Drop(_) =>
    }
  }

  lemma StillStops(g: World, a: Action, r: Role, id: nat)
    ensures StopsMove(g, a, r, Member(g, r), Member(g, r), id)
  {
  }

  /** A running attempt that is confirmed has its fill. */
  lemma ConfirmedIsFilled(g: World, r: Role, id: nat)
    requires PairConfirmation.Evidence(g) && CurrentIs(Member(g, r), id) && id in Member(g, r).db.legs && Member(g, r).mem.confirmed
    ensures FilledLeg(Member(g, r), id)
  {
    assert Confirmed(Member(g, r), id) && Agreed(g, id);
  }

  lemma FilledOn(cfg: Config, g: World, a: Action, r: Role, id: nat)
    requires PairConfirmation.Evidence(g) && FilledLeg(Member(g, r), id)
    ensures var w' := Member(Step(cfg, g, a), r);
            FilledLeg(w', id) && w'.db.legs[id].ticket == Member(g, r).db.legs[id].ticket
  {
    hide Step, PairConfirmation.Evidence;
    StepTraces(cfg, g, a, r);
    assert LastsAt(Member(g, r), Member(Step(cfg, g, a), r), id);
  }

  lemma ProtectionStays(cfg: Config, acts: seq<Action>, n: nat, r: Role, id: nat)
    requires n + 1 == |acts| && Stopped(cfg, acts[..n], r, id) && PairConfirmation.Evidence(Run(cfg, Start, acts[..n]))
    requires var g := Run(cfg, Start, acts[..n]);
             StopsMove(g, acts[n], r, Member(g, r), Member(Run(cfg, Start, acts), r), id) && Run(cfg, Start, acts) == Step(cfg, g, acts[n])
    requires Protection(id) in Member(Run(cfg, Start, acts), r).db.journal
    ensures exists k: nat, sl, tp :: Decided(cfg, acts, k, r, id, sl, tp) && StopsFor(Member(Run(cfg, Start, acts), r), Protection(id), id, sl, tp)
  {
    var g := Run(cfg, Start, acts[..n]);
    var w, w' := Member(g, r), Member(Run(cfg, Start, acts), r);
    hide Run, Step, PairConfirmation.Evidence;
    if Protection(id) in w.db.journal {
      var k: nat, sl, tp :| Decided(cfg, acts[..n], k, r, id, sl, tp) && StopsFor(w, Protection(id), id, sl, tp);
      DecidedLonger(cfg, acts, n, k, r, id, sl, tp);
      FilledOn(cfg, g, acts[n], r, id);
      assert StopsFor(w', Protection(id), id, sl, tp);
    } else {
      ConfirmedIsFilled(g, r, id);
      FilledOn(cfg, g, acts[n], r, id);
      assert Decided(cfg, acts, n, r, id, acts[n].move.sl, acts[n].move.tp);
      assert StopsFor(w', Protection(id), id, acts[n].move.sl, acts[n].move.tp);
    }
  }

  lemma RollbackStays(cfg: Config, acts: seq<Action>, n: nat, r: Role, id: nat)
    requires n + 1 == |acts| && Stopped(cfg, acts[..n], r, id) && PairConfirmation.Evidence(Run(cfg, Start, acts[..n]))
    requires var g := Run(cfg, Start, acts[..n]);
             StopsMove(g, acts[n], r, Member(g, r), Member(Run(cfg, Start, acts), r), id) && Run(cfg, Start, acts) == Step(cfg, g, acts[n])
    requires Rollback(id) in Member(Run(cfg, Start, acts), r).db.journal
    ensures exists k: nat, sl, tp :: Told(cfg, acts, k, r, id, sl, tp) && StopsFor(Member(Run(cfg, Start, acts), r), Rollback(id), id, sl, tp)
  {
    var g := Run(cfg, Start, acts[..n]);
    var w, w' := Member(g, r), Member(Run(cfg, Start, acts), r);
    hide Run, Step, PairConfirmation.Evidence, Told, Decided;
    if Rollback(id) in w.db.journal {
      var k: nat, sl, tp :| Told(cfg, acts[..n], k, r, id, sl, tp) && StopsFor(w, Rollback(id), id, sl, tp);
      ToldLonger(cfg, acts, n, k, r, id, sl, tp);
      FilledOn(cfg, g, acts[n], r, id);
      assert StopsFor(w', Rollback(id), id, sl, tp);
    } else {
      var f := w.mem.pc.followUp;
      var k: nat :| Told(cfg, acts[..n], k, r, id, f.sl, f.tp);
      ToldLonger(cfg, acts, n, k, r, id, f.sl, f.tp);
      FilledOn(cfg, g, acts[n], r, id);
      assert StopsFor(w', Rollback(id), id, f.sl, f.tp);
    }
  }

  lemma NotedStays(cfg: Config, acts: seq<Action>, n: nat, r: Role, id: nat)
    requires n + 1 == |acts| && Stopped(cfg, acts[..n], r, id)
    requires var g := Run(cfg, Start, acts[..n]);
             StopsMove(g, acts[n], r, Member(g, r), Member(Run(cfg, Start, acts), r), id)
    requires var w' := Member(Run(cfg, Start, acts), r);
             w'.mem.Up? && w'.mem.pc.PeerNoted? && w'.mem.pc.followUp.RollbackFollow? && CurrentIs(w', id)
    ensures var w' := Member(Run(cfg, Start, acts), r);
            exists k: nat :: Told(cfg, acts, k, r, id, w'.mem.pc.followUp.sl, w'.mem.pc.followUp.tp)
  {
    var g := Run(cfg, Start, acts[..n]);
    var w, w' := Member(g, r), Member(Run(cfg, Start, acts), r);
    hide Run, Step, Decided;
    if CurrentIs(w, id) && w.mem.pc == w'.mem.pc {
      var k: nat :| Told(cfg, acts[..n], k, r, id, w'.mem.pc.followUp.sl, w'.mem.pc.followUp.tp);
      ToldLonger(cfg, acts, n, k, r, id, w'.mem.pc.followUp.sl, w'.mem.pc.followUp.tp);
    } else {
      assert Told(cfg, acts, n, r, id, acts[n].how.sl, acts[n].how.tp);
    }
  }

  lemma PreciseStays(cfg: Config, acts: seq<Action>, n: nat, r: Role, id: nat)
    requires n + 1 == |acts| && Stopped(cfg, acts[..n], r, id) && Disciplined(Run(cfg, Start, acts[..n]))
    requires var g := Run(cfg, Start, acts[..n]);
             StopsMove(g, acts[n], r, Member(g, r), Member(Run(cfg, Start, acts), r), id)
    ensures var w' := Member(Run(cfg, Start, acts), r);
            id in w'.db.legs && w'.db.legs[id].protection == Precise ==> Protection(id) in w'.db.journal
  {
    hide Run, Core, Told, Decided;
  }

  lemma StopsStay(cfg: Config, acts: seq<Action>, n: nat, r: Role, id: nat)
    requires n + 1 == |acts| && Stopped(cfg, acts[..n], r, id) && Disciplined(Run(cfg, Start, acts[..n]))
    requires PairConfirmation.Evidence(Run(cfg, Start, acts[..n])) && Run(cfg, Start, acts) == Step(cfg, Run(cfg, Start, acts[..n]), acts[n])
    requires var g := Run(cfg, Start, acts[..n]);
             StopsMove(g, acts[n], r, Member(g, r), Member(Run(cfg, Start, acts), r), id)
    ensures Stopped(cfg, acts, r, id)
  {
    hide Run, Step, PairConfirmation.Evidence, Disciplined, StopsMove, Told, Decided, StopsFor;
    var w' := Member(Run(cfg, Start, acts), r);
    if Protection(id) in w'.db.journal { ProtectionStays(cfg, acts, n, r, id); }
    if Rollback(id) in w'.db.journal { RollbackStays(cfg, acts, n, r, id); }
    if w'.mem.Up? && w'.mem.pc.PeerNoted? && w'.mem.pc.followUp.RollbackFollow? && CurrentIs(w', id) { NotedStays(cfg, acts, n, r, id); }
    PreciseStays(cfg, acts, n, r, id);
  }

  lemma {:induction false} AllStopped(cfg: Config, acts: seq<Action>, r: Role, id: nat)
    ensures Stopped(cfg, acts, r, id)
    decreases |acts|
  {
    if acts != [] {
      var n := |acts| - 1;
      assert acts[..n + 1] == acts;
      RunLast(cfg, Start, acts, n);
      AllStopped(cfg, acts[..n], r, id);
      EvidenceEverywhere(cfg, acts[..n]);
      RunDisciplined(cfg, Start, acts[..n]);
      StepStops(cfg, Run(cfg, Start, acts[..n]), acts[n], r, id);
      hide Run, Step, PairConfirmation.Evidence, Disciplined, StopsMove, Stopped;
      StopsStay(cfg, acts, n, r, id);
    }
  }

  /** Over every run and whatever the brokers do: precise protection asks the broker for exactly the prices that some
      decision of this Worker named, on its running, confirmed attempt, for the ticket its leg was filled with. */
  lemma ProtectionIsAsDecided(cfg: Config, acts: seq<Action>, r: Role, id: nat, p: Payload)
    requires p in CallsOf(Member(Run(cfg, Start, acts), r).broker, Protection(id))
    ensures var w := Member(Run(cfg, Start, acts), r);
            exists k: nat, t: nat, sl, tp :: Decided(cfg, acts, k, r, id, sl, tp) && FilledWith(w, id, t) && p == ModifyStops(Some(t), sl, tp)
  {
    var w := Member(Run(cfg, Start, acts), r);
    AtMostOneBrokerCall(cfg, acts, r, Protection(id));
    AllStopped(cfg, acts, r, id);
    hide Run, Decided, Told;
    var k: nat, sl, tp :| Decided(cfg, acts, k, r, id, sl, tp) && StopsFor(w, Protection(id), id, sl, tp);
    assert FilledWith(w, id, w.db.legs[id].ticket.value);
  }

  /** ... and a rollback asks for exactly the rough prices at which it was told that the other leg fell back. */
  lemma RollbackIsAsTold(cfg: Config, acts: seq<Action>, r: Role, id: nat, p: Payload)
    requires p in CallsOf(Member(Run(cfg, Start, acts), r).broker, Rollback(id))
    ensures var w := Member(Run(cfg, Start, acts), r);
            exists k: nat, t: nat, sl, tp :: Told(cfg, acts, k, r, id, sl, tp) && FilledWith(w, id, t) && p == ModifyStops(Some(t), sl, tp)
  {
    var w := Member(Run(cfg, Start, acts), r);
    AtMostOneBrokerCall(cfg, acts, r, Rollback(id));
    AllStopped(cfg, acts, r, id);
    hide Run, Decided, Told;
    var k: nat, sl, tp :| Told(cfg, acts, k, r, id, sl, tp) && StopsFor(w, Rollback(id), id, sl, tp);
    assert FilledWith(w, id, w.db.legs[id].ticket.value);
  }

  predicate FilledWith(w: Worker, id: nat, t: nat) {
    id in w.db.legs && w.db.legs[id].entryStatus == Filled && w.db.legs[id].ticket == Some(t)
  }
}
