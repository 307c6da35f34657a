/**
  What a Worker believes about its peer, and when it may call the pair empty.
*/
module PairBelief {
  import opened Prelude
  import opened PairState
  import opened PairWorker
  import opened PairDiscipline
  import opened PairTruth

  /** The peer's statuses are only heard, never made up; no attempt row begins, ends or becomes the latest. */
  predicate SameBelief(w: Worker, w': Worker) {
    && w'.db.peerLegs == w.db.peerLegs && w'.db.attempts == w.db.attempts && w'.db.latest == w.db.latest
    && (w'.mem.Up? ==> w.mem.Up? && w'.mem.attempt == w.mem.attempt && w'.mem.peer == w.mem.peer)
  }

  lemma SameSame(w: Worker)
    ensures SameBelief(w, w)
  {
  }

  lemma WriteBelief(cfg: Config, r: Role, w: Worker, att: Attempt, job: Job, stage: Stage, c: Choice)
    requires Running(w, att)
    ensures SameBelief(w, StepWrite(cfg, r, w, att, job, stage, c))
  {
  }

  lemma EntryBelief(cfg: Config, r: Role, w: Worker, att: Attempt)
    requires w.mem.Up? && w.mem.attempt == Some(att)
    ensures SameBelief(w, AdvanceEntry(cfg, r, w, att).w)
  {
  }

  lemma SeenBelief(r: Role, w: Worker, att: Attempt, ps: Holdings, os: Holdings, t: nat, ok: bool)
    requires Running(w, att)
    ensures SameBelief(w, StepSeen(r, w, att, ps, os, t, ok))
  {
  }

  lemma ObservedBelief(w: Worker, att: Attempt, ps: Holdings, os: Holdings, v: Verdict, mismatch: bool)
    requires Running(w, att)
    ensures SameBelief(w, StepAttributed(w, att.id, ps, os, v))
    ensures SameBelief(w, StepObserving(w, att.id, ps, os, v, mismatch))
  {
    var o := ObservedTicket(w, att.id, ps);
    assert o == PutJournal(w, o.db.journal);
  }

  lemma ContainmentBelief(w: Worker, e: EffectId, p: Payload)
    requires w.mem.Up?
    ensures SameBelief(w, StartContainment(w, e, p))
  {
  }

  lemma ConvergingBelief(w: Worker, att: Attempt, ps: Holdings, os: Holdings, t: nat)
    requires Running(w, att)
    ensures SameBelief(w, StepConverging(w, att, ps, os, t))
  {
    match Converge(w.mem.desired, w.db.needsHuman, w.db.legs[att.id], att, ps, os, t) {
      case Contain(e, p) => ContainmentBelief(w, e, p);
      case _ =>
    }
  }

  lemma PeerNotedBelief(w: Worker, id: nat, f: FollowUp)
    requires w.mem.Up? && id in w.db.legs
    ensures SameBelief(w, StepPeerNoted(w, id, f))
  {
  }

  lemma CloseBelief(w: Worker, id: nat)
    requires w.mem.Up?
    ensures SameBelief(w, WithPc(BeginClose(w), Idle)) && SameBelief(w, WithPc(Observe(w, Entry(id), NotStarted), RecoverClose))
  {
  }

  lemma RestBelief(w: Worker, id: nat)
    requires w.mem.Up? && id in w.db.legs
    ensures SameBelief(w, AdvanceRest(w, id).w)
  {
    if w.mem.pc.PeerNoted? { PeerNotedBelief(w, id, w.mem.pc.followUp); }
    CloseBelief(w, id);
    hide StepPeerNoted, Observe, BeginClose;
  }

  lemma SnapshotBelief(r: Role, w: Worker, att: Attempt, c: Choice)
    requires Running(w, att)
    ensures SameBelief(w, AdvanceSnapshot(r, w, att, c).w)
  {
    match w.mem.pc {
      case Seen(ps, os) => if c.Pick? { SeenBelief(r, w, att, ps, os, c.ticket, c.flag); }
      case Attributed(ps, os, v) => ObservedBelief(w, att, ps, os, v, false);
      case Observing(ps, os, v) => if c.Pick? { ObservedBelief(w, att, ps, os, v, c.flag); }
      case Converging(ps, os) => if c.Pick? { ConvergingBelief(w, att, ps, os, c.ticket); }
      case _ =>
    }
    hide StepSeen, StepAttributed, StepObserving, StepConverging;
  }

  lemma AttemptBelief(cfg: Config, r: Role, w: Worker, att: Attempt, c: Choice)
    requires Discipline(r, w) && w.mem.Up? && w.mem.attempt == Some(att)
    requires !w.mem.pc.Idle? && !w.mem.pc.Recovering? && !w.mem.pc.Resetting? && !w.mem.pc.RejectReport?
    ensures SameBelief(w, AdvanceAttempt(cfg, r, w, att, c).w)
  {
    SameSame(w);
    if EntryPc(w.mem.pc) {
      EntryBelief(cfg, r, w, att);
    } else if w.mem.pc.Write? {
      WriteBelief(cfg, r, w, att, w.mem.pc.job, w.mem.pc.stage, c);
    } else if SnapshotPc(w.mem.pc) {
      SnapshotBelief(r, w, att, c);
    } else {
      RestBelief(w, att.id);
    }
    hide Core, SameBelief, AdvanceEntry, AdvanceSnapshot, AdvanceRest, StepWrite;
  }

  /** Every terminal peer status in memory was heard before, or loaded from what was heard. */
  ghost predicate HeardOnly(r: Role, w: Worker, w': Worker) {
    && w'.db.peerLegs == w.db.peerLegs
    && BlankPeer(w')
    && (forall id :: CurrentIs(w', id) && w'.mem.peer != StUnknown ==>
          || (CurrentIs(w, id) && w.mem.peer == w'.mem.peer)
          || (id in w.db.peerLegs && w.db.peerLegs[id] == w'.mem.peer))
    && (forall id :: NewlyVerified(w, w', id) ==>
          CurrentIs(w, id) && w.mem.pc == Idle && id in w.db.legs && !PeerSendPossible(r, w, id))
  }

  predicate BlankPeer(w: Worker) {
    w.mem.Up? && w.mem.attempt.None? ==> w.mem.peer == StUnknown
  }

  predicate NewlyVerified(w: Worker, w': Worker, id: nat) {
    id in w'.db.attempts && w'.db.attempts[id].terminal == Some(BothEmptyVerified)
    && !(id in w.db.attempts && w.db.attempts[id].terminal == Some(BothEmptyVerified))
  }

  lemma SameBeliefHeard(r: Role, w: Worker, w': Worker)
    requires BlankPeer(w) && SameBelief(w, w')
    ensures HeardOnly(r, w, w')
  {
  }

  lemma RecoveringHeard(r: Role, w: Worker)
    requires BlankPeer(w) && w.mem.Up?
    ensures HeardOnly(r, w, StepRecovering(w)) && HeardOnly(r, w, StepResetting(w))
  {
  }

  lemma AdvanceHeard(cfg: Config, r: Role, w: Worker, c: Choice)
    requires Discipline(r, w) && BlankPeer(w)
    ensures HeardOnly(r, w, AdvanceStep(cfg, r, w, c).w)
  {
    if w.mem.Down? {
      SameSame(w);
      SameBeliefHeard(r, w, w);
    } else if w.mem.pc.Recovering? || w.mem.pc.Resetting? {
      RecoveringHeard(r, w);
    } else if w.mem.pc.Idle? || w.mem.pc.RejectReport? || w.mem.attempt.None? {
      SameBeliefHeard(r, w, AdvanceStep(cfg, r, w, c).w);
    } else {
      AttemptBelief(cfg, r, w, w.mem.attempt.value, c);
      SameBeliefHeard(r, w, AdvanceStep(cfg, r, w, c).w);
    }
    hide Discipline, HeardOnly, AdvanceAttempt, StepRecovering, StepResetting;
  }

  lemma BootHeard(r: Role, w: Worker)
    requires Discipline(r, w)
    ensures HeardOnly(r, w, w.(mem := Load(w.db)))
  {
    assert w.db.latest.Some? ==> AttemptOk(w, w.db.latest.value);
  }

  lemma CreateHeard(r: Role, w: Worker, att: Attempt)
    requires BlankPeer(w)
    ensures HeardOnly(r, w, CreateAttempt(r, w, att))
  {
  }

  lemma FinalizeHeard(r: Role, w: Worker)
    requires BlankPeer(w)
    ensures HeardOnly(r, w, FinalizeStep(r, w))
  {
  }

  lemma MoveHeard(cfg: Config, r: Role, w: Worker, m: Move)
    requires Discipline(r, w) && BlankPeer(w)
    ensures HeardOnly(r, w, MoveStep(cfg, r, w, m).w)
  {
    match m {
      case Advance(c) => AdvanceHeard(cfg, r, w, c);
      case Create(att) => CreateHeard(r, w, att);
      case Finalize => FinalizeHeard(r, w);
      case Boot => BootHeard(r, w); SameBeliefHeard(r, w, w);
      case _ =>
        if IsDecision(m) { DecisionIsMinor(cfg, r, w, m); }
        SameBeliefHeard(r, w, MoveStep(cfg, r, w, m).w);
    }
    hide Discipline, HeardOnly, ConfirmStep, AdvanceStep, CreateAttempt, FinalizeStep, Load;
  }

  /** A message changes what is believed about its own attempt only, and only to what it says. */
  ghost predicate TakenIn(w: Worker, w': Worker, m: Msg) {
    && BlankPeer(w')
    && (forall id :: !NewlyVerified(w, w', id))
    && (forall id :: id in w'.db.peerLegs ==>
          || (id in w.db.peerLegs && w'.db.peerLegs[id] == w.db.peerLegs[id])
          || m == LegStatusMsg(id, w'.db.peerLegs[id]))
    && (forall id :: CurrentIs(w', id) && w'.mem.peer != StUnknown ==>
          || (CurrentIs(w, id) && w.mem.peer == w'.mem.peer)
          || m == LegStatusMsg(id, w'.mem.peer))
  }

  lemma AttemptTakenIn(r: Role, w: Worker, att: Attempt, admit: bool)
    requires CanReceive(w) && BlankPeer(w)
    ensures TakenIn(w, ReceiveAttempt(r, w, att, admit).w, AttemptMsg(att))
  {
  }

  lemma StatusTakenIn(r: Role, w: Worker, id: nat, s: LegStatus, sl: int, tp: int)
    requires CanReceive(w) && BlankPeer(w)
    ensures TakenIn(w, ReceiveLegStatus(r, w, id, s, sl, tp).w, LegStatusMsg(id, s))
  {
  }

  /** Nothing is learned about the peer. */
  lemma OtherTakenIn(w: Worker, w': Worker, m: Msg)
    requires BlankPeer(w) && SameBelief(w, w')
    ensures TakenIn(w, w', m)
  {
  }

  lemma ReceiveHeard(r: Role, w: Worker, m: Msg, how: Reading)
    requires Discipline(r, w) && BlankPeer(w)
    ensures TakenIn(w, Receive(r, w, m, how).w, m)
  {
    OtherTakenIn(w, w, m);
    if CanReceive(w) {
      match m {
        case AttemptMsg(att) => AttemptTakenIn(r, w, att, how.admit);
        case LegStatusMsg(id, s) => StatusTakenIn(r, w, id, s, how.sl, how.tp);
        case RequestMsg(_) =>
        case ConfirmedMsg(id) => OtherTakenIn(w, ReceiveConfirmed(r, w, id), m);
        case FailedMsg(_) => OtherTakenIn(w, BeginClose(w), m);
      }
    }
    hide Discipline, TakenIn, ReceiveAttempt;
  }
}
