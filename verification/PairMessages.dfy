/**
  What a Worker's messages prove.  Under a conclusive broker a terminal leg status is sent only for an
  attempt that is settled here, or, answering a probe, for one this Worker has no record of.
*/
module PairMessages {
  import opened Prelude
  import opened PairState
  import opened PairWorker
  import opened PairDiscipline
  import opened PairTruth
  import opened PairEvolution

  /** A leg recorded rejected, never started or empty is settled. */
  lemma NegativeLegIsSettled(r: Role, w: Worker, id: nat)
    requires Discipline(r, w) && Truth(r, w)
    requires id in w.db.legs
    requires w.db.legs[id].entryStatus in {Rejected, ExpiredNotStarted} || w.db.legs[id].emptyVerified
    ensures Settled(w, id)
  {
    assert AttemptOk(w, id);
    forall t ensures t in w.broker.holdings ==> w.broker.holdings[t].attempt != id {
      assert HoldingTrue(r, w, t);
    }
  }

  /** So is every terminal attempt row. */
  lemma TerminalRowIsSettled(r: Role, w: Worker, id: nat)
    requires Discipline(r, w) && Truth(r, w)
    requires id in w.db.attempts && w.db.attempts[id].terminal.Some?
    ensures Settled(w, id)
  {
    assert AttemptOk(w, id);
    if id in w.db.legs {
      NegativeLegIsSettled(r, w, id);
    } else {
      forall t ensures t in w.broker.holdings ==> w.broker.holdings[t].attempt != id {
        assert HoldingTrue(r, w, t);
      }
    }
  }

  /** What a step may say. */
  ghost predicate SaidTruly(w: Worker, w': Worker, m: Msg) {
    match m
    case AttemptMsg(att) => WillRelay(w, att.id) && Relayed(w', att)
    case RequestMsg(id) => id in w.db.attempts && !WillRelay(w, id)
    case LegStatusMsg(id, s) => IsTerminalStatus(s) ==> Settled(w', id)
    case _ => true
  }

  lemma CurrentStatusIsTrue(r: Role, w: Worker, att: Attempt)
    requires Discipline(r, w) && Truth(r, w) && Running(w, att)
    ensures var s := CurrentStatus(att, r, w.db.legs[att.id]);
            s != StNoRecord && (IsTerminalStatus(s) ==> Settled(w, att.id))
  {
    if IsTerminalStatus(CurrentStatus(att, r, w.db.legs[att.id])) {
      NegativeLegIsSettled(r, w, att.id);
    }
  }

  lemma AnswerIsTrue(r: Role, w: Worker, id: nat, allowNoRecord: bool, k: nat)
    requires Discipline(r, w) && Truth(r, w)
    requires k < |Answer(r, w, id, allowNoRecord)|
    ensures var m := Answer(r, w, id, allowNoRecord)[k];
            && m.LegStatusMsg? && m.id == id
            && (IsTerminalStatus(m.status) ==>
                  || (m.status != StNoRecord && Settled(w, id))
                  || (m.status == StNoRecord && allowNoRecord && id !in w.db.attempts))
  {
    assert AttemptOk(w, id);
    if CurrentIs(w, id) {
      CurrentStatusIsTrue(r, w, w.mem.attempt.value);
    } else if id in w.db.attempts && w.db.attempts[id].terminal.Some? {
      TerminalRowIsSettled(r, w, id);
    }
  }

  lemma EntrySaysTrue(cfg: Config, r: Role, w: Worker, att: Attempt, k: nat)
    requires Discipline(r, w) && w.mem.Up? && w.mem.attempt == Some(att) && EntryPc(w.mem.pc)
    requires k < |AdvanceEntry(cfg, r, w, att).out|
    ensures SaidTruly(w, AdvanceEntry(cfg, r, w, att).w, AdvanceEntry(cfg, r, w, att).out[k])
  {
    hide Core, StepNewRow, StepDesiredSaved, StepLegSaved, StepEffectPrepared, StepTimerArmed, StepRelaySent;
  }

  lemma SnapshotSaysTrue(r: Role, w: Worker, att: Attempt, c: Choice, w': Worker, k: nat)
    requires Truth(r, w) && Running(w, att) && SnapshotPc(w.mem.pc)
    requires w' == AdvanceSnapshot(r, w, att, c).w && Discipline(r, w') && Truth(r, w')
    requires k < |AdvanceSnapshot(r, w, att, c).out|
    ensures SaidTruly(w, w', AdvanceSnapshot(r, w, att, c).out[k])
  {
    if w.mem.pc.Recorded? && w.mem.pc.verdict == SeenAbsent { NegativeLegIsSettled(r, w', att.id); }
    hide Core, Settled, StepSeen, StepAttributed, StepObserving, StepConverging;
  }

  /** A point that reports is already backed by the leg it reports. */
  lemma RestSaysTrue(r: Role, w: Worker, att: Attempt, w': Worker, k: nat)
    requires Truth(r, w) && Running(w, att)
    requires w' == AdvanceRest(w, att.id).w && Discipline(r, w') && Truth(r, w')
    requires k < |AdvanceRest(w, att.id).out|
    ensures SaidTruly(w, w', AdvanceRest(w, att.id).out[k])
  {
    if w.mem.pc.Reporting? && IsTerminalStatus(w.mem.pc.status) { NegativeLegIsSettled(r, w', att.id); }
    hide Core, Settled, StepPeerNoted, StepRecoverClose, Observe, BeginClose;
  }

  lemma AttemptSaysTrue(cfg: Config, r: Role, w: Worker, att: Attempt, c: Choice, w': Worker, k: nat)
    requires Discipline(r, w) && Truth(r, w) && w.mem.Up? && w.mem.attempt == Some(att)
    requires !w.mem.pc.Idle? && !w.mem.pc.Recovering? && !w.mem.pc.Resetting? && !w.mem.pc.RejectReport?
    requires w' == AdvanceAttempt(cfg, r, w, att, c).w && Discipline(r, w') && Truth(r, w')
    requires k < |AdvanceAttempt(cfg, r, w, att, c).out|
    ensures SaidTruly(w, w', AdvanceAttempt(cfg, r, w, att, c).out[k])
  {
    if EntryPc(w.mem.pc) {
      EntrySaysTrue(cfg, r, w, att, k);
    } else if SnapshotPc(w.mem.pc) {
      SnapshotSaysTrue(r, w, att, c, w', k);
    } else if !w.mem.pc.Write? {
      RestSaysTrue(r, w, att, w', k);
    }
    hide Core, SaidTruly, AdvanceEntry, AdvanceSnapshot, AdvanceRest, StepWrite;
  }

  lemma AdvanceSaysTrue(cfg: Config, r: Role, w: Worker, c: Choice, k: nat)
    requires cfg.Conclusive() && Discipline(r, w) && Truth(r, w)
    requires k < |AdvanceStep(cfg, r, w, c).out|
    ensures SaidTruly(w, AdvanceStep(cfg, r, w, c).w, AdvanceStep(cfg, r, w, c).out[k])
  {
    var s := AdvanceStep(cfg, r, w, c);
    AdvanceKeeps(cfg, r, w, c);
    AdvanceTruth(cfg, r, w, c);
    if w.mem.pc.RejectReport? {
      TerminalRowIsSettled(r, s.w, w.mem.pc.refused);
    } else {
      hide AdvanceAttempt;
      AttemptSaysTrue(cfg, r, w, w.mem.attempt.value, c, s.w, k);
    }
    hide Discipline, Settled;
  }

  lemma MoveSaysTrue(cfg: Config, r: Role, w: Worker, m: Move, k: nat)
    requires cfg.Conclusive() && Discipline(r, w) && Truth(r, w)
    requires k < |MoveStep(cfg, r, w, m).out|
    ensures SaidTruly(w, MoveStep(cfg, r, w, m).w, MoveStep(cfg, r, w, m).out[k])
  {
    match m {
      case Advance(c) => AdvanceSaysTrue(cfg, r, w, c, k);
      case Probe =>
        MoveKeeps(cfg, r, w, m);
        MoveTruth(cfg, r, w, m);
        NegativeLegIsSettled(r, MoveStep(cfg, r, w, m).w, w.mem.attempt.value.id);
      case _ =>
    }
  }

  /** A reply is true too, unless an id came back with different content; absence is claimed only to
      a probe, and only without a record. */
  lemma ReceiveSaysTrue(r: Role, w: Worker, m: Msg, how: Reading, k: nat)
    requires Discipline(r, w) && Truth(r, w)
    requires k < |Receive(r, w, m, how).out|
    ensures var s := Receive(r, w, m, how);
            && s.out[k].LegStatusMsg?
            && (IsTerminalStatus(s.out[k].status) ==>
                  || (s.out[k].status != StNoRecord && Settled(s.w, s.out[k].id))
                  || (s.out[k].status == StNoRecord && m == RequestMsg(s.out[k].id) && s.out[k].id !in w.db.attempts)
                  || (m.AttemptMsg? && m.attempt.id in w.db.attempts && w.db.attempts[m.attempt.id].attempt != m.attempt))
  {
    var s := Receive(r, w, m, how);
    ReceiveKeeps(r, w, m, how);
    ReceiveTruth(r, w, m, how);
    ReceiveEvolves(r, w, m, how);
    match m {
      case AttemptMsg(att) =>
        if w.db.attempts[att.id].attempt == att { AnswerIsTrue(r, w, att.id, false, k); assert EvolvesAt(w, s.w, att.id); }
      case LegStatusMsg(id, st) => AnswerIsTrue(r, w, id, false, k); assert EvolvesAt(w, s.w, id);
      case RequestMsg(id) => AnswerIsTrue(r, w, id, true, k); assert EvolvesAt(w, s.w, id);
      case _ =>
    }
  }
}
