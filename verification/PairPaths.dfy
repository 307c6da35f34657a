/**
  Handlers as paths of micro-steps: what a handler that runs undisturbed to its end does is a sequence of
  single steps, so everything proved about steps and runs holds for it.
*/
module PairPaths {
  import opened Prelude
  import opened PairState
  import opened PairWorker
  import opened PairDiscipline
  import opened PairConduct
  import J = EffectJournal

  /** One more step of the running handler; what it says is appended. */
  function Then(cfg: Config, r: Role, s: Stepped, c: Choice): Stepped {
    var t := AdvanceStep(cfg, r, s.w, c);
    Stepped(t.w, s.out + t.out)
  }

  function Settle(cfg: Config, r: Role, s: Stepped, cs: seq<Choice>): Stepped
    decreases |cs|
  {
    if cs == [] then s else Then(cfg, r, Settle(cfg, r, s, cs[..|cs| - 1]), cs[|cs| - 1])
  }

  lemma SettleOneMore(cfg: Config, r: Role, s: Stepped, cs: seq<Choice>, c: Choice)
    ensures Settle(cfg, r, s, cs + [c]) == Then(cfg, r, Settle(cfg, r, s, cs), c)
  {
    assert (cs + [c])[..|cs|] == cs;
    hide Then;
  }

  lemma {:induction false} SettleAppend(cfg: Config, r: Role, s: Stepped, one: seq<Choice>, two: seq<Choice>)
    ensures Settle(cfg, r, s, one + two) == Settle(cfg, r, Settle(cfg, r, s, one), two)
    decreases |two|
  {
    hide Then;
    if two == [] {
      assert one + two == one;
    } else {
      var init := two[..|two| - 1];
      assert one + two == (one + init) + [two[|two| - 1]];
      SettleOneMore(cfg, r, s, one + init, two[|two| - 1]);
      SettleAppend(cfg, r, s, one, init);
    }
  }

  /** The step is this one, and it comes from there. */
  lemma Onto(cfg: Config, r: Role, s0: Stepped, cs: seq<Choice>, s: Stepped, c: Choice, next: Stepped)
    requires Settle(cfg, r, s0, cs) == s && Then(cfg, r, s, c) == next
    ensures Settle(cfg, r, s0, cs + [c]) == next
  {
    hide Then;
    SettleOneMore(cfg, r, s0, cs, c);
  }

  lemma {:induction false} SettleKeeps(cfg: Config, r: Role, s: Stepped, cs: seq<Choice>)
    requires Discipline(r, s.w)
    ensures Discipline(r, Settle(cfg, r, s, cs).w)
    decreases |cs|
  {
    hide Discipline, AdvanceStep;
    if cs != [] {
      SettleKeeps(cfg, r, s, cs[..|cs| - 1]);
      AdvanceKeeps(cfg, r, Settle(cfg, r, s, cs[..|cs| - 1]).w, cs[|cs| - 1]);
    }
  }

  /** The discipline of writes and the conduct of desired state, confirmation and timer together. */
  ghost predicate Sane(r: Role, w: Worker) {
    Discipline(r, w) && Conduct(w)
  }

  lemma MoveSane(cfg: Config, r: Role, w: Worker, m: Move)
    requires Sane(r, w)
    ensures Sane(r, MoveStep(cfg, r, w, m).w)
  {
    hide Discipline, Conduct, MoveStep;
    MoveKeeps(cfg, r, w, m);
    MoveLasts(cfg, r, w, m);
  }

  lemma ReceiveSane(r: Role, w: Worker, m: Msg, how: Reading)
    requires Sane(r, w)
    ensures Sane(r, Receive(r, w, m, how).w)
  {
    hide Discipline, Conduct, Receive;
    ReceiveKeeps(r, w, m, how);
    ReceiveLasts(r, w, m, how);
  }

  lemma LoadSane(r: Role, w: Worker)
    requires Sane(r, w)
    ensures Sane(r, w.(mem := Load(w.db)))
  {
    hide Discipline, Conduct, Load;
    LoadKeeps(r, w);
    BootLasts(r, w);
  }

  lemma {:induction false} SettleSane(cfg: Config, r: Role, s: Stepped, cs: seq<Choice>)
    requires Sane(r, s.w)
    ensures Sane(r, Settle(cfg, r, s, cs).w)
    decreases |cs|
  {
    hide Discipline, Conduct, AdvanceStep;
    SettleKeeps(cfg, r, s, cs);
    if cs != [] {
      var before := Settle(cfg, r, s, cs[..|cs| - 1]);
      SettleSane(cfg, r, s, cs[..|cs| - 1]);
      AdvanceLasts(cfg, r, before.w, cs[|cs| - 1]);
    }
  }

  /** `Proceed`, `n` times. */
  function Steps(n: nat): seq<Choice> {
    seq(n, _ => Proceed)
  }

  lemma StepsOneMore(n: nat)
    ensures Steps(n) + [Proceed] == Steps(n + 1)
  {
  }

  // ---- which step it is ------------------------------------------------------------------------

  lemma EntryStepIs(cfg: Config, r: Role, s: Stepped, att: Attempt, c: Choice)
    requires s.w.mem.Up? && s.w.mem.attempt == Some(att) && EntryPc(s.w.mem.pc)
    ensures Then(cfg, r, s, c) == Stepped(AdvanceEntry(cfg, r, s.w, att).w, s.out + AdvanceEntry(cfg, r, s.w, att).out)
  {
    hide AdvanceEntry;
  }

  lemma WriteStepIs(cfg: Config, r: Role, s: Stepped, att: Attempt, job: Job, stage: Stage, c: Choice)
    requires s.w.mem.Up? && s.w.mem.attempt == Some(att) && s.w.mem.pc == Write(job, stage) && att.id in s.w.db.legs
    ensures Then(cfg, r, s, c) == Stepped(StepWrite(cfg, r, s.w, att, job, stage, c), s.out)
  {
    hide StepWrite;
    assert s.out + [] == s.out;
  }

  lemma RestStepIs(cfg: Config, r: Role, s: Stepped, att: Attempt, c: Choice)
    requires s.w.mem.Up? && s.w.mem.attempt == Some(att) && att.id in s.w.db.legs
    requires !EntryPc(s.w.mem.pc) && !s.w.mem.pc.Write? && !SnapshotPc(s.w.mem.pc)
    requires s.w.mem.pc !in {Recovering, Resetting} && !s.w.mem.pc.RejectReport?
    ensures Then(cfg, r, s, c) == Stepped(AdvanceRest(s.w, att.id).w, s.out + AdvanceRest(s.w, att.id).out)
  {
    hide AdvanceRest;
    if s.w.mem.pc == Idle { IdleRests(s.w, att.id); }
  }

  lemma IdleRests(w: Worker, id: nat)
    requires w.mem.Up? && id in w.db.legs && w.mem.pc == Idle
    ensures AdvanceRest(w, id) == Quiet(w)
  {
  }

  lemma SnapshotStepIs(cfg: Config, r: Role, s: Stepped, att: Attempt, c: Choice)
    requires s.w.mem.Up? && s.w.mem.attempt == Some(att) && att.id in s.w.db.legs && SnapshotPc(s.w.mem.pc)
    ensures Then(cfg, r, s, c) == Stepped(AdvanceSnapshot(r, s.w, att, c).w, s.out + AdvanceSnapshot(r, s.w, att, c).out)
  {
    hide AdvanceSnapshot;
  }

  lemma RestartStepIs(cfg: Config, r: Role, s: Stepped, c: Choice)
    requires s.w.mem.Up?
    ensures s.w.mem.pc == Recovering ==> Then(cfg, r, s, c) == Stepped(StepRecovering(s.w), s.out)
    ensures s.w.mem.pc == Resetting ==> Then(cfg, r, s, c) == Stepped(StepResetting(s.w), s.out)
    ensures s.w.mem.pc.RejectReport? ==> Then(cfg, r, s, c) == Stepped(WithPc(s.w, Idle), s.out + [LegStatusMsg(s.w.mem.pc.refused, StRejected)])
    ensures s.w.mem.pc == Idle ==> Then(cfg, r, s, c) == s
  {
    hide StepRecovering, StepResetting;
    assert s.out + [] == s.out;
  }

  /** A handler that has ended stays ended. */
  lemma {:induction false} IdleStays(cfg: Config, r: Role, s: Stepped, cs: seq<Choice>)
    requires s.w.mem.Up? && s.w.mem.pc == Idle
    ensures Settle(cfg, r, s, cs) == s
    decreases |cs|
  {
    if cs != [] {
      IdleStays(cfg, r, s, cs[..|cs| - 1]);
      assert s.out + [] == s.out;
    }
  }

  // ---- the choices of a broker write -----------------------------------------------------------

  /** What the scheduler and the broker answer to one write. */
  datatype Answer = Answer(decision: Decision, reply: Reply, exposure: Exposure, removed: bool)

  predicate Possible(cfg: Config, a: Answer, p: Payload) {
    && (a.decision.Refuse? ==> a.decision.result in {Refused, NeverStarted, Unclear})
    && (p.Market? ==> EntryAnswer(cfg, p.volume, a.reply, a.exposure))
  }

  function WriteChoices(a: Answer): seq<Choice> {
    [Schedule(a.decision), Proceed, Outcome(a.reply, a.exposure, a.removed), Proceed]
  }

  /** How far a write gets: admission only, up to the send boundary, or all the way. */
  function WriteLength(j: Journal, e: EffectId, a: Answer): nat {
    if !a.decision.Grant? then 1 else if J.MarkSendStarted(j, e).Err? then 2 else 4
  }
}
