/**
  Live attempts a restart cannot find.  Only the most recent attempt row is loaded, so a follower that durably
  refused another attempt while one was live loses the live one with its process: when that happens, that
  it is for good, and when it costs anything.
*/
module PairOrphans {
  import opened Prelude
  import opened PairState
  import opened PairWorker
  import opened PairDiscipline
  import opened PairTruth
  import opened PairEvolution
  import opened PairMessages
  import opened PairBelief
  import opened PairNetwork
  import opened PairSafety
  import opened PairPaths
  import opened PairLimits

  /** An attempt row that is not over. */
  predicate OpenRow(w: Worker, id: nat) {
    id in w.db.attempts && w.db.attempts[id].terminal.None?
  }

  /** ... that nothing runs and no restart loads. */
  predicate Hidden(w: Worker, id: nat) {
    OpenRow(w, id) && w.db.latest != Some(id) && !CurrentIs(w, id)
  }

  // ---- one Worker ------------------------------------------------------------------------------

  /** How rows move: the latest row changes only to a new one, and an open row ends only while its attempt is
      the running one. */
  predicate RowsMove(w: Worker, w': Worker, id: nat) {
    && (id in w.db.attempts && w.db.latest != Some(id) ==> w'.db.latest != Some(id))
    && (OpenRow(w, id) && !CurrentIs(w, id) ==> OpenRow(w', id))
    && (id in w.db.attempts && CurrentIs(w', id) ==> CurrentIs(w, id) || w.db.latest == Some(id))
  }

  lemma SameRowsMove(w: Worker, w': Worker, id: nat)
    requires SameBelief(w, w')
    ensures RowsMove(w, w', id)
  {
  }

  lemma AdvanceRows(cfg: Config, r: Role, w: Worker, c: Choice, id: nat)
    requires Discipline(r, w)
    ensures RowsMove(w, AdvanceStep(cfg, r, w, c).w, id)
  {
    SameRowsMove(w, w, id);
    if w.mem.Up? {
      if w.mem.pc == Recovering || w.mem.pc == Resetting {
        RestartRows(w, id);
      } else if w.mem.attempt.Some? && w.mem.pc != Idle && !w.mem.pc.RejectReport? {
        AttemptBelief(cfg, r, w, w.mem.attempt.value, c);
        SameRowsMove(w, AdvanceStep(cfg, r, w, c).w, id);
      }
    }
    hide Discipline, AdvanceAttempt, StepRecovering, StepResetting;
  }

  lemma RestartRows(w: Worker, id: nat)
    requires w.mem.Up?
    ensures RowsMove(w, StepRecovering(w), id) && RowsMove(w, StepResetting(w), id)
  {
  }

  lemma MoveRows(cfg: Config, r: Role, w: Worker, m: Move, id: nat)
    requires Discipline(r, w)
    ensures RowsMove(w, MoveStep(cfg, r, w, m).w, id)
  {
    match m {
      case Advance(c) => AdvanceRows(cfg, r, w, c, id);
      case Create(att) => CreateRows(r, w, att, id);
      case Finalize => CreateRows(r, w, Attempt(0, 0, LONG, 0), id);
      case Boot => BootRows(r, w, id);
      case _ =>
        if IsDecision(m) { DecisionIsMinor(cfg, r, w, m); }
    }
    hide Discipline, AdvanceStep, CreateAttempt, FinalizeStep, ConfirmStep, Load;
  }

  lemma CreateRows(r: Role, w: Worker, att: Attempt, id: nat)
    ensures RowsMove(w, CreateAttempt(r, w, att), id) && RowsMove(w, FinalizeStep(r, w), id)
  {
  }

  lemma BootRows(r: Role, w: Worker, id: nat)
    requires Discipline(r, w)
    ensures RowsMove(w, if w.mem.Down? then w.(mem := Load(w.db)) else w, id)
  {
    if w.db.latest.Some? { assert AttemptOk(w, w.db.latest.value); }
  }

  lemma ReceiveRows(r: Role, w: Worker, m: Msg, how: Reading, id: nat)
    requires Discipline(r, w)
    ensures RowsMove(w, Receive(r, w, m, how).w, id)
  {
  }

  // ---- over runs -------------------------------------------------------------------------------

  lemma StepRows(cfg: Config, g: World, a: Action, r: Role, id: nat)
    requires Disciplined(g)
    ensures RowsMove(Member(g, r), Member(Step(cfg, g, a), r), id)
  {
    SameRowsMove(Member(g, r), Member(g, r), id);
    match a {
      case Act(q, m) => if q == r { MoveRows(cfg, q, Member(g, q), m, id); }
      case Deliver(q, _, how) => if q == r && Inbox(g, q) != [] { ReceiveRows(q, Member(g, q), Inbox(g, q)[0], how, id); }
      case Drop(_) =>
    }
    hide MoveStep, Receive, Discipline, RowsMove;
  }

  lemma {:induction false} HiddenRunStays(cfg: Config, g: World, acts: seq<Action>, r: Role, id: nat)
    requires Disciplined(g) && Hidden(Member(g, r), id)
    ensures Hidden(Member(Run(cfg, g, acts), r), id)
    ensures CallsOf(Member(Run(cfg, g, acts), r).broker, Entry(id)) == CallsOf(Member(g, r).broker, Entry(id))
    decreases |acts|
  {
    if acts != [] {
      var g1 := Step(cfg, g, acts[0]);
      StepDisciplined(cfg, g, acts[0]);
      StepRows(cfg, g, acts[0], r, id);
      StepCallsNothing(cfg, g, acts[0], r, id);
      hide Disciplined, Step;
      HiddenRunStays(cfg, g1, acts[1..], r, id);
    }
  }

  lemma StepCallsNothing(cfg: Config, g: World, a: Action, r: Role, id: nat)
    requires Disciplined(g) && Hidden(Member(g, r), id)
    ensures CallsOf(Member(Step(cfg, g, a), r).broker, Entry(id)) == CallsOf(Member(g, r).broker, Entry(id))
  {
    match a {
      case Act(q, m) => if q == r { MoveEvolves(cfg, q, Member(g, q), m); assert EvolvesAt(Member(g, q), MoveStep(cfg, q, Member(g, q), m).w, id); }
      case Deliver(q, _, how) =>
        if q == r && Inbox(g, q) != [] {
          ReceiveEvolves(q, Member(g, q), Inbox(g, q)[0], how);
          assert EvolvesAt(Member(g, q), Receive(q, Member(g, q), Inbox(g, q)[0], how).w, id);
        }
      case Drop(_) =>
    }
    hide MoveStep, Receive, Discipline;
  }

  /** Hidden is for good: in no continuation of the run does the attempt ever run again, end, call, or answer a
      probe. */
  lemma HiddenForGood(cfg: Config, acts: seq<Action>, more: seq<Action>, r: Role, id: nat)
    requires Hidden(Member(Run(cfg, Start, acts), r), id)
    ensures var w, w' := Member(Run(cfg, Start, acts), r), Member(Run(cfg, Start, acts + more), r);
            && Hidden(w', id) && CallsOf(w'.broker, Entry(id)) == CallsOf(w.broker, Entry(id))
            && PairWorker.Answer(r, w', id, true) == []
  {
    RunDisciplined(cfg, Start, acts);
    RunAppend(cfg, Start, acts, more);
    hide Run;
    HiddenRunStays(cfg, Run(cfg, Start, acts), more, r, id);
  }

  // ---- when a restart resumes a live attempt -----------------------------------------------------

  /** How the latest row changes: to a new one, which is either run at once or a durable refusal. */
  predicate LatestMoves(w: Worker, w': Worker) {
    w'.db.latest != w.db.latest ==>
      && w'.db.latest.Some? && w'.db.latest.value !in w.db.attempts && w'.db.latest.value in w'.db.attempts
      && (CurrentIs(w', w'.db.latest.value)
          || (w'.db.attempts[w'.db.latest.value].terminal == Some(AdmissionRejected) && w.mem.Up? && w'.mem.Up? && w'.mem.attempt == w.mem.attempt))
  }

  /** What becomes the running attempt without a row before is the latest row. */
  predicate NewIsLatest(w: Worker, w': Worker, id: nat) {
    CurrentIs(w', id) && !CurrentIs(w, id) ==> w'.db.latest == Some(id)
  }

  lemma SameLatest(w: Worker, w': Worker, id: nat)
    requires SameBelief(w, w')
    ensures LatestMoves(w, w') && NewIsLatest(w, w', id)
  {
  }

  lemma AdvanceLatest(cfg: Config, r: Role, w: Worker, c: Choice, id: nat)
    requires Discipline(r, w)
    ensures LatestMoves(w, AdvanceStep(cfg, r, w, c).w) && NewIsLatest(w, AdvanceStep(cfg, r, w, c).w, id)
  {
    SameLatest(w, w, id);
    if w.mem.Up? {
      if w.mem.pc == Recovering || w.mem.pc == Resetting {
        RestartLatest(w, id);
      } else if w.mem.attempt.Some? && w.mem.pc != Idle && !w.mem.pc.RejectReport? {
        AttemptBelief(cfg, r, w, w.mem.attempt.value, c);
        SameLatest(w, AdvanceStep(cfg, r, w, c).w, id);
      }
    }
    hide Discipline, AdvanceAttempt, StepRecovering, StepResetting;
  }

  lemma RestartLatest(w: Worker, id: nat)
    requires w.mem.Up?
    ensures LatestMoves(w, StepRecovering(w)) && NewIsLatest(w, StepRecovering(w), id)
    ensures LatestMoves(w, StepResetting(w)) && NewIsLatest(w, StepResetting(w), id)
  {
  }

  lemma MoveLatest(cfg: Config, r: Role, w: Worker, m: Move, id: nat)
    requires Discipline(r, w)
    ensures LatestMoves(w, MoveStep(cfg, r, w, m).w) && NewIsLatest(w, MoveStep(cfg, r, w, m).w, id)
  {
    match m {
      case Advance(c) => AdvanceLatest(cfg, r, w, c, id);
      case Boot => if w.db.latest.Some? { assert AttemptOk(w, w.db.latest.value); }
      case _ =>
        if IsDecision(m) { DecisionIsMinor(cfg, r, w, m); }
    }
    hide Discipline, AdvanceStep, ConfirmStep;
  }

  lemma ReceiveLatest(r: Role, w: Worker, m: Msg, how: Reading, id: nat)
    ensures LatestMoves(w, Receive(r, w, m, how).w) && NewIsLatest(w, Receive(r, w, m, how).w, id)
  {
  }

  lemma StepLatest(cfg: Config, g: World, a: Action, r: Role, id: nat)
    requires Disciplined(g)
    ensures LatestMoves(Member(g, r), Member(Step(cfg, g, a), r)) && NewIsLatest(Member(g, r), Member(Step(cfg, g, a), r), id)
  {
    SameLatest(Member(g, r), Member(g, r), id);
    match a {
      case Act(q, m) => if q == r { MoveLatest(cfg, q, Member(g, q), m, id); }
      case Deliver(q, _, how) => if q == r && Inbox(g, q) != [] { ReceiveLatest(q, Member(g, q), Inbox(g, q)[0], how, id); }
      case Drop(_) =>
    }
    hide MoveStep, Receive, Discipline, LatestMoves, NewIsLatest;
  }

  /** With this action another attempt was durably refused while `id` was running. */
  ghost predicate RefusedWhile(cfg: Config, acts: seq<Action>, k: nat, r: Role, id: nat) {
    k < |acts| && RefusesOver(Member(Run(cfg, Start, acts[..k]), r), Member(Run(cfg, Start, acts[..k + 1]), r), id)
  }

  predicate RefusesOver(w: Worker, w': Worker, id: nat) {
    && CurrentIs(w, id) && id in w.db.attempts
    && w'.db.latest.Some? && w'.db.latest.value !in w.db.attempts
    && w'.db.latest.value in w'.db.attempts && w'.db.attempts[w'.db.latest.value].terminal == Some(AdmissionRejected)
  }

  lemma RunIsDisciplined(cfg: Config, acts: seq<Action>)
    ensures Disciplined(Run(cfg, Start, acts))
  {
    RunDisciplined(cfg, Start, acts);
  }

  lemma {:induction false} RefusalLasts(cfg: Config, acts: seq<Action>, k: nat, r: Role, id: nat)
    requires RefusedWhile(cfg, acts, k, r, id)
    ensures id in Member(Run(cfg, Start, acts), r).db.attempts && Member(Run(cfg, Start, acts), r).db.latest != Some(id)
    decreases |acts|
  {
    var n := |acts| - 1;
    assert acts[..n + 1] == acts;
    hide Step, Disciplined;
    RunLast(cfg, Start, acts, n);
    RunIsDisciplined(cfg, acts[..n]);
    hide Run;
    var g := Run(cfg, Start, acts[..n]);
    StepRows(cfg, g, acts[n], r, id);
    if k < n {
      assert acts[..n][..k] == acts[..k] && acts[..n][..k + 1] == acts[..k + 1];
      RefusalLasts(cfg, acts[..n], k, r, id);
    } else {
      assert acts[..k] == acts[..n];
    }
    RowsGrow(cfg, g, acts[n], r, id);
  }

  lemma RowsGrow(cfg: Config, g: World, a: Action, r: Role, id: nat)
    requires Disciplined(g) && id in Member(g, r).db.attempts
    ensures id in Member(Step(cfg, g, a), r).db.attempts
  {
    match a {
      case Act(q, m) => if q == r { MoveEvolves(cfg, q, Member(g, q), m); assert EvolvesAt(Member(g, q), MoveStep(cfg, q, Member(g, q), m).w, id); }
      case Deliver(q, _, how) =>
        if q == r && Inbox(g, q) != [] {
          ReceiveEvolves(q, Member(g, q), Inbox(g, q)[0], how);
          assert EvolvesAt(Member(g, q), Receive(q, Member(g, q), Inbox(g, q)[0], how).w, id);
        }
      case Drop(_) =>
    }
    hide MoveStep, Receive, Discipline;
  }

  /** A running attempt stops being the latest row only by such a refusal. */
  lemma {:induction false} NotLatestWasRefused(cfg: Config, acts: seq<Action>, r: Role, id: nat)
    requires CurrentIs(Member(Run(cfg, Start, acts), r), id) && Member(Run(cfg, Start, acts), r).db.latest != Some(id)
    ensures exists k: nat :: RefusedWhile(cfg, acts, k, r, id)
    decreases |acts|
  {
    hide Step, Disciplined;
    if acts != [] {
      var n := |acts| - 1;
      assert acts[..n + 1] == acts;
      RunLast(cfg, Start, acts, n);
      var g := Run(cfg, Start, acts[..n]);
      RunIsDisciplined(cfg, acts[..n]);
      hide Run;
      LostLatestHere(cfg, g, acts[n], r, id);
      if Member(g, r).db.latest != Some(id) && CurrentIs(Member(g, r), id) {
        NotLatestWasRefused(cfg, acts[..n], r, id);
        var k: nat :| RefusedWhile(cfg, acts[..n], k, r, id);
        assert acts[..n][..k] == acts[..k] && acts[..n][..k + 1] == acts[..k + 1];
        assert RefusedWhile(cfg, acts, k, r, id);
      } else {
        assert RefusedWhile(cfg, acts, n, r, id);
      }
    }
  }

  lemma LostLatestHere(cfg: Config, g: World, a: Action, r: Role, id: nat)
    requires Disciplined(g) && CurrentIs(Member(Step(cfg, g, a), r), id) && Member(Step(cfg, g, a), r).db.latest != Some(id)
    ensures (CurrentIs(Member(g, r), id) && Member(g, r).db.latest != Some(id)) || RefusesOver(Member(g, r), Member(Step(cfg, g, a), r), id)
  {
    hide Step, Core;
    StepLatest(cfg, g, a, r, id);
    RunningIsRecorded(r, Member(g, r), id);
  }

  lemma RunningIsRecorded(r: Role, w: Worker, id: nat)
    requires Discipline(r, w)
    ensures CurrentIs(w, id) ==> id in w.db.attempts
  {
    hide Core;
  }

  /** A crash and a restart resume the running attempt, in every run, if and only if its row is the latest, and
      that is if and only if no other attempt was durably refused while it ran. */
  lemma RestartResumesIffNothingRefused(cfg: Config, acts: seq<Action>, r: Role, id: nat)
    requires CurrentIs(Member(Run(cfg, Start, acts), r), id) && OpenRow(Member(Run(cfg, Start, acts), r), id)
    ensures var w := Member(Run(cfg, Start, acts), r);
            var w' := Member(Run(cfg, Start, acts + [Act(r, Crash), Act(r, Boot)]), r);
            && (CurrentIs(w', id) <==> w.db.latest == Some(id))
            && (CurrentIs(w', id) <==> forall k: nat :: !RefusedWhile(cfg, acts, k, r, id))
            && (!CurrentIs(w', id) ==> Hidden(w', id))
  {
    var g := Run(cfg, Start, acts);
    var two := [Act(r, Crash), Act(r, Boot)];
    RunDisciplined(cfg, Start, acts);
    RunAppend(cfg, Start, acts, two);
    assert two[1..] == [two[1]] && two[1..][1..] == [];
    assert Run(cfg, g, two) == Run(cfg, Step(cfg, g, two[0]), two[1..]);
    assert Run(cfg, Step(cfg, g, two[0]), two[1..]) == Run(cfg, Step(cfg, Step(cfg, g, two[0]), two[1]), []);
    CrashAndBoot(cfg, g, r, id);
    hide Run, Step;
    if Member(g, r).db.latest != Some(id) {
      NotLatestWasRefused(cfg, acts, r, id);
    } else {
      forall k: nat ensures !RefusedWhile(cfg, acts, k, r, id) {
        if RefusedWhile(cfg, acts, k, r, id) { RefusalLasts(cfg, acts, k, r, id); }
      }
    }
  }

  lemma CrashAndBoot(cfg: Config, g: World, r: Role, id: nat)
    requires Disciplined(g) && CurrentIs(Member(g, r), id) && OpenRow(Member(g, r), id)
    ensures var w' := Member(Step(cfg, Step(cfg, g, Act(r, Crash)), Act(r, Boot)), r);
            (CurrentIs(w', id) <==> Member(g, r).db.latest == Some(id)) && (!CurrentIs(w', id) ==> Hidden(w', id))
  {
    var w := Member(g, r);
    assert AttemptOk(w, id);
    if w.db.latest.Some? { assert AttemptOk(w, w.db.latest.value); }
    assert Member(Step(cfg, Step(cfg, g, Act(r, Crash)), Act(r, Boot)), r) == w.(mem := Load(w.db));
    hide Discipline;
  }

  // ---- the leader never loses one ----------------------------------------------------------------

  /** An open row is the latest row, and a running process runs it. */
  predicate InHand(w: Worker, id: nat) {
    OpenRow(w, id) ==> w.db.latest == Some(id) && (w.mem.Up? ==> CurrentIs(w, id))
  }

  lemma SameInHand(w: Worker, w': Worker, id: nat)
    requires InHand(w, id) && SameBelief(w, w')
    ensures InHand(w', id)
  {
  }

  lemma AdvanceInHand(cfg: Config, r: Role, w: Worker, c: Choice, id: nat)
    requires Discipline(r, w) && InHand(w, id)
    ensures InHand(AdvanceStep(cfg, r, w, c).w, id)
  {
    if w.mem.Up? && w.mem.pc != Idle {
      if w.mem.pc == Recovering || w.mem.pc == Resetting {
        RestartInHand(r, w, id);
      } else if w.mem.attempt.Some? && !w.mem.pc.RejectReport? {
        AttemptBelief(cfg, r, w, w.mem.attempt.value, c);
        SameInHand(w, AdvanceStep(cfg, r, w, c).w, id);
      }
    }
    hide Discipline, AdvanceAttempt, StepRecovering, StepResetting;
  }

  lemma RestartInHand(r: Role, w: Worker, id: nat)
    requires Discipline(r, w) && InHand(w, id) && w.mem.Up?
    ensures w.mem.pc == Recovering ==> InHand(StepRecovering(w), id)
    ensures w.mem.pc == Resetting ==> InHand(StepResetting(w), id)
  {
    hide Core;
  }

  lemma RowsInHand(w: Worker, att: Attempt, id: nat)
    requires InHand(w, id)
    ensures InHand(CreateAttempt(Leader, w, att), id) && InHand(FinalizeStep(Leader, w), id)
  {
  }

  lemma MoveInHand(cfg: Config, w: Worker, m: Move, id: nat)
    requires Discipline(Leader, w) && InHand(w, id)
    ensures InHand(MoveStep(cfg, Leader, w, m).w, id)
  {
    match m {
      case Advance(c) => AdvanceInHand(cfg, Leader, w, c, id);
      case Create(att) => RowsInHand(w, att, id);
      case Finalize => RowsInHand(w, First, id);
      case Boot => assert AttemptOk(w, id);
      case _ =>
        if IsDecision(m) { DecisionIsMinor(cfg, Leader, w, m); }
    }
    hide Discipline, AdvanceStep, CreateAttempt, FinalizeStep, ConfirmStep;
  }

  lemma ReceiveInHand(w: Worker, m: Msg, how: Reading, id: nat)
    requires InHand(w, id)
    ensures InHand(Receive(Leader, w, m, how).w, id)
  {
  }

  lemma StepInHand(cfg: Config, g: World, a: Action, id: nat)
    requires Disciplined(g) && InHand(g.leader, id)
    ensures InHand(Step(cfg, g, a).leader, id)
  {
    match a {
      case Act(r, m) => if r == Leader { MoveInHand(cfg, g.leader, m, id); }
      case Deliver(r, _, how) => if r == Leader && g.toLeader != [] { ReceiveInHand(g.leader, g.toLeader[0], how, id); }
      case Drop(_) =>
    }
    hide MoveStep, Receive, Discipline, InHand;
  }

  lemma {:induction false} RunInHand(cfg: Config, g: World, acts: seq<Action>, id: nat)
    requires Disciplined(g) && InHand(g.leader, id)
    ensures InHand(Run(cfg, g, acts).leader, id)
    decreases |acts|
  {
    hide Disciplined, Step, InHand;
    if acts != [] {
      StepDisciplined(cfg, g, acts[0]);
      StepInHand(cfg, g, acts[0], id);
      RunInHand(cfg, Step(cfg, g, acts[0]), acts[1..], id);
    }
  }

  /** Only a follower can lose an attempt: in no run is one of the leader's hidden. */
  lemma LeaderHidesNothing(cfg: Config, acts: seq<Action>, id: nat)
    ensures !Hidden(Run(cfg, Start, acts).leader, id)
  {
    RunInHand(cfg, Start, acts, id);
  }

  // ---- it happens --------------------------------------------------------------------------------

  const Second := Attempt(1, 0, LONG, 2)

  /** A follower whose only attempt is open and past its entry. */
  predicate HoldsFirst(w: Worker) {
    && w.db.attempts == map[0 := AttemptRow(First, None)] && w.db.latest == Some(0)
    && 0 in w.db.legs && w.db.legs[0].entryStatus in {Rejected, ExpiredNotStarted}
  }

  /** The follower's process dies and restarts, and resumes the attempt. */
  lemma Resumes(cfg: Config, g: World) returns (g': World)
    requires Reachable(cfg, g) && HoldsFirst(g.follower)
    ensures Reachable(cfg, g') && HoldsFirst(g'.follower) && g' == g.(follower := g'.follower)
    ensures CanReceive(g'.follower) && CurrentIs(g'.follower, 0) && g'.follower.broker == g.follower.broker
  {
    hide Reachable, Then, Settle;
    var w := g.follower.(mem := Load(g.follower.db));
    Extend(cfg, g, Act(Follower, Crash));
    var g1 := Step(cfg, g, Act(Follower, Crash));
    Extend(cfg, g1, Act(Follower, Boot));
    var g2 := Step(cfg, g1, Act(Follower, Boot));
    assert g.toLeader + [] + [] == g.toLeader;
    assert g2 == g.(follower := w);
    var done := Recovers(cfg, w);
    g' := Goes(cfg, g2, Follower, [] + [Proceed] + [Proceed], Stepped(done, []));
  }

  lemma Recovers(cfg: Config, w: Worker) returns (done: Worker)
    requires HoldsFirst(w) && w.mem == Load(w.db)
    ensures HoldsFirst(done) && CanReceive(done) && CurrentIs(done, 0) && done.broker == w.broker
    ensures Settle(cfg, Follower, Stepped(w, []), [] + [Proceed] + [Proceed]) == Stepped(done, [])
  {
    hide Then, Settle, StepRecovering, StepRecoverClose;
    var s0, s1 := Stepped(w, []), Stepped(WithPc(w, RecoverClose), []);
    done := StepRecoverClose(s1.w, 0);
    Reconciles(w);
    Reopens(s1.w);
    NoStep(cfg, Follower, s0);
    RestartStepIs(cfg, Follower, s0, Proceed);
    Onto(cfg, Follower, s0, [], s0, Proceed, s1);
    RestStepIs(cfg, Follower, s1, First, Proceed);
    Onto(cfg, Follower, s0, [] + [Proceed], s1, Proceed, Stepped(done, []));
  }

  lemma Reconciles(w: Worker)
    requires HoldsFirst(w) && w.mem == Load(w.db)
    ensures StepRecovering(w) == WithPc(w, RecoverClose)
  {
    assert w.db.legs[0 := w.db.legs[0]] == w.db.legs;
  }

  lemma Reopens(w: Worker)
    requires HoldsFirst(w) && w.mem.Up? && w.mem.attempt == Some(First) && w.mem.pc == RecoverClose
    ensures var done := StepRecoverClose(w, 0);
            HoldsFirst(done) && CanReceive(done) && CurrentIs(done, 0) && done.broker == w.broker
    ensures AdvanceRest(w, 0) == Quiet(StepRecoverClose(w, 0))
  {
  }

  /** The leader's next attempt arrives while the first is open: it is refused, and the next crash hides the first. */
  lemma Hides(cfg: Config, g: World) returns (g': World)
    requires Reachable(cfg, g) && HoldsFirst(g.follower) && FreeLeader(g) && g.toFollower == []
    ensures Reachable(cfg, g') && Hidden(g'.follower, 0) && g'.follower.broker == g.follower.broker
  {
    hide Reachable, Dispatched;
    var g1 := Resumes(cfg, g);
    var g2 := LeaderRelays(cfg, g1, Second);
    Extend(cfg, g2, Deliver(Follower, false, Reading(true, 0, 0)));
    var g3 := Step(cfg, g2, Deliver(Follower, false, Reading(true, 0, 0)));
    assert g3.follower == RefuseAttempt(g2.follower, Second);
    Extend(cfg, g3, Act(Follower, Crash));
    g' := Step(cfg, g3, Act(Follower, Crash));
  }

  /** The follower's entry never starts, the leader calls the pair empty. */
  lemma NothingSent(cfg: Config) returns (g: World)
    ensures Reachable(cfg, g) && HoldsFirst(g.follower) && FreeLeader(g) && g.toFollower == []
  {
    hide Reachable;
    var g1 := BothRun(cfg);
    var g2 := NeverStarts(cfg, g1, Follower, First);
    assert g2.toLeader[0] == LegStatusMsg(0, StExpired);
    g := LeaderFinishes(cfg, g2, 0, StExpired);
  }

  /** It happens under every broker: the leader need only not have heard that the follower is still busy. */
  lemma HidingHappens(cfg: Config)
    ensures exists acts :: Hidden(Run(cfg, Start, acts).follower, 0)
  {
    var g := NothingSent(cfg);
    var g' := Hides(cfg, g);
    var acts :| Run(cfg, Start, acts) == g';
    assert Hidden(Run(cfg, Start, acts).follower, 0);
  }

  // ---- what it costs -----------------------------------------------------------------------------

  predicate Over(w: Worker, id: nat) {
    id in w.db.attempts && w.db.attempts[id].terminal.Some?
  }

  ghost predicate QueuedBefore(q: seq<Msg>, id: nat, k: nat) {
    exists j :: 0 <= j < |q| && j < k && q[j].AttemptMsg? && q[j].attempt.id == id
  }

  /** Every attempt that reached the follower before the one queued at `k` is over for the leader. */
  ghost predicate OrderTrue(g: World, k: nat) {
    k < |g.toFollower| && g.toFollower[k].AttemptMsg? ==>
      forall id :: id != g.toFollower[k].attempt.id && (id in g.follower.db.attempts || QueuedBefore(g.toFollower, id, k)) ==> Over(g.leader, id)
  }

  ghost predicate HiddenTrue(g: World, id: nat) {
    OpenRow(g.follower, id) && g.follower.db.latest != Some(id) ==> Settled(g.follower, id)
  }

  ghost predicate Orderly(g: World) {
    && (forall id :: InHand(g.leader, id))
    && (forall k :: OrderTrue(g, k))
    && (forall id :: HiddenTrue(g, id))
  }

  /** What is over for the leader was verified empty on both sides. */
  lemma OverIsSettled(g: World, id: nat)
    requires Consistent(g) && id in g.follower.db.attempts && Over(g.leader, id)
    ensures Settled(g.follower, id)
  {
    assert OriginTrue(g, id) && AttemptOk(g.follower, id) && AttemptOk(g.leader, id) && BeliefTrue(g, Leader, id);
  }

  lemma OverStays(g: World, g': World, id: nat)
    requires Onwards(g, g') && Over(g.leader, id)
    ensures Over(g'.leader, id)
  {
    assert EvolvesAt(g.leader, g'.leader, id);
  }

  /** What was queued keeps its order; a row the follower gains is that of the message it takes. */
  lemma OrderStays(g: World, g': World, k: nat, shift: nat)
    requires Onwards(g, g') && OrderTrue(g, k + shift) && shift <= 1
    requires k < |g'.toFollower| && k + shift < |g.toFollower|
    requires forall j :: 0 <= j <= k ==> g'.toFollower[j] == g.toFollower[j + shift]
    requires forall id :: id in g'.follower.db.attempts && id !in g.follower.db.attempts ==> g.toFollower[0].AttemptMsg? && g.toFollower[0].attempt.id == id
    ensures OrderTrue(g', k)
  {
    if g'.toFollower[k].AttemptMsg? {
      forall id | id != g'.toFollower[k].attempt.id && (id in g'.follower.db.attempts || QueuedBefore(g'.toFollower, id, k)) ensures Over(g'.leader, id) {
        if id !in g.follower.db.attempts {
          if QueuedBefore(g'.toFollower, id, k) {
            var j :| 0 <= j < k && g'.toFollower[j].AttemptMsg? && g'.toFollower[j].attempt.id == id;
            assert g.toFollower[j + shift].attempt.id == id;
          } else {
            assert g.toFollower[0].attempt.id == id;
          }
          assert QueuedBefore(g.toFollower, id, k + shift);
        }
        OverStays(g, g', id);
      }
    }
  }

  /** The leader relays its current attempt only when every other attempt it relayed is over. */
  lemma RelayedInOrder(g: World, id: nat, now: nat)
    requires Consistent(g) && InHand(g.leader, id) && WillRelay(g.leader, now) && id != now && id in g.leader.db.attempts
    ensures Over(g.leader, id)
  {
  }

  lemma NewOrder(g: World, g': World, k: nat)
    requires Consistent(g) && Orderly(g) && Onwards(g, g') && g'.follower.db.attempts == g.follower.db.attempts
    requires |g.toFollower| <= k < |g'.toFollower| && g.toFollower <= g'.toFollower
    requires forall j :: |g.toFollower| <= j < |g'.toFollower| && g'.toFollower[j].AttemptMsg? ==> WillRelay(g.leader, g'.toFollower[j].attempt.id)
    ensures OrderTrue(g', k)
  {
    if g'.toFollower[k].AttemptMsg? {
      var now := g'.toFollower[k].attempt.id;
      forall id | id != now && (id in g'.follower.db.attempts || QueuedBefore(g'.toFollower, id, k)) ensures Over(g'.leader, id) {
        assert OriginTrue(g, id) && AttemptOk(g.follower, id);
        if id !in g.follower.db.attempts {
          var j :| 0 <= j < k && g'.toFollower[j].AttemptMsg? && g'.toFollower[j].attempt.id == id;
          assert ToFollowerTrue(g, j);
        }
        assert InHand(g.leader, id);
        RelayedInOrder(g, id, now);
        OverStays(g, g', id);
      }
    }
  }

  lemma HiddenStays(g: World, g': World, id: nat)
    requires Onwards(g, g') && HiddenTrue(g, id) && LatestMoves(g.follower, g'.follower)
    requires Consistent(g) && (forall k :: OrderTrue(g, k))
    requires g'.follower.db.latest != g.follower.db.latest ==>
               && g.toFollower != [] && g.toFollower[0].AttemptMsg? && g'.follower.db.latest == Some(g.toFollower[0].attempt.id)
    requires id in g'.follower.db.attempts && id !in g.follower.db.attempts ==> g'.follower.db.latest == Some(id)
    ensures HiddenTrue(g', id)
  {
    assert EvolvesAt(g.follower, g'.follower, id);
    if OpenRow(g'.follower, id) && g'.follower.db.latest != Some(id) && g.follower.db.latest == Some(id) {
      assert OrderTrue(g, 0);
      OverIsSettled(g, id);
    }
  }

  lemma NewRowIsLatest(r: Role, w: Worker, m: Msg, how: Reading, id: nat)
    ensures id in Receive(r, w, m, how).w.db.attempts && id !in w.db.attempts ==> Receive(r, w, m, how).w.db.latest == Some(id)
  {
  }

  lemma ActKeepsOrder(cfg: Config, g: World, r: Role, m: Move)
    requires cfg.Conclusive() && Consistent(g) && Orderly(g) && (m.Create? ==> m.attempt.id !in g.issued)
    requires Onwards(g, Step(cfg, g, Act(r, m)))
    ensures forall k :: OrderTrue(Step(cfg, g, Act(r, m)), k)
  {
    hide MoveStep, Consistent, Onwards, OrderTrue;
    var g' := Step(cfg, g, Act(r, m));
    SaysInOrder(cfg, g, r, m);
    forall k: nat ensures OrderTrue(g', k) {
      if k < |g.toFollower| {
        OrderStays(g, g', k, 0);
      } else if k < |g'.toFollower| {
        NewOrder(g, g', k);
      } else {
        NotQueued(g', k);
      }
    }
  }

  lemma NotQueued(g: World, k: nat)
    requires k >= |g.toFollower|
    ensures OrderTrue(g, k)
  {
  }

  /** What a step of a Worker adds for the follower, and that it gives the follower no row. */
  lemma SaysInOrder(cfg: Config, g: World, r: Role, m: Move)
    requires cfg.Conclusive() && Consistent(g) && (m.Create? ==> m.attempt.id !in g.issued)
    ensures var g' := Step(cfg, g, Act(r, m));
            && g.toFollower <= g'.toFollower && g'.follower.db.attempts.Keys == g.follower.db.attempts.Keys
            && (r == Leader ==> g'.follower == g.follower) && (r == Follower ==> g'.toFollower == g.toFollower)
            && (forall j :: |g.toFollower| <= j < |g'.toFollower| && g'.toFollower[j].AttemptMsg? ==> WillRelay(g.leader, g'.toFollower[j].attempt.id))
  {
    hide MoveStep;
    var w := Member(g, r);
    var s := MoveStep(cfg, r, w, m);
    MoveEvolves(cfg, r, w, m);
    forall k | 0 <= k < |s.out| ensures s.out[k].AttemptMsg? ==> WillRelay(w, s.out[k].attempt.id) {
      MoveSaysTrue(cfg, r, w, m, k);
    }
  }

  lemma DeliverKeepsOrder(cfg: Config, g: World, r: Role, again: bool, how: Reading)
    requires Consistent(g) && Orderly(g) && Inbox(g, r) != [] && CanReceive(Member(g, r))
    requires Onwards(g, Step(cfg, g, Deliver(r, again, how)))
    ensures forall k :: OrderTrue(Step(cfg, g, Deliver(r, again, how)), k)
  {
    hide Receive, Consistent, Onwards, OrderTrue;
    var g' := Step(cfg, g, Deliver(r, again, how));
    var shift := if again || r == Leader then 0 else 1;
    RepliesInOrder(cfg, g, r, again, how);
    forall k: nat ensures OrderTrue(g', k) {
      if k + shift < |g.toFollower| {
        OrderStays(g, g', k, shift);
      } else if k < |g'.toFollower| {
        NoAttemptQueued(g', k);
      } else {
        NotQueued(g', k);
      }
    }
  }

  lemma NoAttemptQueued(g: World, k: nat)
    requires k < |g.toFollower| && !g.toFollower[k].AttemptMsg?
    ensures OrderTrue(g, k)
  {
  }

  lemma RepliesInOrder(cfg: Config, g: World, r: Role, again: bool, how: Reading)
    requires Consistent(g) && Inbox(g, r) != [] && CanReceive(Member(g, r))
    ensures var g' := Step(cfg, g, Deliver(r, again, how));
            var kept := if again || r == Leader then g.toFollower else g.toFollower[1..];
            && kept <= g'.toFollower
            && (forall j :: |kept| <= j < |g'.toFollower| ==> !g'.toFollower[j].AttemptMsg?)
            && (forall id :: id in g'.follower.db.attempts && id !in g.follower.db.attempts ==>
                  r == Follower && g.toFollower[0].AttemptMsg? && g.toFollower[0].attempt.id == id)
  {
    hide Receive;
    var w, m := Member(g, r), Inbox(g, r)[0];
    ReceiveEvolves(r, w, m, how);
    forall k | 0 <= k < |Receive(r, w, m, how).out| ensures Receive(r, w, m, how).out[k].LegStatusMsg? {
      ReceiveSaysTrue(r, w, m, how, k);
    }
  }

  lemma DropKeepsOrder(cfg: Config, g: World, r: Role)
    requires Consistent(g) && Orderly(g) && Onwards(g, Step(cfg, g, Drop(r)))
    ensures forall k :: OrderTrue(Step(cfg, g, Drop(r)), k)
  {
    hide Consistent, Onwards, OrderTrue;
    var g' := Step(cfg, g, Drop(r));
    var shift := if r == Follower && g.toFollower != [] then 1 else 0;
    assert g'.toFollower == g.toFollower[shift..] && g'.follower == g.follower;
    hide Step;
    forall k: nat ensures OrderTrue(g', k) {
      if k + shift < |g.toFollower| { OrderStays(g, g', k, shift); } else { NotQueued(g', k); }
    }
  }

  lemma StepKeepsHidden(cfg: Config, g: World, a: Action, id: nat)
    requires cfg.Conclusive() && Consistent(g) && Orderly(g) && Onwards(g, Step(cfg, g, a))
    ensures HiddenTrue(Step(cfg, g, a), id)
  {
    hide MoveStep, Receive, LatestMoves, NewIsLatest, Truth, Core;
    StepLatest(cfg, g, a, Follower, id);
    LatestFromHead(cfg, g, a, id);
    HiddenStays(g, Step(cfg, g, a), id);
  }

  /** The follower's rows grow only by the attempt at the head of its inbox, which then is the latest. */
  lemma LatestFromHead(cfg: Config, g: World, a: Action, id: nat)
    requires Disciplined(g) && LatestMoves(g.follower, Step(cfg, g, a).follower)
    ensures var w' := Step(cfg, g, a).follower;
            && (w'.db.latest != g.follower.db.latest ==>
                  g.toFollower != [] && g.toFollower[0].AttemptMsg? && w'.db.latest == Some(g.toFollower[0].attempt.id))
            && (id in w'.db.attempts && id !in g.follower.db.attempts ==> w'.db.latest == Some(id))
  {
    hide MoveStep, Receive, Core;
    match a {
      case Act(r, m) => if r == Follower { MoveEvolves(cfg, r, g.follower, m); }
      case Deliver(r, _, how) =>
        if r == Follower && g.toFollower != [] {
          ReceiveEvolves(r, g.follower, g.toFollower[0], how);
          NewRowIsLatest(r, g.follower, g.toFollower[0], how, id);
        }
      case Drop(_) =>
    }
  }

  lemma StepOrderly(cfg: Config, g: World, a: Action)
    requires cfg.Conclusive() && Consistent(g) && Orderly(g)
    ensures Orderly(Step(cfg, g, a))
  {
    hide OrderTrue, HiddenTrue, InHand, MoveStep, Receive, Truth, BeliefTrue, Onwards;
    StepOnwards(cfg, g, a);
    forall id ensures HiddenTrue(Step(cfg, g, a), id) && InHand(Step(cfg, g, a).leader, id) {
      StepInHand(cfg, g, a, id);
      StepKeepsHidden(cfg, g, a, id);
    }
    match a {
      case Act(r, m) => if m.Create? ==> m.attempt.id !in g.issued { ActKeepsOrder(cfg, g, r, m); }
      case Deliver(r, again, how) => if Inbox(g, r) != [] && CanReceive(Member(g, r)) { DeliverKeepsOrder(cfg, g, r, again, how); }
      case Drop(r) => DropKeepsOrder(cfg, g, r);
    }
  }

  lemma {:induction false} RunOrderly(cfg: Config, g: World, acts: seq<Action>)
    requires cfg.Conclusive() && Consistent(g) && Orderly(g)
    ensures Consistent(Run(cfg, g, acts)) && Orderly(Run(cfg, g, acts))
    decreases |acts|
  {
    hide Consistent, Orderly, Step;
    if acts != [] {
      StepConsistent(cfg, g, acts[0]);
      StepOrderly(cfg, g, acts[0]);
      RunOrderly(cfg, Step(cfg, g, acts[0]), acts[1..]);
    }
  }

  /** A hidden attempt is dead: nothing of it is open, and nothing of it is still to be sent. */
  ghost predicate HiddenAreDead(g: World) {
    forall r, id :: Hidden(Member(g, r), id) ==> Settled(Member(g, r), id)
  }

  lemma HiddenAreDeadIfConclusive(cfg: Config, acts: seq<Action>)
    requires cfg.Conclusive()
    ensures HiddenAreDead(Run(cfg, Start, acts))
  {
    var g := Run(cfg, Start, acts);
    RunOrderly(cfg, Start, acts);
    forall r, id ensures Hidden(Member(g, r), id) ==> Settled(Member(g, r), id) {
      assert InHand(g.leader, id) && HiddenTrue(g, id);
    }
  }

  /** The follower reports "rejected" over open exposure, and then loses the attempt. */
  lemma LosesExposure(cfg: Config, g: World, g': World)
    requires Reachable(cfg, g') && LeaderDone(g) && FollowerWrites(g) && g.toLeader == [] && g.toFollower == [] && Misread(g, g', 0)
    ensures exists acts :: !HiddenAreDead(Run(cfg, Start, acts))
  {
    hide Reachable, LeaderDone;
    var bad := LeaderBelieves(cfg, g, g');
    var lost := Hides(cfg, bad);
    assert Hidden(Member(lost, Follower), 0) && !Settled(Member(lost, Follower), 0);
    SomeRunLeads(cfg, lost);
  }

  lemma SomeRunLeads(cfg: Config, g: World)
    requires Reachable(cfg, g) && !HiddenAreDead(g)
    ensures exists acts :: !HiddenAreDead(Run(cfg, Start, acts))
  {
    hide HiddenAreDead;
    var acts :| Run(cfg, Start, acts) == g;
    assert !HiddenAreDead(Run(cfg, Start, acts));
  }

  /** Losing an attempt this way never costs exposure if and only if the broker is conclusive about entries. */
  lemma HiddenIsHarmlessIffConclusive(cfg: Config)
    ensures (forall acts :: HiddenAreDead(Run(cfg, Start, acts))) <==> cfg.Conclusive()
  {
    hide HiddenAreDead;
    if cfg.Conclusive() {
      forall acts ensures HiddenAreDead(Run(cfg, Start, acts)) { HiddenAreDeadIfConclusive(cfg, acts); }
    } else {
      var g := BothRun(cfg);
      var g';
      if cfg.exposesOnReject { g' := RefusedButHeld(cfg, g, First, FullPosition); }
      else if cfg.partialFills { g' := UnseenButHeld(cfg, g, First, PartialPosition(1)); }
      else { g' := UnseenButHeld(cfg, g, First, RestingOrder); }
      LosesExposure(cfg, g, g');
    }
  }
}
