/**
  The promise of `both_empty_verified` is exactly as strong as the broker is conclusive.  For each way
  an entry call can leave something behind that the cell reads as "rejected", one run in which the
  leader terminalizes the attempt as verified empty while the follower's account still holds it.
*/
module PairLimits {
  import opened Prelude
  import opened PairState
  import opened PairWorker
  import opened PairDiscipline
  import opened PairTruth
  import opened PairEvolution
  import opened PairNetwork
  import opened PairSafety
  import opened PairPaths
  import J = EffectJournal

  // ---- runs, piece by piece --------------------------------------------------------------------

  ghost predicate Reachable(cfg: Config, g: World) {
    exists acts :: Run(cfg, Start, acts) == g
  }

  lemma StartIsReachable(cfg: Config)
    ensures Reachable(cfg, Start)
  {
    assert Run(cfg, Start, []) == Start;
  }

  lemma Extend(cfg: Config, g: World, a: Action)
    requires Reachable(cfg, g)
    ensures Reachable(cfg, Step(cfg, g, a))
  {
    var acts :| Run(cfg, Start, acts) == g;
    RunAppend(cfg, Start, acts, [a]);
    assert Run(cfg, g, [a]) == Run(cfg, Step(cfg, g, a), []);
    assert Run(cfg, Start, acts + [a]) == Step(cfg, g, a);
  }

  /** A Worker's handler runs on: a path of its own steps is a run of the pair. */
  lemma {:induction false} Settles(cfg: Config, g: World, r: Role, cs: seq<Choice>)
    requires Reachable(cfg, g)
    ensures Reachable(cfg, Stepping(g, r, Settle(cfg, r, Stepped(Member(g, r), []), cs)))
    decreases |cs|
  {
    hide Reachable, AdvanceStep;
    if cs == [] {
      assert Stepping(g, r, Stepped(Member(g, r), [])) == g;
    } else {
      var init, c := cs[..|cs| - 1], cs[|cs| - 1];
      Settles(cfg, g, r, init);
      var s := Settle(cfg, r, Stepped(Member(g, r), []), init);
      var g1 := Stepping(g, r, s);
      Extend(cfg, g1, Act(r, Advance(c)));
      var t := AdvanceStep(cfg, r, s.w, c);
      assert Inbox(g, Other(r)) + s.out + t.out == Inbox(g, Other(r)) + (s.out + t.out);
      assert Step(cfg, g1, Act(r, Advance(c))) == Stepping(g, r, Stepped(t.w, s.out + t.out));
    }
  }

  /** ... and so is a path that is known to lead there and say this. */
  lemma Goes(cfg: Config, g: World, r: Role, cs: seq<Choice>, s: Stepped) returns (g': World)
    requires Reachable(cfg, g) && Settle(cfg, r, Stepped(Member(g, r), []), cs) == s
    ensures Reachable(cfg, g') && g' == Stepping(g, r, s)
  {
    Settles(cfg, g, r, cs);
    g' := Stepping(g, r, s);
  }

  /** What is queued behind may be lost. */
  lemma {:induction false} DropAll(cfg: Config, g: World, r: Role) returns (g': World)
    requires Reachable(cfg, g)
    ensures Reachable(cfg, g') && g' == WithInbox(g, r, [])
    decreases |Inbox(g, r)|
  {
    hide Reachable;
    g' := g;
    if Inbox(g, r) != [] {
      Extend(cfg, g, Drop(r));
      g' := DropAll(cfg, WithInbox(g, r, Inbox(g, r)[1..]), r);
    }
  }

  /** A Worker between handlers begins a snapshot. */
  lemma Looks(cfg: Config, g: World, r: Role) returns (g': World)
    requires Reachable(cfg, g) && IdleWith(Member(g, r))
    ensures Reachable(cfg, g') && g' == Stepping(g, r, Quiet(WithPc(Member(g, r), Looking(Positions(Member(g, r).broker.holdings)))))
  {
    hide Reachable;
    Extend(cfg, g, Act(r, ReadPositions));
    g' := Step(cfg, g, Act(r, ReadPositions));
  }

  /** What a step that says nothing leaves in the channels. */
  lemma SaysNothing(g: World, r: Role, w: Worker, says: seq<Msg>, w': Worker)
    ensures Stepping(Stepping(g, r, Stepped(w, [])), r, Stepped(w', says)) == Stepping(g, r, Stepped(w', says))
  {
    assert Inbox(g, Other(r)) + [] == Inbox(g, Other(r));
  }

  // ---- entry, from the attempt row to the write ------------------------------------------------

  /** The Worker at its own broker write: leg row, prepared effect and timer are there; the leader's relay is sent. */
  function Dispatched(cfg: Config, r: Role, w: Worker, att: Attempt): Worker
    requires w.mem.Up?
  {
    w.(db := w.db.(legs := w.db.legs[att.id := Leg(Pending, None, Rough, false, r == Leader, true)],
                   desired := ActiveDesired, confirmed := w.mem.confirmed,
                   journal := w.db.journal[Entry(att.id) := J.Row(EntryPayload(att, r), J.Prepared, None)]),
       mem := w.mem.(desired := ActiveDesired, deadline := Some(w.clock + cfg.timeout), pc := Write(EntryJob, Admit)))
  }

  lemma Prepares(cfg: Config, r: Role, w: Worker, att: Attempt) returns (next: Worker)
    requires w.mem.Up? && w.mem.pc == NewRow && w.mem.attempt == Some(att) && Entry(att.id) !in w.db.journal
    ensures next == Dispatched(cfg, r, w, att).(db := Dispatched(cfg, r, w, att).db.(legs := w.db.legs[att.id := NewLeg]),
                                                mem := Dispatched(cfg, r, w, att).mem.(pc := if r == Leader then TimerArmed else RelaySent))
    ensures Settle(cfg, r, Stepped(w, []), Steps(4)) == Stepped(next, [])
  {
    hide Then, Settle;
    var s0 := Stepped(w, []);
    var s1 := Stepped(StepNewRow(w), []);
    var s2 := Stepped(StepDesiredSaved(s1.w, att.id), []);
    var s3 := Stepped(StepLegSaved(r, s2.w, att), []);
    next := StepEffectPrepared(cfg, r, s3.w);
    NoStep(cfg, r, s0);
    EntryStepIs(cfg, r, s0, att, Proceed);
    Onto(cfg, r, s0, Steps(0), s0, Proceed, s1);
    StepsOneMore(0);
    EntryStepIs(cfg, r, s1, att, Proceed);
    Onto(cfg, r, s0, Steps(1), s1, Proceed, s2);
    StepsOneMore(1);
    EntryStepIs(cfg, r, s2, att, Proceed);
    Onto(cfg, r, s0, Steps(2), s2, Proceed, s3);
    StepsOneMore(2);
    EntryStepIs(cfg, r, s3, att, Proceed);
    Onto(cfg, r, s0, Steps(3), s3, Proceed, Stepped(next, []));
    StepsOneMore(3);
  }

  lemma NoStep(cfg: Config, r: Role, s: Stepped)
    ensures Settle(cfg, r, s, Steps(0)) == s && Settle(cfg, r, s, []) == s
  {
  }

  /** The leader's relay intent and its envelope. */
  lemma Relays(cfg: Config, s0: Stepped, w: Worker, att: Attempt) returns (next: Worker)
    requires w.mem.Up? && w.mem.pc == TimerArmed && w.mem.attempt == Some(att) && att.id in w.db.legs
    requires Settle(cfg, Leader, s0, Steps(4)) == Stepped(w, [])
    ensures next == WithPc(StepTimerArmed(w, att.id), RelaySent)
    ensures Settle(cfg, Leader, s0, Steps(6)) == Stepped(next, [AttemptMsg(att)])
  {
    hide Then, Settle;
    var s5 := Stepped(StepTimerArmed(w, att.id), []);
    next := WithPc(s5.w, RelaySent);
    EntryStepIs(cfg, Leader, Stepped(w, []), att, Proceed);
    Onto(cfg, Leader, s0, Steps(4), Stepped(w, []), Proceed, s5);
    StepsOneMore(4);
    EntryStepIs(cfg, Leader, s5, att, Proceed);
    Onto(cfg, Leader, s0, Steps(5), s5, Proceed, Stepped(next, [AttemptMsg(att)]));
    StepsOneMore(5);
  }

  lemma Dispatches(cfg: Config, r: Role, w: Worker, att: Attempt)
    requires w.mem.Up? && w.mem.pc == NewRow && w.mem.attempt == Some(att) && Entry(att.id) !in w.db.journal
    ensures Settle(cfg, r, Stepped(w, []), Steps(if r == Leader then 7 else 5))
         == Stepped(Dispatched(cfg, r, w, att), if r == Leader then [AttemptMsg(att)] else [])
  {
    hide Then, Settle;
    var s0 := Stepped(w, []);
    var ready := Prepares(cfg, r, w, att);
    var n, s := 4, Stepped(ready, []);
    if r == Leader {
      ready := Relays(cfg, s0, ready, att);
      n, s := 6, Stepped(ready, [AttemptMsg(att)]);
    }
    assert StepRelaySent(s.w, att.id) == Dispatched(cfg, r, w, att);
    hide Dispatched;
    LastStep(cfg, r, s0, n, s, att);
  }

  lemma LastStep(cfg: Config, r: Role, s0: Stepped, n: nat, s: Stepped, att: Attempt)
    requires s.w.mem.Up? && s.w.mem.pc == RelaySent && s.w.mem.attempt == Some(att) && att.id in s.w.db.legs
    requires Settle(cfg, r, s0, Steps(n)) == s
    ensures Settle(cfg, r, s0, Steps(n + 1)) == Stepped(StepRelaySent(s.w, att.id), s.out)
  {
    hide Then, Settle;
    EntryStepIs(cfg, r, s, att, Proceed);
    assert s.out + [] == s.out;
    Onto(cfg, r, s0, Steps(n), s, Proceed, Stepped(StepRelaySent(s.w, att.id), s.out));
    StepsOneMore(n);
  }

  /** The leader creates a fresh attempt and relays it. */
  lemma LeaderRelays(cfg: Config, g: World, att: Attempt) returns (g': World)
    requires Reachable(cfg, g) && CreateAttempt(Leader, g.leader, att) != g.leader
    requires att.id !in g.issued && Entry(att.id) !in g.leader.db.journal
    ensures Reachable(cfg, g') && g'.follower == g.follower && g'.toLeader == g.toLeader && g'.toFollower == g.toFollower + [AttemptMsg(att)]
    ensures g'.issued == g.issued + {att.id}
    ensures g'.leader == Dispatched(cfg, Leader, AdoptAttempt(g.leader, att), att)
  {
    hide Settle, Dispatched, Reachable;
    Extend(cfg, g, Act(Leader, Create(att)));
    var g1 := Step(cfg, g, Act(Leader, Create(att)));
    assert g1.leader == AdoptAttempt(g.leader, att) && g1.toFollower == g.toFollower + [];
    Dispatches(cfg, Leader, g1.leader, att);
    g' := Goes(cfg, g1, Leader, Steps(7), Stepped(Dispatched(cfg, Leader, g1.leader, att), [AttemptMsg(att)]));
  }

  /** The follower admits the attempt at the head of its inbox. */
  lemma FollowerAdmits(cfg: Config, g: World, att: Attempt) returns (g': World)
    requires Reachable(cfg, g) && g.toFollower != [] && g.toFollower[0] == AttemptMsg(att) && CanReceive(g.follower)
    requires att.id !in g.follower.db.attempts && g.follower.mem.attempt.None? && !g.follower.db.needsHuman && AccountFlat(g.follower)
    requires Entry(att.id) !in g.follower.db.journal
    ensures Reachable(cfg, g') && g'.leader == g.leader && g'.toLeader == g.toLeader && g'.toFollower == g.toFollower[1..] && g'.issued == g.issued
    ensures g'.follower == Dispatched(cfg, Follower, AdoptAttempt(g.follower, att), att)
  {
    hide Settle, Dispatched, Reachable;
    var admit := Deliver(Follower, false, Reading(true, 0, 0));
    Extend(cfg, g, admit);
    var g1 := Step(cfg, g, admit);
    assert g1.follower == AdoptAttempt(g.follower, att) && g1.toLeader == g.toLeader + [];
    Dispatches(cfg, Follower, g1.follower, att);
    g' := Goes(cfg, g1, Follower, Steps(5), Stepped(Dispatched(cfg, Follower, g1.follower, att), []));
    assert g.toLeader + [] == g.toLeader;
  }

  // ---- an entry that never starts --------------------------------------------------------------

  /** A Worker about to write its entry; the effect is prepared and nothing was sent. */
  predicate Writing(w: Worker, att: Attempt) {
    && w.mem.Up? && w.mem.attempt == Some(att) && w.mem.pc == Write(EntryJob, Admit) && att.id in w.db.legs
    && Entry(att.id) in w.db.journal && w.db.journal[Entry(att.id)].state == J.Prepared
    && w.mem.desired == ActiveDesired
  }

  /** The same Worker after a negative outcome was recorded, reported, announced and closed. */
  function Ended(w: Worker, id: nat, status: EntryStatus): Worker
    requires w.mem.Up? && id in w.db.legs
  {
    WithPc(BeginClose(PutLeg(w, id, w.db.legs[id].(entryStatus := status))), Idle)
  }

  /** Report and notice, then the close. */
  lemma Announces(cfg: Config, r: Role, s0: Stepped, cs: seq<Choice>, w: Worker, att: Attempt, status: LegStatus)
    requires w.mem.Up? && w.mem.attempt == Some(att) && att.id in w.db.legs && w.mem.pc == Reporting(status, true, true)
    requires Settle(cfg, r, s0, cs) == Stepped(w, [])
    ensures Settle(cfg, r, s0, cs + [Proceed] + [Proceed]) == Stepped(WithPc(BeginClose(w), Idle), [LegStatusMsg(att.id, status), FailedMsg(att.id)])
  {
    hide Then, Settle;
    var says := [LegStatusMsg(att.id, status), FailedMsg(att.id)];
    assert [] + says == says && says + [] == says;
    RestStepIs(cfg, r, Stepped(w, []), att, Proceed);
    Onto(cfg, r, s0, cs, Stepped(w, []), Proceed, Stepped(WithPc(w, Closing), says));
    RestStepIs(cfg, r, Stepped(WithPc(w, Closing), says), att, Proceed);
    Onto(cfg, r, s0, cs + [Proceed], Stepped(WithPc(w, Closing), says), Proceed, Stepped(WithPc(BeginClose(w), Idle), says));
  }

  /** The last steps of a negative entry: the leg, report and notice, the close. */
  lemma Ends(cfg: Config, r: Role, s0: Stepped, cs: seq<Choice>, w: Worker, att: Attempt, result: WriteResult)
    requires w.mem.Up? && w.mem.attempt == Some(att) && att.id in w.db.legs && result in {NeverStarted, RejectedByBroker}
    requires w.mem.pc == Write(EntryJob, Done(result)) && Settle(cfg, r, s0, cs) == Stepped(w, [])
    ensures var (leg, pc) := EntryOutcome(w.db.legs[att.id], result);
            Settle(cfg, r, s0, cs + Steps(3)) == Stepped(Ended(w, att.id, leg.entryStatus), [LegStatusMsg(att.id, pc.status), FailedMsg(att.id)])
  {
    hide Then, Settle;
    var (leg, pc) := EntryOutcome(w.db.legs[att.id], result);
    var w1 := WithPc(PutLeg(w, att.id, leg), pc);
    WriteStepIs(cfg, r, Stepped(w, []), att, EntryJob, Done(result), Proceed);
    Onto(cfg, r, s0, cs, Stepped(w, []), Proceed, Stepped(w1, []));
    Announces(cfg, r, s0, cs + [Proceed], w1, att, pc.status);
    assert cs + Steps(3) == cs + [Proceed] + [Proceed] + [Proceed];
  }

  function NotStartedRow(w: Worker, id: nat): Worker {
    Observe(w, Entry(id), NotStarted)
  }

  lemma NeverStarts(cfg: Config, g: World, r: Role, att: Attempt) returns (g': World)
    requires Reachable(cfg, g) && Writing(Member(g, r), att)
    ensures Reachable(cfg, g')
    ensures g' == Stepping(g, r, Stepped(Ended(NotStartedRow(Member(g, r), att.id), att.id, ExpiredNotStarted), [LegStatusMsg(att.id, StExpired), FailedMsg(att.id)]))
  {
    hide Then, Settle, Reachable;
    var w := Member(g, r);
    var c := Schedule(Refuse(NeverStarted));
    var w1 := WithPc(NotStartedRow(w, att.id), Write(EntryJob, Done(NeverStarted)));
    NoStep(cfg, r, Stepped(w, []));
    WriteStepIs(cfg, r, Stepped(w, []), att, EntryJob, Admit, c);
    Onto(cfg, r, Stepped(w, []), [], Stepped(w, []), c, Stepped(w1, []));
    Ends(cfg, r, Stepped(w, []), [] + [c], w1, att, NeverStarted);
    assert Ended(w1, att.id, ExpiredNotStarted) == Ended(NotStartedRow(w, att.id), att.id, ExpiredNotStarted);
    g' := Goes(cfg, g, r, [] + [c] + Steps(3), Stepped(Ended(NotStartedRow(w, att.id), att.id, ExpiredNotStarted), [LegStatusMsg(att.id, StExpired), FailedMsg(att.id)]));
  }

  // ---- the leader verifies its own leg empty and calls the pair empty ----------------------------

  /** A Worker that closes a leg with no ticket, on a flat account. */
  predicate Closable(w: Worker, att: Attempt) {
    && w.mem.Up? && w.mem.attempt == Some(att) && w.mem.pc == Idle && att.id in w.db.legs && w.broker.holdings == map[]
    && w.mem.desired == EmptyDesired
    && w.db.legs[att.id].entryStatus !in {Sent, UnknownAfterSend} && w.db.legs[att.id].ticket.None? && !w.db.legs[att.id].emptyVerified
  }

  function WithEmptyLeg(w: Worker, id: nat): Worker
    requires id in w.db.legs
  {
    PutLeg(w, id, w.db.legs[id].(emptyVerified := true))
  }

  /** On a flat account the snapshot changes nothing until it converges. */
  lemma AttributesNothing(cfg: Config, r: Role, w: Worker, att: Attempt)
    requires Closable(w, att)
    ensures var none: Holdings := map[];
            Settle(cfg, r, Stepped(WithPc(w, Looking(none)), []), [Proceed, Peek]) == Stepped(WithPc(w, Attributed(none, none, NoChange)), [])
  {
    hide Then, Settle;
    var none: Holdings := map[];
    var s0 := Stepped(WithPc(w, Looking(none)), []);
    var s1 := Stepped(WithPc(w, Seen(none, none)), []);
    NoStep(cfg, r, s0);
    assert Orders(none) == none && w.db.legs[att.id := w.db.legs[att.id]] == w.db.legs;
    SnapshotStepIs(cfg, r, s0, att, Proceed);
    Onto(cfg, r, s0, [], s0, Proceed, s1);
    SnapshotStepIs(cfg, r, s1, att, Peek);
    Onto(cfg, r, s0, [] + [Proceed], s1, Peek, Stepped(WithPc(w, Attributed(none, none, NoChange)), []));
    assert [Proceed, Peek] == [] + [Proceed] + [Peek];
  }

  lemma SeesNothing(cfg: Config, r: Role, w: Worker, att: Attempt)
    requires Closable(w, att)
    ensures var none: Holdings := map[];
            Settle(cfg, r, Stepped(WithPc(w, Looking(none)), []), [Proceed, Peek, Proceed, Proceed, Peek]) == Stepped(WithPc(w, Converging(none, none)), [])
  {
    hide Then, Settle;
    var none: Holdings := map[];
    var s0 := Stepped(WithPc(w, Looking(none)), []);
    var s2 := Stepped(WithPc(w, Attributed(none, none, NoChange)), []);
    var s3 := Stepped(WithPc(w, Recorded(none, none, NoChange)), []);
    var s4 := Stepped(WithPc(w, Observing(none, none, NoChange)), []);
    AttributesNothing(cfg, r, w, att);
    SnapshotStepIs(cfg, r, s2, att, Proceed);
    Onto(cfg, r, s0, [Proceed, Peek], s2, Proceed, s3);
    SnapshotStepIs(cfg, r, s3, att, Proceed);
    Onto(cfg, r, s0, [Proceed, Peek] + [Proceed], s3, Proceed, s4);
    SnapshotStepIs(cfg, r, s4, att, Peek);
    Onto(cfg, r, s0, [Proceed, Peek] + [Proceed] + [Proceed], s4, Peek, Stepped(WithPc(w, Converging(none, none)), []));
    assert [Proceed, Peek, Proceed, Proceed, Peek] == [Proceed, Peek] + [Proceed] + [Proceed] + [Peek];
  }

  const Peek := Pick(0, false)

  lemma Empties(cfg: Config, g: World, r: Role, att: Attempt) returns (g': World)
    requires Reachable(cfg, g) && Closable(Member(g, r), att)
    ensures Reachable(cfg, g') && g' == Stepping(g, r, Stepped(WithEmptyLeg(Member(g, r), att.id), [LegStatusMsg(att.id, StEmpty)]))
  {
    hide Then, Settle, Reachable;
    var w := Member(g, r);
    var none: Holdings := map[];
    assert Positions(none) == none;
    var g1 := Looks(cfg, g, r);
    SeesNothing(cfg, r, w, att);
    Verifies(cfg, r, Stepped(WithPc(w, Looking(none)), []), [Proceed, Peek, Proceed, Proceed, Peek], w, att);
    hide Closable, WithEmptyLeg;
    g' := Goes(cfg, g1, r, [Proceed, Peek, Proceed, Proceed, Peek] + [Peek] + [Proceed], Stepped(WithEmptyLeg(w, att.id), [LegStatusMsg(att.id, StEmpty)]));
    SaysNothing(g, r, WithPc(w, Looking(none)), [LegStatusMsg(att.id, StEmpty)], WithEmptyLeg(w, att.id));
  }

  /** On a flat account convergence records the empty leg and reports it. */
  lemma Verifies(cfg: Config, r: Role, s0: Stepped, cs: seq<Choice>, w: Worker, att: Attempt)
    requires Closable(w, att) && Settle(cfg, r, s0, cs) == Stepped(WithPc(w, Converging(map[], map[])), [])
    ensures Settle(cfg, r, s0, cs + [Peek] + [Proceed]) == Stepped(WithEmptyLeg(w, att.id), [LegStatusMsg(att.id, StEmpty)])
  {
    hide Then, Settle;
    var s5 := Stepped(WithPc(w, Converging(map[], map[])), []);
    var s6 := Stepped(WithPc(WithEmptyLeg(w, att.id), Reporting(StEmpty, false, false)), []);
    SnapshotStepIs(cfg, r, s5, att, Peek);
    Onto(cfg, r, s0, cs, s5, Peek, s6);
    RestStepIs(cfg, r, s6, att, Proceed);
    Onto(cfg, r, s0, cs + [Peek], s6, Proceed, Stepped(WithEmptyLeg(w, att.id), [LegStatusMsg(att.id, StEmpty)]));
  }

  /** A leader that is done with its own leg. */
  predicate DoneLeader(w: Worker, id: nat) {
    && IdleWith(w) && w.mem.attempt.value.id == id && id in w.db.attempts && w.db.legs[id].emptyVerified && w.mem.desired == EmptyDesired
  }

  function Told(w: Worker, id: nat, s: LegStatus): Worker
    requires w.mem.Up?
  {
    w.(db := w.db.(peerLegs := w.db.peerLegs[id := s]), mem := w.mem.(peer := s))
  }

  /** It hears a final status of the follower. */
  lemma LeaderHears(cfg: Config, g: World, id: nat, s: LegStatus) returns (g': World)
    requires Reachable(cfg, g) && DoneLeader(g.leader, id)
    requires g.toLeader != [] && g.toLeader[0] == LegStatusMsg(id, s) && s in {StRejected, StExpired}
    ensures Reachable(cfg, g') && g' == g.(leader := Told(g.leader, id, s), toLeader := g.toLeader[1..])
  {
    hide Reachable, Then, Settle;
    var hear := Deliver(Leader, false, Reading(false, 0, 0));
    Extend(cfg, g, hear);
    var noted := WithPc(Told(g.leader, id, s), PeerNoted(CloseFollow));
    var g1 := Step(cfg, g, hear);
    assert g.toFollower + [] == g.toFollower;
    assert g1 == g.(leader := noted, toLeader := g.toLeader[1..]);
    RestStepIs(cfg, Leader, Stepped(noted, []), g.leader.mem.attempt.value, Proceed);
    NoStep(cfg, Leader, Stepped(noted, []));
    Onto(cfg, Leader, Stepped(noted, []), [], Stepped(noted, []), Proceed, Stepped(Told(g.leader, id, s), []));
    g' := Goes(cfg, g1, Leader, [] + [Proceed], Stepped(Told(g.leader, id, s), []));
  }

  /** ... calls the pair empty and is free for the next attempt. */
  lemma LeaderFinishes(cfg: Config, g: World, id: nat, s: LegStatus) returns (g': World)
    requires Reachable(cfg, g) && DoneLeader(g.leader, id)
    requires g.toLeader != [] && g.toLeader[0] == LegStatusMsg(id, s) && s in {StRejected, StExpired}
    ensures Reachable(cfg, g') && VerifiedAt(g', Leader, id)
    ensures g' == g.(leader := StepResetting(WithPc(Terminate(Told(g.leader, id, s), id, BothEmptyVerified), Resetting)), toLeader := g.toLeader[1..])
  {
    hide Reachable, Then, Settle;
    var g1 := LeaderHears(cfg, g, id, s);
    Finalizes(g.leader, id, s);
    hide Told, FinalizeStep, DoneLeader, Terminate;
    var g2 := FinalizesNow(cfg, g1);
    g' := Resets(cfg, g2);
  }

  lemma FinalizesNow(cfg: Config, g: World) returns (g': World)
    requires Reachable(cfg, g)
    ensures Reachable(cfg, g') && g' == g.(leader := FinalizeStep(Leader, g.leader))
  {
    hide Reachable, FinalizeStep;
    Extend(cfg, g, Act(Leader, Finalize));
    g' := Step(cfg, g, Act(Leader, Finalize));
    assert g.toFollower + [] == g.toFollower;
  }

  lemma Finalizes(w: Worker, id: nat, s: LegStatus)
    requires DoneLeader(w, id) && IsTerminalStatus(s)
    ensures id in Told(w, id, s).db.attempts
    ensures FinalizeStep(Leader, Told(w, id, s)) == WithPc(Terminate(Told(w, id, s), id, BothEmptyVerified), Resetting)
    ensures VerifiedIn(StepResetting(WithPc(Terminate(Told(w, id, s), id, BothEmptyVerified), Resetting)), id)
  {
  }

  predicate VerifiedIn(w: Worker, id: nat) {
    id in w.db.attempts && w.db.attempts[id].terminal == Some(BothEmptyVerified)
  }

  lemma Resets(cfg: Config, g: World) returns (g': World)
    requires Reachable(cfg, g) && g.leader.mem.Up? && g.leader.mem.pc == Resetting
    ensures Reachable(cfg, g') && g' == g.(leader := StepResetting(g.leader))
  {
    hide Reachable, Then, Settle;
    var s := Stepped(g.leader, []);
    NoStep(cfg, Leader, s);
    RestartStepIs(cfg, Leader, s, Proceed);
    Onto(cfg, Leader, s, [], s, Proceed, Stepped(StepResetting(g.leader), []));
    g' := Goes(cfg, g, Leader, [] + [Proceed], Stepped(StepResetting(g.leader), []));
    assert g.toFollower + [] == g.toFollower;
  }

  // ---- the follower sends, and the broker leaves something behind ----------------------------------

  /** The account once the entry call left `x` behind. */
  function Left(w: Worker, att: Attempt, x: Exposure): Broker {
    CallBroker(w.broker, Entry(att.id), EntryPayload(att, Follower), x, false)
  }

  function Crossed(w: Worker, id: nat): Worker
    requires Entry(id) in w.db.journal
  {
    PutJournal(w, w.db.journal[Entry(id) := w.db.journal[Entry(id)].(state := J.SendStarted, evidence := None)])
  }

  /** The call itself. */
  lemma Calls(cfg: Config, w: Worker, att: Attempt, reply: Reply, x: Exposure)
    requires Writing(w, att) && EntryAnswer(cfg, att.lots, reply, x)
    ensures var cs := [Schedule(Grant), Proceed, Outcome(reply, x, false)];
            Settle(cfg, Follower, Stepped(w, []), cs) == Stepped(WithPc(Crossed(w, att.id).(broker := Left(w, att, x)), Write(EntryJob, Returned(reply))), [])
  {
    hide Then, Settle, CallBroker;
    var s0 := Stepped(w, []);
    var s1 := Stepped(WithPc(w, Write(EntryJob, Granted)), []);
    var s2 := Stepped(WithPc(Crossed(w, att.id), Write(EntryJob, Started)), []);
    NoStep(cfg, Follower, s0);
    WriteStepIs(cfg, Follower, s0, att, EntryJob, Admit, Schedule(Grant));
    Onto(cfg, Follower, s0, [], s0, Schedule(Grant), s1);
    WriteStepIs(cfg, Follower, s1, att, EntryJob, Granted, Proceed);
    Onto(cfg, Follower, s0, [] + [Schedule(Grant)], s1, Proceed, s2);
    WriteStepIs(cfg, Follower, s2, att, EntryJob, Started, Outcome(reply, x, false));
    Onto(cfg, Follower, s0, [] + [Schedule(Grant)] + [Proceed], s2, Outcome(reply, x, false),
         Stepped(WithPc(Crossed(w, att.id).(broker := Left(w, att, x)), Write(EntryJob, Returned(reply))), []));
    assert [Schedule(Grant), Proceed, Outcome(reply, x, false)] == [] + [Schedule(Grant)] + [Proceed] + [Outcome(reply, x, false)];
  }

  /** Either way the follower says "rejected" while its account holds something of the attempt. */
  ghost predicate Misread(g: World, g': World, id: nat) {
    && g'.leader == g.leader && g'.toFollower == g.toFollower && g'.issued == g.issued
    && g'.toLeader == g.toLeader + [LegStatusMsg(id, StRejected), FailedMsg(id)]
    && !Unexposed(g'.follower, id)
    && g'.follower.db.attempts == g.follower.db.attempts && g'.follower.db.latest == g.follower.db.latest
    && id in g'.follower.db.legs && g'.follower.db.legs[id].entryStatus == Rejected
  }

  lemma LeftIsExposure(w: Worker, att: Attempt, x: Exposure)
    requires x != NoExposure
    ensures exists t :: t in Left(w, att, x).holdings && Left(w, att, x).holdings[t].attempt == att.id
  {
    assert w.broker.nextTicket in Left(w, att, x).holdings;
  }

  /** A non-success receipt that comes with exposure. */
  lemma RefusedButHeld(cfg: Config, g: World, att: Attempt, x: Exposure) returns (g': World)
    requires Reachable(cfg, g) && Writing(g.follower, att) && x != NoExposure && EntryAnswer(cfg, att.lots, Answered(false), x)
    ensures Reachable(cfg, g') && Misread(g, g', att.id)
  {
    hide Then, Settle, Reachable, CallBroker;
    var w := g.follower;
    var cs := [Schedule(Grant), Proceed, Outcome(Answered(false), x, false)];
    Calls(cfg, w, att, Answered(false), x);
    var called := Crossed(w, att.id).(broker := Left(w, att, x));
    var s3 := Stepped(WithPc(called, Write(EntryJob, Returned(Answered(false)))), []);
    WriteStepIs(cfg, Follower, s3, att, EntryJob, Returned(Answered(false)), Proceed);
    var j := J.Complete(called.db.journal, Entry(att.id), J.HasReceipt, Receipt(false)).value;
    var w4 := WithPc(PutJournal(called, j), Write(EntryJob, Done(RejectedByBroker)));
    Onto(cfg, Follower, Stepped(w, []), cs, s3, Proceed, Stepped(w4, []));
    Ends(cfg, Follower, Stepped(w, []), cs + [Proceed], w4, att, RejectedByBroker);
    g' := Goes(cfg, g, Follower, cs + [Proceed] + Steps(3), Stepped(Ended(w4, att.id, Rejected), [LegStatusMsg(att.id, StRejected), FailedMsg(att.id)]));
    LeftIsExposure(w, att, x);
  }

  /** No receipt: the leg is unknown, and the handler ends. */
  lemma NoReceiptYet(cfg: Config, g: World, att: Attempt, x: Exposure) returns (g': World)
    requires Reachable(cfg, g) && Writing(g.follower, att) && EntryAnswer(cfg, att.lots, NoReceipt, x)
    ensures Reachable(cfg, g')
    ensures var w := Crossed(g.follower, att.id).(broker := Left(g.follower, att, x));
            g' == Stepping(g, Follower, Quiet(WithPc(PutLeg(w, att.id, w.db.legs[att.id].(entryStatus := UnknownAfterSend)), Idle)))
  {
    hide Then, Settle, Reachable, CallBroker;
    var cs := [Schedule(Grant), Proceed, Outcome(NoReceipt, x, false)];
    Calls(cfg, g.follower, att, NoReceipt, x);
    var w := Crossed(g.follower, att.id).(broker := Left(g.follower, att, x));
    var s0 := Stepped(g.follower, []);
    var s3 := Stepped(WithPc(w, Write(EntryJob, Returned(NoReceipt))), []);
    var s4 := Stepped(WithPc(w, Write(EntryJob, Done(Unclear))), []);
    var s5 := Stepped(WithPc(PutLeg(w, att.id, w.db.legs[att.id].(entryStatus := UnknownAfterSend)), Idle), []);
    WriteStepIs(cfg, Follower, s3, att, EntryJob, Returned(NoReceipt), Proceed);
    Onto(cfg, Follower, s0, cs, s3, Proceed, s4);
    WriteStepIs(cfg, Follower, s4, att, EntryJob, Done(Unclear), Proceed);
    Onto(cfg, Follower, s0, cs + [Proceed], s4, Proceed, s5);
    g' := Goes(cfg, g, Follower, cs + [Proceed] + [Proceed], s5);
  }

  /** A snapshot that shows no exact match resolves an unknown entry as rejected. */
  lemma LooksAndRejects(cfg: Config, g: World, att: Attempt) returns (g': World)
    requires Reachable(cfg, g) && IdleWith(g.follower) && g.follower.mem.attempt == Some(att)
    requires g.follower.db.legs[att.id].entryStatus == UnknownAfterSend && Matches(Positions(g.follower.broker.holdings), att, Follower) == {}
    ensures Reachable(cfg, g')
    ensures var rejected := PutLeg(g.follower, att.id, g.follower.db.legs[att.id].(entryStatus := Rejected));
            var h := g.follower.broker.holdings;
            g' == Stepping(g, Follower, Stepped(WithPc(Observe(rejected, Entry(att.id), AbsenceSeen), Observing(Positions(h), Orders(h), SeenAbsent)),
                                                [LegStatusMsg(att.id, StRejected), FailedMsg(att.id)]))
  {
    hide Settle, Reachable, Matches, Positions, Orders;
    var w := g.follower;
    var ps, os := Positions(w.broker.holdings), Orders(w.broker.holdings);
    var g1 := Looks(cfg, g, Follower);
    ReadsAsAbsent(cfg, w, att, ps, os);
    var last := WithPc(Observe(PutLeg(w, att.id, w.db.legs[att.id].(entryStatus := Rejected)), Entry(att.id), AbsenceSeen), Observing(ps, os, SeenAbsent));
    var says := [LegStatusMsg(att.id, StRejected), FailedMsg(att.id)];
    hide Observe;
    g' := Goes(cfg, g1, Follower, [Proceed, Peek, Proceed, Proceed], Stepped(last, says));
    SaysNothing(g, Follower, WithPc(w, Looking(ps)), says, last);
  }

  lemma NoExactMatchLeft(w: Worker, att: Attempt, x: Exposure)
    requires w.broker.holdings == map[] && (x.RestingOrder? || (x.PartialPosition? && x.volume != att.lots))
    ensures Matches(Positions(Left(w, att, x).holdings), att, Follower) == {}
  {
  }

  /** No receipt, and exposure no exact match can find: the snapshot reads as absent. */
  lemma UnseenButHeld(cfg: Config, g: World, att: Attempt, x: Exposure) returns (g': World)
    requires Reachable(cfg, g) && Writing(g.follower, att) && g.follower.broker.holdings == map[]
    requires (x.RestingOrder? || (x.PartialPosition? && x.volume != att.lots)) && EntryAnswer(cfg, att.lots, NoReceipt, x)
    ensures Reachable(cfg, g') && Misread(g, g', att.id)
  {
    hide Reachable, CallBroker, Matches, Positions, Orders;
    LeftIsExposure(g.follower, att, x);
    NoExactMatchLeft(g.follower, att, x);
    var g1 := NoReceiptYet(cfg, g, att, x);
    assert g1.toLeader == g.toLeader + [];
    g' := LooksAndRejects(cfg, g1, att);
    assert g.toLeader + [] == g.toLeader;
  }

  lemma AttributesAbsence(cfg: Config, w: Worker, att: Attempt, ps: Holdings, os: Holdings)
    requires w.mem.Up? && w.mem.attempt == Some(att) && att.id in w.db.legs && w.db.legs[att.id].entryStatus == UnknownAfterSend
    requires Matches(ps, att, Follower) == {} && os == Orders(w.broker.holdings)
    ensures Settle(cfg, Follower, Stepped(WithPc(w, Looking(ps)), []), [Proceed, Peek])
         == Stepped(WithPc(PutLeg(w, att.id, w.db.legs[att.id].(entryStatus := Rejected)), Attributed(ps, os, SeenAbsent)), [])
  {
    hide Then, Settle, Matches;
    var s0 := Stepped(WithPc(w, Looking(ps)), []);
    var s1 := Stepped(WithPc(w, Seen(ps, os)), []);
    NoStep(cfg, Follower, s0);
    SnapshotStepIs(cfg, Follower, s0, att, Proceed);
    Onto(cfg, Follower, s0, [], s0, Proceed, s1);
    SnapshotStepIs(cfg, Follower, s1, att, Peek);
    Onto(cfg, Follower, s0, [] + [Proceed], s1, Peek,
         Stepped(WithPc(PutLeg(w, att.id, w.db.legs[att.id].(entryStatus := Rejected)), Attributed(ps, os, SeenAbsent)), []));
    assert [Proceed, Peek] == [] + [Proceed] + [Peek];
  }

  lemma ReadsAsAbsent(cfg: Config, w: Worker, att: Attempt, ps: Holdings, os: Holdings)
    requires w.mem.Up? && w.mem.attempt == Some(att) && att.id in w.db.legs && w.db.legs[att.id].entryStatus == UnknownAfterSend
    requires Matches(ps, att, Follower) == {} && os == Orders(w.broker.holdings)
    ensures var rejected := PutLeg(w, att.id, w.db.legs[att.id].(entryStatus := Rejected));
            Settle(cfg, Follower, Stepped(WithPc(w, Looking(ps)), []), [Proceed, Peek, Proceed, Proceed])
            == Stepped(WithPc(Observe(rejected, Entry(att.id), AbsenceSeen), Observing(ps, os, SeenAbsent)), [LegStatusMsg(att.id, StRejected), FailedMsg(att.id)])
  {
    hide Then, Settle, Matches;
    AttributesAbsence(cfg, w, att, ps, os);
    var rejected := PutLeg(w, att.id, w.db.legs[att.id].(entryStatus := Rejected));
    ReportsAbsence(cfg, Stepped(WithPc(w, Looking(ps)), []), [Proceed, Peek], rejected, att, ps, os);
    assert [Proceed, Peek, Proceed, Proceed] == [Proceed, Peek] + [Proceed] + [Proceed];
  }

  lemma ReportsAbsence(cfg: Config, s0: Stepped, cs: seq<Choice>, w: Worker, att: Attempt, ps: Holdings, os: Holdings)
    requires w.mem.Up? && w.mem.attempt == Some(att) && att.id in w.db.legs
    requires Settle(cfg, Follower, s0, cs) == Stepped(WithPc(w, Attributed(ps, os, SeenAbsent)), [])
    ensures Settle(cfg, Follower, s0, cs + [Proceed] + [Proceed])
         == Stepped(WithPc(Observe(w, Entry(att.id), AbsenceSeen), Observing(ps, os, SeenAbsent)), [LegStatusMsg(att.id, StRejected), FailedMsg(att.id)])
  {
    hide Then, Settle;
    var s2 := Stepped(WithPc(w, Attributed(ps, os, SeenAbsent)), []);
    var s3 := Stepped(WithPc(Observe(w, Entry(att.id), AbsenceSeen), Recorded(ps, os, SeenAbsent)), []);
    SnapshotStepIs(cfg, Follower, s2, att, Proceed);
    Onto(cfg, Follower, s0, cs, s2, Proceed, s3);
    SnapshotStepIs(cfg, Follower, s3, att, Proceed);
    Onto(cfg, Follower, s0, cs + [Proceed], s3, Proceed,
         Stepped(WithPc(Observe(w, Entry(att.id), AbsenceSeen), Observing(ps, os, SeenAbsent)), [LegStatusMsg(att.id, StRejected), FailedMsg(att.id)]));
  }

  // ---- the runs put together -------------------------------------------------------------------

  const First := Attempt(0, 0, LONG, 2)

  /** The leader has relayed its attempt, never started its own order and verified its own leg empty; the follower
      has admitted the attempt and is about to write. */
  ghost predicate LeaderDone(g: World) {
    && DoneLeader(g.leader, 0) && g.leader.broker.holdings == map[] && !g.leader.db.needsHuman
    && g.leader.db.attempts.Keys == {0} && g.leader.db.journal.Keys == {Entry(0)} && g.issued == {0}
  }

  ghost predicate FollowerWrites(g: World) {
    && Writing(g.follower, First) && g.follower.broker.holdings == map[] && !g.follower.db.needsHuman
    && g.follower.db.attempts == map[0 := AttemptRow(First, None)] && g.follower.db.latest == Some(0)
    && g.follower.db.journal.Keys == {Entry(0)}
  }

  lemma LeaderRun(cfg: Config) returns (g: World)
    ensures Reachable(cfg, g) && LeaderDone(g) && g.follower == FreshWorker && g.toLeader == []
    ensures g.toFollower != [] && g.toFollower[0] == AttemptMsg(First)
  {
    hide Reachable;
    StartIsReachable(cfg);
    var g1 := LeaderRelays(cfg, Start, First);
    assert g1.toFollower == [AttemptMsg(First)];
    var g2 := NeverStarts(cfg, g1, Leader, First);
    FirstLeader(cfg);
    hide Dispatched, Ended, NotStartedRow;
    g := Empties(cfg, g2, Leader, First);
    assert g.leader.db.legs[0].emptyVerified;
  }

  lemma FirstLeader(cfg: Config)
    ensures var w := Ended(NotStartedRow(Dispatched(cfg, Leader, AdoptAttempt(FreshWorker, First), First), 0), 0, ExpiredNotStarted);
            && Closable(w, First) && w.db.attempts.Keys == {0} && w.db.journal.Keys == {Entry(0)} && !w.db.needsHuman
  {
  }

  lemma BothRun(cfg: Config) returns (g: World)
    ensures Reachable(cfg, g) && LeaderDone(g) && FollowerWrites(g) && g.toLeader == [] && g.toFollower == []
  {
    hide Reachable;
    var g1 := LeaderRun(cfg);
    var g2 := FollowerAdmits(cfg, g1, First);
    g := DropAll(cfg, g2, Follower);
  }

  /** A leader free for its next attempt, after this one. */
  predicate FreeLeader(g: World) {
    && g.leader.mem == Up(None, StUnknown, NoDesire, false, 0, None, Idle)
    && g.leader.broker.holdings == map[] && !g.leader.db.needsHuman
    && g.leader.db.attempts.Keys == {0} && g.leader.db.journal.Keys == {Entry(0)} && g.issued == {0}
  }

  /** Once the follower says "rejected" the leader calls the pair empty, whatever the follower holds. */
  lemma LeaderBelieves(cfg: Config, g: World, g': World) returns (bad: World)
    requires Reachable(cfg, g') && LeaderDone(g) && g.toLeader == [] && Misread(g, g', 0)
    ensures Reachable(cfg, bad) && !BothFlat(bad) && bad.follower == g'.follower && bad.toFollower == g'.toFollower
    ensures VerifiedAt(bad, Leader, 0) && FreeLeader(bad)
  {
    hide Reachable;
    bad := LeaderFinishes(cfg, g', 0, StRejected);
    assert VerifiedAt(bad, Leader, 0) && !Unexposed(bad.follower, 0);
  }

  lemma RefusedWithExposure(cfg: Config, x: Exposure)
    requires x != NoExposure && EntryAnswer(cfg, 2, Answered(false), x)
    ensures exists bad :: Reachable(cfg, bad) && !BothFlat(bad)
  {
    hide Reachable, BothFlat;
    var g := BothRun(cfg);
    var g' := RefusedButHeld(cfg, g, First, x);
    var bad := LeaderBelieves(cfg, g, g');
  }

  lemma UnseenExposure(cfg: Config, x: Exposure)
    requires x in {PartialPosition(1), RestingOrder} && EntryAnswer(cfg, 2, NoReceipt, x)
    ensures exists bad :: Reachable(cfg, bad) && !BothFlat(bad)
  {
    hide Reachable, BothFlat;
    var g := BothRun(cfg);
    var g' := UnseenButHeld(cfg, g, First, x);
    var bad := LeaderBelieves(cfg, g, g');
  }

  /** Both-flat safety holds in every run if and only if the broker is conclusive about entries: a
      non-success receipt means no exposure, a fill is never partial, and no order is left resting. */
  lemma BothFlatIffConclusive(cfg: Config)
    ensures (forall acts :: BothFlat(Run(cfg, Start, acts))) <==> cfg.Conclusive()
  {
    hide BothFlat;
    if cfg.Conclusive() {
      forall acts ensures BothFlat(Run(cfg, Start, acts)) { BothFlatInEveryRun(cfg, acts); }
    } else {
      if cfg.exposesOnReject { RefusedWithExposure(cfg, FullPosition); }
      else if cfg.partialFills { UnseenExposure(cfg, PartialPosition(1)); }
      else { UnseenExposure(cfg, RestingOrder); }
      var bad :| Reachable(cfg, bad) && !BothFlat(bad);
      var acts :| Run(cfg, Start, acts) == bad;
      assert !BothFlat(Run(cfg, Start, acts));
    }
  }
}
