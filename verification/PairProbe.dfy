/**
  The proof probe: when one round of it lets a Worker with an empty leg finish its attempt.
*/
module PairProbe {
  import opened Prelude
  import opened PairState
  import opened PairWorker
  import opened PairDiscipline
  import opened PairNetwork
  import opened PairSafety

  /** A Worker between handlers with a verified-empty leg whose peer may still have sent. */
  predicate Probing(r: Role, w: Worker, id: nat) {
    IdleWith(w) && w.mem.attempt.value.id == id && w.db.legs[id].emptyVerified && PeerSendPossible(r, w, id)
  }

  /** What the peer's own records prove about the attempt, checkable at the peer: it is running the attempt
      and its leg reads empty, rejected or never started; or the attempt is over or was never seen here. */
  predicate ProvesNothingOpen(p: Worker, id: nat) {
    if CurrentIs(p, id) then
      id in p.db.legs && var leg := p.db.legs[id];
      leg.emptyVerified || (leg.protection != Precise && leg.entryStatus in {Rejected, ExpiredNotStarted})
    else id in p.db.attempts ==> p.db.attempts[id].terminal.Some?
  }

  /** Probe; the peer takes in the prober's own status and then the request; the answer comes back. */
  function ProbeRound(r: Role): seq<Action> {
    var how := Reading(false, 0, 0);
    [Act(r, Probe), Deliver(Other(r), false, how), Act(Other(r), Advance(Proceed)), Deliver(Other(r), false, how)]
  }

  function AnswerRound(r: Role): seq<Action> {
    [Deliver(r, false, Reading(false, 0, 0)), Act(r, Advance(Proceed)), Act(r, Finalize)]
  }

  /** The peer after it was told that the prober is empty: it wants its own leg empty too. */
  function Told(p: Worker, id: nat): Worker
    requires CanReceive(p)
  {
    var heard := p.(db := p.db.(peerLegs := p.db.peerLegs[id := StEmpty]));
    if CurrentIs(p, id) then WithPc(BeginClose(heard.(mem := heard.mem.(peer := StEmpty))), Idle) else heard
  }

  lemma PeerIsTold(cfg: Config, q: Role, p: Worker, id: nat)
    requires Discipline(q, p) && CanReceive(p)
    ensures var heard := Receive(q, p, LegStatusMsg(id, StEmpty), Reading(false, 0, 0));
            heard.out == [] && AdvanceStep(cfg, q, heard.w, Proceed) == Stepped(Told(p, id), [])
  {
  }

  lemma ToldAnswers(q: Role, p: Worker, id: nat)
    requires Discipline(q, p) && CanReceive(p)
    ensures CanReceive(Told(p, id)) && |Answer(q, Told(p, id), id, true)| <= 1
    ensures ProvesNothingOpen(p, id) <==>
              (Answer(q, Told(p, id), id, true) != [] && Answer(q, Told(p, id), id, true)[0].LegStatusMsg?
               && IsTerminalStatus(Answer(q, Told(p, id), id, true)[0].status))
    ensures Answer(q, Told(p, id), id, true) != [] ==>
              Answer(q, Told(p, id), id, true)[0].LegStatusMsg? && Answer(q, Told(p, id), id, true)[0].id == id
              && Answer(q, Told(p, id), id, true)[0].status != StUnknown
  {
  }

  /** The probe reaches the peer, which takes in the prober's status. */
  lemma ProbeReaches(cfg: Config, g: World, r: Role, id: nat, w': Worker)
    requires Disciplined(g) && Probing(r, Member(g, r), id) && CanReceive(Member(g, Other(r)))
    requires g.toLeader == [] && g.toFollower == []
    requires w' == Member(g, r).(mem := Member(g, r).mem.(probes := Member(g, r).mem.probes + 1))
    ensures var acts := ProbeRound(r);
            var g2 := Step(cfg, Step(cfg, g, acts[0]), acts[1]);
            && Inbox(g2, Other(r)) == [RequestMsg(id)] && Inbox(g2, r) == [] && Member(g2, r) == w'
            && Member(g2, Other(r)) == Receive(Other(r), Member(g, Other(r)), LegStatusMsg(id, StEmpty), Reading(false, 0, 0)).w
  {
    var q := Other(r);
    var acts := ProbeRound(r);
    var g1 := Step(cfg, g, acts[0]);
    assert Inbox(g1, q) == [LegStatusMsg(id, StEmpty), RequestMsg(id)] && Member(g1, r) == w';
    assert Member(g1, q) == Member(g, q) && Inbox(g1, r) == [];
    PeerIsTold(cfg, q, Member(g, q), id);
    hide MoveStep, Discipline, Receive;
    assert Inbox(g1, q)[1..] == [RequestMsg(id)];
    assert Stepping(WithInbox(g1, q, [RequestMsg(id)]), q, Receive(q, Member(g, q), LegStatusMsg(id, StEmpty), Reading(false, 0, 0))) == Step(cfg, g1, acts[1]);
  }

  /** The prober sends; the peer answers from its records. */
  lemma ProbeIsAnswered(cfg: Config, g: World, r: Role, id: nat)
    requires Disciplined(g) && Probing(r, Member(g, r), id) && CanReceive(Member(g, Other(r)))
    requires g.toLeader == [] && g.toFollower == []
    ensures var g' := Run(cfg, g, ProbeRound(r));
            var p := Told(Member(g, Other(r)), id);
            && Member(g', Other(r)) == p && Inbox(g', Other(r)) == []
            && Inbox(g', r) == Answer(Other(r), p, id, true)
            && Member(g', r) == Member(g, r).(mem := Member(g, r).mem.(probes := Member(g, r).mem.probes + 1))
  {
    var q, p := Other(r), Told(Member(g, Other(r)), id);
    var acts := ProbeRound(r);
    RunOfFour(cfg, g, acts);
    ProbeReaches(cfg, g, r, id, Member(g, r).(mem := Member(g, r).mem.(probes := Member(g, r).mem.probes + 1)));
    PeerIsTold(cfg, q, Member(g, q), id);
    ToldAnswers(q, Member(g, q), id);
    var g2 := Step(cfg, Step(cfg, g, acts[0]), acts[1]);
    hide Run, Disciplined, Told, Probing, ProvesNothingOpen;
    PeerAnswers(cfg, g2, q, p, id);
  }

  /** A peer that was told steps over its follow-up and answers the request. */
  lemma PeerAnswers(cfg: Config, g: World, q: Role, p: Worker, id: nat)
    requires Inbox(g, q) == [RequestMsg(id)] && Inbox(g, Other(q)) == [] && CanReceive(p)
    requires AdvanceStep(cfg, q, Member(g, q), Proceed) == Stepped(p, [])
    ensures var g' := Step(cfg, Step(cfg, g, Act(q, Advance(Proceed))), Deliver(q, false, Reading(false, 0, 0)));
            Member(g', q) == p && Inbox(g', q) == [] && Inbox(g', Other(q)) == Answer(q, p, id, true) && Member(g', Other(q)) == Member(g, Other(q))
  {
    hide AdvanceStep;
    var g1 := Step(cfg, g, Act(q, Advance(Proceed)));
    assert Member(g1, q) == p && Inbox(g1, q) == [RequestMsg(id)] && Inbox(g1, Other(q)) == [];
    assert Inbox(g1, q)[1..] == [];
    hide Answer;
  }

  lemma RunOfThree(cfg: Config, g: World, acts: seq<Action>)
    requires |acts| == 3
    ensures Run(cfg, g, acts) == Step(cfg, Step(cfg, Step(cfg, g, acts[0]), acts[1]), acts[2])
  {
    hide Step;
    var g1 := Step(cfg, g, acts[0]);
    var g2 := Step(cfg, g1, acts[1]);
    var two, one := acts[1..], acts[2..];
    assert two[1..] == one && one[1..] == [];
    assert Run(cfg, g, acts) == Run(cfg, g1, two);
    assert Run(cfg, g1, two) == Run(cfg, g2, one);
    assert Run(cfg, g2, one) == Run(cfg, Step(cfg, g2, one[0]), []);
  }

  lemma RunOfFour(cfg: Config, g: World, acts: seq<Action>)
    requires |acts| == 4
    ensures Run(cfg, g, acts) == Step(cfg, Step(cfg, Step(cfg, Step(cfg, g, acts[0]), acts[1]), acts[2]), acts[3])
  {
    RunOfThree(cfg, Step(cfg, g, acts[0]), acts[1..]);
    hide Step;
  }

  /** With a terminal answer the prober finishes; with any other it does not. */
  lemma AnswerDecides(cfg: Config, g: World, r: Role, id: nat)
    requires Disciplined(g) && Probing(r, Member(g, r), id) && Member(g, r).mem.probes > 0
    requires |Inbox(g, r)| <= 1
    requires Inbox(g, r) != [] ==> Inbox(g, r)[0].LegStatusMsg? && Inbox(g, r)[0].id == id && Inbox(g, r)[0].status != StUnknown
    ensures VerifiedAt(Run(cfg, g, AnswerRound(r)), r, id) <==> (Inbox(g, r) != [] && IsTerminalStatus(Inbox(g, r)[0].status))
  {
    var w := Member(g, r);
    var acts := AnswerRound(r);
    RunOfThree(cfg, g, acts);
    assert AttemptOk(w, id);
    var g1 := Step(cfg, g, acts[0]);
    if Inbox(g, r) == [] {
      assert g1 == g && Step(cfg, g1, acts[1]) == g;
    } else {
      var s := Inbox(g, r)[0].status;
      var f := FollowUpOf(s, 0, 0);
      assert Member(g1, r) == w.(db := w.db.(peerLegs := w.db.peerLegs[id := s]), mem := w.mem.(peer := s, pc := PeerNoted(f)));
      HeardIsFinal(cfg, r, w, Member(g1, r), id, s);
    }
  }

  lemma HeardIsFinal(cfg: Config, r: Role, w: Worker, heard: Worker, id: nat, s: LegStatus)
    requires Discipline(r, w) && Probing(r, w, id) && s != StUnknown
    requires heard == w.(db := w.db.(peerLegs := w.db.peerLegs[id := s]), mem := w.mem.(peer := s, pc := PeerNoted(FollowUpOf(s, 0, 0))))
    ensures var last := MoveStep(cfg, r, MoveStep(cfg, r, heard, Advance(Proceed)).w, Finalize).w;
            (id in last.db.attempts && last.db.attempts[id].terminal == Some(BothEmptyVerified)) <==> IsTerminalStatus(s)
  {
    assert AttemptOk(w, id);
    var noted := StepPeerNoted(heard, id, FollowUpOf(s, 0, 0));
    assert MoveStep(cfg, r, heard, Advance(Proceed)).w == noted;
    NotedKeeps(heard, id, FollowUpOf(s, 0, 0));
    if IsTerminalStatus(s) {
      assert noted == WithPc(BeginClose(heard), Idle);
      assert FinalizeStep(r, noted) == WithPc(Terminate(noted, id, BothEmptyVerified), Resetting);
    } else {
      hide StepPeerNoted;
      assert IdleWith(noted) ==> PeerSendPossible(r, noted, id);
      assert FinalizeStep(r, noted) == noted;
    }
  }

  lemma NotedKeeps(w: Worker, id: nat, f: FollowUp)
    requires CurrentIs(w, id) && id in w.db.legs
    ensures var n := StepPeerNoted(w, id, f);
            CurrentIs(n, id) && n.mem.peer == w.mem.peer && n.db.attempts == w.db.attempts
  {
  }

  /** One probe and its answer finish the prober's attempt exactly when the peer's records prove nothing is
      open there, also when the peer has already reset, restarted or never heard of the attempt. */
  lemma ProbeFinishesIffProven(cfg: Config, g: World, r: Role, id: nat)
    requires Disciplined(g) && Probing(r, Member(g, r), id) && CanReceive(Member(g, Other(r)))
    requires g.toLeader == [] && g.toFollower == []
    ensures VerifiedAt(Run(cfg, g, ProbeRound(r) + AnswerRound(r)), r, id) <==> ProvesNothingOpen(Member(g, Other(r)), id)
  {
    var g' := Run(cfg, g, ProbeRound(r));
    RunAppend(cfg, g, ProbeRound(r), AnswerRound(r));
    RunDisciplined(cfg, g, ProbeRound(r));
    hide Run;
    ProbeIsAnswered(cfg, g, r, id);
    ToldAnswers(Other(r), Member(g, Other(r)), id);
    AnswerDecides(cfg, g', r, id);
  }

  // ---- a refusal can hide a live attempt from a restart --------------------------------------------

  /** A restart loads the most recent attempt row only.  A follower with a live attempt that durably refuses
      another one and then restarts loads neither: the live row stays open, nothing runs it, and from then
      on the Worker answers no probe about it. */
  lemma RefusalOrphansLiveAttempt(cfg: Config, w: Worker, live: nat, att: Attempt, how: Reading)
    requires Discipline(Follower, w) && CanReceive(w) && CurrentIs(w, live) && att.id !in w.db.attempts
    ensures var refused := AdvanceStep(cfg, Follower, Receive(Follower, w, AttemptMsg(att), how).w, Proceed).w;
            var restarted := MoveStep(cfg, Follower, MoveStep(cfg, Follower, refused, Crash).w, Boot).w;
            && restarted.mem.Up? && restarted.mem.attempt.None?
            && live in restarted.db.attempts && restarted.db.attempts[live].terminal.None?
            && !ProvesNothingOpen(restarted, live)
            && PairWorker.Answer(Follower, restarted, live, true) == []
  {
    assert AttemptOk(w, live);
    RefusedThenIdle(cfg, w, att, how);
    hide AdvanceStep, Receive, Discipline;
  }

  lemma RefusedThenIdle(cfg: Config, w: Worker, att: Attempt, how: Reading)
    requires CanReceive(w) && w.mem.attempt.Some? && att.id !in w.db.attempts
    ensures AdvanceStep(cfg, Follower, Receive(Follower, w, AttemptMsg(att), how).w, Proceed).w == WithPc(RefuseAttempt(w, att), Idle)
  {
    hide AdvanceAttempt, AdoptAttempt;
  }
}
