/**
  Both accounts flat: under a conclusive broker, an attempt either Worker terminalizes as
  `both_empty_verified` has no exposure on either account, then or ever after.
*/
module PairSafety {
  import opened Prelude
  import opened PairState
  import opened PairWorker
  import opened PairDiscipline
  import opened PairTruth
  import opened PairEvolution
  import opened PairMessages
  import opened PairBelief
  import opened PairNetwork

  // ---- the invariant ---------------------------------------------------------------------------

  /** The follower does not have this attempt and can never get it any more. */
  ghost predicate NeverArrives(g: World, id: nat) {
    && id in g.leader.db.attempts && !WillRelay(g.leader, id)
    && id !in g.follower.db.attempts
    && forall k :: 0 <= k < |g.toFollower| && g.toFollower[k].AttemptMsg? ==> g.toFollower[k].attempt.id != id
  }

  /** `r` holds nothing of this attempt and never will. */
  ghost predicate FlatAt(g: World, r: Role, id: nat) {
    Settled(Member(g, r), id) || (r == Follower && NeverArrives(g, id))
  }

  ghost predicate ToFollowerTrue(g: World, k: nat) {
    k < |g.toFollower| ==>
      match g.toFollower[k]
      case AttemptMsg(att) => Relayed(g.leader, att)
      case RequestMsg(id) =>
        && id in g.leader.db.attempts && !WillRelay(g.leader, id)
        && forall j :: k <= j < |g.toFollower| && g.toFollower[j].AttemptMsg? ==> g.toFollower[j].attempt.id != id
      case LegStatusMsg(id, s) => IsTerminalStatus(s) ==> Settled(g.leader, id)
      case _ => true
  }

  ghost predicate ToLeaderTrue(g: World, k: nat) {
    k < |g.toLeader| ==>
      match g.toLeader[k]
      case RequestMsg(id) => id in g.follower.db.attempts
      case LegStatusMsg(id, s) => IsTerminalStatus(s) ==> FlatAt(g, Follower, id)
      case _ => true
  }

  /** What one Worker believes about one attempt of the other. */
  ghost predicate BeliefTrue(g: World, r: Role, id: nat) {
    var w := Member(g, r);
    && (id in w.db.peerLegs && IsTerminalStatus(w.db.peerLegs[id]) ==> FlatAt(g, Other(r), id))
    && (CurrentIs(w, id) && IsTerminalStatus(w.mem.peer) ==> FlatAt(g, Other(r), id))
    && (id in w.db.attempts && w.db.attempts[id].terminal == Some(BothEmptyVerified) ==> FlatAt(g, Other(r), id))
  }

  /** Where attempts come from. */
  predicate OriginTrue(g: World, id: nat) {
    && (id in g.leader.db.attempts ==> id in g.issued)
    && (id in g.follower.db.attempts ==> Relayed(g.leader, g.follower.db.attempts[id].attempt))
  }

  ghost predicate Consistent(g: World) {
    && Disciplined(g)
    && Truth(Leader, g.leader) && Truth(Follower, g.follower)
    && BlankPeer(g.leader) && BlankPeer(g.follower)
    && (forall k :: ToFollowerTrue(g, k))
    && (forall k :: ToLeaderTrue(g, k))
    && (forall r, id :: BeliefTrue(g, r, id))
    && (forall id :: OriginTrue(g, id))
  }

  /** The promise: a verified pair outcome means two flat legs. */
  ghost predicate BothFlat(g: World) {
    forall r, id :: VerifiedAt(g, r, id) ==> Unexposed(g.leader, id) && Unexposed(g.follower, id)
  }

  predicate VerifiedAt(g: World, r: Role, id: nat) {
    id in Member(g, r).db.attempts && Member(g, r).db.attempts[id].terminal == Some(BothEmptyVerified)
  }

  // ---- a side that may not fall back -----------------------------------------------------------

  /** How one action changes the pair: both Workers evolve, no new attempt reaches an inbox unless
      the leader was about to relay it. */
  ghost predicate Onwards(g: World, g': World) {
    && Evolves(g.leader, g'.leader) && Evolves(g.follower, g'.follower)
    && g.issued <= g'.issued
    && (forall id :: id in g'.follower.db.attempts && id !in g.follower.db.attempts ==>
          exists k :: 0 <= k < |g.toFollower| && g.toFollower[k].AttemptMsg? && g.toFollower[k].attempt.id == id)
    && (forall k :: 0 <= k < |g'.toFollower| && g'.toFollower[k].AttemptMsg? ==>
          || g'.toFollower[k] in g.toFollower
          || WillRelay(g.leader, g'.toFollower[k].attempt.id))
  }

  lemma FlatStays(g: World, g': World, r: Role, id: nat)
    requires Onwards(g, g') && FlatAt(g, r, id)
    ensures FlatAt(g', r, id)
  {
    assert EvolvesAt(g.leader, g'.leader, id) && EvolvesAt(g.follower, g'.follower, id);
  }

  lemma RelayedStays(w: Worker, w': Worker, att: Attempt)
    requires Evolves(w, w') && Relayed(w, att)
    ensures Relayed(w', att)
  {
    assert EvolvesAt(w, w', att.id);
  }

  // ---- every action keeps the invariant --------------------------------------------------------

  lemma ActOnwards(cfg: Config, g: World, r: Role, m: Move)
    requires cfg.Conclusive() && Consistent(g)
    requires m.Create? ==> m.attempt.id !in g.issued
    ensures Onwards(g, Step(cfg, g, Act(r, m)))
  {
    var w := Member(g, r);
    var s := MoveStep(cfg, r, w, m);
    MoveEvolves(cfg, r, w, m);
    OnwardEvolves(Member(g, Other(r)), Member(g, Other(r)));
    forall k | 0 <= k < |s.out| ensures s.out[k].AttemptMsg? ==> WillRelay(w, s.out[k].attempt.id) {
      MoveSaysTrue(cfg, r, w, m, k);
    }
  }

  lemma DeliverOnwards(cfg: Config, g: World, r: Role, again: bool, how: Reading)
    requires Consistent(g) && Inbox(g, r) != [] && CanReceive(Member(g, r))
    ensures Onwards(g, Step(cfg, g, Deliver(r, again, how)))
  {
    var w := Member(g, r);
    var m := Inbox(g, r)[0];
    var s := Receive(r, w, m, how);
    ReceiveEvolves(r, w, m, how);
    OnwardEvolves(Member(g, Other(r)), Member(g, Other(r)));
    forall k | 0 <= k < |s.out| ensures s.out[k].LegStatusMsg? {
      ReceiveSaysTrue(r, w, m, how, k);
    }
  }

  /** Rows, beliefs and origins of attempts that the action does not add survive it. */
  lemma OldFactsStay(g: World, g': World, r: Role, id: nat)
    requires Consistent(g) && Onwards(g, g')
    ensures id in Member(g, r).db.peerLegs && IsTerminalStatus(Member(g, r).db.peerLegs[id]) ==> FlatAt(g', Other(r), id)
    ensures CurrentIs(Member(g, r), id) && IsTerminalStatus(Member(g, r).mem.peer) ==> FlatAt(g', Other(r), id)
    ensures VerifiedAt(g, r, id) ==> FlatAt(g', Other(r), id)
    ensures id in g.leader.db.attempts ==> id in g'.issued
    ensures id in g.follower.db.attempts ==> Relayed(g'.leader, g.follower.db.attempts[id].attempt)
  {
    assert BeliefTrue(g, r, id) && OriginTrue(g, id);
    if FlatAt(g, Other(r), id) {
      FlatStays(g, g', Other(r), id);
    }
    if id in g.follower.db.attempts {
      RelayedStays(g.leader, g'.leader, g.follower.db.attempts[id].attempt);
    }
  }

  /** Old messages stay true, and what the leader adds is true. */
  lemma ToFollowerStays(g: World, g': World, k: nat, was: nat)
    requires Consistent(g) && Onwards(g, g')
    requires k < |g'.toFollower| && was < |g.toFollower| && g'.toFollower[k] == g.toFollower[was]
    requires forall j :: k <= j < |g'.toFollower| ==>
               (was + j - k < |g.toFollower| && g'.toFollower[j] == g.toFollower[was + j - k])
               || (g'.toFollower[j].AttemptMsg? ==> WillRelay(g.leader, g'.toFollower[j].attempt.id))
    ensures ToFollowerTrue(g', k)
  {
    assert ToFollowerTrue(g, was);
    match g'.toFollower[k] {
      case AttemptMsg(att) => RelayedStays(g.leader, g'.leader, att);
      case RequestMsg(id) => assert EvolvesAt(g.leader, g'.leader, id);
      case LegStatusMsg(id, _) => assert EvolvesAt(g.leader, g'.leader, id);
      case _ =>
    }
  }

  lemma ToLeaderStays(g: World, g': World, k: nat, was: nat)
    requires Consistent(g) && Onwards(g, g')
    requires k < |g'.toLeader| && was < |g.toLeader| && g'.toLeader[k] == g.toLeader[was]
    ensures ToLeaderTrue(g', k)
  {
    assert ToLeaderTrue(g, was);
    match g'.toLeader[k] {
      case RequestMsg(id) => assert EvolvesAt(g.follower, g'.follower, id);
      case LegStatusMsg(id, s) => if IsTerminalStatus(s) { FlatStays(g, g', Follower, id); }
      case _ =>
    }
  }

  lemma ActKeepsMessages(cfg: Config, g: World, r: Role, m: Move)
    requires cfg.Conclusive() && Consistent(g) && (m.Create? ==> m.attempt.id !in g.issued)
    requires Onwards(g, Step(cfg, g, Act(r, m)))
    ensures var g' := Step(cfg, g, Act(r, m));
            (forall k :: ToFollowerTrue(g', k)) && (forall k :: ToLeaderTrue(g', k))
  {
    var w := Member(g, r);
    var s := MoveStep(cfg, r, w, m);
    var g' := Step(cfg, g, Act(r, m));
    forall k | 0 <= k < |s.out| ensures SaidTruly(w, s.w, s.out[k]) { MoveSaysTrue(cfg, r, w, m, k); }
    forall k: nat ensures ToFollowerTrue(g', k) {
      if k < |g.toFollower| {
        ToFollowerStays(g, g', k, k);
      } else if k < |g'.toFollower| {
        assert g'.toFollower[k] == s.out[k - |g.toFollower|];
        if g'.toFollower[k].RequestMsg? { assert EvolvesAt(g.leader, g'.leader, g'.toFollower[k].id); }
      }
    }
    forall k: nat ensures ToLeaderTrue(g', k) {
      if k < |g.toLeader| {
        ToLeaderStays(g, g', k, k);
      } else if k < |g'.toLeader| {
        assert g'.toLeader[k] == s.out[k - |g.toLeader|];
        if g'.toLeader[k].RequestMsg? { assert EvolvesAt(g.follower, g'.follower, g'.toLeader[k].id); }
      }
    }
  }

  /** Handling the head of an inbox: what is left stays true, and the reply is true because the
      invariant rules out an id with two contents and an absence that could still be overtaken. */
  lemma DeliverKeepsMessages(cfg: Config, g: World, r: Role, again: bool, how: Reading)
    requires Consistent(g) && Inbox(g, r) != [] && CanReceive(Member(g, r))
    requires Onwards(g, Step(cfg, g, Deliver(r, again, how)))
    ensures var g' := Step(cfg, g, Deliver(r, again, how));
            (forall k :: ToFollowerTrue(g', k)) && (forall k :: ToLeaderTrue(g', k))
  {
    var w := Member(g, r);
    var s := Receive(r, w, Inbox(g, r)[0], how);
    var g' := Step(cfg, g, Deliver(r, again, how));
    var shift := if again then 0 else 1;
    forall k | 0 <= k < |s.out| ensures s.out[k].LegStatusMsg? && ReplyTrue(g, g', r, s.out[k]) { ReplyIsTrue(cfg, g, r, again, how, k); }
    forall k: nat ensures ToFollowerTrue(g', k) {
      if r == Follower && k < |g'.toFollower| {
        ToFollowerStays(g, g', k, k + shift);
      } else if r == Leader && k < |g.toFollower| {
        ToFollowerStays(g, g', k, k);
      } else if k < |g'.toFollower| {
        assert g'.toFollower[k] == s.out[k - |g.toFollower|];
      }
    }
    forall k: nat ensures ToLeaderTrue(g', k) {
      if r == Leader && k < |g'.toLeader| {
        ToLeaderStays(g, g', k, k + shift);
      } else if r == Follower && k < |g.toLeader| {
        ToLeaderStays(g, g', k, k);
      } else if k < |g'.toLeader| {
        assert g'.toLeader[k] == s.out[k - |g.toLeader|];
      }
    }
  }

  ghost predicate ReplyTrue(g: World, g': World, r: Role, m: Msg) {
    m.LegStatusMsg? && IsTerminalStatus(m.status) ==> FlatAt(g', r, m.id)
  }

  lemma ReplyIsTrue(cfg: Config, g: World, r: Role, again: bool, how: Reading, k: nat)
    requires Consistent(g) && Inbox(g, r) != [] && CanReceive(Member(g, r))
    requires k < |Receive(r, Member(g, r), Inbox(g, r)[0], how).out|
    requires Onwards(g, Step(cfg, g, Deliver(r, again, how)))
    ensures var m := Receive(r, Member(g, r), Inbox(g, r)[0], how).out[k];
            m.LegStatusMsg? && ReplyTrue(g, Step(cfg, g, Deliver(r, again, how)), r, m)
  {
    var w := Member(g, r);
    var m := Inbox(g, r)[0];
    var g' := Step(cfg, g, Deliver(r, again, how));
    var id := Receive(r, w, m, how).out[k].id;
    ReceiveSaysTrue(r, w, m, how, k);
    ReceiveEvolves(r, w, m, how);
    if r == Follower {
      assert ToFollowerTrue(g, 0);
      if m.AttemptMsg? { assert OriginTrue(g, m.attempt.id) && AttemptOk(g.follower, m.attempt.id); }
      if m == RequestMsg(id) && id !in w.db.attempts {
        assert NeverArrives(g, id);
        FlatStays(g, g', Follower, id);
      }
    } else {
      assert ToLeaderTrue(g, 0);
      if m.RequestMsg? { assert OriginTrue(g, m.id) && AttemptOk(g.follower, m.id); }
    }
  }

  lemma UntouchedBelief(g: World, g': World, q: Role, id: nat)
    requires Consistent(g) && Onwards(g, g') && Member(g', q) == Member(g, q)
    ensures BeliefTrue(g', q, id)
  {
    OldFactsStay(g, g', q, id);
  }

  lemma HeardBelief(g: World, g': World, r: Role, id: nat)
    requires Consistent(g) && Onwards(g, g') && HeardOnly(r, Member(g, r), Member(g', r))
    ensures BeliefTrue(g', r, id)
  {
    OldFactsStay(g, g', r, id);
    if NewlyVerified(Member(g, r), Member(g', r), id) {
      NewlyVerifiedIsFlat(g, r, id);
      FlatStays(g, g', Other(r), id);
    }
  }

  lemma TakenInBelief(g: World, g': World, r: Role, id: nat)
    requires Consistent(g) && Onwards(g, g') && Inbox(g, r) != [] && TakenIn(Member(g, r), Member(g', r), Inbox(g, r)[0])
    ensures BeliefTrue(g', r, id)
  {
    OldFactsStay(g, g', r, id);
    assert ToFollowerTrue(g, 0) && ToLeaderTrue(g, 0);
    assert !NewlyVerified(Member(g, r), Member(g', r), id);
    if FlatAt(g, Other(r), id) { FlatStays(g, g', Other(r), id); }
  }

  lemma ActKeepsOrigin(cfg: Config, g: World, r: Role, m: Move, id: nat)
    requires cfg.Conclusive() && Consistent(g) && (m.Create? ==> m.attempt.id !in g.issued)
    requires Onwards(g, Step(cfg, g, Act(r, m)))
    ensures OriginTrue(Step(cfg, g, Act(r, m)), id)
  {
    MoveEvolves(cfg, r, Member(g, r), m);
    hide MoveStep;
    OldFactsStay(g, Step(cfg, g, Act(r, m)), r, id);
    assert EvolvesAt(g.follower, Step(cfg, g, Act(r, m)).follower, id);
  }

  lemma ActKeepsBeliefs(cfg: Config, g: World, r: Role, m: Move)
    requires cfg.Conclusive() && Consistent(g) && (m.Create? ==> m.attempt.id !in g.issued)
    requires Onwards(g, Step(cfg, g, Act(r, m)))
    ensures var g' := Step(cfg, g, Act(r, m));
            && (forall q, id :: BeliefTrue(g', q, id)) && (forall id :: OriginTrue(g', id))
            && BlankPeer(g'.leader) && BlankPeer(g'.follower)
  {
    var g' := Step(cfg, g, Act(r, m));
    MoveHeard(cfg, r, Member(g, r), m);
    forall q, id ensures BeliefTrue(g', q, id) {
      if q == r { HeardBelief(g, g', r, id); } else { UntouchedBelief(g, g', q, id); }
    }
    forall id ensures OriginTrue(g', id) { ActKeepsOrigin(cfg, g, r, m, id); }
  }

  /** Finalizing is justified: the peer's terminal status is true, and a leader that never relayed
      its attempt is alone with it. */
  lemma NewlyVerifiedIsFlat(g: World, r: Role, id: nat)
    requires Consistent(g) && CurrentIs(Member(g, r), id)
    requires id in Member(g, r).db.legs && !PeerSendPossible(r, Member(g, r), id) && Member(g, r).mem.pc == Idle
    ensures FlatAt(g, Other(r), id)
  {
    var w := Member(g, r);
    assert BeliefTrue(g, r, id);
    if !IsTerminalStatus(w.mem.peer) {
      assert AttemptOk(w, id) && AttemptOk(g.follower, id) && OriginTrue(g, id);
      forall k | 0 <= k < |g.toFollower| && g.toFollower[k].AttemptMsg? ensures g.toFollower[k].attempt.id != id {
        assert ToFollowerTrue(g, k);
      }
      assert NeverArrives(g, id);
    }
  }

  lemma DeliverKeepsOrigin(cfg: Config, g: World, r: Role, again: bool, how: Reading, id: nat)
    requires Consistent(g) && Inbox(g, r) != [] && CanReceive(Member(g, r))
    requires Onwards(g, Step(cfg, g, Deliver(r, again, how)))
    ensures OriginTrue(Step(cfg, g, Deliver(r, again, how)), id)
  {
    var w := Member(g, r);
    var m := Inbox(g, r)[0];
    var g' := Step(cfg, g, Deliver(r, again, how));
    OldFactsStay(g, g', r, id);
    assert EvolvesAt(g.follower, g'.follower, id);
    if r == Follower && m.AttemptMsg? && id !in w.db.attempts && id in g'.follower.db.attempts {
      assert ToFollowerTrue(g, 0);
      ReceiveEvolves(r, w, m, how);
      RelayedStays(g.leader, g'.leader, m.attempt);
    } else {
      ReceiveEvolves(r, w, m, how);
    }
  }

  lemma DeliverKeepsBeliefs(cfg: Config, g: World, r: Role, again: bool, how: Reading)
    requires Consistent(g) && Inbox(g, r) != [] && CanReceive(Member(g, r))
    requires Onwards(g, Step(cfg, g, Deliver(r, again, how)))
    ensures var g' := Step(cfg, g, Deliver(r, again, how));
            && (forall q, id :: BeliefTrue(g', q, id)) && (forall id :: OriginTrue(g', id))
            && BlankPeer(g'.leader) && BlankPeer(g'.follower)
  {
    var g' := Step(cfg, g, Deliver(r, again, how));
    ReceiveHeard(r, Member(g, r), Inbox(g, r)[0], how);
    forall q, id ensures BeliefTrue(g', q, id) {
      if q == r { TakenInBelief(g, g', r, id); } else { UntouchedBelief(g, g', q, id); }
    }
    forall id ensures OriginTrue(g', id) { DeliverKeepsOrigin(cfg, g, r, again, how, id); }
  }

  // ---- every run -------------------------------------------------------------------------------

  lemma DropKeeps(cfg: Config, g: World, r: Role)
    requires Consistent(g)
    ensures Consistent(Step(cfg, g, Drop(r)))
  {
    var g' := Step(cfg, g, Drop(r));
    OnwardEvolves(g.leader, g.leader);
    OnwardEvolves(g.follower, g.follower);
    assert Onwards(g, g');
    if Inbox(g, r) != [] {
      forall k: nat ensures ToFollowerTrue(g', k) {
        if k < |g'.toFollower| { ToFollowerStays(g, g', k, if r == Follower then k + 1 else k); }
      }
      forall k: nat ensures ToLeaderTrue(g', k) {
        if k < |g'.toLeader| { ToLeaderStays(g, g', k, if r == Leader then k + 1 else k); }
      }
      forall q, id ensures BeliefTrue(g', q, id) { OldFactsStay(g, g', q, id); }
      forall id ensures OriginTrue(g', id) { assert OriginTrue(g, id); }
    }
  }

  lemma StepConsistent(cfg: Config, g: World, a: Action)
    requires cfg.Conclusive() && Consistent(g)
    ensures Consistent(Step(cfg, g, a))
  {
    StepDisciplined(cfg, g, a);
    match a {
      case Act(r, m) =>
        if m.Create? ==> m.attempt.id !in g.issued {
          MoveTruth(cfg, r, Member(g, r), m);
          ActOnwards(cfg, g, r, m);
          ActKeepsMessages(cfg, g, r, m);
          ActKeepsBeliefs(cfg, g, r, m);
        }
      case Deliver(r, again, how) =>
        if Inbox(g, r) != [] && CanReceive(Member(g, r)) {
          ReceiveTruth(r, Member(g, r), Inbox(g, r)[0], how);
          DeliverOnwards(cfg, g, r, again, how);
          DeliverKeepsMessages(cfg, g, r, again, how);
          DeliverKeepsBeliefs(cfg, g, r, again, how);
        }
      case Drop(r) => DropKeeps(cfg, g, r);
    }
  }

  lemma {:induction false} RunConsistent(cfg: Config, g: World, acts: seq<Action>)
    requires cfg.Conclusive() && Consistent(g)
    ensures Consistent(Run(cfg, g, acts))
    decreases |acts|
  {
    hide Consistent, Step;
    if acts != [] {
      StepConsistent(cfg, g, acts[0]);
      RunConsistent(cfg, Step(cfg, g, acts[0]), acts[1..]);
    }
  }

  lemma ConsistentIsFlat(g: World)
    requires Consistent(g)
    ensures BothFlat(g)
  {
    forall r, id | VerifiedAt(g, r, id) ensures Unexposed(g.leader, id) && Unexposed(g.follower, id) {
      assert BeliefTrue(g, r, id);
      TerminalRowIsSettled(r, Member(g, r), id);
      if NeverArrives(g, id) {
        NoRecordNoExposure(Follower, g.follower, id);
      }
    }
  }

  lemma NoRecordNoExposure(r: Role, w: Worker, id: nat)
    requires Truth(r, w) && id !in w.db.attempts
    ensures Unexposed(w, id)
  {
    forall t ensures t in w.broker.holdings ==> w.broker.holdings[t].attempt != id {
      assert HoldingTrue(r, w, t);
    }
  }

  /** Global both-flat safety, for every run with losses, repeats, crashes and restarts. */
  lemma BothFlatInEveryRun(cfg: Config, acts: seq<Action>)
    requires cfg.Conclusive()
    ensures BothFlat(Run(cfg, Start, acts))
  {
    RunConsistent(cfg, Start, acts);
    ConsistentIsFlat(Run(cfg, Start, acts));
  }

  // ---- and ever after --------------------------------------------------------------------------

  lemma StepOnwards(cfg: Config, g: World, a: Action)
    requires cfg.Conclusive() && Consistent(g)
    ensures Onwards(g, Step(cfg, g, a))
  {
    OnwardEvolves(g.leader, g.leader);
    OnwardEvolves(g.follower, g.follower);
    match a {
      case Act(r, m) => if m.Create? ==> m.attempt.id !in g.issued { ActOnwards(cfg, g, r, m); }
      case Deliver(r, again, how) =>
        if Inbox(g, r) != [] && CanReceive(Member(g, r)) { DeliverOnwards(cfg, g, r, again, how); }
      case Drop(r) =>
    }
  }

  /** A flat side makes no further entry call for the attempt. */
  lemma FlatSideStaysSilent(g: World, g': World, q: Role, id: nat)
    requires Consistent(g) && Consistent(g') && Onwards(g, g') && FlatAt(g, q, id)
    ensures CallsOf(Member(g', q).broker, Entry(id)) == CallsOf(Member(g, q).broker, Entry(id))
  {
    assert EvolvesAt(g.leader, g'.leader, id) && EvolvesAt(g.follower, g'.follower, id);
    if !Settled(Member(g, q), id) {
      assert id !in g'.follower.db.attempts;
      assert EffectOk(g.follower, Entry(id)) && EffectOk(g'.follower, Entry(id)) && AttemptOk(g.follower, id) && AttemptOk(g'.follower, id);
    }
  }

  lemma {:induction false} FlatForGood(cfg: Config, g: World, acts: seq<Action>, q: Role, id: nat)
    requires cfg.Conclusive() && Consistent(g) && FlatAt(g, q, id)
    ensures var g' := Run(cfg, g, acts);
            FlatAt(g', q, id) && CallsOf(Member(g', q).broker, Entry(id)) == CallsOf(Member(g, q).broker, Entry(id))
    decreases |acts|
  {
    if acts != [] {
      var g1 := Step(cfg, g, acts[0]);
      StepConsistent(cfg, g, acts[0]);
      StepOnwards(cfg, g, acts[0]);
      FlatStays(g, g1, q, id);
      FlatSideStaysSilent(g, g1, q, id);
      FlatForGood(cfg, g1, acts[1..], q, id);
    }
  }

  /** A verified outcome is final: whatever happens next, no entry order of the attempt is sent on either
      account and neither ever holds a position of it again. */
  lemma NothingOpensLater(cfg: Config, acts: seq<Action>, more: seq<Action>, r: Role, id: nat, q: Role)
    requires cfg.Conclusive() && VerifiedAt(Run(cfg, Start, acts), r, id)
    ensures var g, g' := Run(cfg, Start, acts), Run(cfg, Start, acts + more);
            && CallsOf(Member(g', q).broker, Entry(id)) == CallsOf(Member(g, q).broker, Entry(id))
            && Unexposed(Member(g', q), id)
  {
    var g := Run(cfg, Start, acts);
    RunConsistent(cfg, Start, acts);
    RunAppend(cfg, Start, acts, more);
    RunConsistent(cfg, g, more);
    assert BeliefTrue(g, r, id);
    TerminalRowIsSettled(r, Member(g, r), id);
    FlatForGood(cfg, g, more, q, id);
    if !Settled(Member(Run(cfg, g, more), q), id) {
      NoRecordNoExposure(Follower, Run(cfg, g, more).follower, id);
    }
  }
}
