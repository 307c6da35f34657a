/**
  Pair confirmation and desired EMPTY over whole runs, whatever the brokers do; and, under a conclusive
  broker, what a confirmation says about the two accounts.
*/
module PairConfirmation {
  import opened Prelude
  import opened PairState
  import opened PairWorker
  import opened PairDiscipline
  import opened PairTruth
  import opened PairEvolution
  import opened PairBelief
  import opened PairNetwork
  import opened PairConduct
  import opened PairSafety

  // ---- the invariant ---------------------------------------------------------------------------

  /** A relayed fill is the follower's own attributed fill, with these contents. */
  predicate FollowerFilled(g: World, id: nat, s: LegStatus) {
    s.StFilled? ==>
      FilledLeg(g.follower, id) && var att := g.follower.db.attempts[id].attempt;
      s == StFilled(att.symbol, att.DirectionOf(Follower), att.lots)
  }

  /** Both legs were attributed their exact positions: one symbol, mirrored sides, one volume. */
  predicate Agreed(g: World, id: nat) {
    && FilledLeg(g.leader, id) && FilledLeg(g.follower, id)
    && var l, f := g.leader.db.attempts[id].attempt, g.follower.db.attempts[id].attempt;
       f.symbol == l.symbol && f.DirectionOf(Follower) == Mirror(l.DirectionOf(Leader)) && f.lots == l.lots
  }

  ghost predicate Evidence(g: World) {
    && Disciplined(g)
    && Conduct(g.leader) && Conduct(g.follower)
    && BlankPeer(g.leader) && BlankPeer(g.follower)
    && (forall k :: 0 <= k < |g.toLeader| && g.toLeader[k].LegStatusMsg? ==> FollowerFilled(g, g.toLeader[k].id, g.toLeader[k].status))
    && (forall k :: 0 <= k < |g.toFollower| && g.toFollower[k].ConfirmedMsg? ==> Agreed(g, g.toFollower[k].id))
    && (forall id :: id in g.leader.db.peerLegs ==> FollowerFilled(g, id, g.leader.db.peerLegs[id]))
    && (forall id :: CurrentIs(g.leader, id) ==> FollowerFilled(g, id, g.leader.mem.peer))
    && (forall r, id :: Confirmed(Member(g, r), id) ==> Agreed(g, id))
  }

  /** Fills, desired states and rows on both sides go on. */
  ghost predicate GoesOn(g: World, g': World) {
    Lasts(g.leader, g'.leader) && Lasts(g.follower, g'.follower) && Evolves(g.leader, g'.leader) && Evolves(g.follower, g'.follower)
  }

  lemma AgreedStays(g: World, g': World, id: nat)
    requires GoesOn(g, g') && Agreed(g, id)
    ensures Agreed(g', id)
  {
    assert LastsAt(g.leader, g'.leader, id) && LastsAt(g.follower, g'.follower, id);
    assert EvolvesAt(g.leader, g'.leader, id) && EvolvesAt(g.follower, g'.follower, id);
  }

  lemma FollowerFilledStays(g: World, g': World, id: nat, s: LegStatus)
    requires GoesOn(g, g') && FollowerFilled(g, id, s)
    ensures FollowerFilled(g', id, s)
  {
    if s.StFilled? {
      assert LastsAt(g.follower, g'.follower, id) && EvolvesAt(g.follower, g'.follower, id);
    }
  }

  // ---- every action keeps it -------------------------------------------------------------------

  lemma SameGoesOn(w: Worker)
    requires Conduct(w)
    ensures Lasts(w, w) && Evolves(w, w)
  {
    SameLasts(Leader, w);
    OnwardEvolves(w, w);
  }

  lemma ActGoesOn(cfg: Config, g: World, r: Role, m: Move)
    requires Evidence(g) && (m.Create? ==> m.attempt.id !in g.issued)
    ensures GoesOn(g, Step(cfg, g, Act(r, m)))
  {
    MoveLasts(cfg, r, Member(g, r), m);
    MoveEvolves(cfg, r, Member(g, r), m);
    SameGoesOn(Member(g, Other(r)));
    hide MoveStep;
  }

  lemma DeliverGoesOn(cfg: Config, g: World, r: Role, again: bool, how: Reading)
    requires Evidence(g) && Inbox(g, r) != [] && CanReceive(Member(g, r))
    ensures GoesOn(g, Step(cfg, g, Deliver(r, again, how)))
  {
    ReceiveLasts(r, Member(g, r), Inbox(g, r)[0], how);
    ReceiveEvolves(r, Member(g, r), Inbox(g, r)[0], how);
    SameGoesOn(Member(g, Other(r)));
    hide Receive;
  }

  /** A confirmation appears at the leader on exact evidence, which the follower really has. */
  lemma ActAgreed(cfg: Config, g: World, r: Role, m: Move, q: Role, id: nat)
    requires Evidence(g) && (m.Create? ==> m.attempt.id !in g.issued)
    requires Confirmed(Member(Step(cfg, g, Act(r, m)), q), id)
    ensures Agreed(Step(cfg, g, Act(r, m)), id)
  {
    var g' := Step(cfg, g, Act(r, m));
    ActGoesOn(cfg, g, r, m);
    MoveLasts(cfg, r, Member(g, r), m);
    if !Confirmed(Member(g, q), id) {
      assert MayConfirm(r, g.leader, m, id);
      assert FollowerFilled(g, id, g.leader.mem.peer);
      assert g.leader.db.attempts[id].attempt == g.leader.mem.attempt.value;
    }
    assert Agreed(g, id);
    AgreedStays(g, g', id);
  }

  lemma ActKeepsFills(cfg: Config, g: World, r: Role, m: Move)
    requires Evidence(g) && (m.Create? ==> m.attempt.id !in g.issued)
    ensures var g' := Step(cfg, g, Act(r, m));
            forall k :: 0 <= k < |g'.toLeader| && g'.toLeader[k].LegStatusMsg? ==> FollowerFilled(g', g'.toLeader[k].id, g'.toLeader[k].status)
  {
    hide Discipline, Conduct;
    var g' := Step(cfg, g, Act(r, m));
    var s := MoveStep(cfg, r, Member(g, r), m);
    ActGoesOn(cfg, g, r, m);
    forall k | 0 <= k < |s.out| ensures SaidWithEvidence(r, s.w, s.out[k]) { MoveSaysWithEvidence(cfg, r, Member(g, r), m, k); }
    hide MoveStep, Discipline, Conduct;
    forall k | 0 <= k < |g'.toLeader| && g'.toLeader[k].LegStatusMsg? ensures FollowerFilled(g', g'.toLeader[k].id, g'.toLeader[k].status) {
      if k < |g.toLeader| { FollowerFilledStays(g, g', g.toLeader[k].id, g.toLeader[k].status); }
      else { assert g'.toLeader[k] == s.out[k - |g.toLeader|]; }
    }
  }

  lemma ActKeepsNews(cfg: Config, g: World, r: Role, m: Move)
    requires Evidence(g) && (m.Create? ==> m.attempt.id !in g.issued)
    ensures var g' := Step(cfg, g, Act(r, m));
            forall k :: 0 <= k < |g'.toFollower| && g'.toFollower[k].ConfirmedMsg? ==> Agreed(g', g'.toFollower[k].id)
  {
    hide Discipline, Conduct;
    var g' := Step(cfg, g, Act(r, m));
    var s := MoveStep(cfg, r, Member(g, r), m);
    ActGoesOn(cfg, g, r, m);
    forall k | 0 <= k < |s.out| ensures SaidWithEvidence(r, s.w, s.out[k]) { MoveSaysWithEvidence(cfg, r, Member(g, r), m, k); }
    hide MoveStep, Discipline, Conduct;
    forall k | 0 <= k < |g'.toFollower| && g'.toFollower[k].ConfirmedMsg? ensures Agreed(g', g'.toFollower[k].id) {
      if k < |g.toFollower| { AgreedStays(g, g', g.toFollower[k].id); }
      else { assert g'.toFollower[k] == s.out[k - |g.toFollower|]; ActAgreed(cfg, g, r, m, Leader, g'.toFollower[k].id); }
    }
  }

  lemma ActKeepsEvidence(cfg: Config, g: World, r: Role, m: Move)
    requires Evidence(g) && (m.Create? ==> m.attempt.id !in g.issued)
    ensures Evidence(Step(cfg, g, Act(r, m)))
  {
    var g' := Step(cfg, g, Act(r, m));
    StepDisciplined(cfg, g, Act(r, m));
    MoveLasts(cfg, r, Member(g, r), m);
    MoveHeard(cfg, r, Member(g, r), m);
    ActGoesOn(cfg, g, r, m);
    ActKeepsFills(cfg, g, r, m);
    ActKeepsNews(cfg, g, r, m);
    forall q, id | Confirmed(Member(g', q), id) ensures Agreed(g', id) { ActAgreed(cfg, g, r, m, q, id); }
    BeliefsKept(g, g');
    hide MoveStep, Agreed, FollowerFilled, Confirmed;
  }

  /** The leader's beliefs were there before, or loaded from its peer rows. */
  lemma BeliefsKept(g: World, g': World)
    requires Evidence(g) && GoesOn(g, g')
    requires g'.leader == g.leader || HeardOnly(Leader, g.leader, g'.leader)
    ensures forall id :: id in g'.leader.db.peerLegs ==> FollowerFilled(g', id, g'.leader.db.peerLegs[id])
    ensures forall id :: CurrentIs(g'.leader, id) ==> FollowerFilled(g', id, g'.leader.mem.peer)
  {
    forall id | id in g'.leader.db.peerLegs ensures FollowerFilled(g', id, g'.leader.db.peerLegs[id]) {
      FollowerFilledStays(g, g', id, g.leader.db.peerLegs[id]);
    }
    forall id | CurrentIs(g'.leader, id) ensures FollowerFilled(g', id, g'.leader.mem.peer) {
      if g'.leader.mem.peer != StUnknown { FollowerFilledStays(g, g', id, g'.leader.mem.peer); }
    }
  }

  lemma DeliverAgreed(cfg: Config, g: World, r: Role, again: bool, how: Reading, q: Role, id: nat)
    requires Evidence(g) && Inbox(g, r) != [] && CanReceive(Member(g, r))
    requires Confirmed(Member(Step(cfg, g, Deliver(r, again, how)), q), id)
    ensures Agreed(Step(cfg, g, Deliver(r, again, how)), id)
  {
    var m := Inbox(g, r)[0];
    DeliverGoesOn(cfg, g, r, again, how);
    ReceiveLasts(r, Member(g, r), m, how);
    if !Confirmed(Member(g, q), id) { assert MayAcceptConfirmation(r, g.follower, m, id); }
    AgreedStays(g, Step(cfg, g, Deliver(r, again, how)), id);
  }

  lemma DeliverKeepsMessages(cfg: Config, g: World, r: Role, again: bool, how: Reading)
    requires Evidence(g) && Inbox(g, r) != [] && CanReceive(Member(g, r))
    ensures var g' := Step(cfg, g, Deliver(r, again, how));
            && (forall k :: 0 <= k < |g'.toLeader| && g'.toLeader[k].LegStatusMsg? ==> FollowerFilled(g', g'.toLeader[k].id, g'.toLeader[k].status))
            && (forall k :: 0 <= k < |g'.toFollower| && g'.toFollower[k].ConfirmedMsg? ==> Agreed(g', g'.toFollower[k].id))
  {
    hide Discipline, Conduct;
    var g' := Step(cfg, g, Deliver(r, again, how));
    var w, m := Member(g, r), Inbox(g, r)[0];
    var s := Receive(r, w, m, how);
    var shift := if again then 0 else 1;
    DeliverGoesOn(cfg, g, r, again, how);
    forall k | 0 <= k < |s.out| ensures SaidWithEvidence(r, s.w, s.out[k]) { ReceiveSaysWithEvidence(r, w, m, how, k); }
    hide Receive;
    forall k | 0 <= k < |g'.toLeader| && g'.toLeader[k].LegStatusMsg? ensures FollowerFilled(g', g'.toLeader[k].id, g'.toLeader[k].status) {
      if r == Leader { FollowerFilledStays(g, g', g.toLeader[k + shift].id, g.toLeader[k + shift].status); }
      else if k < |g.toLeader| { FollowerFilledStays(g, g', g.toLeader[k].id, g.toLeader[k].status); }
      else { assert g'.toLeader[k] == s.out[k - |g.toLeader|]; }
    }
    forall k | 0 <= k < |g'.toFollower| && g'.toFollower[k].ConfirmedMsg? ensures Agreed(g', g'.toFollower[k].id) {
      if r == Follower { AgreedStays(g, g', g.toFollower[k + shift].id); }
      else if k < |g.toFollower| { AgreedStays(g, g', g.toFollower[k].id); }
      else { assert g'.toFollower[k] == s.out[k - |g.toFollower|]; DeliverAgreed(cfg, g, r, again, how, Leader, g'.toFollower[k].id); }
    }
  }

  lemma DeliverKeepsEvidence(cfg: Config, g: World, r: Role, again: bool, how: Reading)
    requires Evidence(g) && Inbox(g, r) != [] && CanReceive(Member(g, r))
    ensures Evidence(Step(cfg, g, Deliver(r, again, how)))
  {
    var g' := Step(cfg, g, Deliver(r, again, how));
    var w, m := Member(g, r), Inbox(g, r)[0];
    StepDisciplined(cfg, g, Deliver(r, again, how));
    ReceiveLasts(r, w, m, how);
    ReceiveHeard(r, w, m, how);
    DeliverGoesOn(cfg, g, r, again, how);
    DeliverKeepsMessages(cfg, g, r, again, how);
    forall q, id | Confirmed(Member(g', q), id) ensures Agreed(g', id) { DeliverAgreed(cfg, g, r, again, how, q, id); }
    TakenBeliefsKept(g, g', m);
    hide Receive, Agreed, FollowerFilled, Confirmed;
  }

  /** ... or just told by the message. */
  lemma TakenBeliefsKept(g: World, g': World, m: Msg)
    requires Evidence(g) && GoesOn(g, g')
    requires g'.leader == g.leader || (g.toLeader != [] && m == g.toLeader[0] && TakenIn(g.leader, g'.leader, m))
    ensures forall id :: id in g'.leader.db.peerLegs ==> FollowerFilled(g', id, g'.leader.db.peerLegs[id])
    ensures forall id :: CurrentIs(g'.leader, id) ==> FollowerFilled(g', id, g'.leader.mem.peer)
  {
    forall id, s | FollowerFilled(g, id, s) ensures FollowerFilled(g', id, s) { FollowerFilledStays(g, g', id, s); }
  }

  lemma DropKeepsEvidence(cfg: Config, g: World, r: Role)
    requires Evidence(g)
    ensures Evidence(Step(cfg, g, Drop(r)))
  {
    var g' := Step(cfg, g, Drop(r));
    forall id, s | FollowerFilled(g, id, s) ensures FollowerFilled(g', id, s) { }
    forall q, id | Confirmed(Member(g', q), id) ensures Agreed(g', id) {
      assert Confirmed(Member(g, q), id);
      assert Agreed(g, id);
    }
  }

  lemma StepKeepsEvidence(cfg: Config, g: World, a: Action)
    requires Evidence(g)
    ensures Evidence(Step(cfg, g, a)) && GoesOn(g, Step(cfg, g, a))
  {
    SameGoesOn(g.leader);
    SameGoesOn(g.follower);
    match a {
      case Act(r, m) =>
        if m.Create? ==> m.attempt.id !in g.issued { ActKeepsEvidence(cfg, g, r, m); ActGoesOn(cfg, g, r, m); }
      case Deliver(r, again, how) =>
        if Inbox(g, r) != [] && CanReceive(Member(g, r)) {
          DeliverKeepsEvidence(cfg, g, r, again, how);
          DeliverGoesOn(cfg, g, r, again, how);
        }
      case Drop(r) => DropKeepsEvidence(cfg, g, r);
    }
  }

  lemma {:induction false} RunKeepsEvidence(cfg: Config, g: World, acts: seq<Action>)
    requires Evidence(g)
    ensures Evidence(Run(cfg, g, acts))
    decreases |acts|
  {
    if acts != [] {
      StepKeepsEvidence(cfg, g, acts[0]);
      RunKeepsEvidence(cfg, Step(cfg, g, acts[0]), acts[1..]);
    }
  }

  lemma EvidenceEverywhere(cfg: Config, acts: seq<Action>)
    ensures Evidence(Run(cfg, Start, acts))
  {
    assert Evidence(Start);
    RunKeepsEvidence(cfg, Start, acts);
    hide Evidence;
  }

  // ---- where every fill comes from --------------------------------------------------------------

  /** At this point of the run `r`'s account held exactly these positions. */
  ghost predicate ReadAt(cfg: Config, acts: seq<Action>, j: nat, r: Role, ps: Holdings) {
    j <= |acts| && Positions(Member(Run(cfg, Start, acts[..j]), r).broker.holdings) == ps
  }

  /** In this step the leg became filled: the Worker acted on a snapshot `ps` in which `p`, under ticket `t`, was
      the one position of exactly the attempt's symbol, side and volume. */
  predicate Fills(w: Worker, w': Worker, r: Role, id: nat, t: nat, ps: Holdings, p: Holding) {
    && !FilledLeg(w, id) && FilledLeg(w', id) && w'.db.legs[id].ticket == Some(t)
    && CurrentIs(w, id) && w.mem.pc.Seen? && w.mem.pc.positions == ps
    && Matches(ps, w.mem.attempt.value, r) == {t} && t in ps && ps[t] == p
    && p.symbol == w.mem.attempt.value.symbol && p.direction == w.mem.attempt.value.DirectionOf(r) && p.volume == w.mem.attempt.value.lots
    && w'.db.attempts[id].attempt == w.mem.attempt.value
  }

  ghost predicate BecameFilled(cfg: Config, acts: seq<Action>, k: nat, r: Role, id: nat, t: nat, ps: Holdings, p: Holding) {
    k < |acts| && Fills(Member(Run(cfg, Start, acts[..k]), r), Member(Run(cfg, Start, acts[..k + 1]), r), r, id, t, ps, p)
  }

  /** ... and that snapshot was the account's state earlier in the run. */
  ghost predicate FilledFrom(cfg: Config, acts: seq<Action>, r: Role, id: nat, t: nat, p: Holding) {
    exists j: nat, k: nat, ps :: j <= k && ReadAt(cfg, acts, j, r, ps) && BecameFilled(cfg, acts, k, r, id, t, ps, p)
  }

  lemma PrefixPoints(cfg: Config, acts: seq<Action>, n: nat, j: nat)
    requires j <= n <= |acts|
    ensures acts[..n][..j] == acts[..j]
  {
  }

  lemma FilledFromLonger(cfg: Config, acts: seq<Action>, n: nat, r: Role, id: nat, t: nat, p: Holding)
    requires n <= |acts| && FilledFrom(cfg, acts[..n], r, id, t, p)
    ensures FilledFrom(cfg, acts, r, id, t, p)
  {
    var j: nat, k: nat, ps :| j <= k && ReadAt(cfg, acts[..n], j, r, ps) && BecameFilled(cfg, acts[..n], k, r, id, t, ps, p);
    PrefixPoints(cfg, acts, n, j);
    PrefixPoints(cfg, acts, n, k);
    PrefixPoints(cfg, acts, n, k + 1);
    hide Run;
    assert ReadAt(cfg, acts, j, r, ps) && BecameFilled(cfg, acts, k, r, id, t, ps, p);
  }

  /** How one action of a run changes one Worker. */
  lemma StepTraces(cfg: Config, g: World, a: Action, r: Role)
    requires Evidence(g)
    ensures Traced(r, Member(g, r), Member(Step(cfg, g, a), r)) && Lasts(Member(g, r), Member(Step(cfg, g, a), r))
    ensures Evolves(Member(g, r), Member(Step(cfg, g, a), r))
  {
    SameGoesOn(g.leader);
    SameGoesOn(g.follower);
    SameLasts(r, Member(g, r));
    match a {
      case Act(q, m) => MoveLasts(cfg, q, Member(g, q), m); MoveEvolves(cfg, q, Member(g, q), m);
      case Deliver(q, _, how) =>
        if Inbox(g, q) != [] {
          ReceiveLasts(q, Member(g, q), Inbox(g, q)[0], how);
          ReceiveEvolves(q, Member(g, q), Inbox(g, q)[0], how);
        }
      case Drop(_) =>
    }
    hide MoveStep, Receive, Discipline, Conduct, Agreed, FollowerFilled, Traced, Lasts, Evolves;
  }

  /** A snapshot in progress was read from the account at some point of the run. */
  lemma {:induction false} SnapshotWasRead(cfg: Config, acts: seq<Action>, r: Role)
    requires SnapshotAt(Member(Run(cfg, Start, acts), r)).Some?
    ensures exists j: nat :: ReadAt(cfg, acts, j, r, SnapshotAt(Member(Run(cfg, Start, acts), r)).value)
    decreases |acts|
  {
    if acts != [] {
      var n := |acts| - 1;
      assert acts[..n + 1] == acts;
      RunLast(cfg, Start, acts, n);
      EvidenceEverywhere(cfg, acts[..n]);
      var w, w' := Member(Run(cfg, Start, acts[..n]), r), Member(Run(cfg, Start, acts), r);
      StepTraces(cfg, Run(cfg, Start, acts[..n]), acts[n], r);
      hide Run, Evidence;
      var ps := SnapshotAt(w').value;
      if ps == Positions(w.broker.holdings) {
        assert ReadAt(cfg, acts, n, r, ps);
      } else {
        SnapshotWasRead(cfg, acts[..n], r);
        var j: nat :| ReadAt(cfg, acts[..n], j, r, ps);
        PrefixPoints(cfg, acts, n, j);
        assert ReadAt(cfg, acts, j, r, ps);
      }
    }
  }

  lemma NewFill(cfg: Config, g: World, a: Action, r: Role, id: nat)
    requires Evidence(g) && !FilledLeg(Member(g, r), id) && FilledLeg(Member(Step(cfg, g, a), r), id)
    ensures var w, w' := Member(g, r), Member(Step(cfg, g, a), r);
            var t := w'.db.legs[id].ticket.value;
            SnapshotAt(w).Some? && t in SnapshotAt(w).value && Fills(w, w', r, id, t, SnapshotAt(w).value, SnapshotAt(w).value[t])
  {
    hide Step;
    StepTraces(cfg, g, a, r);
    var w, w' := Member(g, r), Member(Step(cfg, g, a), r);
    assert FillTraced(r, w, w', id) && EvolvesAt(w, w', id);
    assert CurrentConduct(w) && w.db.attempts[id].attempt == w.mem.attempt.value;
    assert w'.db.legs[id].ticket.value in Matches(w.mem.pc.positions, w.mem.attempt.value, r);
  }

  lemma JustFilled(cfg: Config, acts: seq<Action>, n: nat, r: Role, id: nat)
    requires n + 1 == |acts| && !FilledLeg(Member(Run(cfg, Start, acts[..n]), r), id) && FilledLeg(Member(Run(cfg, Start, acts), r), id)
    ensures exists p :: FilledFrom(cfg, acts, r, id, Member(Run(cfg, Start, acts), r).db.legs[id].ticket.value, p)
  {
    hide Evidence, Step, Fills;
    assert acts[..n + 1] == acts;
    RunLast(cfg, Start, acts, n);
    EvidenceEverywhere(cfg, acts[..n]);
    NewFill(cfg, Run(cfg, Start, acts[..n]), acts[n], r, id);
    SnapshotWasRead(cfg, acts[..n], r);
    hide Run;
    var ps := SnapshotAt(Member(Run(cfg, Start, acts[..n]), r)).value;
    var t := Member(Run(cfg, Start, acts), r).db.legs[id].ticket.value;
    var j: nat :| ReadAt(cfg, acts[..n], j, r, ps);
    PrefixPoints(cfg, acts, n, j);
    assert ReadAt(cfg, acts, j, r, ps) && BecameFilled(cfg, acts, n, r, id, t, ps, ps[t]);
    assert FilledFrom(cfg, acts, r, id, t, ps[t]);
  }

  /** Every filled leg, in every run and whatever the brokers do, was filled by the one exact match of a snapshot
      of its own account. */
  lemma {:induction false} FillIsTheUniqueMatch(cfg: Config, acts: seq<Action>, r: Role, id: nat)
    requires FilledLeg(Member(Run(cfg, Start, acts), r), id)
    ensures exists p :: FilledFrom(cfg, acts, r, id, Member(Run(cfg, Start, acts), r).db.legs[id].ticket.value, p)
    decreases |acts|
  {
    if acts != [] {
      var n := |acts| - 1;
      assert acts[..n + 1] == acts;
      var w, w' := Member(Run(cfg, Start, acts[..n]), r), Member(Run(cfg, Start, acts), r);
      if FilledLeg(w, id) {
        RunLast(cfg, Start, acts, n);
        EvidenceEverywhere(cfg, acts[..n]);
        StepTraces(cfg, Run(cfg, Start, acts[..n]), acts[n], r);
        assert LastsAt(w, w', id);
        FillIsTheUniqueMatch(cfg, acts[..n], r, id);
        hide Run, Evidence, FilledFrom;
        var p :| FilledFrom(cfg, acts[..n], r, id, w.db.legs[id].ticket.value, p);
        FilledFromLonger(cfg, acts, n, r, id, w.db.legs[id].ticket.value, p);
      } else {
        hide FilledFrom;
        JustFilled(cfg, acts, n, r, id);
      }
    }
  }

  /** What a fill says about its attempt row. */
  lemma FilledAsOrdered(cfg: Config, acts: seq<Action>, r: Role, id: nat, t: nat, p: Holding)
    requires FilledFrom(cfg, acts, r, id, t, p)
    ensures var w := Member(Run(cfg, Start, acts), r);
            && id in w.db.attempts && var att := w.db.attempts[id].attempt;
               p.symbol == att.symbol && p.direction == att.DirectionOf(r) && p.volume == att.lots
  {
    var j: nat, k: nat, ps :| j <= k && ReadAt(cfg, acts, j, r, ps) && BecameFilled(cfg, acts, k, r, id, t, ps, p);
    RowStays(cfg, acts, k + 1, r, id);
    hide Run;
  }

  lemma {:induction false} RowStays(cfg: Config, acts: seq<Action>, k: nat, r: Role, id: nat)
    requires k <= |acts| && id in Member(Run(cfg, Start, acts[..k]), r).db.attempts
    ensures var w := Member(Run(cfg, Start, acts), r);
            id in w.db.attempts && w.db.attempts[id].attempt == Member(Run(cfg, Start, acts[..k]), r).db.attempts[id].attempt
    decreases |acts|
  {
    assert acts[..|acts|] == acts;
    if k < |acts| {
      var n := |acts| - 1;
      RunLast(cfg, Start, acts, n);
      EvidenceEverywhere(cfg, acts[..n]);
      StepTraces(cfg, Run(cfg, Start, acts[..n]), acts[n], r);
      PrefixPoints(cfg, acts, n, k);
      hide Run, Evidence;
      RowStays(cfg, acts[..n], k, r, id);
      assert EvolvesAt(Member(Run(cfg, Start, acts[..n]), r), Member(Run(cfg, Start, acts), r), id);
    }
  }

  // ---- the theorems ----------------------------------------------------------------------------

  /** A close only ever targets the one ticket that was the unique exact match (symbol, side and volume of the
      attempt) in a snapshot of its own account. */
  lemma ClosesOnlyTheOwnedTicket(cfg: Config, acts: seq<Action>, r: Role, id: nat, t: nat)
    requires CallsOf(Member(Run(cfg, Start, acts), r).broker, Close(id, t)) != []
    ensures FilledLeg(Member(Run(cfg, Start, acts), r), id) && Member(Run(cfg, Start, acts), r).db.legs[id].ticket == Some(t)
    ensures exists p :: FilledFrom(cfg, acts, r, id, t, p)
  {
    RunDisciplined(cfg, Start, acts);
    var w := Member(Run(cfg, Start, acts), r);
    assert EffectOk(w, Close(id, t)) && PayloadOk(r, w, Close(id, t)) && AttemptOk(w, id);
    hide Run;
    FillIsTheUniqueMatch(cfg, acts, r, id);
  }

  /** Two positions of one pair: one symbol, one volume, opposite sides. */
  predicate Mirrored(leader: Holding, follower: Holding) {
    follower.symbol == leader.symbol && follower.volume == leader.volume && follower.direction == Mirror(leader.direction)
  }

  /** Pair confirmation is sound in every run: if either side holds it, then on each account a snapshot held
      exactly one position of its attempt's symbol, side and volume, the legs are filled by these two tickets,
      and the two positions mirror each other. */
  lemma ConfirmationIsSound(cfg: Config, acts: seq<Action>, r: Role, id: nat)
    requires Confirmed(Member(Run(cfg, Start, acts), r), id)
    ensures var g := Run(cfg, Start, acts);
            && Agreed(g, id)
            && exists p, q :: FilledFrom(cfg, acts, Leader, id, g.leader.db.legs[id].ticket.value, p)
                           && FilledFrom(cfg, acts, Follower, id, g.follower.db.legs[id].ticket.value, q) && Mirrored(p, q)
  {
    EvidenceEverywhere(cfg, acts);
    assert Agreed(Run(cfg, Start, acts), id);
    hide Run, Evidence, FilledFrom;
    FillIsTheUniqueMatch(cfg, acts, Leader, id);
    FillIsTheUniqueMatch(cfg, acts, Follower, id);
    var g := Run(cfg, Start, acts);
    var tl, tf := g.leader.db.legs[id].ticket.value, g.follower.db.legs[id].ticket.value;
    var p :| FilledFrom(cfg, acts, Leader, id, tl, p);
    var q :| FilledFrom(cfg, acts, Follower, id, tf, q);
    FilledAsOrdered(cfg, acts, Leader, id, tl, p);
    FilledAsOrdered(cfg, acts, Follower, id, tf, q);
    assert Mirrored(p, q);
  }

  lemma NewlyConfirmed(cfg: Config, g: World, a: Action, id: nat)
    requires Evidence(g) && !Confirmed(g.follower, id) && Confirmed(Step(cfg, g, a).follower, id)
    ensures a.Deliver? && a.role == Follower && g.toFollower != [] && MayAcceptConfirmation(Follower, g.follower, g.toFollower[0], id)
  {
    match a {
      case Act(r, m) => MoveLasts(cfg, r, Member(g, r), m);
      case Deliver(r, _, how) => if Inbox(g, r) != [] { ReceiveLasts(r, Member(g, r), Inbox(g, r)[0], how); }
      case Drop(_) =>
    }
    hide MoveStep, Receive, Agreed, FollowerFilled, Discipline, Conduct;
  }

  /** The follower starts to hold a confirmation only by receiving one while the attempt is still meant to
      be active and strictly before its own receipt timer runs out. */
  lemma FollowerConfirmsInTime(cfg: Config, acts: seq<Action>, a: Action, id: nat)
    requires var g := Run(cfg, Start, acts);
             !Confirmed(g.follower, id) && Confirmed(Step(cfg, g, a).follower, id)
    ensures var g := Run(cfg, Start, acts);
            && a.Deliver? && a.role == Follower && g.toFollower != [] && g.toFollower[0] == ConfirmedMsg(id)
            && g.follower.mem.Up? && g.follower.mem.desired == ActiveDesired
            && g.follower.mem.deadline.Some? && g.follower.clock < g.follower.mem.deadline.value
  {
    var g := Run(cfg, Start, acts);
    EvidenceEverywhere(cfg, acts);
    hide Run;
    NewlyConfirmed(cfg, g, a, id);
  }

  /** One action takes nothing back from a closed attempt. */
  lemma ClosedStepStays(cfg: Config, g: World, a: Action, r: Role, id: nat)
    requires Evidence(g) && ClosedFor(Member(g, r), id)
    ensures var w, w' := Member(g, r), Member(Step(cfg, g, a), r);
            && LastsAt(w, w', id) && (Confirmed(w', id) ==> Confirmed(w, id))
  {
    StepKeepsEvidence(cfg, g, a);
    assert LastsAt(Member(g, r), Member(Step(cfg, g, a), r), id);
    match a {
      case Act(q, m) => MoveLasts(cfg, q, Member(g, q), m); hide MoveStep;
      case Deliver(q, _, how) => if Inbox(g, q) != [] { ReceiveLasts(q, Member(g, q), Inbox(g, q)[0], how); } hide Receive;
      case Drop(_) =>
    }
  }

  lemma {:induction false} ClosedRunStays(cfg: Config, g: World, acts: seq<Action>, r: Role, id: nat)
    requires Evidence(g) && ClosedFor(Member(g, r), id)
    ensures var w, w' := Member(g, r), Member(Run(cfg, g, acts), r);
            && ClosedFor(w', id)
            && CallsOf(w'.broker, Entry(id)) == CallsOf(w.broker, Entry(id))
            && CallsOf(w'.broker, Protection(id)) == CallsOf(w.broker, Protection(id))
            && (Confirmed(w', id) ==> Confirmed(w, id))
    decreases |acts|
  {
    if acts != [] {
      StepKeepsEvidence(cfg, g, acts[0]);
      ClosedStepStays(cfg, g, acts[0], r, id);
      ClosedRunStays(cfg, Step(cfg, g, acts[0]), acts[1..], r, id);
    }
  }

  /** Desired EMPTY is absorbing: once a Worker wants its attempt empty, no continuation of the run, with
      crashes and restarts, makes it send the entry or the precise protection or take up a confirmation. */
  lemma CloseRequestIsFinal(cfg: Config, acts: seq<Action>, more: seq<Action>, r: Role, id: nat)
    requires var w := Member(Run(cfg, Start, acts), r);
             CurrentIs(w, id) && id in w.db.legs && w.mem.desired == EmptyDesired
    ensures var w, w' := Member(Run(cfg, Start, acts), r), Member(Run(cfg, Start, acts + more), r);
            && (CurrentIs(w', id) ==> w'.mem.desired == EmptyDesired)
            && CallsOf(w'.broker, Entry(id)) == CallsOf(w.broker, Entry(id))
            && CallsOf(w'.broker, Protection(id)) == CallsOf(w.broker, Protection(id))
            && (Confirmed(w', id) ==> Confirmed(w, id))
  {
    EvidenceEverywhere(cfg, acts);
    RunAppend(cfg, Start, acts, more);
    ClosedRunStays(cfg, Run(cfg, Start, acts), more, r, id);
  }

  /** `empty_verified` is recorded only while closing and only on a complete snapshot, positions and orders, in
      which the account was flat. */
  lemma EmptyIsSeenOnAFlatAccount(cfg: Config, acts: seq<Action>, a: Action, r: Role, id: nat)
    requires var g := Run(cfg, Start, acts);
             !Emptied(Member(g, r), id) && Emptied(Member(Step(cfg, g, a), r), id)
    ensures var w := Member(Run(cfg, Start, acts), r);
            CurrentIs(w, id) && w.mem.desired == EmptyDesired && w.mem.pc == Converging(map[], map[])
  {
    EvidenceEverywhere(cfg, acts);
    hide Run;
    NewlyEmpty(cfg, Run(cfg, Start, acts), a, r, id);
  }

  lemma NewlyEmpty(cfg: Config, g: World, a: Action, r: Role, id: nat)
    requires Evidence(g) && !Emptied(Member(g, r), id) && Emptied(Member(Step(cfg, g, a), r), id)
    ensures var w := Member(g, r);
            CurrentIs(w, id) && w.mem.desired == EmptyDesired && w.mem.pc == Converging(map[], map[])
  {
    match a {
      case Act(q, m) => MoveLasts(cfg, q, Member(g, q), m); assert q == r ==> EmptyTraced(Member(g, q), MoveStep(cfg, q, Member(g, q), m).w, id);
      case Deliver(q, _, how) =>
        if Inbox(g, q) != [] {
          ReceiveLasts(q, Member(g, q), Inbox(g, q)[0], how);
          ReceivingEmptiesNothing(q, Member(g, q), Inbox(g, q)[0], how, id);
        }
      case Drop(_) =>
    }
    hide MoveStep, Receive, Agreed, FollowerFilled, Discipline, Conduct;
  }

  lemma ReceivingEmptiesNothing(r: Role, w: Worker, m: Msg, how: Reading, id: nat)
    requires Discipline(r, w) && Conduct(w)
    ensures Emptied(Receive(r, w, m, how).w, id) ==> Emptied(w, id) || (CurrentIs(w, id) && w.mem.desired == EmptyDesired && w.mem.pc == Converging(map[], map[]))
  {
    ReceiveLasts(r, w, m, how);
    assert EmptyTraced(w, Receive(r, w, m, how).w, id);
    hide Receive, Discipline, Conduct;
  }

  // ---- the accounts behind a confirmation ------------------------------------------------------------

  /** Under a conclusive broker the account is where the fill came from. */
  ghost predicate Accounted(w: Worker) {
    && Backed(w)
    && (SnapshotAt(w).Some? ==>
          forall t :: t in SnapshotAt(w).value && SnapshotAt(w).value[t].volume == w.mem.attempt.value.lots ==> w.mem.attempt.value.id in w.broker.filledFor)
    && (forall id :: FilledLeg(w, id) ==> id in w.broker.filledFor)
  }

  lemma AccountedStays(r: Role, w: Worker, w': Worker)
    requires Accounted(w) && Truth(r, w) && Discipline(r, w) && Traced(r, w, w')
    ensures Accounted(w')
  {
    forall id | FilledLeg(w', id) ensures id in w'.broker.filledFor {
      assert FillTraced(r, w, w', id);
      if !FilledLeg(w, id) { assert w'.db.legs[id].ticket.value in Matches(w.mem.pc.positions, w.mem.attempt.value, r); }
    }
    if SnapshotAt(w').Some? {
      var id := w'.mem.attempt.value.id;
      forall t | t in SnapshotAt(w').value && SnapshotAt(w').value[t].volume == w'.mem.attempt.value.lots ensures id in w'.broker.filledFor {
        if SnapshotAt(w') != SnapshotAt(w) { assert HoldingTrue(r, w, t); }
      }
    }
  }

  lemma StepAccounted(cfg: Config, g: World, a: Action)
    requires cfg.Conclusive() && Consistent(g) && Evidence(g) && Accounted(g.leader) && Accounted(g.follower)
    ensures Accounted(Step(cfg, g, a).leader) && Accounted(Step(cfg, g, a).follower)
  {
    match a {
      case Act(r, m) =>
        MoveLasts(cfg, r, Member(g, r), m);
        AccountedStays(r, Member(g, r), MoveStep(cfg, r, Member(g, r), m).w);
        hide MoveStep;
      case Deliver(r, _, how) =>
        if Inbox(g, r) != [] {
          ReceiveLasts(r, Member(g, r), Inbox(g, r)[0], how);
          AccountedStays(r, Member(g, r), Receive(r, Member(g, r), Inbox(g, r)[0], how).w);
        }
        hide Receive;
      case Drop(_) =>
    }
  }

  lemma {:induction false} RunAccounted(cfg: Config, g: World, acts: seq<Action>)
    requires cfg.Conclusive() && Consistent(g) && Evidence(g) && Accounted(g.leader) && Accounted(g.follower)
    ensures Accounted(Run(cfg, g, acts).leader) && Accounted(Run(cfg, g, acts).follower)
    decreases |acts|
  {
    if acts != [] {
      StepAccounted(cfg, g, acts[0]);
      StepConsistent(cfg, g, acts[0]);
      StepKeepsEvidence(cfg, g, acts[0]);
      RunAccounted(cfg, Step(cfg, g, acts[0]), acts[1..]);
    }
  }

  lemma StartIsAccounted()
    ensures Consistent(Start) && Evidence(Start) && Accounted(Start.leader) && Accounted(Start.follower)
  {
  }

  /** Under a conclusive broker a confirmed pair really was opened: a position of the full attempt volume
      has existed on both accounts. */
  lemma ConfirmedPairWasOpened(cfg: Config, acts: seq<Action>, r: Role, id: nat)
    requires cfg.Conclusive() && Confirmed(Member(Run(cfg, Start, acts), r), id)
    ensures var g := Run(cfg, Start, acts);
            id in g.leader.broker.filledFor && id in g.follower.broker.filledFor
  {
    StartIsAccounted();
    hide Consistent, Run;
    ConfirmationIsSound(cfg, acts, r, id);
    RunAccounted(cfg, Start, acts);
    assert Agreed(Run(cfg, Start, acts), id);
  }
}
