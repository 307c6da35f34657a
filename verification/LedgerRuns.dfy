/**
  What the control ledger's pairing tables guarantee over every sequence of operations.
*/
module LedgerRuns {
  import opened Prelude
  import opened Ledger

  // ---- exclusivity -----------------------------------------------------------------------------

  /** Pairing exclusivity: after any operations no Worker is in two routes or reservations, every claim has
      a holder and every route its claim. */
  lemma PairingIsExclusive(ops: seq<Op>, w: WorkerId, a: Place, b: Place, c: PairKey, r: RouteId)
    ensures var t := Run(Empty, ops);
            && (w in Members(t, a) && w in Members(t, b) ==> a == b)
            && (c in t.claims ==> exists holder :: Members(t, holder) == c)
            && (r in t.routes ==> Pair(t.routes[r].leader, t.routes[r].follower) in t.claims && t.routes[r].leader != t.routes[r].follower)
  {
    EverSound(ops);
    assert r in Run(Empty, ops).routes ==> Members(Run(Empty, ops), AtRoute(r)) in Run(Empty, ops).claims;
    hide Run;
  }

  /** Two leaders that pick one follower: whoever reserves first, the other is refused while that
      reservation lives. */
  lemma OneReservationWins(t: Tables, p: ProposalId, q: ProposalId, one: WorkerId, two: WorkerId, follower: WorkerId,
                           connected: set<WorkerId>, connected': set<WorkerId>, now: nat, later: nat)
    requires Reserve(t, p, one, follower, connected, now).Ok? && later < now + RESERVATION_TIMEOUT
    ensures Reserve(Reserve(t, p, one, follower, connected, now).value, q, two, follower, connected', later).Err?
  {
    var t' := Reserve(t, p, one, follower, connected, now).value;
    assert p in Expire(t', later).reservations;
    hide Release;
  }

  /** A failed commit leaves no trace of its proposal: no reservation, and no claim unless the pair is routed. */
  lemma FailedCommitReleases(t: Tables, p: ProposalId, draws: seq<RouteId>, connected: set<WorkerId>, now: nat)
    requires Sound(t) && Commit(t, p, draws, connected, now).Err?
    ensures var t' := Step(t, CreateOp(p, draws, connected, now));
            && Sound(t') && p !in t'.reservations && t'.routes == t.routes && t'.issued == t.issued
            && (p in t.reservations ==> Members(t, AtReservation(p)) !in t'.claims)
  {
    StepKeeps(t, CreateOp(p, draws, connected, now));
    ReleasePlaces(t, {p}, AtReservation(p));
    if p in t.reservations { assert t.reservations[p].leader in Members(t, AtReservation(p)); }
    hide Commit, Sound;
  }

  /** Reopening the ledger may cost a reservation its claim, never a route; the reservation still commits,
      and takes the claim again. */
  lemma ReopenCostsOnlyReservations(t: Tables, p: ProposalId, draws: seq<RouteId>, connected: set<WorkerId>, now: nat, c: PairKey)
    requires Sound(t)
    ensures var t' := Reopen(t);
            && (c in t'.claims <==> exists r :: r in t.routes && Members(t, AtRoute(r)) == c)
            && (Commit(t, p, draws, connected, now).Ok? ==>
                  Commit(t', p, draws, connected, now).Ok?
                  && Commit(t', p, draws, connected, now).value.routes == Commit(t, p, draws, connected, now).value.routes)
  {
    RoutedIsMember(t, c);
    RouteClaimed(t, c);
    if Commit(t, p, draws, connected, now).Ok? { ReopenedCommits(t, p, draws, connected, now); }
    hide Sound, Commit;
  }

  lemma RouteClaimed(t: Tables, c: PairKey)
    requires Sound(t)
    ensures PairRouted(t, c) ==> c in t.claims
  {
    RoutedIsMember(t, c);
  }

  lemma ReopenedCommits(t: Tables, p: ProposalId, draws: seq<RouteId>, connected: set<WorkerId>, now: nat)
    requires Commit(t, p, draws, connected, now).Ok?
    ensures Commit(Reopen(t), p, draws, connected, now).Ok?
    ensures Commit(Reopen(t), p, draws, connected, now).value.routes == Commit(t, p, draws, connected, now).value.routes
  {
    var e, e' := Expire(t, now), Expire(Reopen(t), now);
    assert e'.reservations == e.reservations && e'.routes == e.routes && e'.issued == e.issued && e'.active == e.active;
    assert e'.claims <= e.claims by { ReopenedClaims(t, now); }
    hide Reopen, Release;
  }

  lemma ReopenedClaims(t: Tables, now: nat)
    ensures Expire(Reopen(t), now).claims <= Expire(t, now).claims
  {
    forall c | c in Expire(Reopen(t), now).claims ensures c in Expire(t, now).claims {
      assert PairRouted(Reopen(t), c) == PairRouted(t, c);
    }
  }

  /** A deleted Worker is nowhere in the pairing tables, and its former peers are free again. */
  lemma DeletedIsGone(t: Tables, w: WorkerId, a: Place, c: PairKey, r: RouteId)
    requires Sound(t) && Delete(t, w).Ok?
    ensures var t' := Delete(t, w).value;
            && Sound(t') && w !in Members(t', a) && (r, w) !in t'.versions && (r, w) !in t'.assertions
            && (w in Members(t, a) ==> Members(t', a) == {}) && (w !in Members(t, a) ==> Members(t', a) == Members(t, a))
            && (w in c ==> c !in t'.claims)
  {
    hide Exclusive, Provable;
    var t' := Delete(t, w).value;
    DeleteKeeps(t, w);
    NowhereAfterDelete(t, w, a);
    OthersStay(t, w, a);
    hide Members;
    forall b ensures w !in Members(t', b) { NowhereAfterDelete(t, w, b); }
    assert c in t'.claims ==> exists holder :: Members(t', holder) == c;
  }

  lemma NowhereAfterDelete(t: Tables, w: WorkerId, a: Place)
    requires Delete(t, w).Ok?
    ensures w !in Members(Delete(t, w).value, a)
    ensures forall k :: k in Delete(t, w).value.versions || k in Delete(t, w).value.assertions ==> k.1 != w
  {
    DeletedIsNowhere(t, w, a);
    hide Release, RemoveRoutesOf, HeldBy;
  }

  lemma OthersStay(t: Tables, w: WorkerId, a: Place)
    requires Delete(t, w).Ok?
    ensures w in Members(t, a) ==> Members(Delete(t, w).value, a) == {}
    ensures w !in Members(t, a) ==> Members(Delete(t, w).value, a) == Members(t, a)
  {
  }

  // ---- route identifiers -----------------------------------------------------------------------

  /** Identifiers are only ever added, and only an identifier nobody had becomes a route. */
  ghost predicate Onward(t: Tables, t': Tables) {
    && t.issued <= t'.issued
    && (forall r :: r in t'.routes ==> r !in t.issued || (r in t.routes && t'.routes[r].leader == t.routes[r].leader && t'.routes[r].follower == t.routes[r].follower))
    && (forall k :: k in t.versions && k in t'.versions ==> t.versions[k] <= t'.versions[k])
    && (forall k :: k in t.versions && k.0 in t'.routes ==> k in t'.versions)
  }

  lemma CommitOnward(t: Tables, p: ProposalId, draws: seq<RouteId>, connected: set<WorkerId>, now: nat)
    requires Commit(t, p, draws, connected, now).Ok?
    ensures Onward(t, Commit(t, p, draws, connected, now).value)
  {
    FirstUnusedIsNew(t.issued, Draws(draws));
    hide Eligible, Reachable, FirstUnused;
  }

  lemma AssertOnward(t: Tables, r: RouteId, w: WorkerId, v: nat)
    requires Assert(t, r, w, v).Ok?
    ensures Onward(t, Assert(t, r, w, v).value)
  {
    var a := Asserted(t, r, w, v);
    assert Onward(t, a);
  }

  lemma DeleteOnward(t: Tables, w: WorkerId)
    requires Provable(t) && Delete(t, w).Ok?
    ensures Onward(t, Delete(t, w).value)
  {
  }

  lemma ApplyOnward(t: Tables, op: Op)
    requires Sound(t) && Apply(t, op).Ok?
    ensures Onward(t, Apply(t, op).value)
  {
    hide Exclusive, Claimed, Commit, Delete, Assert;
    match op {
      case CreateOp(p, draws, connected, now) => CommitOnward(t, p, draws, connected, now);
      case AssertOp(r, w, v) => AssertOnward(t, r, w, v);
      case DeleteOp(w) => DeleteOnward(t, w);
      case _ =>
    }
  }

  lemma StepOnward(t: Tables, op: Op)
    requires Sound(t)
    ensures Onward(t, Step(t, op))
  {
    if Apply(t, op).Ok? { ApplyOnward(t, op); }
    hide Sound, Apply, Onward;
    if Apply(t, op).Err? && !op.CreateOp? { SameOnward(t); }
    if Apply(t, op).Err? && op.CreateOp? { ReleaseOnward(t, {op.proposal}); }
  }

  lemma SameOnward(t: Tables)
    ensures Onward(t, t)
  {
  }

  lemma ReleaseOnward(t: Tables, proposals: set<ProposalId>)
    ensures Onward(t, Release(t, proposals))
  {
  }

  /** A live route stays what it is, and an identifier whose route is gone never names a route again. */
  ghost predicate Lineage(t: Tables, t': Tables, r: RouteId) {
    && r in t'.issued
    && (r in t'.routes ==> r in t.routes && t'.routes[r].leader == t.routes[r].leader && t'.routes[r].follower == t.routes[r].follower)
  }

  lemma {:induction false} LineageHolds(t: Tables, ops: seq<Op>, r: RouteId)
    requires Sound(t) && r in t.issued
    ensures Lineage(t, Run(t, ops), r)
    decreases |ops|
  {
    hide Sound, Step;
    if ops != [] {
      var init := ops[..|ops| - 1];
      LineageHolds(t, init, r);
      RunKeeps(t, init);
      StepOnward(Run(t, init), ops[|ops| - 1]);
    }
  }

  lemma {:induction false} VersionsHold(t: Tables, ops: seq<Op>, k: (RouteId, WorkerId))
    requires Sound(t) && k in t.versions
    ensures var t' := Run(t, ops);
            k.0 in t'.issued && (k.0 in t'.routes ==> k in t'.versions && t.versions[k] <= t'.versions[k])
    decreases |ops|
  {
    hide Exclusive, Claimed, Step;
    if ops != [] {
      var init := ops[..|ops| - 1];
      VersionsHold(t, init, k);
      RunKeeps(t, init);
      StepOnward(Run(t, init), ops[|ops| - 1]);
    }
  }

  /** A member's recorded state version never goes back while its route lives. */
  lemma VersionsNeverDecrease(ops: seq<Op>, more: seq<Op>, k: (RouteId, WorkerId))
    requires k in Run(Empty, ops).versions && k.0 in Run(Empty, ops + more).routes
    ensures k in Run(Empty, ops + more).versions && Run(Empty, ops).versions[k] <= Run(Empty, ops + more).versions[k]
  {
    EverSound(ops);
    RunAppend(Empty, ops, more);
    hide Run, Sound;
    VersionsHold(Run(Empty, ops), more, k);
  }

  /** Route identifiers are never reused. */
  lemma RouteIdsNeverReused(ops: seq<Op>, more: seq<Op>, r: RouteId)
    ensures var t, t' := Run(Empty, ops), Run(Empty, ops + more);
            && (r in t.routes && r in t'.routes ==> t'.routes[r].leader == t.routes[r].leader && t'.routes[r].follower == t.routes[r].follower)
            && (r in t.issued && r !in t.routes ==> r !in t'.routes)
  {
    EverSound(ops);
    RunAppend(Empty, ops, more);
    var t := Run(Empty, ops);
    hide Run;
    assert r in t.routes ==> r in t.issued;
    if r in t.issued { LineageHolds(t, more, r); }
  }

  // ---- safe unpair -----------------------------------------------------------------------------

  predicate Accepted(ops: seq<Op>, k: nat)
    requires k < |ops|
  {
    Apply(Run(Empty, ops[..k]), ops[k]).Ok?
  }

  /** An accepted operation that starts or ends an unpairing episode of this route. */
  predicate Resets(op: Op, r: RouteId) {
    (op.EnterOp? || op.CancelOp?) && op.route == r
  }

  /** An accepted operation by which this Worker reports another state version on this route. */
  predicate Moves(op: Op, r: RouteId, w: WorkerId, v: nat) {
    (op.VersionOp? || op.AssertOp?) && op.route == r && op.worker == w && op.version != v
  }

  /** Operation `k` is this Worker's accepted assertion of version `v`, since the last change of the route's
      state, and it has reported no other version after it. */
  ghost predicate StandsFrom(ops: seq<Op>, k: nat, r: RouteId, w: WorkerId, v: nat) {
    && k < |ops| && ops[k] == AssertOp(r, w, v) && Accepted(ops, k)
    && forall j :: k < j < |ops| && Accepted(ops, j) ==> !Resets(ops[j], r) && !Moves(ops[j], r, w, v)
  }

  ghost predicate Stands(ops: seq<Op>, r: RouteId, w: WorkerId, v: nat) {
    exists k :: StandsFrom(ops, k, r, w, v)
  }

  lemma AcceptedPrefix(ops: seq<Op>, k: nat)
    requires k + 1 < |ops|
    ensures Accepted(ops[..|ops| - 1], k) == Accepted(ops, k)
  {
    assert ops[..|ops| - 1][..k] == ops[..k];
  }

  /** An assertion that the last operation neither reset nor overtook still stands. */
  lemma StandsOn(ops: seq<Op>, r: RouteId, w: WorkerId, v: nat)
    requires ops != [] && Stands(ops[..|ops| - 1], r, w, v)
    requires Accepted(ops, |ops| - 1) ==> !Resets(ops[|ops| - 1], r) && !Moves(ops[|ops| - 1], r, w, v)
    ensures Stands(ops, r, w, v)
  {
    var init := ops[..|ops| - 1];
    var k: nat :| StandsFrom(init, k, r, w, v);
    AcceptedPrefix(ops, k);
    forall j | k < j < |ops| && Accepted(ops, j) ensures !Resets(ops[j], r) && !Moves(ops[j], r, w, v) {
      if j < |init| { AcceptedPrefix(ops, j); assert Accepted(init, j) && init[j] == ops[j]; }
    }
    assert StandsFrom(ops, k, r, w, v);
  }

  /** What one operation can leave in the assertion table: its own entry, or what was there and was not
      reset or overtaken. */
  lemma ApplyAssertions(t: Tables, op: Op, k: (RouteId, WorkerId))
    requires Provable(t) && Apply(t, op).Ok? && k in Apply(t, op).value.assertions
    ensures var v := Apply(t, op).value.assertions[k];
            || op == AssertOp(k.0, k.1, v)
            || (k in t.assertions && t.assertions[k] == v && !Resets(op, k.0) && !Moves(op, k.0, k.1, v))
  {
    hide Eligible, Reachable, FirstUnused;
    match op {
      case AssertOp(r, w, v) => AssertAssertions(t, r, w, v, k);
      case DeleteOp(w) => DeleteAssertions(t, w, k);
      case _ =>
    }
  }

  lemma DeleteAssertions(t: Tables, w: WorkerId, k: (RouteId, WorkerId))
    requires Delete(t, w).Ok? && k in Delete(t, w).value.assertions
    ensures k in t.assertions && t.assertions[k] == Delete(t, w).value.assertions[k]
  {
  }

  lemma AssertAssertions(t: Tables, r: RouteId, w: WorkerId, v: nat, k: (RouteId, WorkerId))
    requires Assert(t, r, w, v).Ok? && k in Assert(t, r, w, v).value.assertions
    ensures (k == (r, w) && Assert(t, r, w, v).value.assertions[k] == v)
            || (k != (r, w) && k in t.assertions && t.assertions[k] == Assert(t, r, w, v).value.assertions[k])
  {
  }

  /** Every stored assertion stands in the history of the operations. */
  lemma {:induction false} AssertionsStand(ops: seq<Op>, k: (RouteId, WorkerId))
    requires k in Run(Empty, ops).assertions
    ensures Stands(ops, k.0, k.1, Run(Empty, ops).assertions[k])
    decreases |ops|
  {
    if ops != [] {
      var n := |ops| - 1;
      var init := ops[..n];
      var t := Run(Empty, init);
      var v := Run(Empty, ops).assertions[k];
      EverSound(init);
      hide Run, Sound, Exclusive, Claimed, Release;
      assert Run(Empty, ops) == Step(t, ops[n]);
      if Apply(t, ops[n]).Ok? {
        ApplyAssertions(t, ops[n], k);
        hide Apply, Provable;
        if ops[n] == AssertOp(k.0, k.1, v) {
          assert StandsFrom(ops, n, k.0, k.1, v);
        } else {
          AssertionsStand(init, k);
          StandsOn(ops, k.0, k.1, v);
        }
      } else {
        ReleaseLeavesAssertions(t, if ops[n].CreateOp? then {ops[n].proposal} else {});
        hide Apply, Provable;
        AssertionsStand(init, k);
        StandsOn(ops, k.0, k.1, v);
      }
    }
  }

  lemma ReleaseLeavesAssertions(t: Tables, proposals: set<ProposalId>)
    ensures Release(t, proposals).assertions == t.assertions
  {
  }

  lemma RemovalNeedsBoth(t: Tables, r: RouteId, w: WorkerId, v: nat)
    requires Provable(t) && r in t.routes && r !in Step(t, AssertOp(r, w, v)).routes
    ensures Apply(t, AssertOp(r, w, v)).Ok? && OnRoute(t.routes[r], w) && t.routes[r].unpairing
    ensures forall m :: OnRoute(t.routes[r], m) && m != w ==> (r, m) in t.assertions
  {
    var a := Asserted(t, r, w, v);
    assert BothAsserted(a, r);
    forall m | OnRoute(t.routes[r], m) && m != w ensures (r, m) in t.assertions { assert Fresh(a, r, m); }
  }

  /** Safe unpair: an assertion removes a route only if both members' assertions stand, each made since the route
      last entered UNPAIRING and bound to that member's latest reported state version. */
  lemma UnpairNeedsBoth(ops: seq<Op>, r: RouteId, w: WorkerId, v: nat)
    requires r in Run(Empty, ops).routes && r !in Run(Empty, ops + [AssertOp(r, w, v)]).routes
    ensures var t := Run(Empty, ops);
            var all := ops + [AssertOp(r, w, v)];
            && OnRoute(t.routes[r], w) && t.routes[r].unpairing
            && forall m :: OnRoute(t.routes[r], m) ==> exists u :: Stands(all, r, m, u)
  {
    var t := Run(Empty, ops);
    var op := AssertOp(r, w, v);
    var all := ops + [op];
    assert all[..|all| - 1] == ops && all[..|ops|] == ops;
    EverSound(ops);
    assert Run(Empty, all) == Step(t, op);
    RemovalNeedsBoth(t, r, w, v);
    hide Run, Step, Apply, Sound, Moves;
    assert Accepted(all, |ops|);
    assert StandsFrom(all, |ops|, r, w, v);
    forall m | OnRoute(t.routes[r], m) ensures exists u :: Stands(all, r, m, u) {
      if m == w {
        assert Stands(all, r, m, v);
      } else {
        AssertionsStand(ops, (r, m));
        OthersUnmoved(op, r, w, v, m);
        StandsOn(all, r, m, t.assertions[(r, m)]);
      }
    }
  }

  lemma OthersUnmoved(op: Op, r: RouteId, w: WorkerId, v: nat, m: WorkerId)
    requires op == AssertOp(r, w, v) && m != w
    ensures !Resets(op, r) && forall u :: !Moves(op, r, m, u)
  {
  }

  /** Conversely, the second fresh assertion does remove it. */
  lemma SecondAssertionRemoves(t: Tables, r: RouteId, w: WorkerId, v: nat)
    requires Sound(t) && Assert(t, r, w, v).Ok?
    ensures r !in Assert(t, r, w, v).value.routes <==>
              forall m :: OnRoute(t.routes[r], m) && m != w ==> (r, m) in t.assertions
  {
    hide Exclusive, Claimed;
    var a := Asserted(t, r, w, v);
    var route := t.routes[r];
    assert Fresh(a, r, w);
    forall m | OnRoute(route, m) && m != w ensures Fresh(a, r, m) <==> (r, m) in t.assertions { }
    assert BothAsserted(a, r) <==> forall m :: OnRoute(route, m) && m != w ==> (r, m) in t.assertions;
  }
}
