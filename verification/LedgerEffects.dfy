/**
  What an accepted pairing operation does to the tables, entry by entry, exactly when it is accepted, and what
  follows over whole runs: who leads a route, and how a route is taken down by its members.
*/
module LedgerEffects {
  import opened Prelude
  import opened Ledger
  import opened LedgerRuns

  // ---- reservations ----------------------------------------------------------------------------

  /** Neither Worker is on a route or in a reservation that has not expired. */
  ghost predicate BothFree(t: Tables, one: WorkerId, two: WorkerId, now: nat) {
    && (forall r :: r in t.routes ==> t.routes[r].leader !in {one, two} && t.routes[r].follower !in {one, two})
    && (forall p :: p in t.reservations && t.reservations[p].expires > now ==>
          t.reservations[p].leader !in {one, two} && t.reservations[p].follower !in {one, two})
  }

  lemma ExpiredReservations(t: Tables, now: nat, p: ProposalId)
    ensures p in Expire(t, now).reservations <==> p in t.reservations && t.reservations[p].expires > now
    ensures p in Expire(t, now).reservations ==> Expire(t, now).reservations[p] == t.reservations[p]
  {
    hide Freed, PairRouted;
  }

  lemma ExpireTouches(t: Tables, now: nat)
    ensures var e := Expire(t, now);
            e.routes == t.routes && e.issued == t.issued && e.versions == t.versions && e.assertions == t.assertions
            && e.workers == t.workers && e.active == t.active
  {
  }

  /** A claim of a Worker that is nowhere would belong to nobody. */
  lemma FreeHaveNoClaim(e: Tables, w: WorkerId, c: PairKey)
    requires Claimed(e) && c in e.claims && forall a :: w !in Members(e, a)
    ensures w !in c
  {
    var a :| Members(e, a) == c;
  }

  lemma FreeIsEligible(t: Tables, one: WorkerId, two: WorkerId, now: nat)
    requires Sound(t)
    ensures Eligible(Expire(t, now), one, two, {}) <==> BothFree(t, one, two, now)
  {
    hide Exclusive, Claimed, Provable;
    var e := Expire(t, now);
    ReleaseKeeps(t, Expired(t, now));
    ExpireTouches(t, now);
    forall p ensures p in e.reservations <==> p in t.reservations && t.reservations[p].expires > now { ExpiredReservations(t, now, p); }
    forall p | p in e.reservations ensures e.reservations[p] == t.reservations[p] { ExpiredReservations(t, now, p); }
    hide Expire;
    if BothFree(t, one, two, now) {
      forall a ensures one !in Members(e, a) && two !in Members(e, a) { }
      forall c | c in e.claims ensures one !in c && two !in c {
        FreeHaveNoClaim(e, one, c);
        FreeHaveNoClaim(e, two, c);
      }
    }
  }

  /** A reservation is accepted exactly if the two Workers differ, are active and connected, and are on no route
      and in no live reservation. */
  lemma ReservesIff(t: Tables, p: ProposalId, l: WorkerId, f: WorkerId, connected: set<WorkerId>, now: nat)
    requires Sound(t) && p !in t.reservations
    ensures Apply(t, ReserveOp(p, l, f, connected, now)).Ok? <==>
              l != f && {l, f} <= t.active && {l, f} <= connected && BothFree(t, l, f, now)
  {
    FreeIsEligible(t, l, f, now);
    ExpireTouches(t, now);
    hide Sound, Eligible, BothFree, Expire;
  }

  /** It adds one reservation, of this leader and this follower, for thirty seconds; live ones stay, expired ones go;
      the pair is claimed, and nothing else changes. */
  lemma ReservesExactly(t: Tables, p: ProposalId, l: WorkerId, f: WorkerId, connected: set<WorkerId>, now: nat)
    requires Apply(t, ReserveOp(p, l, f, connected, now)).Ok?
    ensures var t' := Apply(t, ReserveOp(p, l, f, connected, now)).value;
            && p !in t.reservations && p in t'.reservations
            && t'.reservations[p].leader == l && t'.reservations[p].follower == f && t'.reservations[p].expires == now + 30
            && (forall q :: q != p ==> (q in t'.reservations <==> q in t.reservations && t.reservations[q].expires > now))
            && (forall q :: q != p && q in t'.reservations ==> t'.reservations[q] == t.reservations[q])
            && {l, f} in t'.claims && (forall c :: c in t'.claims ==> c in t.claims || c == {l, f})
            && t'.routes == t.routes && t'.issued == t.issued && t'.versions == t.versions && t'.assertions == t.assertions
            && t'.workers == t.workers && t'.active == t.active
  {
    ExpireTouches(t, now);
    forall q ensures q in Expire(t, now).reservations <==> q in t.reservations && t.reservations[q].expires > now { ExpiredReservations(t, now, q); }
    hide Eligible, Freed, PairRouted;
  }

  /** Releasing gives up this reservation and its claim, and nothing else. */
  lemma ReleasesExactly(t: Tables, p: ProposalId)
    requires Sound(t)
    ensures var t' := Step(t, ReleaseOp(p));
            && t' == t.(reservations := t'.reservations, claims := t'.claims)
            && (forall q :: q in t'.reservations <==> q in t.reservations && q != p)
            && (forall q :: q in t'.reservations ==> t'.reservations[q] == t.reservations[q])
            && (forall c :: c in t'.claims <==> c in t.claims && !(p in t.reservations && c == {t.reservations[p].leader, t.reservations[p].follower}))
  {
    if p in t.reservations {
      var l := t.reservations[p].leader;
      assert l in Members(t, AtReservation(p));
      forall r | r in t.routes ensures Pair(t.routes[r].leader, t.routes[r].follower) != Members(t, AtReservation(p)) {
        assert l !in Members(t, AtRoute(r));
      }
    }
    hide Claimed, Provable;
  }

  /** A revoked Worker is not paired until it is registered again. */
  lemma RevokedIsNotPaired(t: Tables, w: WorkerId, p: ProposalId, l: WorkerId, f: WorkerId, draws: seq<RouteId>, connected: set<WorkerId>, now: nat)
    requires w in {l, f}
    ensures var t' := Step(t, Revoke(w));
            && w !in t'.active && t'.workers == t.workers && (forall v :: v != w ==> (v in t'.active <==> v in t.active))
            && Apply(t', ReserveOp(p, l, f, connected, now)).Err?
            && (p in t'.reservations && t'.reservations[p].leader == l && t'.reservations[p].follower == f ==> Apply(t', CreateOp(p, draws, connected, now)).Err?)
    ensures w in Step(t, Register(w)).active && w in Step(t, Register(w)).workers
  {
    var t' := Step(t, Revoke(w));
    ExpireTouches(t', now);
    ExpiredReservations(t', now, p);
    hide Expire, Eligible, FirstUnused;
  }

  // ---- routes ----------------------------------------------------------------------------------

  /** Some of the first eight draws was never issued. */
  predicate Drawable(t: Tables, draws: seq<RouteId>) {
    exists k :: 0 <= k < |draws| && k < 8 && draws[k] !in t.issued
  }

  lemma DrawnIff(issued: set<RouteId>, draws: seq<RouteId>)
    ensures FirstUnused(issued, Draws(draws)).Some? <==> exists k :: 0 <= k < |draws| && k < 8 && draws[k] !in issued
  {
    FirstUnusedIsNew(issued, Draws(draws));
    if k :| 0 <= k < |draws| && k < 8 && draws[k] !in issued { assert Draws(draws)[k] == draws[k]; }
    if k :| 0 <= k < |Draws(draws)| && Draws(draws)[k] !in issued { assert draws[k] == Draws(draws)[k]; }
  }

  lemma HolderIsEligible(t: Tables, p: ProposalId, now: nat)
    requires Sound(t) && p in Expire(t, now).reservations
    ensures var e := Expire(t, now);
            Eligible(e, e.reservations[p].leader, e.reservations[p].follower, {p})
  {
    var e := Expire(t, now);
    ReleaseKeeps(t, Expired(t, now));
    hide Expire, Provable;
    var (l, f) := (e.reservations[p].leader, e.reservations[p].follower);
    assert l in Members(e, AtReservation(p)) && f in Members(e, AtReservation(p));
    forall r | r in e.routes ensures !OnRoute(e.routes[r], l) && !OnRoute(e.routes[r], f) {
      assert l !in Members(e, AtRoute(r)) && f !in Members(e, AtRoute(r));
    }
    forall q | q in e.reservations && q != p ensures !InReservation(e.reservations[q], l) && !InReservation(e.reservations[q], f) {
      assert l !in Members(e, AtReservation(q)) && f !in Members(e, AtReservation(q));
    }
    forall c | c in e.claims && (l in c || f in c) ensures c == Pair(l, f) {
      var a :| Members(e, a) == c;
      assert a == AtReservation(p);
    }
  }

  /** A commit is accepted exactly if its reservation is live, both its Workers are active and connected, and one of
      eight draws is unused: the reservation already keeps everyone else away. */
  lemma CommitsIff(t: Tables, p: ProposalId, draws: seq<RouteId>, connected: set<WorkerId>, now: nat)
    requires Sound(t)
    ensures Apply(t, CreateOp(p, draws, connected, now)).Ok? <==>
              && p in t.reservations && t.reservations[p].expires > now && Drawable(t, draws)
              && var both := {t.reservations[p].leader, t.reservations[p].follower};
                 both <= t.active && both <= connected
  {
    ExpiredReservations(t, now, p);
    ExpireTouches(t, now);
    DrawnIff(t.issued, draws);
    if p in Expire(t, now).reservations { HolderIsEligible(t, p, now); }
    hide Sound, Eligible, Expire, FirstUnused;
  }

  /** It adds one route, under an identifier nobody ever had, of the reservation's leader and follower in that order,
      not unpairing and without versions or assertions; the reservation is used up; no other route changes. */
  lemma CommitsExactly(t: Tables, p: ProposalId, draws: seq<RouteId>, connected: set<WorkerId>, now: nat)
    requires Sound(t) && Apply(t, CreateOp(p, draws, connected, now)).Ok?
    ensures var t' := Apply(t, CreateOp(p, draws, connected, now)).value;
            exists id :: NewRoute(t, t', p, id, now) && id in draws
  {
    var t' := Apply(t, CreateOp(p, draws, connected, now)).value;
    ExpireTouches(t, now);
    forall q ensures q in Expire(t, now).reservations <==> q in t.reservations && t.reservations[q].expires > now { ExpiredReservations(t, now, q); }
    forall q | q in Expire(t, now).reservations ensures Expire(t, now).reservations[q] == t.reservations[q] { ExpiredReservations(t, now, q); }
    FirstUnusedIsNew(t.issued, Draws(draws));
    var id := FirstUnused(t.issued, Draws(draws)).value;
    assert id in draws;
    hide Exclusive, Claimed, Eligible, Expire, FirstUnused;
    assert NewRoute(t, t', p, id, now);
  }

  ghost predicate NewRoute(t: Tables, t': Tables, p: ProposalId, id: RouteId, now: nat) {
    && p in t.reservations && t.reservations[p].expires > now
    && id !in t.issued && t'.issued == t.issued + {id} && id !in t.routes
    && id in t'.routes && t'.routes[id].leader == t.reservations[p].leader && t'.routes[id].follower == t.reservations[p].follower
    && !t'.routes[id].unpairing
    && (forall r :: r != id ==> (r in t'.routes <==> r in t.routes))
    && (forall r :: r in t.routes ==> r in t'.routes && t'.routes[r] == t.routes[r])
    && (forall w :: (id, w) !in t'.versions && (id, w) !in t'.assertions)
    && t'.versions == t.versions && t'.assertions == t.assertions && t'.workers == t.workers && t'.active == t.active
    && (forall q :: q in t'.reservations <==> q in t.reservations && q != p && t.reservations[q].expires > now)
    && (forall q :: q in t'.reservations ==> t'.reservations[q] == t.reservations[q])
    && {t.reservations[p].leader, t.reservations[p].follower} in t'.claims
  }

  // ---- where routes come from ------------------------------------------------------------------

  /** Operation `k` is the accepted reservation `p` of these Workers, in these roles. */
  ghost predicate ReservedBy(ops: seq<Op>, k: nat, p: ProposalId, l: WorkerId, f: WorkerId, expires: nat) {
    && k < |ops| && ops[k].ReserveOp? && Accepted(ops, k)
    && ops[k].proposal == p && ops[k].leader == l && ops[k].follower == f && expires == ops[k].now + 30
  }

  /** Operation `j` is its accepted commit, in time. */
  ghost predicate CreatedBy(ops: seq<Op>, k: nat, j: nat, l: WorkerId, f: WorkerId) {
    && k < j < |ops| && ops[j].CreateOp? && Accepted(ops, j)
    && exists expires: nat :: ReservedBy(ops, k, ops[j].proposal, l, f, expires) && ops[j].now < expires
  }

  lemma ReservedLonger(ops: seq<Op>, k: nat, p: ProposalId, l: WorkerId, f: WorkerId, expires: nat)
    requires ops != [] && ReservedBy(ops[..|ops| - 1], k, p, l, f, expires)
    ensures ReservedBy(ops, k, p, l, f, expires)
  {
    AcceptedPrefix(ops, k);
  }

  lemma CreatedLonger(ops: seq<Op>, k: nat, j: nat, l: WorkerId, f: WorkerId)
    requires ops != [] && CreatedBy(ops[..|ops| - 1], k, j, l, f)
    ensures CreatedBy(ops, k, j, l, f)
  {
    hide Accepted, ReservedBy;
    AcceptedPrefix(ops, j);
    var expires: nat :| ReservedBy(ops[..|ops| - 1], k, ops[j].proposal, l, f, expires) && ops[j].now < expires;
    ReservedLonger(ops, k, ops[j].proposal, l, f, expires);
  }

  lemma LastAccepted(ops: seq<Op>)
    requires ops != []
    ensures Run(Empty, ops) == Step(Run(Empty, ops[..|ops| - 1]), ops[|ops| - 1])
    ensures Accepted(ops, |ops| - 1) == Apply(Run(Empty, ops[..|ops| - 1]), ops[|ops| - 1]).Ok?
  {
    hide Step, Apply;
  }

  /** What one operation can leave in the reservation table: its own entry, or what was there. */
  lemma StepReservations(t: Tables, op: Op, p: ProposalId)
    requires p in Step(t, op).reservations
    ensures (p in t.reservations && Step(t, op).reservations[p] == t.reservations[p])
            || (op.ReserveOp? && op.proposal == p && Apply(t, op).Ok?)
  {
    hide Eligible, Reachable, FirstUnused, Freed, PairRouted;
  }

  /** Every reservation was made by an accepted operation that named its Workers in their roles. */
  lemma {:induction false} ReservationsAreReserved(ops: seq<Op>, p: ProposalId)
    requires p in Run(Empty, ops).reservations
    ensures var v := Run(Empty, ops).reservations[p];
            exists k: nat :: ReservedBy(ops, k, p, v.leader, v.follower, v.expires)
    decreases |ops|
  {
    if ops != [] {
      var n := |ops| - 1;
      var t := Run(Empty, ops[..n]);
      var v := Run(Empty, ops).reservations[p];
      LastAccepted(ops);
      StepReservations(t, ops[n], p);
      hide Run, Accepted;
      if p in t.reservations && v == t.reservations[p] {
        hide Step, Apply;
        ReservationsAreReserved(ops[..n], p);
        var k: nat :| ReservedBy(ops[..n], k, p, v.leader, v.follower, v.expires);
        ReservedLonger(ops, k, p, v.leader, v.follower, v.expires);
      } else {
        ReservesExactly(t, p, ops[n].leader, ops[n].follower, ops[n].connected, ops[n].now);
        hide Apply;
        assert ReservedBy(ops, n, p, v.leader, v.follower, v.expires);
      }
    }
  }

  /** A route that was not there before comes from an accepted commit; roles never change. */
  lemma StepRoutes(t: Tables, op: Op, id: RouteId)
    requires Sound(t) && id in Step(t, op).routes
    ensures (id in t.routes && t.routes[id].leader == Step(t, op).routes[id].leader && t.routes[id].follower == Step(t, op).routes[id].follower)
            || (op.CreateOp? && Apply(t, op).Ok? && NewRoute(t, Step(t, op), op.proposal, id, op.now))
  {
    hide Exclusive, Claimed;
    StepOnward(t, op);
    if id !in t.routes {
      OnlyCommitsAdd(t, op, id);
      CommitsExactly(t, op.proposal, op.draws, op.connected, op.now);
      var one :| NewRoute(t, Step(t, op), op.proposal, one, op.now);
      assert one == id;
    } else {
      assert id in t.issued;
    }
  }

  lemma OnlyCommitsAdd(t: Tables, op: Op, id: RouteId)
    requires id in Step(t, op).routes && id !in t.routes
    ensures op.CreateOp? && Apply(t, op).Ok?
  {
    hide Eligible, Reachable, FirstUnused, Freed, PairRouted, Assert;
    if op.AssertOp? && Apply(t, op).Ok? { AssertAddsNoRoute(t, op.route, op.worker, op.version); }
  }

  lemma AssertAddsNoRoute(t: Tables, r: RouteId, w: WorkerId, v: nat)
    requires Assert(t, r, w, v).Ok?
    ensures Assert(t, r, w, v).value.routes.Keys <= t.routes.Keys
  {
  }

  /** The route that comes from reserving a leader and a follower is led by that leader: every route of every run was
      created by an accepted commit, within thirty seconds of an accepted reservation of the same proposal that named
      its leader as the leader and its follower as the follower. */
  lemma {:induction false} RoutesKeepTheirRoles(ops: seq<Op>, id: RouteId)
    requires id in Run(Empty, ops).routes
    ensures var r := Run(Empty, ops).routes[id];
            exists k: nat, j: nat :: CreatedBy(ops, k, j, r.leader, r.follower)
    decreases |ops|
  {
    if ops != [] {
      var n := |ops| - 1;
      var init := ops[..n];
      var t := Run(Empty, init);
      var r := Run(Empty, ops).routes[id];
      LastAccepted(ops);
      EverSound(init);
      StepRoutes(t, ops[n], id);
      hide Run, Step, Apply, Sound, Accepted;
      if id in t.routes && t.routes[id].leader == r.leader && t.routes[id].follower == r.follower {
        RoutesKeepTheirRoles(init, id);
        var k: nat, j: nat :| CreatedBy(init, k, j, r.leader, r.follower);
        CreatedLonger(ops, k, j, r.leader, r.follower);
      } else {
        var p := ops[n].proposal;
        ReservationsAreReserved(init, p);
        var k: nat :| ReservedBy(init, k, p, r.leader, r.follower, t.reservations[p].expires);
        ReservedLonger(ops, k, p, r.leader, r.follower, t.reservations[p].expires);
        assert CreatedBy(ops, k, n, r.leader, r.follower);
      }
    }
  }

  // ---- how a route is taken down ---------------------------------------------------------------

  /** Versions that a member of the route may report now. */
  predicate Reportable(t: Tables, r: RouteId, w: WorkerId, v: nat) {
    (r, w) in t.versions ==> t.versions[(r, w)] <= v
  }

  /** From any state of a live route its two members can take it down, in either order and from their next versions
      on: one of them enters unpairing, both assert, and every trace of the route is gone. */
  lemma UnpairingCompletes(t: Tables, r: RouteId, w: WorkerId, first: WorkerId, second: WorkerId, v: nat, u: nat)
    requires Sound(t) && r in t.routes && w in {first, second} && {first, second} == {t.routes[r].leader, t.routes[r].follower}
    requires Reportable(t, r, first, v) && Reportable(t, r, second, u)
    ensures var ops := [EnterOp(r, w), AssertOp(r, first, v), AssertOp(r, second, u)];
            var t' := Run(t, ops);
            && r !in t'.routes && {first, second} !in t'.claims
            && (forall m :: (r, m) !in t'.versions && (r, m) !in t'.assertions)
            && (forall q :: q != r && q in t.routes ==> q in t'.routes && t'.routes[q] == t.routes[q])
            && t'.reservations == t.reservations && t'.issued == t.issued
  {
    var a, b, c := EnterOp(r, w), AssertOp(r, first, v), AssertOp(r, second, u);
    assert t.routes[r].leader != t.routes[r].follower;
    var t1 := EnteredState(t, r, w);
    var t2 := FirstAsserted(t1, r, first, second, v);
    var t3 := SecondAsserted(t2, r, first, second, v, u);
    ThreeSteps(t, a, b, c);
    hide Sound, Apply;
  }

  lemma ThreeSteps(t: Tables, a: Op, b: Op, c: Op)
    ensures Run(t, [a, b, c]) == Step(Step(Step(t, a), b), c)
  {
    hide Step;
    assert [a, b, c][..2] == [a, b] && [a, b][..1] == [a] && [a][..0] == [];
    assert Run(t, [a]) == Step(Run(t, []), a);
    assert Run(t, [a, b]) == Step(Run(t, [a]), b);
  }

  lemma EnteredState(t: Tables, r: RouteId, w: WorkerId) returns (t': Tables)
    requires Routed(t, r, w)
    ensures t' == Step(t, EnterOp(r, w))
    ensures t' == t.(routes := t'.routes, assertions := t'.assertions)
    ensures r in t'.routes && t'.routes[r].unpairing && t'.routes[r].leader == t.routes[r].leader && t'.routes[r].follower == t.routes[r].follower
    ensures forall q :: q != r ==> (q in t'.routes <==> q in t.routes) && (q in t.routes ==> t'.routes[q] == t.routes[q])
    ensures forall m :: (r, m) !in t'.assertions
  {
    t' := Step(t, EnterOp(r, w));
  }

  lemma FirstAsserted(t: Tables, r: RouteId, first: WorkerId, second: WorkerId, v: nat) returns (t': Tables)
    requires r in t.routes && t.routes[r].unpairing && {first, second} == {t.routes[r].leader, t.routes[r].follower}
    requires t.routes[r].leader != t.routes[r].follower && Reportable(t, r, first, v) && (forall m :: (r, m) !in t.assertions)
    ensures t' == Step(t, AssertOp(r, first, v))
    ensures t' == t.(versions := t.versions[(r, first) := v], assertions := t.assertions[(r, first) := v])
  {
    t' := Step(t, AssertOp(r, first, v));
  }

  lemma SecondAsserted(t: Tables, r: RouteId, first: WorkerId, second: WorkerId, v: nat, u: nat) returns (t': Tables)
    requires r in t.routes && t.routes[r].unpairing && {first, second} == {t.routes[r].leader, t.routes[r].follower}
    requires first != second && Reportable(t, r, second, u)
    requires (r, first) in t.versions && (r, first) in t.assertions && t.versions[(r, first)] == t.assertions[(r, first)] == v
    ensures t' == Step(t, AssertOp(r, second, u))
    ensures r !in t'.routes && {first, second} !in t'.claims && (forall m :: (r, m) !in t'.versions && (r, m) !in t'.assertions)
    ensures forall q :: q != r && q in t.routes ==> q in t'.routes && t'.routes[q] == t.routes[q]
    ensures t'.reservations == t.reservations && t'.issued == t.issued
  {
    t' := Step(t, AssertOp(r, second, u));
  }

  /** A cancelled unpairing starts from nothing: an assertion made before it does not count, and none is accepted until
      the route enters unpairing again. */
  lemma CancelStartsOver(t: Tables, r: RouteId, w: WorkerId, m: WorkerId, v: nat)
    requires Sound(t) && Apply(t, CancelOp(r, w)).Ok?
    ensures var t' := Apply(t, CancelOp(r, w)).value;
            && r in t'.routes && t'.routes[r] == t.routes[r].(unpairing := false) && t.routes[r].unpairing
            && (forall n :: (r, n) !in t'.assertions)
            && (forall q :: q != r ==> (q in t'.routes <==> q in t.routes) && (q in t.routes ==> t'.routes[q] == t.routes[q]))
            && Apply(t', AssertOp(r, m, v)).Err?
  {
    hide Exclusive, Claimed, Provable;
  }

  /** A member may report exactly a version not below its last; the report is recorded, takes away its own assertion of
      another version, and touches nobody else's. */
  lemma VersionIsRecorded(t: Tables, r: RouteId, w: WorkerId, v: nat)
    requires Provable(t)
    ensures Apply(t, VersionOp(r, w, v)).Ok? <==>
              r in t.routes && w in {t.routes[r].leader, t.routes[r].follower} && Reportable(t, r, w, v)
    ensures Apply(t, VersionOp(r, w, v)).Ok? ==>
              var t' := Apply(t, VersionOp(r, w, v)).value;
              && t' == t.(versions := t.versions[(r, w) := v], assertions := t'.assertions)
              && (forall k :: k != (r, w) ==> (k in t'.assertions <==> k in t.assertions) && (k in t.assertions ==> t'.assertions[k] == t.assertions[k]))
              && ((r, w) in t'.assertions <==> (r, w) in t.assertions && t.assertions[(r, w)] == v)
  {
  }

  /** A deleted Worker is off the roster, everyone else is on it as before; its routes and reservations go, no other. */
  lemma DeletesExactly(t: Tables, w: WorkerId)
    ensures Apply(t, DeleteOp(w)).Ok? <==> w in t.workers
    ensures w in t.workers ==>
              var t' := Apply(t, DeleteOp(w)).value;
              && t'.workers == t.workers - {w} && t'.active == t.active - {w}
              && (forall r :: r in t'.routes <==> r in t.routes && w !in {t.routes[r].leader, t.routes[r].follower})
              && (forall r :: r in t'.routes ==> t'.routes[r] == t.routes[r])
              && (forall p :: p in t'.reservations <==> p in t.reservations && w !in {t.reservations[p].leader, t.reservations[p].follower})
              && (forall p :: p in t'.reservations ==> t'.reservations[p] == t.reservations[p])
              && t'.issued == t.issued
  {
    hide Freed;
  }
}
