/**
  Pairing arbitration in the control ledger (abt/controlplane/ledger.py): what each operation does to the
  tables, and what holds over every sequence of operations.

  A refused operation leaves the tables as they were (its transaction is rolled back).
*/
module Ledger {
  import opened Prelude

  type WorkerId = nat
  type RouteId = nat
  type ProposalId = nat

  datatype Route = Route(leader: WorkerId, follower: WorkerId, unpairing: bool)

  datatype Reservation = Reservation(leader: WorkerId, follower: WorkerId, expires: nat)

  /** The order-independent key of a pair. */
  type PairKey = set<WorkerId>

  datatype Tables = Tables(
    workers: set<WorkerId>,
    active: set<WorkerId>,
    routes: map<RouteId, Route>,
    reservations: map<ProposalId, Reservation>,
    claims: set<PairKey>,
    issued: set<RouteId>,
    versions: map<(RouteId, WorkerId), nat>,
    assertions: map<(RouteId, WorkerId), nat>)

  const Empty := Tables({}, {}, map[], map[], {}, {}, map[], map[])

  const RESERVATION_TIMEOUT := 30

  datatype Error = Refused

  function Pair(leader: WorkerId, follower: WorkerId): PairKey {
    {leader, follower}
  }

  predicate OnRoute(r: Route, w: WorkerId) {
    w == r.leader || w == r.follower
  }

  predicate InReservation(r: Reservation, w: WorkerId) {
    w == r.leader || w == r.follower
  }

  // ---- reservations ----------------------------------------------------------------------------

  predicate PairRouted(t: Tables, key: PairKey) {
    exists r :: r in t.routes && Pair(t.routes[r].leader, t.routes[r].follower) == key
  }

  /** `_release_pair_route_reservation_locked`, for any number of proposals: the reservations go, and with each
      the claim of a pair that is on no route. */
  function Release(t: Tables, proposals: set<ProposalId>): Tables {
    t.(reservations := t.reservations - proposals,
       claims := set c | c in t.claims && !(Freed(t, proposals, c)))
  }

  predicate Freed(t: Tables, proposals: set<ProposalId>, c: PairKey) {
    !PairRouted(t, c) && exists p :: p in proposals && p in t.reservations && Pair(t.reservations[p].leader, t.reservations[p].follower) == c
  }

  function Expired(t: Tables, now: nat): set<ProposalId> {
    set p | p in t.reservations && t.reservations[p].expires <= now
  }

  function Expire(t: Tables, now: nat): Tables {
    Release(t, Expired(t, now))
  }

  function HeldBy(t: Tables, w: WorkerId): set<ProposalId> {
    set p | p in t.reservations && InReservation(t.reservations[p], w)
  }

  /** `_require_pair_worker_eligibility_locked` */
  predicate Eligible(t: Tables, leader: WorkerId, follower: WorkerId, ignored: set<ProposalId>) {
    && (forall r :: r in t.routes ==> !OnRoute(t.routes[r], leader) && !OnRoute(t.routes[r], follower))
    && (forall p :: p in t.reservations && p !in ignored ==>
          !InReservation(t.reservations[p], leader) && !InReservation(t.reservations[p], follower))
    && (forall c :: c in t.claims && (leader in c || follower in c) ==> c == Pair(leader, follower))
  }

  predicate Reachable(t: Tables, connected: set<WorkerId>, leader: WorkerId, follower: WorkerId) {
    leader in t.active && follower in t.active && leader in connected && follower in connected
  }

  /** `reserve_pair_route_proposal`; the proposal id is a fresh uuid. */
  function Reserve(t: Tables, proposal: ProposalId, leader: WorkerId, follower: WorkerId, connected: set<WorkerId>, now: nat): Result<Tables, Error> {
    var e := Expire(t, now);
    if leader == follower || !Reachable(e, connected, leader, follower) || !Eligible(e, leader, follower, {}) || proposal in t.reservations
    then Err(Refused)
    else
      Ok(e.(claims := e.claims + {Pair(leader, follower)},
            reservations := e.reservations[proposal := Reservation(leader, follower, now + RESERVATION_TIMEOUT)]))
  }

  /** `_issue_pair_route_id_locked`: up to eight draws, none ever issued before. */
  function FirstUnused(issued: set<RouteId>, draws: seq<RouteId>): Option<RouteId> {
    if draws == [] then None
    else if draws[0] !in issued then Some(draws[0])
    else FirstUnused(issued, draws[1..])
  }

  const MAX_DRAWS := 8

  function Draws(draws: seq<RouteId>): seq<RouteId> {
    if |draws| <= MAX_DRAWS then draws else draws[..MAX_DRAWS]
  }

  /** `create_pair_route` inside its transaction. */
  function Commit(t: Tables, proposal: ProposalId, draws: seq<RouteId>, connected: set<WorkerId>, now: nat): Result<Tables, Error> {
    var e := Expire(t, now);
    if proposal !in e.reservations then Err(Refused)
    else
      var r := e.reservations[proposal];
      var id := FirstUnused(e.issued, Draws(draws));
      if !Reachable(e, connected, r.leader, r.follower) || !Eligible(e, r.leader, r.follower, {proposal}) || id.None? then Err(Refused)
      else
        Ok(e.(claims := e.claims + {Pair(r.leader, r.follower)},
              issued := e.issued + {id.value},
              routes := e.routes[id.value := Route(r.leader, r.follower, false)],
              reservations := e.reservations - {proposal}))
  }

  // ---- routes ----------------------------------------------------------------------------------

  predicate Routed(t: Tables, route: RouteId, w: WorkerId) {
    route in t.routes && OnRoute(t.routes[route], w)
  }

  function WithoutRoute<V>(m: map<(RouteId, WorkerId), V>, route: RouteId): map<(RouteId, WorkerId), V> {
    map k | k in m && k.0 != route :: m[k]
  }

  function WithoutWorker<V>(m: map<(RouteId, WorkerId), V>, w: WorkerId): map<(RouteId, WorkerId), V> {
    map k | k in m && k.1 != w :: m[k]
  }

  /** `enter_pair_route_unpairing`: earlier assertions are discarded, also when already unpairing. */
  function Enter(t: Tables, route: RouteId, w: WorkerId): Result<Tables, Error> {
    if !Routed(t, route, w) then Err(Refused)
    else Ok(t.(routes := t.routes[route := t.routes[route].(unpairing := true)], assertions := WithoutRoute(t.assertions, route)))
  }

  /** `cancel_pair_route_unpairing` */
  function Cancel(t: Tables, route: RouteId, w: WorkerId): Result<Tables, Error> {
    if !Routed(t, route, w) || !t.routes[route].unpairing then Err(Refused)
    else Ok(t.(routes := t.routes[route := t.routes[route].(unpairing := false)], assertions := WithoutRoute(t.assertions, route)))
  }

  predicate Backwards(t: Tables, route: RouteId, w: WorkerId, v: nat) {
    (route, w) in t.versions && v < t.versions[(route, w)]
  }

  /** `_set_pair_worker_state_version_locked`: a new version invalidates this Worker's assertion. */
  function SetVersion(t: Tables, route: RouteId, w: WorkerId, v: nat): Tables {
    var recorded := t.(versions := t.versions[(route, w) := v]);
    if (route, w) in t.versions && t.versions[(route, w)] != v && (route, w) in t.assertions && t.assertions[(route, w)] != v
    then recorded.(assertions := t.assertions - {(route, w)})
    else recorded
  }

  /** `record_pair_worker_state_version` */
  function RecordVersion(t: Tables, route: RouteId, w: WorkerId, v: nat): Result<Tables, Error> {
    if !Routed(t, route, w) || Backwards(t, route, w, v) then Err(Refused) else Ok(SetVersion(t, route, w, v))
  }

  /** `_fresh_pair_unpair_assertions_locked` */
  predicate Fresh(t: Tables, route: RouteId, w: WorkerId) {
    (route, w) in t.assertions && (route, w) in t.versions && t.assertions[(route, w)] == t.versions[(route, w)]
  }

  /** `_remove_pair_route_locked` */
  function RemoveRoute(t: Tables, route: RouteId): Tables
    requires route in t.routes
  {
    t.(routes := t.routes - {route}, assertions := WithoutRoute(t.assertions, route), versions := WithoutRoute(t.versions, route),
       claims := t.claims - {Pair(t.routes[route].leader, t.routes[route].follower)})
  }

  predicate BothAsserted(t: Tables, route: RouteId)
    requires route in t.routes
  {
    Fresh(t, route, t.routes[route].leader) && Fresh(t, route, t.routes[route].follower)
  }

  /** The assertion table with this Worker's assertion in it. */
  function Asserted(t: Tables, route: RouteId, w: WorkerId, v: nat): Tables {
    var recorded := SetVersion(t, route, w, v);
    recorded.(assertions := recorded.assertions[(route, w) := v])
  }

  /** `record_pair_unpair_assertion`: the second fresh assertion removes the route. */
  function Assert(t: Tables, route: RouteId, w: WorkerId, v: nat): Result<Tables, Error> {
    if !Routed(t, route, w) || !t.routes[route].unpairing || Backwards(t, route, w, v) then Err(Refused)
    else
      var a := Asserted(t, route, w, v);
      Ok(if BothAsserted(a, route) then RemoveRoute(a, route) else a)
  }

  /** All routes of one Worker, taken down one after the other. */
  function RemoveRoutesOf(t: Tables, w: WorkerId): Tables {
    t.(routes := map r | r in t.routes && !OnRoute(t.routes[r], w) :: t.routes[r],
       assertions := map k | k in t.assertions && !Routed(t, k.0, w) :: t.assertions[k],
       versions := map k | k in t.versions && !Routed(t, k.0, w) :: t.versions[k],
       claims := set c | c in t.claims && !(exists r :: r in t.routes && OnRoute(t.routes[r], w) && Pair(t.routes[r].leader, t.routes[r].follower) == c))
  }

  /** `delete_worker` */
  function Delete(t: Tables, w: WorkerId): Result<Tables, Error> {
    if w !in t.workers then Err(Refused)
    else
      var freed := RemoveRoutesOf(t, w);
      var released := Release(freed, HeldBy(freed, w));
      Ok(released.(versions := WithoutWorker(released.versions, w), assertions := WithoutWorker(released.assertions, w),
                   workers := t.workers - {w}, active := t.active - {w}))
  }

  /** `_drop_orphaned_pair_cell_claims`, when the ledger is opened again. */
  function Reopen(t: Tables): Tables {
    t.(claims := set c | c in t.claims && PairRouted(t, c))
  }

  // ---- operations and runs ---------------------------------------------------------------------

  datatype Op =
    | Register(worker: WorkerId)
    | Revoke(worker: WorkerId)
    | ReserveOp(proposal: ProposalId, leader: WorkerId, follower: WorkerId, connected: set<WorkerId>, now: nat)
    | CreateOp(proposal: ProposalId, draws: seq<RouteId>, connected: set<WorkerId>, now: nat)
    | ReleaseOp(proposal: ProposalId)
    | ReleaseForOp(worker: WorkerId)
    | ExpireOp(now: nat)
    | EnterOp(route: RouteId, worker: WorkerId)
    | CancelOp(route: RouteId, worker: WorkerId)
    | VersionOp(route: RouteId, worker: WorkerId, version: nat)
    | AssertOp(route: RouteId, worker: WorkerId, version: nat)
    | DeleteOp(worker: WorkerId)
    | ReopenOp

  function Apply(t: Tables, op: Op): Result<Tables, Error> {
    match op
    case Register(w) => Ok(t.(workers := t.workers + {w}, active := t.active + {w}))
    case Revoke(w) => if w in t.active then Ok(t.(active := t.active - {w})) else Err(Refused)
    case ReserveOp(p, l, f, connected, now) => Reserve(t, p, l, f, connected, now)
    case CreateOp(p, draws, connected, now) => Commit(t, p, draws, connected, now)
    case ReleaseOp(p) => Ok(Release(t, {p}))
    case ReleaseForOp(w) => Ok(Release(t, HeldBy(t, w)))
    case ExpireOp(now) => Ok(Expire(t, now))
    case EnterOp(r, w) => Enter(t, r, w)
    case CancelOp(r, w) => Cancel(t, r, w)
    case VersionOp(r, w, v) => RecordVersion(t, r, w, v)
    case AssertOp(r, w, v) => Assert(t, r, w, v)
    case DeleteOp(w) => Delete(t, w)
    case ReopenOp => Ok(Reopen(t))
  }

  /** A refused operation changes nothing, except that a failed commit releases its reservation. */
  function Step(t: Tables, op: Op): Tables {
    match Apply(t, op)
    case Ok(next) => next
    case Err(_) => if op.CreateOp? then Release(t, {op.proposal}) else t
  }

  function Run(t: Tables, ops: seq<Op>): Tables
    decreases |ops|
  {
    if ops == [] then t else Step(Run(t, ops[..|ops| - 1]), ops[|ops| - 1])
  }

  lemma {:induction false} RunAppend(t: Tables, one: seq<Op>, two: seq<Op>)
    ensures Run(t, one + two) == Run(Run(t, one), two)
    decreases |two|
  {
    if two == [] {
      assert one + two == one;
    } else {
      assert (one + two)[..|one + two| - 1] == one + two[..|two| - 1];
      RunAppend(t, one, two[..|two| - 1]);
    }
  }

  // ---- the invariant ---------------------------------------------------------------------------

  /** Where a pair of Workers can be held. */
  datatype Place = AtRoute(route: RouteId) | AtReservation(proposal: ProposalId)

  function Members(t: Tables, a: Place): PairKey {
    match a
    case AtRoute(r) => if r in t.routes then Pair(t.routes[r].leader, t.routes[r].follower) else {}
    case AtReservation(p) => if p in t.reservations then Pair(t.reservations[p].leader, t.reservations[p].follower) else {}
  }

  /** Every Worker is in at most one route or reservation. */
  ghost predicate Exclusive(t: Tables) {
    forall a, b, w :: w in Members(t, a) && w in Members(t, b) ==> a == b
  }

  /** Every claim belongs to a live route or reservation, and every route has its claim. */
  ghost predicate Claimed(t: Tables) {
    && (forall c :: c in t.claims ==> exists a :: Members(t, a) == c)
    && (forall r :: r in t.routes ==> Members(t, AtRoute(r)) in t.claims)
    && {} !in t.claims
  }

  /** Every stored assertion is fresh, by a member, on a route that is unpairing; every route was issued. */
  ghost predicate Provable(t: Tables) {
    && (forall k :: k in t.assertions ==>
          Routed(t, k.0, k.1) && t.routes[k.0].unpairing && k in t.versions && t.versions[k] == t.assertions[k])
    && (forall k :: k in t.versions ==> Routed(t, k.0, k.1))
    && (forall r :: r in t.routes ==> r in t.issued && t.routes[r].leader != t.routes[r].follower)
    && (forall p :: p in t.reservations ==> t.reservations[p].leader != t.reservations[p].follower)
  }

  ghost predicate Sound(t: Tables) {
    Exclusive(t) && Claimed(t) && Provable(t)
  }

  // ---- how the tables may change ---------------------------------------------------------------

  lemma RoutedIsMember(t: Tables, c: PairKey)
    ensures PairRouted(t, c) <==> exists r :: r in t.routes && Members(t, AtRoute(r)) == c
  {
    if PairRouted(t, c) {
      var r :| r in t.routes && Pair(t.routes[r].leader, t.routes[r].follower) == c;
      assert Members(t, AtRoute(r)) == c;
    }
    if r :| r in t.routes && Members(t, AtRoute(r)) == c {
      assert r in t.routes && Pair(t.routes[r].leader, t.routes[r].follower) == c;
    }
  }

  /** Fewer or the same pairs held. */
  lemma ShrinkExcludes(t: Tables, t': Tables)
    requires Exclusive(t) && forall a :: Members(t', a) == Members(t, a) || Members(t', a) == {}
    ensures Exclusive(t')
  {
    forall a, b, w | w in Members(t', a) && w in Members(t', b) ensures a == b {
      assert w in Members(t, a) && w in Members(t, b);
    }
  }

  /** Claims that go were held by nobody any more; claims that stay still are. */
  lemma ShrinkClaims(t: Tables, t': Tables)
    requires Claimed(t) && t'.claims <= t.claims
    requires forall a :: Members(t', a) == Members(t, a) || (Members(t', a) == {} && Members(t, a) !in t'.claims)
    requires forall r :: r in t'.routes ==> r in t.routes && Members(t', AtRoute(r)) == Members(t, AtRoute(r)) && Members(t, AtRoute(r)) in t'.claims
    ensures Claimed(t')
  {
    forall c | c in t'.claims ensures exists a :: Members(t', a) == c {
      var a :| Members(t, a) == c;
      assert Members(t', a) == c;
    }
  }

  /** Nobody's place changes. */
  lemma SamePlaces(t: Tables, t': Tables)
    requires Exclusive(t) && Claimed(t) && t'.claims == t.claims && t'.routes.Keys == t.routes.Keys
    requires forall a :: Members(t', a) == Members(t, a)
    ensures Exclusive(t') && Claimed(t')
  {
    ShrinkExcludes(t, t');
    forall c | c in t'.claims ensures exists a :: Members(t', a) == c {
      var a :| Members(t, a) == c;
      assert Members(t', a) == c;
    }
    forall r | r in t'.routes ensures Members(t', AtRoute(r)) in t'.claims { assert Members(t', AtRoute(r)) == Members(t, AtRoute(r)); }
  }

  /** Two Workers that are nowhere, or only at the place that is given up, take a new place. */
  ghost predicate Joined(t: Tables, t': Tables, at: Place, left: Place, leader: WorkerId, follower: WorkerId) {
    && (forall b :: b != left ==> leader !in Members(t, b) && follower !in Members(t, b))
    && (Members(t, left) == {} || Members(t, left) == Pair(leader, follower))
    && Members(t, at) == {}
    && Members(t', at) == Pair(leader, follower) && (left != at ==> Members(t', left) == {})
    && (forall b :: b != at && b != left ==> Members(t', b) == Members(t, b))
  }

  lemma JoinExcludes(t: Tables, t': Tables, at: Place, left: Place, leader: WorkerId, follower: WorkerId)
    requires Exclusive(t) && Joined(t, t', at, left, leader, follower)
    ensures Exclusive(t')
  {
    forall a, b, w | w in Members(t', a) && w in Members(t', b) ensures a == b {
      assert a != at && b != at ==> w in Members(t, a) && w in Members(t, b);
      assert a == at || b == at ==> w in Pair(leader, follower);
    }
  }

  lemma JoinClaims(t: Tables, t': Tables, at: Place, left: Place, leader: WorkerId, follower: WorkerId)
    requires Claimed(t) && Joined(t, t', at, left, leader, follower)
    requires t'.claims == t.claims + {Pair(leader, follower)}
    requires forall r :: r in t'.routes ==> r in t.routes || at == AtRoute(r)
    ensures Claimed(t')
  {
    assert leader in Pair(leader, follower);
    forall c | c in t'.claims ensures exists a :: Members(t', a) == c {
      if c != Pair(leader, follower) {
        var a :| Members(t, a) == c;
        assert a != at && a != left;
        assert Members(t', a) == c;
      } else {
        assert Members(t', at) == c;
      }
    }
    forall r | r in t'.routes ensures Members(t', AtRoute(r)) in t'.claims {
      if AtRoute(r) != at && AtRoute(r) != left { assert Members(t', AtRoute(r)) == Members(t, AtRoute(r)); }
      assert AtRoute(r) == left && left != at ==> Members(t, left) in t.claims;
    }
  }

  // ---- every operation keeps the invariant -----------------------------------------------------

  lemma ReleasePlaces(t: Tables, proposals: set<ProposalId>, a: Place)
    requires Exclusive(t) && Claimed(t)
    ensures var t' := Release(t, proposals);
            Members(t', a) == Members(t, a) || (Members(t', a) == {} && Members(t, a) !in t'.claims)
  {
    var t' := Release(t, proposals);
    if Members(t', a) != Members(t, a) {
      var c := Members(t, a);
      RoutedIsMember(t, c);
      var w := t.reservations[a.proposal].leader;
      assert w in Members(t, a);
      forall r | r in t.routes ensures Members(t, AtRoute(r)) != c { assert w in Members(t, AtRoute(r)) ==> a == AtRoute(r); }
      assert Freed(t, proposals, c);
    }
  }

  lemma ReleaseProvable(t: Tables, proposals: set<ProposalId>)
    requires Provable(t)
    ensures Provable(Release(t, proposals))
  {
  }

  lemma ReleaseKeepsRoutes(t: Tables, proposals: set<ProposalId>, r: RouteId)
    requires Claimed(t) && r in t.routes
    ensures Members(t, AtRoute(r)) in Release(t, proposals).claims
  {
    RoutedIsMember(t, Members(t, AtRoute(r)));
  }

  lemma ReleaseKeeps(t: Tables, proposals: set<ProposalId>)
    requires Sound(t)
    ensures Sound(Release(t, proposals))
  {
    hide Exclusive, Claimed, Provable;
    var t' := Release(t, proposals);
    forall a ensures Members(t', a) == Members(t, a) || (Members(t', a) == {} && Members(t, a) !in t'.claims) {
      ReleasePlaces(t, proposals, a);
    }
    forall r | r in t'.routes ensures Members(t, AtRoute(r)) in t'.claims && Members(t', AtRoute(r)) == Members(t, AtRoute(r)) {
      ReleaseKeepsRoutes(t, proposals, r);
    }
    ReleaseProvable(t, proposals);
    ShrinkExcludes(t, t');
    ShrinkClaims(t, t');
  }

  lemma EligibleIsNowhere(t: Tables, leader: WorkerId, follower: WorkerId, ignored: set<ProposalId>, b: Place)
    requires Eligible(t, leader, follower, ignored) && (b.AtReservation? ==> b.proposal !in ignored)
    ensures leader !in Members(t, b) && follower !in Members(t, b)
  {
  }

  /** The tables with one more reservation and its claim. */
  function Reserved(e: Tables, proposal: ProposalId, v: Reservation): Tables {
    e.(claims := e.claims + {Pair(v.leader, v.follower)}, reservations := e.reservations[proposal := v])
  }

  lemma ReservedJoins(e: Tables, proposal: ProposalId, v: Reservation)
    requires proposal !in e.reservations && Eligible(e, v.leader, v.follower, {})
    ensures Joined(e, Reserved(e, proposal, v), AtReservation(proposal), AtReservation(proposal), v.leader, v.follower)
  {
    forall b ensures v.leader !in Members(e, b) && v.follower !in Members(e, b) { EligibleIsNowhere(e, v.leader, v.follower, {}, b); }
    hide Eligible;
  }

  lemma ReservedKeeps(e: Tables, proposal: ProposalId, v: Reservation)
    requires Sound(e) && proposal !in e.reservations && v.leader != v.follower && Eligible(e, v.leader, v.follower, {})
    ensures Sound(Reserved(e, proposal, v))
  {
    hide Exclusive, Claimed, Eligible, Joined;
    ReservedJoins(e, proposal, v);
    JoinExcludes(e, Reserved(e, proposal, v), AtReservation(proposal), AtReservation(proposal), v.leader, v.follower);
    JoinClaims(e, Reserved(e, proposal, v), AtReservation(proposal), AtReservation(proposal), v.leader, v.follower);
  }

  lemma ReserveKeeps(t: Tables, proposal: ProposalId, leader: WorkerId, follower: WorkerId, connected: set<WorkerId>, now: nat)
    requires Sound(t) && Reserve(t, proposal, leader, follower, connected, now).Ok?
    ensures Sound(Reserve(t, proposal, leader, follower, connected, now).value)
  {
    hide Sound, Eligible;
    ReleaseKeeps(t, Expired(t, now));
    ReservedKeeps(Expire(t, now), proposal, Reservation(leader, follower, now + RESERVATION_TIMEOUT));
  }

  lemma FirstUnusedIsNew(issued: set<RouteId>, draws: seq<RouteId>)
    ensures FirstUnused(issued, draws).Some? ==> FirstUnused(issued, draws).value !in issued && FirstUnused(issued, draws).value in draws
    ensures FirstUnused(issued, draws).None? <==> forall k :: 0 <= k < |draws| ==> draws[k] in issued
  {
  }

  /** A committed route: the reservation becomes a route under an identifier nobody ever had. */
  function Committed(e: Tables, proposal: ProposalId, id: RouteId): Tables
    requires proposal in e.reservations
  {
    var r := e.reservations[proposal];
    e.(claims := e.claims + {Pair(r.leader, r.follower)},
       issued := e.issued + {id},
       routes := e.routes[id := Route(r.leader, r.follower, false)],
       reservations := e.reservations - {proposal})
  }

  lemma CommittedKeeps(e: Tables, proposal: ProposalId, id: RouteId)
    requires Sound(e) && proposal in e.reservations && id !in e.issued
    requires Eligible(e, e.reservations[proposal].leader, e.reservations[proposal].follower, {proposal})
    ensures Sound(Committed(e, proposal, id))
  {
    hide Exclusive, Claimed;
    var r := e.reservations[proposal];
    forall b | b != AtReservation(proposal) ensures r.leader !in Members(e, b) && r.follower !in Members(e, b) {
      EligibleIsNowhere(e, r.leader, r.follower, {proposal}, b);
    }
    JoinExcludes(e, Committed(e, proposal, id), AtRoute(id), AtReservation(proposal), r.leader, r.follower);
    JoinClaims(e, Committed(e, proposal, id), AtRoute(id), AtReservation(proposal), r.leader, r.follower);
  }

  lemma CommitKeeps(t: Tables, proposal: ProposalId, draws: seq<RouteId>, connected: set<WorkerId>, now: nat)
    requires Sound(t) && Commit(t, proposal, draws, connected, now).Ok?
    ensures Sound(Commit(t, proposal, draws, connected, now).value)
  {
    var e := Expire(t, now);
    var id := FirstUnused(e.issued, Draws(draws)).value;
    ReleaseKeeps(t, Expired(t, now));
    FirstUnusedIsNew(e.issued, Draws(draws));
    CommittedKeeps(e, proposal, id);
    hide Sound, Release, Eligible;
  }

  /** The route with its state set and its assertions gone. */
  function Flagged(t: Tables, route: RouteId, unpairing: bool): Tables
    requires route in t.routes
  {
    t.(routes := t.routes[route := t.routes[route].(unpairing := unpairing)], assertions := WithoutRoute(t.assertions, route))
  }

  lemma FlagProvable(t: Tables, route: RouteId, unpairing: bool)
    requires Provable(t) && route in t.routes
    ensures Provable(Flagged(t, route, unpairing))
  {
  }

  lemma FlagKeeps(t: Tables, route: RouteId, unpairing: bool)
    requires Sound(t) && route in t.routes
    ensures Sound(Flagged(t, route, unpairing))
  {
    hide Exclusive, Claimed, Provable;
    FlagProvable(t, route, unpairing);
    SamePlaces(t, Flagged(t, route, unpairing));
  }

  lemma VersionProvable(t: Tables, route: RouteId, w: WorkerId, v: nat)
    requires Provable(t) && Routed(t, route, w)
    ensures Provable(SetVersion(t, route, w, v))
  {
  }

  lemma VersionKeeps(t: Tables, route: RouteId, w: WorkerId, v: nat)
    requires Sound(t) && Routed(t, route, w)
    ensures Sound(SetVersion(t, route, w, v))
  {
    hide Exclusive, Claimed, Provable;
    VersionProvable(t, route, w, v);
    SamePlaces(t, SetVersion(t, route, w, v));
  }

  lemma RemoveProvable(t: Tables, route: RouteId)
    requires Provable(t) && route in t.routes
    ensures Provable(RemoveRoute(t, route))
  {
    var t' := RemoveRoute(t, route);
    forall k | k in t'.assertions ensures Routed(t', k.0, k.1) && t'.routes[k.0].unpairing && k in t'.versions && t'.versions[k] == t'.assertions[k] {
      assert k in t.assertions && k in t.versions;
    }
  }

  lemma RemoveKeeps(t: Tables, route: RouteId)
    requires Sound(t) && route in t.routes
    ensures Sound(RemoveRoute(t, route))
  {
    hide Provable;
    var t' := RemoveRoute(t, route);
    var gone := Members(t, AtRoute(route));
    assert t.routes[route].leader in gone;
    forall r | r in t'.routes ensures Members(t, AtRoute(r)) in t'.claims && Members(t', AtRoute(r)) == Members(t, AtRoute(r)) {
      assert t.routes[route].leader in Members(t, AtRoute(r)) ==> AtRoute(r) == AtRoute(route);
    }
    RemoveProvable(t, route);
    hide Exclusive, Claimed;
    ShrinkExcludes(t, t');
    ShrinkClaims(t, t');
  }

  lemma AssertedKeeps(t: Tables, route: RouteId, w: WorkerId, v: nat)
    requires Sound(t) && Routed(t, route, w) && t.routes[route].unpairing
    ensures Sound(Asserted(t, route, w, v))
  {
    hide Exclusive, Claimed;
    var s, a := SetVersion(t, route, w, v), Asserted(t, route, w, v);
    VersionKeeps(t, route, w, v);
    AssertedProvable(s, route, w, v);
    hide Provable;
    SamePlaces(s, a);
  }

  lemma AssertedProvable(s: Tables, route: RouteId, w: WorkerId, v: nat)
    requires Provable(s) && Routed(s, route, w) && s.routes[route].unpairing && (route, w) in s.versions && s.versions[(route, w)] == v
    ensures Provable(s.(assertions := s.assertions[(route, w) := v]))
  {
  }

  lemma AssertKeeps(t: Tables, route: RouteId, w: WorkerId, v: nat)
    requires Sound(t) && Assert(t, route, w, v).Ok?
    ensures Sound(Assert(t, route, w, v).value)
  {
    hide Sound;
    AssertedKeeps(t, route, w, v);
    var a := Asserted(t, route, w, v);
    hide Asserted;
    if BothAsserted(a, route) { RemoveKeeps(a, route); }
  }

  lemma RoutesRemovedProvable(t: Tables, w: WorkerId)
    requires Provable(t)
    ensures Provable(RemoveRoutesOf(t, w))
  {
    var t' := RemoveRoutesOf(t, w);
    forall k | k in t'.assertions ensures Routed(t', k.0, k.1) && t'.routes[k.0].unpairing && k in t'.versions && t'.versions[k] == t'.assertions[k] {
      assert k in t.assertions && k in t.versions;
    }
  }

  lemma RoutesRemovedPlaces(t: Tables, w: WorkerId, a: Place)
    ensures Members(RemoveRoutesOf(t, w), a) == Members(t, a) || (Members(RemoveRoutesOf(t, w), a) == {} && Members(t, a) !in RemoveRoutesOf(t, w).claims)
  {
  }

  lemma OtherRoutesStay(t: Tables, w: WorkerId, r: RouteId)
    requires Exclusive(t) && Claimed(t) && r in RemoveRoutesOf(t, w).routes
    ensures Members(t, AtRoute(r)) in RemoveRoutesOf(t, w).claims
  {
    assert Members(t, AtRoute(r)) in t.claims;
    forall s | s in t.routes && OnRoute(t.routes[s], w) ensures Members(t, AtRoute(s)) != Members(t, AtRoute(r)) {
      assert w in Members(t, AtRoute(s));
    }
  }

  lemma RoutesRemovedKeep(t: Tables, w: WorkerId)
    requires Sound(t)
    ensures Sound(RemoveRoutesOf(t, w))
  {
    hide Exclusive, Claimed, Provable;
    var t' := RemoveRoutesOf(t, w);
    forall r | r in t'.routes ensures Members(t, AtRoute(r)) in t'.claims && Members(t', AtRoute(r)) == Members(t, AtRoute(r)) {
      OtherRoutesStay(t, w, r);
    }
    forall a ensures Members(t', a) == Members(t, a) || (Members(t', a) == {} && Members(t, a) !in t'.claims) {
      RoutesRemovedPlaces(t, w, a);
    }
    RoutesRemovedProvable(t, w);
    ShrinkExcludes(t, t');
    ShrinkClaims(t, t');
  }

  lemma ForgottenKeeps(t: Tables, w: WorkerId)
    requires Sound(t) && (forall a :: w !in Members(t, a))
    ensures Sound(t.(versions := WithoutWorker(t.versions, w), assertions := WithoutWorker(t.assertions, w),
                     workers := t.workers - {w}, active := t.active - {w}))
  {
    hide Exclusive, Claimed;
    SamePlaces(t, t.(versions := WithoutWorker(t.versions, w), assertions := WithoutWorker(t.assertions, w),
                     workers := t.workers - {w}, active := t.active - {w}));
  }

  /** Nothing holds the Worker any more. */
  lemma DeletedIsNowhere(t: Tables, w: WorkerId, a: Place)
    ensures var freed := RemoveRoutesOf(t, w);
            w !in Members(Release(freed, HeldBy(freed, w)), a)
  {
  }

  lemma DeleteKeeps(t: Tables, w: WorkerId)
    requires Sound(t) && Delete(t, w).Ok?
    ensures Sound(Delete(t, w).value)
  {
    hide Sound;
    var freed := RemoveRoutesOf(t, w);
    var released := Release(freed, HeldBy(freed, w));
    RoutesRemovedKeep(t, w);
    ReleaseKeeps(freed, HeldBy(freed, w));
    forall a ensures w !in Members(released, a) { DeletedIsNowhere(t, w, a); }
    hide RemoveRoutesOf, Release, HeldBy, WithoutWorker, Members;
    DeletedRoster(t, w);
    ForgottenKeeps(released, w);
  }

  lemma DeletedRoster(t: Tables, w: WorkerId)
    ensures var freed := RemoveRoutesOf(t, w);
            var released := Release(freed, HeldBy(freed, w));
            released.workers == t.workers && released.active == t.active
  {
  }

  lemma ReopenClaims(t: Tables)
    requires Claimed(t)
    ensures Claimed(Reopen(t))
  {
    var t' := Reopen(t);
    forall r | r in t'.routes ensures Members(t', AtRoute(r)) in t'.claims { RoutedIsMember(t, Members(t, AtRoute(r))); }
    forall c | c in t'.claims ensures exists a :: Members(t', a) == c {
      var a :| Members(t, a) == c;
      assert Members(t', a) == c;
    }
  }

  lemma ReopenKeeps(t: Tables)
    requires Sound(t)
    ensures Sound(Reopen(t))
  {
    hide Exclusive, Claimed;
    ReopenClaims(t);
    ShrinkExcludes(t, Reopen(t));
  }

  lemma RosterKeeps(t: Tables, workers: set<WorkerId>, active: set<WorkerId>)
    requires Sound(t)
    ensures Sound(t.(workers := workers, active := active))
  {
    hide Exclusive, Claimed;
    assert forall a :: Members(t.(workers := workers, active := active), a) == Members(t, a);
    SamePlaces(t, t.(workers := workers, active := active));
  }

  lemma ApplyKeeps(t: Tables, op: Op)
    requires Sound(t) && Apply(t, op).Ok?
    ensures Sound(Apply(t, op).value)
  {
    hide Sound, Release, Commit, Reserve, Assert, Delete, Reopen, SetVersion;
    match op {
      case Register(_) => RosterKeeps(t, Apply(t, op).value.workers, Apply(t, op).value.active);
      case Revoke(_) => RosterKeeps(t, Apply(t, op).value.workers, Apply(t, op).value.active);
      case ReserveOp(p, l, f, connected, now) => ReserveKeeps(t, p, l, f, connected, now);
      case CreateOp(p, draws, connected, now) => CommitKeeps(t, p, draws, connected, now);
      case ReleaseOp(p) => ReleaseKeeps(t, {p});
      case ReleaseForOp(w) => ReleaseKeeps(t, HeldBy(t, w));
      case ExpireOp(now) => ReleaseKeeps(t, Expired(t, now));
      case EnterOp(r, w) => FlagKeeps(t, r, true);
      case CancelOp(r, w) => FlagKeeps(t, r, false);
      case VersionOp(r, w, v) => VersionKeeps(t, r, w, v);
      case AssertOp(r, w, v) => AssertKeeps(t, r, w, v);
      case DeleteOp(w) => DeleteKeeps(t, w);
      case ReopenOp => ReopenKeeps(t);
    }
  }

  lemma StepKeeps(t: Tables, op: Op)
    requires Sound(t)
    ensures Sound(Step(t, op))
  {
    hide Sound, Apply;
    if Apply(t, op).Ok? {
      ApplyKeeps(t, op);
    } else if op.CreateOp? {
      ReleaseKeeps(t, {op.proposal});
    }
  }

  lemma {:induction false} RunKeeps(t: Tables, ops: seq<Op>)
    requires Sound(t)
    ensures Sound(Run(t, ops))
    decreases |ops|
  {
    hide Sound, Step;
    if ops != [] {
      RunKeeps(t, ops[..|ops| - 1]);
      StepKeeps(Run(t, ops[..|ops| - 1]), ops[|ops| - 1]);
    }
  }

  lemma EverSound(ops: seq<Op>)
    ensures Sound(Run(Empty, ops))
  {
    assert Sound(Empty);
    hide Sound;
    RunKeeps(Empty, ops);
  }
}
