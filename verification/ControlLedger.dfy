/**
  The control ledger as the object it is (abt/controlplane/ledger.py): its methods change the tables row by
  row inside a transaction, and a refused operation rolls the transaction back.
*/
module ControlLedgerObject {
  import opened Prelude
  import opened Ledger

  /** Releasing some proposals and then others is releasing them all. */
  lemma ReleaseTwice(t: Tables, one: set<ProposalId>, two: set<ProposalId>)
    ensures Release(Release(t, one), two) == Release(t, one + two)
  {
    var s := Release(t, one);
    assert s.reservations - two == t.reservations - (one + two);
    forall c ensures PairRouted(s, c) == PairRouted(t, c) { }
    forall c | c in t.claims ensures Freed(t, one + two, c) <==> Freed(t, one, c) || Freed(s, two, c) {
      if Freed(t, one + two, c) {
        var p :| p in one + two && p in t.reservations && Pair(t.reservations[p].leader, t.reservations[p].follower) == c;
        if p !in one { assert p in s.reservations; }
      }
    }
  }

  lemma ReleaseNothing(t: Tables)
    ensures Release(t, {}) == t
  {
    assert t.reservations - {} == t.reservations;
  }

  class ControlLedger {
    var workers: set<WorkerId>
    var active: set<WorkerId>
    var routes: map<RouteId, Route>
    var reservations: map<ProposalId, Reservation>
    var claims: set<PairKey>
    var issued: set<RouteId>
    var versions: map<(RouteId, WorkerId), nat>
    var assertions: map<(RouteId, WorkerId), nat>

    function View(): Tables
      reads this
    {
      Tables(workers, active, routes, reservations, claims, issued, versions, assertions)
    }

    constructor ()
      ensures View() == Empty
    {
      workers, active, routes, reservations := {}, {}, map[], map[];
      claims, issued, versions, assertions := {}, {}, map[], map[];
    }

    /** ROLLBACK */
    method Restore(t: Tables)
      modifies this
      ensures View() == t
    {
      workers, active, routes, reservations := t.workers, t.active, t.routes, t.reservations;
      claims, issued, versions, assertions := t.claims, t.issued, t.versions, t.assertions;
    }

    // ---- reservations --------------------------------------------------------------------------

    /** `_release_pair_route_reservation_locked` */
    method ReleaseLocked(proposal: ProposalId) returns (released: bool)
      modifies this
      ensures View() == Release(old(View()), {proposal})
      ensures released <==> proposal in old(reservations)
      ensures reservations == old(reservations) - {proposal}
    {
      released := proposal in reservations;
      if !released {
        assert reservations - {proposal} == reservations;
        return;
      }
      var r := reservations[proposal];
      var key := Pair(r.leader, r.follower);
      reservations := reservations - {proposal};
      assert PairRouted(View(), key) == PairRouted(old(View()), key);
      if !PairRouted(View(), key) {
        claims := claims - {key};
      }
      assert forall c :: Freed(old(View()), {proposal}, c) <==> !PairRouted(old(View()), c) && c == key;
    }

    /** Release a set of proposals one by one. */
    method ReleaseAll(proposals: set<ProposalId>)
      modifies this
      ensures View() == Release(old(View()), proposals)
    {
      ghost var done: set<ProposalId> := {};
      var todo := proposals;
      ReleaseNothing(View());
      while todo != {}
        invariant done + todo == proposals && done !! todo
        invariant View() == Release(old(View()), done)
        decreases todo
      {
        var p :| p in todo;
        var _ := ReleaseLocked(p);
        ReleaseTwice(old(View()), done, {p});
        done, todo := done + {p}, todo - {p};
      }
      assert done == proposals;
    }

    method ReleaseReservation(proposal: ProposalId) returns (released: bool)
      modifies this
      ensures View() == Step(old(View()), ReleaseOp(proposal))
    {
      released := ReleaseLocked(proposal);
    }

    method ReleaseReservationsFor(worker: WorkerId)
      modifies this
      ensures View() == Step(old(View()), ReleaseForOp(worker))
    {
      ReleaseAll(HeldBy(View(), worker));
    }

    method ExpireReservations(now: nat)
      modifies this
      ensures View() == Step(old(View()), ExpireOp(now))
    {
      ReleaseAll(Expired(View(), now));
    }

    /** `_require_pair_worker_eligibility_locked`: routes, then the other reservations, then the claims. */
    method CheckEligibility(leader: WorkerId, follower: WorkerId, ignored: set<ProposalId>) returns (ok: bool)
      ensures ok == Eligible(View(), leader, follower, ignored)
    {
      ok := forall r :: r in routes ==> !OnRoute(routes[r], leader) && !OnRoute(routes[r], follower);
      if !ok { return; }
      var todo := reservations.Keys;
      while todo != {}
        invariant todo <= reservations.Keys
        invariant forall p :: p in reservations && p !in todo && p !in ignored ==>
                    !InReservation(reservations[p], leader) && !InReservation(reservations[p], follower)
        decreases todo
      {
        var p :| p in todo;
        todo := todo - {p};
        if p !in ignored && (InReservation(reservations[p], leader) || InReservation(reservations[p], follower)) {
          return false;
        }
      }
      var owners := claims;
      while owners != {}
        invariant owners <= claims
        invariant forall c :: c in claims && c !in owners && (leader in c || follower in c) ==> c == Pair(leader, follower)
        decreases owners
      {
        var c :| c in owners;
        owners := owners - {c};
        if (leader in c || follower in c) && c != Pair(leader, follower) {
          return false;
        }
      }
    }

    /** `reserve_pair_route_proposal` */
    method ReserveRoute(proposal: ProposalId, leader: WorkerId, follower: WorkerId, connected: set<WorkerId>, now: nat) returns (ok: bool)
      modifies this
      ensures ok == Apply(old(View()), ReserveOp(proposal, leader, follower, connected, now)).Ok?
      ensures View() == Step(old(View()), ReserveOp(proposal, leader, follower, connected, now))
      ensures ok ==> proposal !in old(reservations) && proposal in reservations && {leader, follower} in claims
      ensures ok ==> reservations[proposal].leader == leader && reservations[proposal].follower == follower && reservations[proposal].expires == now + 30
      ensures ok ==> forall p :: p != proposal ==> (p in reservations <==> p in old(reservations) && old(reservations)[p].expires > now)
      ensures ok ==> routes == old(routes) && issued == old(issued)
      ensures !ok ==> View() == old(View())
    {
      var begin := View();
      if leader == follower || proposal in reservations {
        return false;
      }
      ReleaseAll(Expired(View(), now));
      ok := Reachable(View(), connected, leader, follower);
      if ok {
        ok := CheckEligibility(leader, follower, {});
      }
      if !ok {
        Restore(begin);
        return;
      }
      claims := claims + {Pair(leader, follower)};
      reservations := reservations[proposal := Reservation(leader, follower, now + RESERVATION_TIMEOUT)];
    }

    // ---- routes --------------------------------------------------------------------------------

    /** `_issue_pair_route_id_locked`: at most eight draws. */
    method IssueRouteId(draws: seq<RouteId>) returns (id: Option<RouteId>)
      modifies this`issued
      ensures id == FirstUnused(old(issued), Draws(draws))
      ensures issued == if id.Some? then old(issued) + {id.value} else old(issued)
      ensures id.Some? ==> id.value in draws && id.value !in old(issued)
      ensures id.None? ==> forall k :: 0 <= k < |draws| && k < 8 ==> draws[k] in issued
    {
      var tries := Draws(draws);
      var k := 0;
      while k < |tries|
        invariant 0 <= k <= |tries|
        invariant issued == old(issued)
        invariant forall j :: 0 <= j < k ==> draws[j] in issued
        invariant FirstUnused(issued, tries) == FirstUnused(issued, tries[k..])
      {
        if tries[k] !in issued {
          id := Some(tries[k]);
          issued := issued + {tries[k]};
          return;
        }
        assert tries[k..][1..] == tries[k + 1..];
        k := k + 1;
      }
      id := None;
    }

    /** `create_pair_route`: on any refusal the transaction is undone and the reservation released. */
    method CreateRoute(proposal: ProposalId, draws: seq<RouteId>, connected: set<WorkerId>, now: nat) returns (ok: bool)
      modifies this
      ensures ok == Apply(old(View()), CreateOp(proposal, draws, connected, now)).Ok?
      ensures View() == Step(old(View()), CreateOp(proposal, draws, connected, now))
      ensures ok ==> proposal in old(reservations) && proposal !in reservations && old(reservations)[proposal].expires > now
      ensures ok ==> exists id ::
                && id in draws && id !in old(issued) && issued == old(issued) + {id}
                && routes == old(routes)[id := Route(old(reservations)[proposal].leader, old(reservations)[proposal].follower, false)]
      ensures !ok ==> proposal !in reservations && routes == old(routes) && issued == old(issued)
    {
      var begin := View();
      ok := TryCreate(proposal, draws, connected, now);
      if !ok {
        Restore(begin);
        var _ := ReleaseLocked(proposal);
      }
    }

    method TryCreate(proposal: ProposalId, draws: seq<RouteId>, connected: set<WorkerId>, now: nat) returns (ok: bool)
      modifies this
      ensures ok == Commit(old(View()), proposal, draws, connected, now).Ok?
      ensures ok ==> View() == Commit(old(View()), proposal, draws, connected, now).value
      ensures ok ==> proposal in old(reservations) && proposal !in reservations && old(reservations)[proposal].expires > now
      ensures ok ==> exists id ::
                && id in draws && id !in old(issued) && issued == old(issued) + {id}
                && routes == old(routes)[id := Route(old(reservations)[proposal].leader, old(reservations)[proposal].follower, false)]
    {
      ReleaseAll(Expired(View(), now));
      if proposal !in reservations {
        return false;
      }
      var r := reservations[proposal];
      if !Reachable(View(), connected, r.leader, r.follower) {
        return false;
      }
      var eligible := CheckEligibility(r.leader, r.follower, {proposal});
      if !eligible {
        return false;
      }
      claims := claims + {Pair(r.leader, r.follower)};
      var id := IssueRouteId(draws);
      if id.None? {
        return false;
      }
      ghost var drawn := id.value;
      routes := routes[id.value := Route(r.leader, r.follower, false)];
      reservations := reservations - {proposal};
      assert drawn in draws && routes == old(routes)[drawn := Route(old(reservations)[proposal].leader, old(reservations)[proposal].follower, false)];
      ok := true;
    }

    method EnterUnpairing(route: RouteId, worker: WorkerId) returns (ok: bool)
      modifies this
      ensures ok == Apply(old(View()), EnterOp(route, worker)).Ok?
      ensures View() == Step(old(View()), EnterOp(route, worker))
      ensures ok <==> route in old(routes) && worker in {old(routes)[route].leader, old(routes)[route].follower}
      ensures ok ==> routes == old(routes)[route := old(routes)[route].(unpairing := true)]
      ensures ok ==> forall k :: k in assertions <==> k in old(assertions) && k.0 != route
    {
      ok := Routed(View(), route, worker);
      if ok {
        if !routes[route].unpairing {
          routes := routes[route := routes[route].(unpairing := true)];
        } else {
          assert routes[route := routes[route].(unpairing := true)] == routes;
        }
        assertions := WithoutRoute(assertions, route);
      }
    }

    method CancelUnpairing(route: RouteId, worker: WorkerId) returns (ok: bool)
      modifies this
      ensures ok == Apply(old(View()), CancelOp(route, worker)).Ok?
      ensures View() == Step(old(View()), CancelOp(route, worker))
      ensures ok <==> route in old(routes) && worker in {old(routes)[route].leader, old(routes)[route].follower} && old(routes)[route].unpairing
      ensures ok ==> routes == old(routes)[route := old(routes)[route].(unpairing := false)]
      ensures ok ==> forall k :: k in assertions <==> k in old(assertions) && k.0 != route
    {
      ok := Routed(View(), route, worker) && routes[route].unpairing;
      if ok {
        routes := routes[route := routes[route].(unpairing := false)];
        assertions := WithoutRoute(assertions, route);
      }
    }

    /** `_set_pair_worker_state_version_locked` */
    method SetVersionLocked(route: RouteId, worker: WorkerId, version: nat) returns (invalidated: bool)
      modifies this`versions, this`assertions
      ensures View() == SetVersion(old(View()), route, worker, version)
      ensures invalidated ==> (route, worker) !in assertions
    {
      var changed := (route, worker) in versions && versions[(route, worker)] != version;
      versions := versions[(route, worker) := version];
      invalidated := changed && (route, worker) in assertions && assertions[(route, worker)] != version;
      if invalidated {
        assertions := assertions - {(route, worker)};
      }
    }

    method RecordStateVersion(route: RouteId, worker: WorkerId, version: nat) returns (ok: bool)
      modifies this
      ensures ok == Apply(old(View()), VersionOp(route, worker, version)).Ok?
      ensures View() == Step(old(View()), VersionOp(route, worker, version))
      ensures ok <==> && route in old(routes) && worker in {old(routes)[route].leader, old(routes)[route].follower}
                      && ((route, worker) in old(versions) ==> old(versions)[(route, worker)] <= version)
      ensures ok ==> versions == old(versions)[(route, worker) := version] && routes == old(routes)
    {
      ok := Routed(View(), route, worker) && !Backwards(View(), route, worker, version);
      if ok {
        var _ := SetVersionLocked(route, worker, version);
      }
    }

    /** `_remove_pair_route_locked` */
    method RemoveRouteLocked(route: RouteId)
      requires route in routes
      modifies this
      ensures View() == RemoveRoute(old(View()), route)
    {
      var r := routes[route];
      routes := routes - {route};
      assertions := WithoutRoute(assertions, route);
      versions := WithoutRoute(versions, route);
      claims := claims - {Pair(r.leader, r.follower)};
    }

    /** `record_pair_unpair_assertion` */
    method RecordAssertion(route: RouteId, worker: WorkerId, version: nat) returns (ok: bool, removed: bool)
      modifies this
      ensures ok == Apply(old(View()), AssertOp(route, worker, version)).Ok?
      ensures View() == Step(old(View()), AssertOp(route, worker, version))
      ensures removed <==> route in old(routes) && route !in routes
      ensures ok <==> && route in old(routes) && worker in {old(routes)[route].leader, old(routes)[route].follower} && old(routes)[route].unpairing
                      && ((route, worker) in old(versions) ==> old(versions)[(route, worker)] <= version)
      ensures ok && !removed ==> routes == old(routes) && versions == old(versions)[(route, worker) := version]
      ensures ok && !removed ==> assertions == old(assertions)[(route, worker) := version]
      ensures removed ==> routes == old(routes) - {route} && forall k :: k in assertions <==> k in old(assertions) && k.0 != route
    {
      removed := false;
      ok := Routed(View(), route, worker) && routes[route].unpairing && !Backwards(View(), route, worker, version);
      if ok {
        var _ := SetVersionLocked(route, worker, version);
        assertions := assertions[(route, worker) := version];
        removed := BothAsserted(View(), route);
        if removed {
          RemoveRouteLocked(route);
        }
      }
    }

    // ---- Workers -------------------------------------------------------------------------------

    /** `delete_worker`: its routes one by one, then its reservations, then everything keyed by it. */
    method DeleteWorker(worker: WorkerId) returns (ok: bool)
      modifies this
      ensures ok == Apply(old(View()), DeleteOp(worker)).Ok?
      ensures View() == Step(old(View()), DeleteOp(worker))
    {
      ok := worker in workers;
      if !ok { return; }
      RemoveRoutesLocked(worker);
      ReleaseAll(HeldBy(View(), worker));
      versions := WithoutWorker(versions, worker);
      assertions := WithoutWorker(assertions, worker);
      workers, active := workers - {worker}, active - {worker};
    }

    method RemoveRoutesLocked(worker: WorkerId)
      modifies this
      ensures View() == RemoveRoutesOf(old(View()), worker)
    {
      ghost var was := View();
      var todo := set r | r in routes && OnRoute(routes[r], worker);
      ghost var gone: set<RouteId> := {};
      assert Without(was, {}) == was by { WithoutNothing(was); }
      while todo != {}
        invariant gone !! todo && gone + todo == (set r | r in was.routes && OnRoute(was.routes[r], worker))
        invariant View() == Without(was, gone)
        decreases todo
      {
        var r :| r in todo;
        RemoveRouteLocked(r);
        WithoutOneMore(was, gone, r);
        gone, todo := gone + {r}, todo - {r};
      }
      WithoutAllOf(was, worker, gone);
    }

    method DropOrphanedClaims()
      modifies this
      ensures View() == Step(old(View()), ReopenOp)
      ensures forall c :: c in claims <==> c in old(claims) && exists r :: r in routes && {routes[r].leader, routes[r].follower} == c
    {
      claims := set c | c in claims && PairRouted(View(), c);
    }
  }

  // ---- taking routes down one by one -------------------------------------------------------------

  /** The tables without these routes and what hangs on them. */
  function Without(t: Tables, gone: set<RouteId>): Tables {
    t.(routes := t.routes - gone,
       assertions := map k | k in t.assertions && k.0 !in gone :: t.assertions[k],
       versions := map k | k in t.versions && k.0 !in gone :: t.versions[k],
       claims := set c | c in t.claims && !(exists r :: r in gone && r in t.routes && Pair(t.routes[r].leader, t.routes[r].follower) == c))
  }

  lemma WithoutNothing(t: Tables)
    ensures Without(t, {}) == t
  {
    assert t.routes - {} == t.routes;
  }

  lemma WithoutOneMore(t: Tables, gone: set<RouteId>, r: RouteId)
    requires r in t.routes && r !in gone
    ensures r in Without(t, gone).routes && RemoveRoute(Without(t, gone), r) == Without(t, gone + {r})
  {
    var s := Without(t, gone);
    assert s.routes - {r} == t.routes - (gone + {r});
    forall c ensures c in RemoveRoute(s, r).claims <==> c in Without(t, gone + {r}).claims { }
  }

  lemma WithoutAllOf(t: Tables, w: WorkerId, gone: set<RouteId>)
    requires gone == set r | r in t.routes && OnRoute(t.routes[r], w)
    ensures Without(t, gone) == RemoveRoutesOf(t, w)
  {
    forall k: (RouteId, WorkerId) ensures k.0 in gone <==> Routed(t, k.0, w) { }
    forall r ensures r in gone <==> r in t.routes && OnRoute(t.routes[r], w) { }
    assert Without(t, gone).routes == RemoveRoutesOf(t, w).routes;
    assert Without(t, gone).claims == RemoveRoutesOf(t, w).claims;
  }
}
