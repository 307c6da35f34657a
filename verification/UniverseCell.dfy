/**
  One side of the discovery protocol as the object it is (abt/pair_cell.py): the methods update the cell's
  fields and rows, and each is the step of `Universe` it is named after.
*/
module UniverseCell {
  import opened Prelude
  import opened Universe

  class DiscoverySide {
    const side: Side
    const compat: Compatibility

    var rows: map<nat, Generation>
    var epoch: nat
    var installed: Option<Generation>
    var version: nat
    var local: Option<Catalog>
    var peer: Option<Catalog>
    var staged: Option<Generation>
    var pending: Option<Generation>
    var sent: set<Msg>

    function View(): Cell
      reads this
    {
      Cell(rows, epoch, installed, version, local, peer, staged, pending)
    }

    /** The pair, seen from here, with any other side. */
    function Seen(other: Cell): Pair
      reads this
    {
      if side == LeaderSide then Pair(View(), other, sent) else Pair(other, View(), sent)
    }

    /** The pair is in agreement if the other side is `other`. */
    ghost predicate AgreesWith(other: Cell)
      reads this
    {
      Agreement(compat, Seen(other))
    }

    lemma StepsAgree(a: Action)
      ensures forall other :: AgreesWith(other) ==> Agreement(compat, Step(compat, Seen(other), a))
    {
      hide Agreement, Step;
      forall other | AgreesWith(other) ensures Agreement(compat, Step(compat, Seen(other), a)) {
        StepAgrees(compat, Seen(other), a);
      }
    }

    constructor (side: Side, compat: Compatibility)
      ensures this.side == side && this.compat == compat && View() == FreshCell && sent == {}
      ensures AgreesWith(FreshCell)
    {
      this.side, this.compat := side, compat;
      rows, epoch, installed, version := map[], 1, None, 0;
      local, peer, staged, pending, sent := None, None, None, None, {};
      new;
      EverAgreed(compat, []);
      assert Seen(FreshCell) == Run(compat, Start, []);
    }

    /** `_accept_local_catalog` */
    method AcceptLocalCatalog(entries: seq<nat>)
      modifies this
      ensures forall other :: Seen(other) == StepLocalCatalog(old(Seen(other)), side, entries)
      ensures forall other :: old(AgreesWith(other)) ==> AgreesWith(other)
      ensures if old(local).Some? && old(local).value.entries == entries then View() == old(View()) && sent == old(sent)
              else
                && View() == old(View()).(version := old(version) + 1, local := Some(Catalog(epoch, old(version) + 1, entries)))
                && sent == old(sent) + {CatalogMsg(side, local.value)}
    {
      hide Agreement;
      StepsAgree(LocalCatalog(side, entries));
      if local.Some? && local.value.entries == entries { return; }
      version := version + 1;
      local := Some(Catalog(epoch, version, entries));
      sent := sent + {CatalogMsg(side, local.value)};
    }

    /** `_accept_peer_catalog` */
    method AcceptPeerCatalog(catalog: Catalog)
      requires CatalogMsg(Other(side), catalog) in sent
      modifies this
      ensures forall other :: Seen(other) == StepTakeCatalog(old(Seen(other)), side, catalog)
      ensures forall other :: old(AgreesWith(other)) ==> AgreesWith(other)
      ensures View() == old(View()).(peer := peer) && sent == old(sent)
      ensures peer == if old(peer).None? || old(peer).value.epoch < catalog.epoch
                         || (old(peer).value.epoch == catalog.epoch && old(peer).value.version < catalog.version)
                      then Some(catalog) else old(peer)
    {
      hide Agreement;
      StepsAgree(TakeCatalog(side, catalog));
      if peer.Some? && !Before(peer.value, catalog) { return; }
      peer := Some(catalog);
    }

    /** `_next_universe_generation` */
    method NextGeneration() returns (n: nat)
      ensures n == NextNumber(View())
      ensures installed.Some? ==> installed.value.number < n
      ensures (forall g :: g in rows ==> rows[g].number == g) ==> forall g :: g in rows ==> g < n
      ensures n == 1 || (installed.Some? && installed.value.number == n - 1) || exists g :: g in rows && rows[g].number == n - 1
    {
      var stored := Newest(rows);
      var current: nat := if stored.Some? then stored.value.number else 0;
      if installed.Some? && installed.value.number > current { current := installed.value.number; }
      n := current + 1;
    }

    /** `_install_universe` */
    method InstallUniverse(u: Generation)
      modifies this
      ensures View() == Install(old(View()), u) && sent == old(sent)
      ensures View() == old(View()).(rows := old(rows)[u.number := u], installed := Some(u), pending := None)
    {
      rows := rows[u.number := u];
      installed, pending := Some(u), None;
    }

    /** `_run_discovery` */
    method RunDiscovery(blocked: bool)
      requires side == LeaderSide
      modifies this
      ensures forall other :: Seen(other) == StepDiscover(compat, old(Seen(other)), blocked)
      ensures forall other :: old(AgreesWith(other)) ==> AgreesWith(other)
      ensures if local.None? || peer.None? || (old(installed).Some? && blocked) || compat(local.value, peer.value).None?
              then View() == old(View()) && sent == old(sent)
              else exists u ::
                && sent == old(sent) + {UniverseMsg(u)}
                && compat(local.value, peer.value) == Some(u.products) && u.leaderCatalog == local.value && u.followerCatalog == peer.value
                && View() == if old(installed).Some? then old(View()).(staged := Some(u))
                             else old(View()).(rows := old(rows)[u.number := u], installed := Some(u), pending := None)
    {
      hide Agreement;
      StepsAgree(Discover(blocked));
      if local.None? || peer.None? || (installed.Some? && blocked) { return; }
      var outcome := compat(local.value, peer.value);
      if outcome.None? { return; }
      var number := NextGeneration();
      var u := Generation(number, outcome.value, local.value, peer.value);
      if installed.Some? {
        staged := Some(u);
      } else {
        InstallUniverse(u);
      }
      sent := sent + {UniverseMsg(u)};
    }

    /** `_commit_staged_universe` */
    method CommitStagedUniverse(u: Generation)
      requires side == LeaderSide && AckMsg(u) in sent
      modifies this
      ensures forall other :: Seen(other) == StepTakeAck(old(Seen(other)), u)
      ensures forall other :: old(AgreesWith(other)) ==> AgreesWith(other)
      ensures sent == old(sent)
      ensures View() == if old(staged) != Some(u) then old(View())
                        else old(View()).(rows := old(rows)[u.number := u], installed := Some(u), pending := None, staged := None)
    {
      hide Agreement;
      StepsAgree(TakeAck(u));
      if staged != Some(u) { return; }
      staged := None;
      InstallUniverse(u);
    }

    /** A universe of the leader is installed and acknowledged if these catalogs give its products, else refused and dropped. */
    ghost predicate Answered(u: Generation, was: Cell, said: set<Msg>)
      requires local.Some? && peer.Some?
      reads this
    {
      if compat(peer.value, local.value) == Some(u.products)
      then View() == was.(rows := was.rows[u.number := u], installed := Some(u), pending := None) && sent == said + {AckMsg(u)}
      else View() == was.(pending := None) && sent == said + {RefusalMsg}
    }

    /** `_maybe_install_pending_universe` */
    method MaybeInstallPendingUniverse()
      requires side == FollowerSide
      modifies this
      ensures forall other :: Seen(other) == StepRetryPending(compat, old(Seen(other)))
      ensures forall other :: old(AgreesWith(other)) ==> AgreesWith(other)
      ensures if old(pending).None? || local.None? || peer.None? then View() == old(View()) && sent == old(sent)
              else Answered(old(pending).value, old(View()), old(sent))
    {
      hide Agreement;
      StepsAgree(RetryPending);
      if pending.None? || local.None? || peer.None? { return; }
      var u := pending.value;
      var outcome := compat(peer.value, local.value);
      if outcome != Some(u.products) {
        pending := None;
        sent := sent + {RefusalMsg};
        return;
      }
      InstallUniverse(u);
      sent := sent + {AckMsg(u)};
    }

    /** `_accept_universe` */
    method AcceptUniverse(u: Generation)
      requires side == FollowerSide && UniverseMsg(u) in sent
      modifies this
      ensures forall other :: Seen(other) == StepTakeUniverse(compat, old(Seen(other)), u)
      ensures forall other :: old(AgreesWith(other)) ==> AgreesWith(other)
      ensures if old(installed).Some? && u.number < old(installed).value.number then View() == old(View()) && sent == old(sent)
              else if old(installed).Some? && u.number == old(installed).value.number then
                View() == old(View()) && sent == old(sent) + {AckMsg(old(installed).value)}
              else if local.None? || peer.None? then View() == old(View()).(pending := Some(u)) && sent == old(sent)
              else Answered(u, old(View()), old(sent))
    {
      hide Agreement;
      StepsAgree(TakeUniverse(u));
      if installed.Some? && u.number < installed.value.number { return; }
      if installed.Some? && u.number == installed.value.number {
        sent := sent + {AckMsg(installed.value)};
        return;
      }
      pending := Some(u);
      MaybeInstallPendingUniverse();
    }

    /** A restart: the next publisher epoch, and the newest generation from the rows. */
    method Restart()
      modifies this
      ensures View() == Rebooted(old(View())) && sent == old(sent)
      ensures forall other :: old(AgreesWith(other)) ==> AgreesWith(other)
      ensures View() == Cell(old(rows), old(epoch) + 1, installed, 0, None, None, None, None)
      ensures if old(rows) == map[] then installed.None?
              else exists g :: g in old(rows) && installed == Some(old(rows)[g]) && forall h :: h in old(rows) ==> h <= g
    {
      hide Agreement;
      StepsAgree(Action.Restart(side));
      epoch := epoch + 1;
      installed := Newest(rows);
      version, local, peer, staged, pending := 0, None, None, None, None;
    }
  }
}
