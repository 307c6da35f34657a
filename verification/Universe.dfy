/**
  Agreement on discovered universes (abt/pair_cell.py): the leader stages a candidate generation, the
  follower verifies and installs it, its acknowledgement lets the leader commit.

  The relay may lose, repeat and reorder: `net` only grows, and a message that is never taken is lost.
  Hashes are injective, so an acknowledgement carries the universe it names.
*/
module Universe {
  import opened Prelude

  /** `publisher_epoch` survives restarts and grows with each; `version` starts again at zero. */
  datatype Catalog = Catalog(epoch: nat, version: nat, entries: seq<nat>)

  type Products = seq<nat>

  /** `discover_compatible_products`: nothing unless some product is admitted. */
  type Compatibility = (Catalog, Catalog) -> Option<Products>

  datatype Generation = Generation(number: nat, products: Products, leaderCatalog: Catalog, followerCatalog: Catalog)

  datatype Side = LeaderSide | FollowerSide

  /** `rows` and `epoch` are durable; the rest is lost in a crash. */
  datatype Cell = Cell(
    rows: map<nat, Generation>,
    epoch: nat,
    installed: Option<Generation>,
    version: nat,
    local: Option<Catalog>,
    peer: Option<Catalog>,
    staged: Option<Generation>,    // the leader's uncommitted candidate
    pending: Option<Generation>)   // what the follower has not verified yet

  datatype Msg =
    | CatalogMsg(from: Side, catalog: Catalog)
    | UniverseMsg(universe: Generation)
    | AckMsg(universe: Generation)
    | RefusalMsg

  datatype Pair = Pair(leader: Cell, follower: Cell, net: set<Msg>)

  datatype Action =
    | LocalCatalog(side: Side, entries: seq<nat>)
    | TakeCatalog(side: Side, catalog: Catalog)
    | Discover(blocked: bool)
    | Republish
    | TakeAck(universe: Generation)
    | DiscardStaged
    | TakeUniverse(universe: Generation)
    | RetryPending
    | AbandonPending
    | Restart(side: Side)

  const FreshCell := Cell(map[], 1, None, 0, None, None, None, None)

  const Start := Pair(FreshCell, FreshCell, {})

  function Of(p: Pair, side: Side): Cell {
    if side == LeaderSide then p.leader else p.follower
  }

  function With(p: Pair, side: Side, c: Cell): Pair {
    if side == LeaderSide then p.(leader := c) else p.(follower := c)
  }

  function Other(side: Side): Side {
    if side == LeaderSide then FollowerSide else LeaderSide
  }

  /** `CatalogSummary.ordering`: a newer session always wins. */
  predicate Before(a: Catalog, b: Catalog) {
    a.epoch < b.epoch || (a.epoch == b.epoch && a.version < b.version)
  }

  function Latest(c: Cell): nat {
    if c.installed.Some? then c.installed.value.number else 0
  }

  // ---- durable rows ----------------------------------------------------------------------------

  lemma {:induction false} GreatestExists(s: set<nat>)
    requires s != {}
    ensures exists g :: g in s && forall h :: h in s ==> h <= g
    decreases s
  {
    var x :| x in s;
    if s == {x} {
      assert x in s;
    } else {
      GreatestExists(s - {x});
      var g :| g in s - {x} && forall h :: h in s - {x} ==> h <= g;
      var m := if x < g then g else x;
      forall h | h in s ensures h <= m {
        if h != x { assert h in s - {x}; }
      }
      assert m in s;
    }
  }

  lemma NoKeysNoRows(rows: map<nat, Generation>)
    ensures rows.Keys == {} ==> rows == map[]
  {
  }

  /** The row with the greatest generation, as a restart loads it. */
  function Newest(rows: map<nat, Generation>): (r: Option<Generation>)
    ensures r.None? <==> rows == map[]
    ensures r.Some? ==> exists g :: g in rows && rows[g] == r.value && forall h :: h in rows ==> h <= g
  {
    if rows == map[] then None
    else
      NoKeysNoRows(rows);
      GreatestExists(rows.Keys);
      var g :| g in rows.Keys && forall h :: h in rows.Keys ==> h <= g;
      Some(rows[g])
  }

  function NextNumber(c: Cell): nat {
    var stored := match Newest(c.rows) case None => 0 case Some(u) => u.number;
    (if Latest(c) > stored then Latest(c) else stored) + 1
  }

  /** `_install_universe`: an upsert by generation. */
  function Install(c: Cell, u: Generation): Cell {
    c.(rows := c.rows[u.number := u], installed := Some(u), pending := None)
  }

  // ---- the steps -------------------------------------------------------------------------------

  /** `_accept_local_catalog` */
  function StepLocalCatalog(p: Pair, side: Side, entries: seq<nat>): Pair {
    var c := Of(p, side);
    if c.local.Some? && c.local.value.entries == entries then p
    else
      var catalog := Catalog(c.epoch, c.version + 1, entries);
      With(p, side, c.(version := c.version + 1, local := Some(catalog))).(net := p.net + {CatalogMsg(side, catalog)})
  }

  /** `_accept_peer_catalog` */
  function StepTakeCatalog(p: Pair, side: Side, catalog: Catalog): Pair {
    var c := Of(p, side);
    if CatalogMsg(Other(side), catalog) !in p.net then p
    else if c.peer.Some? && !Before(c.peer.value, catalog) then p
    else With(p, side, c.(peer := Some(catalog)))
  }

  /** `_run_discovery`: the first generation is installed at once, a later one is only staged. */
  function StepDiscover(compat: Compatibility, p: Pair, blocked: bool): Pair {
    var c := p.leader;
    if c.local.None? || c.peer.None? || (c.installed.Some? && blocked) then p
    else
      var outcome := compat(c.local.value, c.peer.value);
      if outcome.None? then p
      else
        var u := Generation(NextNumber(c), outcome.value, c.local.value, c.peer.value);
        if c.installed.Some?
        then p.(leader := c.(staged := Some(u)), net := p.net + {UniverseMsg(u)})
        else p.(leader := Install(c, u), net := p.net + {UniverseMsg(u)})
  }

  /** `_commit_staged_universe`: generation and hash must name the live candidate. */
  function StepTakeAck(p: Pair, u: Generation): Pair {
    if AckMsg(u) !in p.net || p.leader.staged != Some(u) then p
    else p.(leader := Install(p.leader, u).(staged := None))
  }

  /** `_maybe_install_pending_universe`: only what the follower's own catalogs reproduce. */
  function StepRetryPending(compat: Compatibility, p: Pair): Pair {
    var c := p.follower;
    if c.pending.None? || c.local.None? || c.peer.None? then p
    else
      var outcome := compat(c.peer.value, c.local.value);
      if outcome != Some(c.pending.value.products)
      then p.(follower := c.(pending := None), net := p.net + {RefusalMsg})
      else p.(follower := Install(c, c.pending.value), net := p.net + {AckMsg(c.pending.value)})
  }

  /** `_accept_universe`: an older generation is ignored, the installed one is acknowledged again. */
  function StepTakeUniverse(compat: Compatibility, p: Pair, u: Generation): Pair {
    var c := p.follower;
    if UniverseMsg(u) !in p.net then p
    else if c.installed.Some? && u.number < c.installed.value.number then p
    else if c.installed.Some? && u.number == c.installed.value.number
      then p.(net := p.net + {AckMsg(c.installed.value)})
    else StepRetryPending(compat, p.(follower := c.(pending := Some(u))))
  }

  /** A restart keeps the rows, takes a new publisher epoch and loads the newest generation. */
  function Rebooted(c: Cell): Cell {
    Cell(c.rows, c.epoch + 1, Newest(c.rows), 0, None, None, None, None)
  }

  function Step(compat: Compatibility, p: Pair, a: Action): Pair {
    match a
    case LocalCatalog(side, entries) => StepLocalCatalog(p, side, entries)
    case TakeCatalog(side, catalog) => StepTakeCatalog(p, side, catalog)
    case Discover(blocked) => StepDiscover(compat, p, blocked)
    case Republish => if p.leader.staged.Some? then p.(net := p.net + {UniverseMsg(p.leader.staged.value)}) else p
    case TakeAck(u) => StepTakeAck(p, u)
    case DiscardStaged => p.(leader := p.leader.(staged := None))
    case TakeUniverse(u) => StepTakeUniverse(compat, p, u)
    case RetryPending => StepRetryPending(compat, p)
    case AbandonPending => p.(follower := p.follower.(pending := None))
    case Restart(side) => With(p, side, Rebooted(Of(p, side)))
  }

  function Run(compat: Compatibility, p: Pair, acts: seq<Action>): Pair
    decreases |acts|
  {
    if acts == [] then p else Run(compat, Step(compat, p, acts[0]), acts[1..])
  }

  lemma {:induction false} RunAppend(compat: Compatibility, p: Pair, one: seq<Action>, two: seq<Action>)
    ensures Run(compat, p, one + two) == Run(compat, Run(compat, p, one), two)
    decreases |one|
  {
    if one == [] {
      assert one + two == two;
    } else {
      assert (one + two)[1..] == one[1..] + two;
      RunAppend(compat, Step(compat, p, one[0]), one[1..], two);
    }
  }

  // ---- the invariant ---------------------------------------------------------------------------

  /** The installed generation is the newest durable row. */
  ghost predicate Filed(c: Cell) {
    && (forall g :: g in c.rows ==> c.rows[g].number == g && 1 <= g <= Latest(c))
    && (c.installed.Some? ==> Latest(c) in c.rows && c.rows[Latest(c)] == c.installed.value)
    && (c.installed.None? ==> c.rows == map[])
  }

  /** Both sides have the same content for every generation both have. */
  ghost predicate SameContent(p: Pair) {
    forall g :: g in p.leader.rows && g in p.follower.rows ==> p.leader.rows[g] == p.follower.rows[g]
  }

  /** A catalog a side published, and its place among the others. */
  predicate PublishedBy(p: Pair, side: Side, c: Catalog) {
    CatalogMsg(side, c) in p.net
  }

  ghost predicate CatalogsOrdered(p: Pair, side: Side) {
    var me := Of(p, side);
    && (forall c :: PublishedBy(p, side, c) ==> c.epoch < me.epoch || (c.epoch == me.epoch && 1 <= c.version <= me.version))
    && (forall c, d :: PublishedBy(p, side, c) && PublishedBy(p, side, d) && c.epoch == d.epoch && c.version == d.version ==> c == d)
    && (me.version > 0 ==> me.local.Some?)
    && (me.local.Some? ==> PublishedBy(p, side, me.local.value) && me.local.value.epoch == me.epoch && me.local.value.version == me.version)
    && (me.peer.Some? ==> PublishedBy(p, Other(side), me.peer.value))
  }

  /** A universe on the wire is a result of both catalogs, numbered at most one past the leader. */
  predicate OnTheWire(compat: Compatibility, p: Pair, u: Generation) {
    && UniverseMsg(u) in p.net
    && p.leader.installed.Some? && 1 <= u.number <= Latest(p.leader) + 1
    && (u.number == 1 ==> 1 in p.leader.rows && p.leader.rows[1] == u)
    && PublishedBy(p, LeaderSide, u.leaderCatalog) && PublishedBy(p, FollowerSide, u.followerCatalog)
    && compat(u.leaderCatalog, u.followerCatalog) == Some(u.products)
    && (u.leaderCatalog.epoch == p.leader.epoch ==> p.leader.peer.Some? && !Before(p.leader.peer.value, u.followerCatalog))
  }

  ghost predicate Catalogs(p: Pair) {
    CatalogsOrdered(p, LeaderSide) && CatalogsOrdered(p, FollowerSide)
  }

  /** What is installed; the two sides are never more than one generation apart. */
  ghost predicate Filing(p: Pair) {
    && Filed(p.leader) && Filed(p.follower) && SameContent(p)
    && Latest(p.follower) <= Latest(p.leader) + 1
    && (Latest(p.leader) > 1 ==> Latest(p.leader) <= Latest(p.follower))
  }

  ghost predicate Wire(compat: Compatibility, p: Pair) {
    forall u :: UniverseMsg(u) in p.net ==> OnTheWire(compat, p, u)
  }

  /** An acknowledgement names a row the follower has; candidates are on the wire. */
  ghost predicate Promises(p: Pair) {
    && (forall u :: AckMsg(u) in p.net ==> u.number in p.follower.rows && p.follower.rows[u.number] == u)
    && (p.leader.staged.Some? ==> UniverseMsg(p.leader.staged.value) in p.net && p.leader.staged.value.number == Latest(p.leader) + 1)
    && (p.follower.pending.Some? ==> UniverseMsg(p.follower.pending.value) in p.net && p.follower.pending.value.number > Latest(p.follower))
    && (forall g :: g in p.follower.rows ==> UniverseMsg(p.follower.rows[g]) in p.net)
  }

  ghost predicate Agreement(compat: Compatibility, p: Pair) {
    Catalogs(p) && Filing(p) && Wire(compat, p) && Promises(p)
  }

  // ---- every step keeps it ---------------------------------------------------------------------

  lemma FiledIsNewest(c: Cell)
    requires Filed(c)
    ensures Newest(c.rows) == c.installed && NextNumber(c) == Latest(c) + 1
  {
    if c.installed.Some? {
      var g :| g in c.rows && c.rows[g] == Newest(c.rows).value && forall h :: h in c.rows ==> h <= g;
      assert Latest(c) in c.rows;
    }
  }

  /** No catalog is published or heard. */
  ghost predicate SameCatalogs(p: Pair, p': Pair) {
    && (forall side, c :: CatalogMsg(side, c) in p'.net <==> CatalogMsg(side, c) in p.net)
    && (forall side :: Of(p', side).epoch == Of(p, side).epoch && Of(p', side).version == Of(p, side).version
                    && Of(p', side).local == Of(p, side).local && Of(p', side).peer == Of(p, side).peer)
  }

  lemma CatalogsStay(compat: Compatibility, p: Pair, p': Pair)
    requires Catalogs(p) && SameCatalogs(p, p')
    ensures Catalogs(p')
  {
    assert Of(p', LeaderSide).epoch == Of(p, LeaderSide).epoch && Of(p', FollowerSide).epoch == Of(p, FollowerSide).epoch;
  }

  /** The leader goes on, and no new universe is published. */
  lemma WireStays(compat: Compatibility, p: Pair, p': Pair)
    requires Wire(compat, p) && SameCatalogs(p, p')
    requires forall u :: UniverseMsg(u) in p'.net ==> UniverseMsg(u) in p.net
    requires p.leader.installed.Some? ==> p'.leader.installed.Some? && Latest(p.leader) <= Latest(p'.leader)
    requires 1 in p.leader.rows ==> 1 in p'.leader.rows && p'.leader.rows[1] == p.leader.rows[1]
    ensures Wire(compat, p')
  {
    assert Of(p', LeaderSide).epoch == Of(p, LeaderSide).epoch && Of(p', LeaderSide).peer == Of(p, LeaderSide).peer;
    forall u | UniverseMsg(u) in p'.net ensures OnTheWire(compat, p', u) { assert OnTheWire(compat, p, u); }
  }

  lemma PublishKeepsOrder(p: Pair, side: Side, entries: seq<nat>)
    requires Catalogs(p)
    ensures Catalogs(StepLocalCatalog(p, side, entries))
  {
    var p' := StepLocalCatalog(p, side, entries);
    if p' != p {
      var added := Of(p', side).local.value;
      forall s, c | PublishedBy(p', s, c) ensures PublishedBy(p, s, c) || (s == side && c == added) { }
      assert CatalogsOrdered(p, side) && CatalogsOrdered(p, Other(side));
    }
  }

  lemma PublishAgrees(compat: Compatibility, p: Pair, side: Side, entries: seq<nat>)
    requires Agreement(compat, p)
    ensures Agreement(compat, StepLocalCatalog(p, side, entries))
  {
    hide CatalogsOrdered, Catalogs;
    var p' := StepLocalCatalog(p, side, entries);
    PublishKeepsOrder(p, side, entries);
    forall u | UniverseMsg(u) in p'.net ensures OnTheWire(compat, p', u) { assert OnTheWire(compat, p, u); }
  }

  lemma HearKeepsOrder(p: Pair, side: Side, catalog: Catalog, s: Side)
    requires CatalogsOrdered(p, s)
    ensures CatalogsOrdered(StepTakeCatalog(p, side, catalog), s)
  {
    assert StepTakeCatalog(p, side, catalog).net == p.net;
  }

  lemma CatalogsAre(p: Pair)
    requires Catalogs(p)
    ensures CatalogsOrdered(p, LeaderSide) && CatalogsOrdered(p, FollowerSide)
  {
    hide CatalogsOrdered;
  }

  lemma OrderedCatalogs(p: Pair)
    requires CatalogsOrdered(p, LeaderSide) && CatalogsOrdered(p, FollowerSide)
    ensures Catalogs(p)
  {
    hide CatalogsOrdered;
  }

  lemma HearAgrees(compat: Compatibility, p: Pair, side: Side, catalog: Catalog)
    requires Agreement(compat, p)
    ensures Agreement(compat, StepTakeCatalog(p, side, catalog))
  {
    hide CatalogsOrdered, Catalogs;
    var p' := StepTakeCatalog(p, side, catalog);
    CatalogsAre(p);
    HearKeepsOrder(p, side, catalog, LeaderSide);
    HearKeepsOrder(p, side, catalog, FollowerSide);
    OrderedCatalogs(p');
    forall u | UniverseMsg(u) in p'.net ensures OnTheWire(compat, p', u) { assert OnTheWire(compat, p, u); }
  }

  lemma DiscoverOnTheWire(compat: Compatibility, p: Pair, blocked: bool)
    requires Catalogs(p) && Filing(p) && Wire(compat, p)
    ensures Wire(compat, StepDiscover(compat, p, blocked))
  {
    var p' := StepDiscover(compat, p, blocked);
    FiledIsNewest(p.leader);
    assert p.leader.peer.Some? ==> PublishedBy(p, FollowerSide, p.leader.peer.value);
    assert p.leader.local.Some? ==> PublishedBy(p, LeaderSide, p.leader.local.value);
    hide CatalogsOrdered;
    forall u | UniverseMsg(u) in p'.net ensures OnTheWire(compat, p', u) {
      if UniverseMsg(u) in p.net { assert OnTheWire(compat, p, u); }
    }
  }

  lemma DiscoverAgrees(compat: Compatibility, p: Pair, blocked: bool)
    requires Agreement(compat, p)
    ensures Agreement(compat, StepDiscover(compat, p, blocked))
  {
    hide Catalogs;
    FiledIsNewest(p.leader);
    CatalogsStay(compat, p, StepDiscover(compat, p, blocked));
    DiscoverOnTheWire(compat, p, blocked);
  }

  /** The follower may only install the successor of what the leader has, or the leader's first. */
  lemma PendingIsNext(compat: Compatibility, p: Pair)
    requires Filing(p) && Wire(compat, p) && Promises(p) && p.follower.pending.Some?
    ensures var u := p.follower.pending.value;
            && u.number == (if Latest(p.leader) > Latest(p.follower) then u.number else Latest(p.leader) + 1)
            && p.leader.installed.Some? && Latest(p.follower) < u.number <= Latest(p.leader) + 1
            && (u.number in p.leader.rows ==> p.leader.rows[u.number] == u)
            && u.number !in p.follower.rows
            && UniverseMsg(u) in p.net
  {
    assert OnTheWire(compat, p, p.follower.pending.value);
  }

  lemma PendingFiles(p: Pair, u: Generation)
    requires Filing(p) && Promises(p)
    requires Latest(p.follower) < u.number <= Latest(p.leader) + 1 && u.number >= 1
    requires u.number in p.leader.rows ==> p.leader.rows[u.number] == u
    requires u.number !in p.follower.rows && UniverseMsg(u) in p.net
    ensures var p' := p.(follower := Install(p.follower, u), net := p.net + {AckMsg(u)});
            Filing(p') && Promises(p')
  {
  }

  lemma RetryAgrees(compat: Compatibility, p: Pair)
    requires Agreement(compat, p)
    ensures Agreement(compat, StepRetryPending(compat, p))
  {
    hide Catalogs, Wire;
    var p' := StepRetryPending(compat, p);
    CatalogsStay(compat, p, p');
    WireStays(compat, p, p');
    if p.follower.pending.Some? {
      PendingIsNext(compat, p);
      PendingFiles(p, p.follower.pending.value);
    }
  }

  /** Nothing is installed; whatever is added to the wire is backed. */
  lemma IdleAgrees(compat: Compatibility, p: Pair, p': Pair)
    requires Agreement(compat, p) && p'.leader == p.leader.(staged := p'.leader.staged) && p'.follower == p.follower.(pending := p'.follower.pending)
    requires p.net <= p'.net && Promises(p')
    requires forall m :: m in p'.net && m !in p.net ==> m.AckMsg?
    ensures Agreement(compat, p')
  {
    CatalogsStay(compat, p, p');
    WireStays(compat, p, p');
    hide Catalogs, Wire, Promises;
  }

  lemma TakeUniverseAgrees(compat: Compatibility, p: Pair, u: Generation)
    requires Agreement(compat, p)
    ensures Agreement(compat, StepTakeUniverse(compat, p, u))
  {
    hide Catalogs, OnTheWire, StepRetryPending;
    var c := p.follower;
    if UniverseMsg(u) in p.net {
      if u.number > Latest(c) {
        IdleAgrees(compat, p, p.(follower := c.(pending := Some(u))));
        RetryAgrees(compat, p.(follower := c.(pending := Some(u))));
      } else if c.installed.Some? {
        IdleAgrees(compat, p, p.(net := p.net + {AckMsg(c.installed.value)}));
      } else {
        NumbersStartAtOne(compat, p, u);
      }
    }
  }

  lemma NumbersStartAtOne(compat: Compatibility, p: Pair, u: Generation)
    requires Wire(compat, p) && UniverseMsg(u) in p.net
    ensures u.number >= 1
  {
    assert OnTheWire(compat, p, u);
  }

  /** A commit needs the acknowledgement of a follower that installed exactly this candidate. */
  lemma TakeAckAgrees(compat: Compatibility, p: Pair, u: Generation)
    requires Agreement(compat, p)
    ensures Agreement(compat, StepTakeAck(p, u))
  {
    hide Catalogs, Wire;
    var p' := StepTakeAck(p, u);
    CatalogsStay(compat, p, p');
    WireStays(compat, p, p');
  }

  lemma RestartKeepsOrderOf(p: Pair, side: Side, s: Side)
    requires CatalogsOrdered(p, s)
    ensures CatalogsOrdered(With(p, side, Rebooted(Of(p, side))), s)
  {
    assert With(p, side, Rebooted(Of(p, side))).net == p.net;
  }

  lemma RestartKeepsOrder(p: Pair, side: Side)
    requires Catalogs(p)
    ensures Catalogs(With(p, side, Rebooted(Of(p, side))))
  {
    hide CatalogsOrdered;
    CatalogsAre(p);
    RestartKeepsOrderOf(p, side, LeaderSide);
    RestartKeepsOrderOf(p, side, FollowerSide);
    OrderedCatalogs(With(p, side, Rebooted(Of(p, side))));
  }

  lemma RestartAgrees(compat: Compatibility, p: Pair, side: Side)
    requires Agreement(compat, p)
    ensures Agreement(compat, With(p, side, Rebooted(Of(p, side))))
  {
    hide Catalogs;
    var p' := With(p, side, Rebooted(Of(p, side)));
    FiledIsNewest(p.leader);
    FiledIsNewest(p.follower);
    RestartKeepsOrder(p, side);
    LeaderCatalogsPast(p);
    forall v | UniverseMsg(v) in p'.net ensures OnTheWire(compat, p', v) { assert OnTheWire(compat, p, v); }
  }

  lemma LeaderCatalogsPast(p: Pair)
    requires Catalogs(p)
    ensures forall c :: PublishedBy(p, LeaderSide, c) ==> c.epoch <= p.leader.epoch
  {
    assert CatalogsOrdered(p, LeaderSide);
  }

  lemma LetGoAgrees(compat: Compatibility, p: Pair, a: Action)
    requires Agreement(compat, p) && (a.Republish? || a.DiscardStaged? || a.AbandonPending?)
    ensures Agreement(compat, Step(compat, p, a))
  {
    hide Catalogs, Wire, Filing;
    IdleAgrees(compat, p, Step(compat, p, a));
  }

  lemma StepAgrees(compat: Compatibility, p: Pair, a: Action)
    requires Agreement(compat, p)
    ensures Agreement(compat, Step(compat, p, a))
  {
    hide Agreement;
    match a {
      case LocalCatalog(side, entries) => PublishAgrees(compat, p, side, entries);
      case TakeCatalog(side, catalog) => HearAgrees(compat, p, side, catalog);
      case Discover(blocked) => DiscoverAgrees(compat, p, blocked);
      case TakeAck(u) => TakeAckAgrees(compat, p, u);
      case TakeUniverse(u) => TakeUniverseAgrees(compat, p, u);
      case RetryPending => RetryAgrees(compat, p);
      case Restart(side) => RestartAgrees(compat, p, side);
      case _ => LetGoAgrees(compat, p, a);
    }
  }

  lemma {:induction false} RunAgrees(compat: Compatibility, p: Pair, acts: seq<Action>)
    requires Agreement(compat, p)
    ensures Agreement(compat, Run(compat, p, acts))
    decreases |acts|
  {
    hide Agreement;
    if acts != [] {
      StepAgrees(compat, p, acts[0]);
      RunAgrees(compat, Step(compat, p, acts[0]), acts[1..]);
    }
  }

  lemma EverAgreed(compat: Compatibility, acts: seq<Action>)
    ensures Agreement(compat, Run(compat, Start, acts))
  {
    assert Agreement(compat, Start);
    hide Agreement;
    RunAgrees(compat, Start, acts);
  }

  // ---- what a step may stage, install and refuse -------------------------------------------------

  /** The leader stages only what its two catalogs admit now, as the successor of what it has, announced, and never
      while a rediscovery is blocked. */
  lemma StagesWhatItFinds(compat: Compatibility, p: Pair, a: Action, u: Generation)
    requires Agreement(compat, p) && Step(compat, p, a).leader.staged == Some(u) && p.leader.staged != Some(u)
    ensures a == Discover(false) && p.leader.installed.Some? && p.leader.local.Some? && p.leader.peer.Some?
    ensures compat(p.leader.local.value, p.leader.peer.value) == Some(u.products)
    ensures u.leaderCatalog == p.leader.local.value && u.followerCatalog == p.leader.peer.value
    ensures u.number == p.leader.installed.value.number + 1 && UniverseMsg(u) in Step(compat, p, a).net
  {
    FiledIsNewest(p.leader);
    hide Catalogs, Wire, Promises;
  }

  /** A discovery that may run stages or installs whenever the catalogs admit something. */
  lemma DiscoversWhenItMay(compat: Compatibility, p: Pair, blocked: bool)
    ensures var p' := Step(compat, p, Discover(blocked));
            var may := p.leader.local.Some? && p.leader.peer.Some? && compat(p.leader.local.value, p.leader.peer.value).Some?;
            && (may && p.leader.installed.None? ==> p'.leader.installed.Some?)
            && (may && p.leader.installed.Some? && !blocked ==> p'.leader.staged.Some? && p'.leader.installed == p.leader.installed)
            && (!may || (p.leader.installed.Some? && blocked) ==> p' == p)
  {
  }

  /** The leader installs a later generation only when the follower has acknowledged exactly the staged one; its first
      it installs as found. */
  lemma InstallsWhatIsAcknowledged(compat: Compatibility, p: Pair, a: Action, u: Generation)
    requires Step(compat, p, a).leader.installed == Some(u) && p.leader.installed != Some(u) && !a.Restart?
    ensures if p.leader.installed.Some? then a == TakeAck(u) && AckMsg(u) in p.net && p.leader.staged == Some(u)
            else a.TakeAck? || (a.Discover? && p.leader.local.Some? && p.leader.peer.Some?
                                && compat(p.leader.local.value, p.leader.peer.value) == Some(u.products))
  {
  }

  /** The follower installs only what its own two catalogs reproduce, and acknowledges it; what they do not reproduce it
      refuses and keeps what it had. */
  lemma InstallsWhatItReproduces(compat: Compatibility, p: Pair, a: Action, u: Generation)
    requires Step(compat, p, a).follower.installed == Some(u) && p.follower.installed != Some(u) && !a.Restart?
    ensures p.follower.local.Some? && p.follower.peer.Some?
    ensures compat(p.follower.peer.value, p.follower.local.value) == Some(u.products)
    ensures AckMsg(u) in Step(compat, p, a).net && Step(compat, p, a).follower.pending.None?
  {
  }

  lemma RefusesWhatItDoesNotReproduce(compat: Compatibility, p: Pair)
    requires p.follower.pending.Some? && p.follower.local.Some? && p.follower.peer.Some?
    requires compat(p.follower.peer.value, p.follower.local.value) != Some(p.follower.pending.value.products)
    ensures var p' := Step(compat, p, RetryPending);
            RefusalMsg in p'.net && p'.follower == p.follower.(pending := None) && p'.leader == p.leader
  {
  }

  // ---- the theorems ----------------------------------------------------------------------------

  /** Generation agreement: under loss, repetition, reordering, abandonment and restarts, whatever
      generation both sides have ever installed has one content, and they are at most one apart. */
  lemma GenerationsAgree(compat: Compatibility, acts: seq<Action>)
    ensures var p := Run(compat, Start, acts);
            && SameContent(p)
            && Latest(p.follower) <= Latest(p.leader) + 1
            && (Latest(p.leader) <= 1 || Latest(p.leader) <= Latest(p.follower))
  {
    hide Catalogs, Wire, Run;
    EverAgreed(compat, acts);
  }

  /** No side ever rewrites or forgets a generation, and none goes back. */
  ghost predicate OnlyGrows(c: Cell, c': Cell) {
    && (forall g :: g in c.rows ==> g in c'.rows && c'.rows[g] == c.rows[g])
    && Latest(c) <= Latest(c')
  }

  lemma LeaderOnlyGrows(compat: Compatibility, p: Pair, a: Action)
    requires Filing(p) && Promises(p)
    ensures OnlyGrows(p.leader, Step(compat, p, a).leader)
  {
    FiledIsNewest(p.leader);
  }

  lemma RetryOnlyGrows(compat: Compatibility, p: Pair)
    requires p.follower.pending.Some? ==> Latest(p.follower) < p.follower.pending.value.number && p.follower.pending.value.number !in p.follower.rows
    ensures OnlyGrows(p.follower, StepRetryPending(compat, p).follower)
  {
  }

  lemma TakeUniverseOnlyGrows(compat: Compatibility, p: Pair, u: Generation)
    requires Filing(p) && Wire(compat, p)
    ensures OnlyGrows(p.follower, StepTakeUniverse(compat, p, u).follower)
  {
    hide StepRetryPending, OnTheWire, SameContent;
    if UniverseMsg(u) in p.net { NumbersStartAtOne(compat, p, u); }
    if u.number > Latest(p.follower) {
      RetryOnlyGrows(compat, p.(follower := p.follower.(pending := Some(u))));
    }
  }

  lemma FollowerOnlyGrows(compat: Compatibility, p: Pair, a: Action)
    requires Filing(p) && Promises(p) && Wire(compat, p)
    ensures OnlyGrows(p.follower, Step(compat, p, a).follower)
  {
    hide StepRetryPending, StepTakeUniverse, OnTheWire, SameContent;
    match a {
      case TakeUniverse(u) => TakeUniverseOnlyGrows(compat, p, u);
      case RetryPending => if p.follower.pending.Some? { PendingIsNew(p); } RetryOnlyGrows(compat, p);
      case Restart(_) => FiledIsNewest(p.follower);
      case _ =>
    }
  }

  lemma PendingIsNew(p: Pair)
    requires Filing(p) && Promises(p) && p.follower.pending.Some?
    ensures Latest(p.follower) < p.follower.pending.value.number && p.follower.pending.value.number !in p.follower.rows
  {
  }

  lemma StepOnlyGrows(compat: Compatibility, p: Pair, a: Action)
    requires Agreement(compat, p)
    ensures OnlyGrows(p.leader, Step(compat, p, a).leader) && OnlyGrows(p.follower, Step(compat, p, a).follower)
  {
    hide Filing, Promises, Wire, Catalogs, Step;
    LeaderOnlyGrows(compat, p, a);
    FollowerOnlyGrows(compat, p, a);
  }

  lemma {:induction false} GenerationsOnlyGrow(compat: Compatibility, p: Pair, acts: seq<Action>)
    requires Agreement(compat, p)
    ensures OnlyGrows(p.leader, Run(compat, p, acts).leader) && OnlyGrows(p.follower, Run(compat, p, acts).follower)
    decreases |acts|
  {
    if acts != [] {
      StepAgrees(compat, p, acts[0]);
      StepOnlyGrows(compat, p, acts[0]);
      GenerationsOnlyGrow(compat, Step(compat, p, acts[0]), acts[1..]);
    }
  }

  /** An attempt made under any generation the leader ever had, and admitted because the follower is at
      that generation now, names the same product on both sides. */
  lemma AdmittedAttemptNamesOneProduct(compat: Compatibility, acts: seq<Action>, more: seq<Action>, product: nat)
    requires var before := Run(compat, Start, acts).leader;
             var now := Run(compat, Start, acts + more).follower;
             before.installed.Some? && now.installed.Some? && Latest(before) == Latest(now)
    ensures var before := Run(compat, Start, acts).leader;
            var now := Run(compat, Start, acts + more).follower;
            product in now.installed.value.products <==> product in before.installed.value.products
  {
    hide Catalogs, Wire;
    var p := Run(compat, Start, acts);
    EverAgreed(compat, acts);
    RunAppend(compat, Start, acts, more);
    RunAgrees(compat, p, more);
    GenerationsOnlyGrow(compat, p, more);
    var q := Run(compat, p, more);
    assert Latest(p.leader) in q.leader.rows && Latest(p.leader) in q.follower.rows;
  }

  // ---- a split of one generation, and when it can heal -----------------------------------------

  /** The follower has installed a generation the leader has not committed. */
  predicate Split(p: Pair) {
    p.follower.installed.Some? && Latest(p.follower) == Latest(p.leader) + 1
  }

  /** The leader still holds the follower's generation, or would discover exactly it again: both catalogs
      it was made from are still the current ones. */
  predicate Reproducible(p: Pair)
    requires Split(p)
  {
    var a := p.follower.installed.value;
    p.leader.staged == Some(a) || (p.leader.local == Some(a.leaderCatalog) && p.leader.peer == Some(a.followerCatalog))
  }

  /** The leader has moved past one of the catalogs. */
  predicate MovedOn(p: Pair)
    requires Split(p)
  {
    var a := p.follower.installed.value;
    && p.leader.staged != Some(a)
    && (|| a.leaderCatalog.epoch < p.leader.epoch
        || (a.leaderCatalog.epoch == p.leader.epoch && a.leaderCatalog.version < p.leader.version)
        || (p.leader.peer.Some? && Before(a.followerCatalog, p.leader.peer.value)))
  }

  lemma ReproducibleOrMovedOn(compat: Compatibility, p: Pair)
    requires Agreement(compat, p) && Split(p)
    ensures Reproducible(p) || MovedOn(p)
  {
    var a := p.follower.installed.value;
    assert OnTheWire(compat, p, a);
  }

  /** In a split the follower is already at the highest number on the wire. */
  lemma FollowerRests(compat: Compatibility, p: Pair, act: Action)
    requires Agreement(compat, p) && Split(p)
    ensures Step(compat, p, act).follower.installed == p.follower.installed
  {
    hide Catalogs, SameContent;
    FiledIsNewest(p.follower);
    assert p.follower.pending.None? by {
      forall u | UniverseMsg(u) in p.net ensures u.number <= Latest(p.follower) { assert OnTheWire(compat, p, u); }
    }
    if act.TakeUniverse? && UniverseMsg(act.universe) in p.net { assert OnTheWire(compat, p, act.universe); }
  }

  /** Once it has moved on, the leader can neither commit nor stage the generation. */
  lemma LeaderStaysPast(compat: Compatibility, p: Pair, act: Action)
    requires Agreement(compat, p) && Split(p) && MovedOn(p)
    ensures var l := Step(compat, p, act).leader;
            var a := p.follower.installed.value;
            && Latest(l) == Latest(p.leader) && l.staged != Some(a)
            && (|| a.leaderCatalog.epoch < l.epoch || (a.leaderCatalog.epoch == l.epoch && a.leaderCatalog.version < l.version)
                || (l.peer.Some? && Before(a.followerCatalog, l.peer.value)))
  {
    hide SameContent, StepRetryPending, StepTakeUniverse, Wire;
    LeaderUntouched(compat, p, act);
    FollowerCatalogPast(compat, p);
    FiledIsNewest(p.leader);
    assert CatalogsOrdered(p, LeaderSide);
    hide Catalogs;
  }

  lemma LeaderUntouched(compat: Compatibility, p: Pair, act: Action)
    ensures act.TakeUniverse? || act.RetryPending? ==> Step(compat, p, act).leader == p.leader
  {
  }

  lemma FollowerCatalogPast(compat: Compatibility, p: Pair)
    requires Agreement(compat, p) && Split(p)
    ensures OnTheWire(compat, p, p.follower.installed.value)
  {
    hide Catalogs;
  }

  lemma MovedOnStays(compat: Compatibility, p: Pair, act: Action)
    requires Agreement(compat, p) && Split(p) && MovedOn(p)
    ensures var p' := Step(compat, p, act);
            Split(p') && MovedOn(p') && Latest(p'.leader) == Latest(p.leader)
  {
    hide Agreement, Step;
    FollowerRests(compat, p, act);
    LeaderStaysPast(compat, p, act);
  }

  lemma {:induction false} MovedOnForever(compat: Compatibility, p: Pair, acts: seq<Action>)
    requires Agreement(compat, p) && Split(p) && MovedOn(p)
    ensures Latest(Run(compat, p, acts).leader) == Latest(p.leader)
    decreases |acts|
  {
    if acts != [] {
      StepAgrees(compat, p, acts[0]);
      MovedOnStays(compat, p, acts[0]);
      MovedOnForever(compat, Step(compat, p, acts[0]), acts[1..]);
    }
  }

  /** Discover again, let the follower acknowledge again, commit. */
  function Healing(a: Generation): seq<Action> {
    [TakeUniverse(a), TakeAck(a)]
  }

  lemma AcknowledgesAgain(compat: Compatibility, p: Pair)
    requires Filing(p) && Promises(p) && Split(p)
    ensures var a := p.follower.installed.value;
            Step(compat, p, TakeUniverse(a)) == p.(net := p.net + {AckMsg(a)})
  {
  }

  lemma StagedHeals(compat: Compatibility, p: Pair)
    requires Agreement(compat, p) && Split(p) && p.leader.staged == Some(p.follower.installed.value)
    ensures Latest(Run(compat, p, Healing(p.follower.installed.value)).leader) == Latest(p.leader) + 1
  {
    hide Catalogs, Filing, Wire;
    var a := p.follower.installed.value;
    AcknowledgesAgain(compat, p);
    var q := Step(compat, p, TakeUniverse(a));
    assert q == p.(net := p.net + {AckMsg(a)});
    assert Healing(a)[1..] == [TakeAck(a)];
    assert Run(compat, q, [TakeAck(a)]) == Run(compat, Step(compat, q, TakeAck(a)), []);
  }

  lemma DiscoversAgain(compat: Compatibility, p: Pair)
    requires Agreement(compat, p) && Split(p) && p.leader.installed.Some?
    requires p.leader.local == Some(p.follower.installed.value.leaderCatalog) && p.leader.peer == Some(p.follower.installed.value.followerCatalog)
    ensures var q := Step(compat, p, Discover(false));
            Split(q) && q.leader.staged == Some(p.follower.installed.value) && q.follower == p.follower && Latest(q.leader) == Latest(p.leader)
  {
    assert OnTheWire(compat, p, p.follower.installed.value);
    FiledIsNewest(p.leader);
    hide Catalogs, SameContent;
  }

  lemma ReproducibleHeals(compat: Compatibility, p: Pair)
    requires Agreement(compat, p) && Split(p) && Reproducible(p) && p.leader.installed.Some?
    ensures exists acts :: Latest(Run(compat, p, acts).leader) > Latest(p.leader)
  {
    var a := p.follower.installed.value;
    if p.leader.staged == Some(a) {
      StagedHeals(compat, p);
    } else {
      var q := Step(compat, p, Discover(false));
      DiscoversAgain(compat, p);
      hide Agreement, Step;
      StepAgrees(compat, p, Discover(false));
      StagedHeals(compat, q);
      var acts := [Discover(false)] + Healing(a);
      assert acts[1..] == Healing(a);
      assert Latest(Run(compat, p, acts).leader) > Latest(p.leader);
    }
  }

  /** A split heals if and only if the leader can still come up with the very same universe. */
  lemma SplitHealsIffReproducible(compat: Compatibility, acts: seq<Action>)
    requires Split(Run(compat, Start, acts))
    ensures var p := Run(compat, Start, acts);
            (exists more :: Latest(Run(compat, p, more).leader) > Latest(p.leader)) <==> Reproducible(p)
  {
    var p := Run(compat, Start, acts);
    EverAgreed(compat, acts);
    assert OnTheWire(compat, p, p.follower.installed.value);
    ReproducibleOrMovedOn(compat, p);
    if Reproducible(p) {
      ReproducibleHeals(compat, p);
    } else {
      forall more ensures Latest(Run(compat, p, more).leader) == Latest(p.leader) { MovedOnForever(compat, p, more); }
    }
  }

  /** So a leader that restarts during a split never reaches the follower's generation again: the new
      publisher epoch enters the catalog hash of every later candidate. */
  lemma RestartDuringSplitIsForever(compat: Compatibility, acts: seq<Action>, more: seq<Action>)
    requires Split(Run(compat, Start, acts))
    ensures var p := Run(compat, Start, acts);
            Latest(Run(compat, Start, acts + [Restart(LeaderSide)] + more).leader) == Latest(p.leader)
  {
    hide Step;
    var p := Run(compat, Start, acts);
    EverAgreed(compat, acts);
    hide Agreement;
    var q := Step(compat, p, Restart(LeaderSide));
    RestartMovesOn(compat, p);
    StepAgrees(compat, p, Restart(LeaderSide));
    RunAppend(compat, Start, acts, [Restart(LeaderSide)]);
    assert Run(compat, p, [Restart(LeaderSide)]) == Run(compat, q, []);
    RunAppend(compat, Start, acts + [Restart(LeaderSide)], more);
    MovedOnForever(compat, q, more);
  }

  lemma RestartMovesOn(compat: Compatibility, p: Pair)
    requires Agreement(compat, p) && Split(p)
    ensures var q := Step(compat, p, Restart(LeaderSide));
            Split(q) && MovedOn(q) && Latest(q.leader) == Latest(p.leader)
  {
    hide SameContent;
    assert OnTheWire(compat, p, p.follower.installed.value);
    FiledIsNewest(p.leader);
  }

  // ---- a split does happen ---------------------------------------------------------------------

  const LC := Catalog(1, 1, [7])

  const FC := Catalog(1, 1, [7])

  /** Two catalogs, a first generation on both sides, and a second one staged and installed by the
      follower, whose acknowledgement is lost. */
  function SplitRun(products: Products): seq<Action> {
    [LocalCatalog(LeaderSide, [7]), LocalCatalog(FollowerSide, [7]), TakeCatalog(LeaderSide, FC), TakeCatalog(FollowerSide, LC),
     Discover(false), TakeUniverse(Generation(1, products, LC, FC)), Discover(false), TakeUniverse(Generation(2, products, LC, FC))]
  }

  function KnownCell(rows: map<nat, Generation>, installed: Option<Generation>, peer: Catalog, staged: Option<Generation>): Cell {
    Cell(rows, 1, installed, 1, Some(Catalog(1, 1, [7])), Some(peer), staged, None)
  }

  lemma {:induction false} RunFromPrefix(compat: Compatibility, p: Pair, acts: seq<Action>, k: nat)
    requires k < |acts|
    ensures Run(compat, p, acts[..k + 1]) == Step(compat, Run(compat, p, acts[..k]), acts[k])
  {
    assert acts[..k + 1] == acts[..k] + [acts[k]];
    RunAppend(compat, p, acts[..k], [acts[k]]);
    assert Run(compat, Run(compat, p, acts[..k]), [acts[k]]) == Run(compat, Step(compat, Run(compat, p, acts[..k]), acts[k]), []);
  }

  lemma CatalogsHeard(compat: Compatibility, products: Products)
    ensures var p := Run(compat, Start, SplitRun(products)[..4]);
            p == Pair(KnownCell(map[], None, FC, None), KnownCell(map[], None, LC, None), {CatalogMsg(LeaderSide, LC), CatalogMsg(FollowerSide, FC)})
  {
    var acts := SplitRun(products);
    RunFromPrefix(compat, Start, acts, 0);
    RunFromPrefix(compat, Start, acts, 1);
    RunFromPrefix(compat, Start, acts, 2);
    RunFromPrefix(compat, Start, acts, 3);
    assert acts[..0] == [];
    hide Run;
  }

  lemma SplitHappens(compat: Compatibility, products: Products)
    requires compat(LC, FC) == Some(products)
    ensures Split(Run(compat, Start, SplitRun(products)))
  {
    var acts := SplitRun(products);
    CatalogsHeard(compat, products);
    RunFromPrefix(compat, Start, acts, 4);
    RunFromPrefix(compat, Start, acts, 5);
    RunFromPrefix(compat, Start, acts, 6);
    RunFromPrefix(compat, Start, acts, 7);
    hide Run;
    var one, two := Generation(1, products, LC, FC), Generation(2, products, LC, FC);
    var net := {CatalogMsg(LeaderSide, LC), CatalogMsg(FollowerSide, FC)};
    var p4 := Pair(KnownCell(map[], None, FC, None), KnownCell(map[], None, LC, None), net);
    var p5 := Pair(KnownCell(map[1 := one], Some(one), FC, None), KnownCell(map[], None, LC, None), net + {UniverseMsg(one)});
    var p6 := Pair(p5.leader, KnownCell(map[1 := one], Some(one), LC, None), p5.net + {AckMsg(one)});
    var p7 := Pair(KnownCell(map[1 := one], Some(one), FC, Some(two)), p6.follower, p6.net + {UniverseMsg(two)});
    FiledIsNewest(p4.leader);
    FiledIsNewest(p5.leader);
    assert Step(compat, p4, acts[4]) == p5;
    assert Step(compat, p5, acts[5]) == p6;
    assert Step(compat, p6, acts[6]) == p7;
    assert Latest(Step(compat, p7, acts[7]).follower) == 2;
    assert acts[..8] == acts;
  }
}
