/**
  Publishing a plan set in bounded batches and putting it together again (abt/pair_cell.py).
*/
module PlanBatches {
  import opened Prelude

  datatype Key = Key(product: nat, long: bool)

  /** One plan on the wire: `economics` is what the set's version identifies, `margin` is not, `size` is
      the encoded size with its separator. */
  datatype Plan = Plan(key: Key, economics: nat, margin: nat, size: nat)

  const MAX_BYTES := 32768

  // ---- splitting -------------------------------------------------------------------------------

  function Bytes(batch: seq<Plan>): nat {
    if batch == [] then 2 else Bytes(batch[..|batch| - 1]) + batch[|batch| - 1].size
  }

  function Join(batches: seq<seq<Plan>>): seq<Plan> {
    if batches == [] then [] else Join(batches[..|batches| - 1]) + batches[|batches| - 1]
  }

  /** Within the bound, or one entry that alone exceeds it. */
  predicate Fits(batch: seq<Plan>) {
    Bytes(batch) <= MAX_BYTES || |batch| == 1
  }

  /** `_bounded_batches`: nothing is lost or reordered, every batch fits, and an empty set still makes one
      (empty) batch, the only empty one there can be. */
  method BoundedBatches(payload: seq<Plan>) returns (batches: seq<seq<Plan>>)
    ensures Join(batches) == payload
    ensures batches != [] && forall k :: 0 <= k < |batches| ==> Fits(batches[k])
    ensures payload == [] ==> batches == [[]]
    ensures payload != [] ==> forall k :: 0 <= k < |batches| ==> batches[k] != []
  {
    batches := [];
    var current: seq<Plan> := [];
    var size := 2;
    var i := 0;
    while i < |payload|
      invariant 0 <= i <= |payload|
      invariant Join(batches) + current == payload[..i]
      invariant size == Bytes(current) && Fits(current)
      invariant forall k :: 0 <= k < |batches| ==> Fits(batches[k]) && batches[k] != []
      invariant i > 0 ==> current != []
      invariant i == 0 ==> batches == []
    {
      var entry := payload[i];
      assert payload[..i + 1] == payload[..i] + [entry];
      if current != [] && size + entry.size > MAX_BYTES {
        assert (batches + [current])[..|batches|] == batches;
        batches := batches + [current];
        current, size := [entry], 2 + entry.size;
      } else {
        assert (current + [entry])[..|current|] == current;
        current := current + [entry];
        size := size + entry.size;
      }
      assert Bytes([entry]) == 2 + entry.size by { assert [entry][..0] == []; }
      i := i + 1;
    }
    assert (batches + [current])[..|batches|] == batches;
    batches := batches + [current];
    assert payload[..|payload|] == payload;
  }

  // ---- reassembly ------------------------------------------------------------------------------

  /** The identity of a plan set: everything but the margins. */
  type Version = seq<(Key, nat)>

  function VersionOf(plans: seq<Plan>): (v: Version)
    ensures |v| == |plans| && forall k :: 0 <= k < |plans| ==> v[k] == (plans[k].key, plans[k].economics)
  {
    seq(|plans|, k requires 0 <= k < |plans| => (plans[k].key, plans[k].economics))
  }

  type PlanMap = map<Key, Plan>

  /** Entries are filed one after the other; a later one for the same key wins. */
  function FileAll(plans: seq<Plan>): PlanMap {
    if plans == [] then map[]
    else FileAll(plans[..|plans| - 1])[plans[|plans| - 1].key := plans[|plans| - 1]]
  }

  type Batches = map<nat, seq<Plan>>

  datatype Peer = Peer(stored: map<Version, Batches>, installed: PlanMap, version: Option<Version>)

  datatype Envelope = Envelope(version: Version, index: nat, count: nat, plans: seq<Plan>)

  /** Batches 0, 1, ..., count - 1 in their order. */
  function Combined(batches: Batches, count: nat): seq<Plan> {
    if count == 0 then []
    else Combined(batches, count - 1) + (if count - 1 in batches then batches[count - 1] else [])
  }

  /** `_accept_peer_plan_batch` on the installed generation. */
  function Accept(p: Peer, e: Envelope): Peer {
    if e.count == 0 || e.index >= e.count then p
    else
      var before := if e.version in p.stored then p.stored[e.version] else map[];
      var batches := before[e.index := e.plans];
      if |batches| != e.count then p.(stored := p.stored[e.version := batches])
      else if VersionOf(Combined(batches, e.count)) != e.version then p.(stored := p.stored - {e.version})
      else Peer(map[e.version := batches], FileAll(Combined(batches, e.count)), Some(e.version))
  }

  function AcceptAll(p: Peer, es: seq<Envelope>): Peer
    decreases |es|
  {
    if es == [] then p else AcceptAll(Accept(p, es[0]), es[1..])
  }

  /** One publication, batch by batch. */
  function Published(batches: seq<seq<Plan>>, k: nat): Envelope
    requires k < |batches|
  {
    Envelope(VersionOf(Join(batches)), k, |batches|, batches[k])
  }

  /** Deliveries of one publication, in the order given, repeats included. */
  function Deliveries(batches: seq<seq<Plan>>, order: seq<nat>): seq<Envelope>
    requires forall j :: 0 <= j < |order| ==> order[j] < |batches|
  {
    seq(|order|, j requires 0 <= j < |order| => Published(batches, order[j]))
  }

  /** What the receiver holds of the publication after these indices arrived. */
  function Held(batches: seq<seq<Plan>>, arrived: set<nat>): Batches
    requires forall k :: k in arrived ==> k < |batches|
  {
    map k | k in arrived :: batches[k]
  }

  /** Nothing yet, part of it, or all of it installed. */
  ghost predicate Progress(p: Peer, start: Peer, batches: seq<seq<Plan>>, arrived: set<nat>) {
    && (forall k :: k in arrived ==> k < |batches|)
    && var v := VersionOf(Join(batches));
       if arrived == {} then v !in p.stored && p.installed == start.installed && p.version == start.version
       else
         && v in p.stored && p.stored[v] == Held(batches, arrived)
         && (if |arrived| == |batches| then p.installed == FileAll(Join(batches)) && p.version == Some(v)
             else p.installed == start.installed && p.version == start.version)
  }

  lemma {:induction false} CombinedIsJoin(batches: seq<seq<Plan>>, held: Batches, n: nat)
    requires n <= |batches| && forall k :: 0 <= k < n ==> k in held && held[k] == batches[k]
    ensures Combined(held, n) == Join(batches[..n])
  {
    if n > 0 {
      CombinedIsJoin(batches, held, n - 1);
      assert batches[..n][..n - 1] == batches[..n - 1];
    }
  }

  lemma {:induction false} BoundedSetSize(s: set<nat>, n: nat)
    requires forall k :: k in s ==> k < n
    ensures |s| <= n && (|s| == n ==> forall k :: 0 <= k < n ==> k in s)
  {
    if n > 0 {
      BoundedSetSize(s - {n - 1}, n - 1);
      if n - 1 !in s { assert s - {n - 1} == s; }
    } else {
      assert s == {} || exists k :: k in s;
    }
  }

  lemma HeldGrows(batches: seq<seq<Plan>>, arrived: set<nat>, k: nat)
    requires k < |batches| && forall j :: j in arrived ==> j < |batches|
    ensures Held(batches, arrived)[k := batches[k]] == Held(batches, arrived + {k})
    ensures Held(batches, {}) == map[]
    ensures |Held(batches, arrived + {k})| == |arrived + {k}|
  {
    assert Held(batches, arrived + {k}).Keys == arrived + {k};
    KeysCount(Held(batches, arrived + {k}));
  }

  lemma KeysCount(m: Batches)
    ensures |m.Keys| == |m|
  {
  }

  lemma AcceptProgresses(p: Peer, start: Peer, batches: seq<seq<Plan>>, arrived: set<nat>, k: nat)
    requires Progress(p, start, batches, arrived) && k < |batches|
    ensures Progress(Accept(p, Published(batches, k)), start, batches, arrived + {k})
  {
    var v := VersionOf(Join(batches));
    var now := arrived + {k};
    var before := if v in p.stored then p.stored[v] else map[];
    HeldGrows(batches, arrived, k);
    assert before == Held(batches, arrived);
    BoundedSetSize(now, |batches|);
    BoundedSetSize(arrived, |batches|);
    if |now| == |batches| {
      CombinedIsJoin(batches, Held(batches, now), |batches|);
      assert batches[..|batches|] == batches;
    } else if k in arrived {
      assert now == arrived;
    } else {
      assert |now| == |arrived| + 1;
    }
  }

  function Indices(order: seq<nat>): set<nat> {
    set j | 0 <= j < |order| :: order[j]
  }

  lemma DeliveriesSplit(batches: seq<seq<Plan>>, order: seq<nat>)
    requires order != [] && forall j :: 0 <= j < |order| ==> order[j] < |batches|
    ensures forall j :: 0 <= j < |order[1..]| ==> order[1..][j] < |batches|
    ensures Deliveries(batches, order) == [Published(batches, order[0])] + Deliveries(batches, order[1..])
  {
    hide Published;
    forall j | 0 <= j < |order[1..]| ensures order[1..][j] < |batches| { assert order[1..][j] == order[j + 1]; }
  }

  lemma {:induction false} DeliveriesProgress(p: Peer, start: Peer, batches: seq<seq<Plan>>, arrived: set<nat>, order: seq<nat>)
    requires Progress(p, start, batches, arrived)
    requires forall j :: 0 <= j < |order| ==> order[j] < |batches|
    ensures Progress(AcceptAll(p, Deliveries(batches, order)), start, batches, arrived + Indices(order))
    decreases |order|
  {
    hide Progress, Accept, Published, Deliveries, Indices;
    if order == [] {
      NothingDelivered(batches, order);
      assert arrived + Indices(order) == arrived;
    } else {
      AcceptProgresses(p, start, batches, arrived, order[0]);
      DeliveriesSplit(batches, order);
      var es, rest := Deliveries(batches, order), Deliveries(batches, order[1..]);
      assert es[0] == Published(batches, order[0]) && es[1..] == rest;
      DeliveriesProgress(Accept(p, es[0]), start, batches, arrived + {order[0]}, order[1..]);
      IndicesSplit(order);
      assert arrived + {order[0]} + Indices(order[1..]) == arrived + Indices(order);
    }
  }

  lemma NothingDelivered(batches: seq<seq<Plan>>, order: seq<nat>)
    requires order == []
    ensures Deliveries(batches, order) == [] && Indices(order) == {}
  {
  }

  lemma IndicesSplit(order: seq<nat>)
    requires order != []
    ensures Indices(order) == {order[0]} + Indices(order[1..])
  {
    forall x ensures x in Indices(order) <==> x in {order[0]} + Indices(order[1..]) {
      if x in Indices(order) && x != order[0] {
        var j :| 0 <= j < |order| && order[j] == x;
        assert order[1..][j - 1] == x;
      }
      if x in Indices(order[1..]) {
        var j :| 0 <= j < |order[1..]| && order[1..][j] == x;
        assert order[j + 1] == x;
      }
    }
  }

  /** Split and reassembly undo each other: a receiver that held nothing of this set's version installs exactly
      the publisher's plans as soon as every batch has arrived, in any order and with repeats, and keeps
      what it had until then. */
  lemma BatchesReassemble(start: Peer, batches: seq<seq<Plan>>, order: seq<nat>)
    requires batches != [] && VersionOf(Join(batches)) !in start.stored
    requires forall j :: 0 <= j < |order| ==> order[j] < |batches|
    ensures var p := AcceptAll(start, Deliveries(batches, order));
            var complete := forall k :: 0 <= k < |batches| ==> k in Indices(order);
            && (complete ==> p.installed == FileAll(Join(batches)) && p.version == Some(VersionOf(Join(batches))))
            && (!complete ==> p.installed == start.installed && p.version == start.version)
  {
    DeliveriesProgress(start, start, batches, {}, order);
    assert {} + Indices(order) == Indices(order);
    BoundedSetSize(Indices(order), |batches|);
    if forall k :: 0 <= k < |batches| ==> k in Indices(order) {
      AllIndices(Indices(order), |batches|);
    }
  }

  lemma {:induction false} AllIndices(s: set<nat>, n: nat)
    requires forall k :: 0 <= k < n ==> k in s
    requires forall k :: k in s ==> k < n
    ensures |s| == n
  {
    if n > 0 {
      AllIndices(s - {n - 1}, n - 1);
    } else {
      assert s == {};
    }
  }

  /** A publisher's plans have one entry per key, so the set installed is the publisher's own map. */
  lemma {:induction false} DistinctKeysFileExactly(plans: seq<Plan>, key: Key)
    requires forall i, j :: 0 <= i < j < |plans| ==> plans[i].key != plans[j].key
    ensures key in FileAll(plans) <==> exists k :: 0 <= k < |plans| && plans[k].key == key
    ensures forall k :: 0 <= k < |plans| && plans[k].key == key ==> key in FileAll(plans) && FileAll(plans)[key] == plans[k]
  {
    if plans != [] {
      var init := plans[..|plans| - 1];
      DistinctKeysFileExactly(init, key);
      if exists k :: 0 <= k < |plans| && plans[k].key == key {
        var k :| 0 <= k < |plans| && plans[k].key == key;
        if k < |init| { assert init[k].key == key; }
      }
    }
  }

  // ---- whatever is sent ------------------------------------------------------------------------

  /** What is filed is what the version names: its keys, and under each the last economics it gives that key. */
  ghost predicate Describes(v: Version, m: PlanMap) {
    && (forall key :: key in m ==> m[key].key == key && exists k :: LastOf(v, key, k) && v[k].1 == m[key].economics)
    && (forall k :: 0 <= k < |v| ==> v[k].0 in m)
  }

  ghost predicate LastOf(v: Version, key: Key, k: int) {
    0 <= k < |v| && v[k].0 == key && forall j :: k < j < |v| ==> v[j].0 != key
  }

  ghost predicate AsNamed(p: Peer) {
    p.version.Some? ==> Describes(p.version.value, p.installed)
  }

  lemma {:induction false} FiledAsNamed(plans: seq<Plan>)
    ensures Describes(VersionOf(plans), FileAll(plans))
    decreases |plans|
  {
    if plans != [] {
      var n := |plans| - 1;
      var init, v, m := plans[..n], VersionOf(plans), FileAll(plans);
      FiledAsNamed(init);
      forall key | key in m ensures m[key].key == key && exists k :: LastOf(v, key, k) && v[k].1 == m[key].economics {
        if key == plans[n].key {
          assert LastOf(v, key, n);
        } else {
          var k :| LastOf(VersionOf(init), key, k) && VersionOf(init)[k].1 == FileAll(init)[key].economics;
          assert forall j :: 0 <= j < n ==> v[j] == VersionOf(init)[j];
          assert LastOf(v, key, k);
        }
      }
      forall k | 0 <= k < |v| ensures v[k].0 in m {
        if k < n { assert VersionOf(init)[k].0 in FileAll(init); }
      }
    }
  }

  /** Whoever sends whatever batches in whatever order: a receiver never has a set installed that is not the one its
      version names. */
  lemma {:induction false} InstalledIsNamed(p: Peer, es: seq<Envelope>)
    requires AsNamed(p)
    ensures AsNamed(AcceptAll(p, es))
    decreases |es|
  {
    if es != [] {
      var e := es[0];
      var before := if e.version in p.stored then p.stored[e.version] else map[];
      FiledAsNamed(Combined(before[e.index := e.plans], e.count));
      hide Describes, VersionOf, FileAll;
      InstalledIsNamed(Accept(p, e), es[1..]);
    }
  }

  /** An envelope changes what is installed only to the set it names, and only once all its batches are there. */
  lemma OnlyCompleteSetsInstall(p: Peer, e: Envelope)
    requires Accept(p, e).installed != p.installed || Accept(p, e).version != p.version
    ensures var p' := Accept(p, e);
            && p'.version == Some(e.version) && e.version in p'.stored && |p'.stored[e.version]| == e.count > e.index
            && e.index in p'.stored[e.version] && p'.stored[e.version][e.index] == e.plans
            && Describes(e.version, p'.installed)
  {
    var before := if e.version in p.stored then p.stored[e.version] else map[];
    FiledAsNamed(Combined(before[e.index := e.plans], e.count));
    hide Describes, VersionOf, FileAll;
  }
}
