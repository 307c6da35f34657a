/**
  The sizing-plan store of one Worker (abt/pair_cell.py): the current plans in memory, the durable rows
  with their superseded instants, retention and purge.

  A plan's version is a hash of its whole content, so a plan stands for its version.
*/
module PlanStore {
  import opened Prelude

  datatype Key = Key(product: nat, long: bool)

  datatype Plan = Plan(generation: nat, key: Key, economics: nat, margin: nat)

  /** When each plan version was superseded; `None` while it is in force.  This is the whole history: nothing
      is ever removed from it. */
  type History = map<Plan, Option<nat>>

  type Plans = map<Key, Plan>

  /** A set of plans of one generation, filed by key. */
  predicate WellFiled(plans: Plans, generation: nat) {
    forall k :: k in plans ==> plans[k].key == k && plans[k].generation == generation
  }

  /** A refresh supersedes every version in force of the generation that it does not name, and puts those it
      names in force (again). */
  function Refreshed(h: History, plans: Plans, generation: nat, now: nat): History {
    map p | p in h.Keys + plans.Values ::
      if p in plans.Values then None
      else if p.generation == generation && h[p].None? then Some(now)
      else h[p]
  }

  /** What the identity of a plan set does not see: the margins. */
  function Economics(plans: Plans): map<Key, nat> {
    map k | k in plans :: plans[k].economics
  }

  /** The specification: in force for the installed generation, or superseded within the retention window. */
  predicate Valid(h: History, generation: nat, now: nat, retention: nat, key: Key, p: Plan) {
    p in h && p.key == key && if h[p].None? then p.generation == generation else now <= h[p].value + retention
  }

  class Store {
    var rows: History          // `cell_sizing_plans`
    var plans: Plans           // `_plans`
    var index: set<Plan>       // `_plan_index`
    var generation: nat
    var now: nat
    const retention: nat
    ghost var history: History

    /** The table is the history without versions that have expired; what is in memory is what the table
        says about the installed generation. */
    ghost predicate Consistent()
      reads this
    {
      && (forall p :: p in rows ==> p in history && rows[p] == history[p] && p.generation <= generation)
      && (forall p :: p in history && p !in rows ==> history[p].Some? && history[p].value + retention <= now)
      && (forall p :: p in history && history[p].Some? ==> history[p].value <= now)
      && WellFiled(plans, generation)
      && (forall p :: p in plans.Values <==> p in rows && rows[p].None? && p.generation == generation)
      && (forall p :: p in index <==> p in rows && p.generation == generation)
    }

    constructor (retention: nat, generation: nat)
      ensures Consistent() && history == map[] && this.generation == generation && this.retention == retention && now == 0
    {
      rows, plans, index := map[], map[], {};
      this.generation, now, this.retention := generation, 0, retention;
      history := map[];
    }

    method Pass(seconds: nat)
      requires Consistent()
      modifies this`now
      ensures Consistent() && now == old(now) + seconds
    {
      now := now + seconds;
    }

    /** `_install_universe`: plans restart under the new generation; the rows stay. */
    method InstallUniverse(next: nat)
      requires Consistent() && next > generation
      modifies this`plans, this`index, this`generation
      ensures Consistent() && generation == next && plans == map[]
    {
      plans, index, generation := map[], {}, next;
    }

    /** `_purge_expired_plan_versions`: everything superseded long enough, except the live attempt's plan. */
    method Purge(attempt: Option<Plan>)
      requires Consistent()
      modifies this`rows, this`index
      ensures Consistent()
      ensures forall p :: p in rows <==> p in old(rows) && (attempt == Some(p) || old(rows)[p].None? || now < old(rows)[p].value + retention)
      ensures forall p :: p in rows ==> rows[p] == old(rows)[p]
    {
      var todo := rows.Keys;
      while todo != {}
        invariant todo <= old(rows).Keys
        invariant Consistent()
        invariant forall p :: p in rows ==> p in old(rows) && rows[p] == old(rows)[p]
        invariant forall p :: p in todo ==> p in rows
        invariant forall p :: p in old(rows) && p !in todo ==>
                    (p in rows <==> attempt == Some(p) || old(rows)[p].None? || now < old(rows)[p].value + retention)
        decreases todo
      {
        var p :| p in todo;
        todo := todo - {p};
        if attempt != Some(p) && rows[p].Some? && rows[p].value + retention <= now {
          rows := rows - {p};
          index := index - {p};
        }
      }
    }

    /** `_install_plans`: an economically unchanged set under the same policy is not even written.  Otherwise the
        set is in force, every version of this generation that was in force and is not in it is superseded
        now, and every other version's history is what it was. */
    method InstallPlans(next: Plans, samePolicy: bool, attempt: Option<Plan>) returns (written: bool)
      requires Consistent() && WellFiled(next, generation)
      modifies this`rows, this`plans, this`index, this`history
      ensures Consistent()
      ensures written <==> !samePolicy || Economics(next) != Economics(old(plans))
      ensures !written ==> history == old(history) && rows == old(rows) && plans == old(plans) && index == old(index)
      ensures written ==> plans == next
      ensures written ==> forall p :: p in history <==> p in old(history) || p in next.Values
      ensures written ==> forall p :: p in next.Values ==> history[p] == None
      ensures written ==> forall p :: p in old(history) && p !in next.Values ==>
                history[p] == if p.generation == generation && old(history)[p].None? then Some(now) else old(history)[p]
      ensures written ==> forall p :: p in rows <==>
                (p in old(rows) || p in next.Values) && (attempt == Some(p) || history[p].None? || now < history[p].value + retention)
    {
      written := !samePolicy || Economics(next) != Economics(plans);
      if !written {
        return;
      }
      history := Refreshed(history, next, generation, now);
      rows := Refreshed(rows, next, generation, now);
      index := index + next.Values;
      plans := next;
      Purge(attempt);
    }

    /** `_load_persisted_plans`: a restart rebuilds the memory from the rows of the installed generation. */
    method Reload()
      requires Consistent()
      modifies this`plans, this`index
      ensures Consistent() && plans == old(plans) && index == old(index)
    {
      var todo := rows.Keys;
      var loaded: Plans := map[];
      var known: set<Plan> := {};
      while todo != {}
        invariant todo <= rows.Keys
        invariant forall k :: k in loaded ==> k in plans && loaded[k] == plans[k]
        invariant forall k :: k in plans ==> plans[k] in todo || (k in loaded && loaded[k] == plans[k])
        invariant forall p :: p in known <==> p in rows && p !in todo && p.generation == generation
        decreases todo
      {
        var p :| p in todo;
        todo := todo - {p};
        if p.generation == generation {
          known := known + {p};
          if rows[p].None? {
            assert p in plans.Values;
            loaded := loaded[p.key := p];
          }
        }
      }
      assert loaded == plans;
      assert known == index;
      plans, index := loaded, known;
    }

    /** `_plan_for_validation`: the current plan of this leg, or a row superseded within the window. */
    function PlanForValidation(key: Key, version: Plan): (r: Option<Plan>)
      reads this
    {
      if key in plans && plans[key] == version then Some(version)
      else if version in rows && rows[version].Some? && now <= rows[version].value + retention && version.key == key then Some(version)
      else None
    }

    /** A version validates exactly if the history says so, except at the one instant that ends its window:
        there a purge may already have dropped the row, and then it does not validate. */
    lemma ValidatesByHistory(key: Key, version: Plan)
      requires Consistent()
      ensures PlanForValidation(key, version).Some? <==>
                Valid(history, generation, now, retention, key, version) && !DroppedAtTheEnd(version)
    {
      if key in plans && plans[key] == version {
        assert version in plans.Values;
      }
      if Valid(history, generation, now, retention, key, version) && version in rows && rows[version].None? {
        assert version in plans.Values;
        assert exists k :: k in plans && plans[k] == version;
      }
    }

    /** What was never superseded validates exactly where it is in force. */
    lemma InForceValidates(key: Key, version: Plan)
      requires Consistent() && (version in history ==> history[version].None?)
      ensures PlanForValidation(key, version) == if key in plans && plans[key] == version then Some(version) else None
    {
    }

    lemma NotInForce(version: Plan)
      requires Consistent() && version in history && history[version].Some?
      ensures forall key :: key in plans ==> plans[key] != version
    {
      forall key | key in plans ensures plans[key] != version { assert plans[key] in plans.Values; }
    }

    /** Superseded exactly one window ago, and purged. */
    ghost predicate DroppedAtTheEnd(version: Plan)
      reads this
    {
      version in history && history[version].Some? && history[version].value + retention == now && version !in rows
    }
  }

  const First := Plan(1, Key(0, true), 1, 1)

  const Second := Plan(1, Key(0, true), 2, 1)

  lemma SingleValue(plans: Plans, k: Key, p: Plan)
    requires plans == map[k := p]
    ensures plans.Values == {p}
  {
    assert plans[k] == p;
  }

  // ---- over time -------------------------------------------------------------------------------

  /** What may happen to a store. */
  datatype Event =
    | Elapse(seconds: nat)
    | Publish(next: Plans, samePolicy: bool, attempt: Option<Plan>)
    | NewUniverse(generation: nat)
    | Sweep(attempt: Option<Plan>)
    | Restarted

  method Happen(s: Store, e: Event)
    requires s.Consistent()
    modifies s
    ensures s.Consistent()
    ensures forall p :: p in old(s.history) && old(s.history[p]).Some? && !(e.Publish? && p in e.next.Values) ==>
              p in s.history && s.history[p] == old(s.history)[p]
  {
    match e {
      case Elapse(seconds) => s.Pass(seconds);
      case Publish(next, samePolicy, attempt) => if WellFiled(next, s.generation) { var _ := s.InstallPlans(next, samePolicy, attempt); }
      case NewUniverse(generation) => if generation > s.generation { s.InstallUniverse(generation); }
      case Sweep(attempt) => s.Purge(attempt);
      case Restarted => s.Reload();
    }
  }

  /** A version superseded at `n` validates at every later instant before its window ends and at none after it,
      through refreshes, purges, restarts and new universes, as long as no refresh names it again; at the closing
      instant it validates while its row has not been purged. */
  method SupersededStaysValid(s: Store, events: seq<Event>, version: Plan, n: nat)
    requires s.Consistent() && version in s.history && s.history[version] == Some(n)
    requires forall k :: 0 <= k < |events| && events[k].Publish? ==> version !in events[k].next.Values
    modifies s
    ensures s.Consistent() && version in s.history && s.history[version] == Some(n) && n <= s.now
    ensures s.now < n + s.retention ==> s.PlanForValidation(version.key, version) == Some(version)
    ensures s.now > n + s.retention ==> s.PlanForValidation(version.key, version) == None
    ensures s.now == n + s.retention ==> (s.PlanForValidation(version.key, version).Some? <==> version in s.rows)
    ensures forall key :: key != version.key ==> s.PlanForValidation(key, version) == None
  {
    var k := 0;
    while k < |events|
      invariant 0 <= k <= |events|
      invariant s.Consistent() && version in s.history && s.history[version] == Some(n)
    {
      Happen(s, events[k]);
      k := k + 1;
    }
    s.NotInForce(version);
  }

  method FirstInstalled(retention: nat) returns (s: Store)
    requires retention > 0
    ensures fresh(s) && s.Consistent() && s.retention == retention && s.generation == 1 && s.now == 0
    ensures s.history == map[First := None] && First in s.rows && Economics(s.plans) == map[First.key := 1]
  {
    s := new Store(retention, 1);
    var one: Plans := map[First.key := First];
    SingleValue(one, First.key, First);
    var _ := s.InstallPlans(one, false, None);
  }

  lemma SecondSupersedesFirst(two: Plans)
    requires two.Values == {Second}
    ensures Refreshed(map[First := None], two, 1, 0) == map[First := Some(0), Second := None]
  {
  }

  /** A store whose first plan was superseded exactly one window ago. */
  method SupersededOnce(retention: nat) returns (s: Store)
    requires retention > 0
    ensures fresh(s) && s.Consistent() && s.retention == retention && s.generation == 1 && s.now == retention
    ensures s.history == map[First := Some(0), Second := None] && First in s.rows && First !in s.plans.Values
  {
    s := FirstInstalled(retention);
    var two: Plans := map[Second.key := Second];
    SingleValue(two, Second.key, Second);
    SecondSupersedesFirst(two);
    hide Refreshed;
    var _ := s.InstallPlans(two, false, Some(First));
    s.Pass(retention);
    assert s.rows[First] == Some(0);
  }

  /** At the end of the window the answer depends on whether a purge has run: two stores with one history,
      one clock and one installed generation disagree about the same version. */
  method BoundaryDisagrees(retention: nat) returns (purged: Store, unpurged: Store)
    requires retention > 0
    ensures purged.Consistent() && unpurged.Consistent() && purged.retention == unpurged.retention == retention
    ensures purged.history == unpurged.history && purged.now == unpurged.now && purged.generation == unpurged.generation
    ensures purged.PlanForValidation(First.key, First).None? && unpurged.PlanForValidation(First.key, First) == Some(First)
  {
    unpurged := SupersededOnce(retention);
    purged := SupersededOnce(retention);
    purged.Purge(None);
    assert First !in purged.rows;
  }
}
