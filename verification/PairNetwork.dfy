/**
  The pair: a leader, a follower, and the relay between them.

  Each direction is a FIFO that may lose its head or deliver it more than once; the other Worker, the
  brokers and crashes interleave between any two micro-steps.  Any list of actions is a run.
*/
module PairNetwork {
  import opened Prelude
  import opened PairState
  import opened PairWorker
  import opened PairDiscipline
  import opened PairTruth
  import J = EffectJournal

  datatype World = World(leader: Worker, follower: Worker, toLeader: seq<Msg>, toFollower: seq<Msg>, issued: set<nat>)

  datatype Action =
    | Act(role: Role, move: Move)
    | Deliver(role: Role, again: bool, how: Reading)
    | Drop(role: Role)

  const FreshWorker := Worker(
    Db(map[], None, map[], map[], NoDesire, false, {}, false, map[]),
    Up(None, StUnknown, NoDesire, false, 0, None, Idle),
    Broker(map[], 0, map[], {}),
    0)

  const Start := World(FreshWorker, FreshWorker, [], [], {})

  function Member(g: World, r: Role): Worker {
    if r == Leader then g.leader else g.follower
  }

  function Inbox(g: World, r: Role): seq<Msg> {
    if r == Leader then g.toLeader else g.toFollower
  }

  function Other(r: Role): Role {
    if r == Leader then Follower else Leader
  }

  /** `r` takes a step: its messages go to the back of the other side's inbox. */
  function Stepping(g: World, r: Role, s: Stepped): World {
    if r == Leader then g.(leader := s.w, toFollower := g.toFollower + s.out)
    else g.(follower := s.w, toLeader := g.toLeader + s.out)
  }

  function WithInbox(g: World, r: Role, q: seq<Msg>): World {
    if r == Leader then g.(toLeader := q) else g.(toFollower := q)
  }

  /** Attempt identifiers are never issued twice. */
  function Step(cfg: Config, g: World, a: Action): World {
    match a
    case Act(r, m) =>
      if m.Create? then
        if m.attempt.id in g.issued then g
        else Stepping(g, r, MoveStep(cfg, r, Member(g, r), m)).(issued := g.issued + {m.attempt.id})
      else Stepping(g, r, MoveStep(cfg, r, Member(g, r), m))
    case Deliver(r, again, how) =>
      var q := Inbox(g, r);
      if q == [] || !CanReceive(Member(g, r)) then g
      else Stepping(WithInbox(g, r, if again then q else q[1..]), r, Receive(r, Member(g, r), q[0], how))
    case Drop(r) =>
      var q := Inbox(g, r);
      if q == [] then g else WithInbox(g, r, q[1..])
  }

  function Run(cfg: Config, g: World, acts: seq<Action>): World
    decreases |acts|
  {
    if acts == [] then g else Run(cfg, Step(cfg, g, acts[0]), acts[1..])
  }

  lemma {:induction false} RunAppend(cfg: Config, g: World, one: seq<Action>, two: seq<Action>)
    ensures Run(cfg, g, one + two) == Run(cfg, Run(cfg, g, one), two)
    decreases |one|
  {
    if one == [] {
      assert one + two == two;
    } else {
      assert (one + two)[1..] == one[1..] + two;
      RunAppend(cfg, Step(cfg, g, one[0]), one[1..], two);
    }
  }

  /** The last action of a run. */
  lemma RunLast(cfg: Config, g: World, acts: seq<Action>, n: nat)
    requires n < |acts|
    ensures Run(cfg, g, acts[..n + 1]) == Step(cfg, Run(cfg, g, acts[..n]), acts[n])
  {
    hide Step;
    assert acts[..n + 1] == acts[..n] + [acts[n]];
    RunAppend(cfg, g, acts[..n], [acts[n]]);
    assert Run(cfg, Run(cfg, g, acts[..n]), [acts[n]]) == Run(cfg, Step(cfg, Run(cfg, g, acts[..n]), acts[n]), []);
  }

  // ---- the discipline holds on both sides of every run -----------------------------------------

  ghost predicate Disciplined(g: World) {
    Discipline(Leader, g.leader) && Discipline(Follower, g.follower)
  }

  lemma StepDisciplined(cfg: Config, g: World, a: Action)
    requires Disciplined(g)
    ensures Disciplined(Step(cfg, g, a))
  {
    match a {
      case Act(r, m) => MoveKeeps(cfg, r, Member(g, r), m);
      case Deliver(r, _, how) => if Inbox(g, r) != [] { ReceiveKeeps(r, Member(g, r), Inbox(g, r)[0], how); }
      case Drop(_) =>
    }
  }

  lemma {:induction false} RunDisciplined(cfg: Config, g: World, acts: seq<Action>)
    requires Disciplined(g)
    ensures Disciplined(Run(cfg, g, acts))
    decreases |acts|
  {
    if acts != [] {
      StepDisciplined(cfg, g, acts[0]);
      RunDisciplined(cfg, Step(cfg, g, acts[0]), acts[1..]);
    }
  }

  /** At most one broker write: over every run, with crashes, restarts, losses and replays, the broker
      is called at most once per effect, only past a durable send boundary, with the journaled payload;
      and an entry effect carries exactly the market order of its attempt. */
  lemma AtMostOneBrokerCall(cfg: Config, acts: seq<Action>, r: Role, e: EffectId)
    ensures var w := Member(Run(cfg, Start, acts), r);
            var calls := CallsOf(w.broker, e);
            && |calls| <= 1
            && (calls != [] ==>
                  && e in w.db.journal && w.db.journal[e].state != J.Prepared
                  && calls == [w.db.journal[e].payload]
                  && (e.Entry? ==>
                        && e.attempt in w.db.attempts
                        && var att := w.db.attempts[e.attempt].attempt;
                           calls == [Market(att.symbol, att.lots, if (r == Leader) == (att.leaderDirection == LONG) then LONG else SHORT)]))
  {
    RunDisciplined(cfg, Start, acts);
    var w := Member(Run(cfg, Start, acts), r);
    assert EffectOk(w, e) && PayloadOk(r, w, e) && AttemptOk(w, e.attempt);
  }

  /** Restart classification is truthful: a leg is never `expired_not_started` once its entry reached the
      broker, and an attempt row without a leg row left no journal row and no call behind. */
  lemma RestartTellsTheTruth(cfg: Config, acts: seq<Action>, r: Role, id: nat)
    ensures var w := Member(Run(cfg, Start, acts), r);
            && (id in w.db.legs && CallsOf(w.broker, Entry(id)) != [] ==> w.db.legs[id].entryStatus != ExpiredNotStarted)
            && (id !in w.db.legs ==> Entry(id) !in w.db.journal && CallsOf(w.broker, Entry(id)) == [])
  {
    RunDisciplined(cfg, Start, acts);
    var w := Member(Run(cfg, Start, acts), r);
    assert EffectOk(w, Entry(id)) && AttemptOk(w, id);
  }
}
