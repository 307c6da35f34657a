/**
  The daily loss limit of one Worker (abt/pair_cell.py): realized results by New York day, the allowance
  they leave, and what that bounds over whole runs.
*/
module DailyLoss {
  import opened Prelude

  /** One row of `cell_realized_pnl`; `amount` is negative for a loss. */
  datatype Row = Row(event: nat, attempt: nat, day: nat, amount: real)

  type Book = seq<Row>

  predicate Recorded(book: Book, event: nat) {
    exists k :: 0 <= k < |book| && book[k].event == event
  }

  /** `INSERT OR IGNORE` by event. */
  function Record(book: Book, row: Row): Book {
    if Recorded(book, row.event) then book else book + [row]
  }

  function Net(book: Book, day: nat): real {
    if book == [] then 0.0
    else Net(book[..|book| - 1], day) + (if book[|book| - 1].day == day then book[|book| - 1].amount else 0.0)
  }

  /** The part of a day's result that one attempt made. */
  function NetOf(book: Book, day: nat, attempt: nat): real {
    if book == [] then 0.0
    else
      NetOf(book[..|book| - 1], day, attempt)
      + (if book[|book| - 1].day == day && book[|book| - 1].attempt == attempt then book[|book| - 1].amount else 0.0)
  }

  /** `accumulated_realized_loss_usd`: the net loss of the day, never negative. */
  function Loss(book: Book, day: nat): real {
    if Net(book, day) < 0.0 then -Net(book, day) else 0.0
  }

  datatype Policy = Policy(limit: real, cap: real)

  /** `allowed_leg_loss_usd` under an accepted policy without drift. */
  function Allowed(policy: Policy, book: Book, day: nat): real {
    var remaining := if policy.limit > Loss(book, day) then policy.limit - Loss(book, day) else 0.0;
    if policy.cap < remaining then policy.cap else remaining
  }

  /** A positive amount may be risked exactly if it is within the cap for one leg, within the limit, and would not take
      the day's result below the limit. */
  lemma AllowanceIsExact(policy: Policy, book: Book, day: nat, amount: real)
    requires amount > 0.0
    ensures amount <= Allowed(policy, book, day) <==>
              amount <= policy.cap && amount <= policy.limit && Net(book, day) - amount >= -policy.limit
  {
  }

  // ---- runs ------------------------------------------------------------------------------------

  datatype Leg = Leg(attempt: nat, risked: real, since: nat)

  datatype Account = Account(book: Book, today: nat, open: Option<Leg>, attempts: nat)

  datatype Action =
    | NextDay
    | Open(risked: real)
    | Realize(row: Row)
    | Replay(index: nat)
    | Finish

  const Start := Account([], 0, None, 0)

  /** A result of the open attempt, on a day it was open; on no day does the leg lose more than it was
      risked. */
  predicate WithinAssignment(a: Account, row: Row) {
    && a.open.Some? && row.attempt == a.open.value.attempt
    && a.open.value.since <= row.day <= a.today
    && NetOf(Record(a.book, row), row.day, row.attempt) >= -a.open.value.risked
  }

  /** One attempt at a time, risked no more than the allowance of the moment; its result is recorded
      before the next. */
  function Step(policy: Policy, a: Account, act: Action): Account {
    match act
    case NextDay => a.(today := a.today + 1)
    case Open(risked) =>
      if a.open.None? && 0.0 < risked <= Allowed(policy, a.book, a.today)
      then a.(open := Some(Leg(a.attempts, risked, a.today)), attempts := a.attempts + 1)
      else a
    case Realize(row) => if WithinAssignment(a, row) then a.(book := Record(a.book, row)) else a
    case Replay(k) => if k < |a.book| then a.(book := Record(a.book, a.book[k])) else a
    case Finish => a.(open := None)
  }

  function Run(policy: Policy, a: Account, acts: seq<Action>): Account
    decreases |acts|
  {
    if acts == [] then a else Run(policy, Step(policy, a, acts[0]), acts[1..])
  }

  // ---- the invariant ---------------------------------------------------------------------------

  predicate RowKnown(a: Account, k: nat) {
    k < |a.book| ==> a.book[k].day <= a.today && a.book[k].attempt < a.attempts
  }

  ghost predicate Bounded(policy: Policy, a: Account) {
    && policy.limit >= 0.0
    && (forall k :: RowKnown(a, k))
    && (forall d :: Net(a.book, d) >= -policy.limit)
    && (a.open.Some? ==>
          && a.open.value.attempt < a.attempts && a.open.value.since <= a.today && a.open.value.risked > 0.0
          && forall d :: d >= a.open.value.since ==>
               Net(a.book, d) - NetOf(a.book, d, a.open.value.attempt) - a.open.value.risked >= -policy.limit)
  }

  lemma {:induction false} NewAttemptMadeNothing(book: Book, day: nat, attempt: nat)
    requires forall k :: 0 <= k < |book| ==> book[k].attempt != attempt
    ensures NetOf(book, day, attempt) == 0.0
  {
    if book != [] { NewAttemptMadeNothing(book[..|book| - 1], day, attempt); }
  }

  lemma {:induction false} LaterDaysAreEmpty(book: Book, day: nat)
    requires forall k :: 0 <= k < |book| ==> book[k].day < day
    ensures Net(book, day) == 0.0
  {
    if book != [] { LaterDaysAreEmpty(book[..|book| - 1], day); }
  }

  lemma RecordAdds(book: Book, row: Row, day: nat, attempt: nat)
    requires !Recorded(book, row.event)
    ensures Net(Record(book, row), day) == Net(book, day) + (if row.day == day then row.amount else 0.0)
    ensures NetOf(Record(book, row), day, attempt) == NetOf(book, day, attempt) + (if row.day == day && row.attempt == attempt then row.amount else 0.0)
  {
    assert Record(book, row)[..|book|] == book;
  }

  lemma OpenBounded(policy: Policy, a: Account, risked: real)
    requires Bounded(policy, a)
    ensures Bounded(policy, Step(policy, a, Open(risked)))
  {
    var a' := Step(policy, a, Open(risked));
    if a' != a {
      forall k ensures RowKnown(a', k) { assert RowKnown(a, k); }
      forall d | d >= a.today ensures Net(a.book, d) - NetOf(a.book, d, a.attempts) - risked >= -policy.limit {
        forall k | 0 <= k < |a.book| ensures a.book[k].attempt != a.attempts && a.book[k].day <= a.today { assert RowKnown(a, k); }
        NewAttemptMadeNothing(a.book, d, a.attempts);
        if d > a.today { LaterDaysAreEmpty(a.book, d); }
      }
    }
  }

  lemma RealizeBounded(policy: Policy, a: Account, row: Row)
    requires Bounded(policy, a)
    ensures Bounded(policy, Step(policy, a, Realize(row)))
  {
    var a' := Step(policy, a, Realize(row));
    if WithinAssignment(a, row) && !Recorded(a.book, row.event) {
      forall k ensures RowKnown(a', k) { assert RowKnown(a, k); }
      forall d: nat ensures Net(a'.book, d) >= -policy.limit { RecordAdds(a.book, row, d, row.attempt); }
      forall d: nat | d >= a.open.value.since
        ensures Net(a'.book, d) - NetOf(a'.book, d, row.attempt) - a.open.value.risked >= -policy.limit
      {
        RecordAdds(a.book, row, d, row.attempt);
      }
    }
  }

  lemma StepBounded(policy: Policy, a: Account, act: Action)
    requires Bounded(policy, a)
    ensures Bounded(policy, Step(policy, a, act))
  {
    match act {
      case Open(risked) => OpenBounded(policy, a, risked);
      case Realize(row) => RealizeBounded(policy, a, row);
      case Replay(k) => if k < |a.book| { assert Recorded(a.book, a.book[k].event); }
      case _ =>
        forall k ensures RowKnown(Step(policy, a, act), k) { assert RowKnown(a, k); }
    }
  }

  lemma {:induction false} RunBounded(policy: Policy, a: Account, acts: seq<Action>)
    requires Bounded(policy, a)
    ensures Bounded(policy, Run(policy, a, acts))
    decreases |acts|
  {
    if acts != [] {
      StepBounded(policy, a, acts[0]);
      RunBounded(policy, Step(policy, a, acts[0]), acts[1..]);
    }
  }

  /** The daily loss bound: however attempts, results, replays and midnights interleave, no day's realized
      loss ever exceeds the limit. */
  lemma DailyLossIsBounded(policy: Policy, acts: seq<Action>, day: nat)
    requires policy.limit >= 0.0
    ensures Loss(Run(policy, Start, acts).book, day) <= policy.limit
  {
    RunBounded(policy, Start, acts);
  }

  /** No attempt of any run is opened with more at risk than the cap for one leg. */
  lemma {:induction false} RiskIsWithinTheCap(policy: Policy, a: Account, acts: seq<Action>)
    requires a.open.Some? ==> a.open.value.risked <= policy.cap
    ensures var a' := Run(policy, a, acts);
            a'.open.Some? ==> a'.open.value.risked <= policy.cap
    decreases |acts|
  {
    if acts != [] {
      if acts[0].Open? && acts[0].risked > 0.0 { AllowanceIsExact(policy, a.book, a.today, acts[0].risked); }
      hide Allowed;
      RiskIsWithinTheCap(policy, Step(policy, a, acts[0]), acts[1..]);
    }
  }

  // ---- replays ---------------------------------------------------------------------------------

  function RecordAll(book: Book, rows: seq<Row>): Book
    decreases |rows|
  {
    if rows == [] then book else RecordAll(Record(book, rows[0]), rows[1..])
  }

  lemma {:induction false} RecordedStays(book: Book, rows: seq<Row>, event: nat)
    requires Recorded(book, event) || exists k :: 0 <= k < |rows| && rows[k].event == event
    ensures Recorded(RecordAll(book, rows), event)
    decreases |rows|
  {
    if rows != [] {
      var next := Record(book, rows[0]);
      if Recorded(book, event) {
        var k :| 0 <= k < |book| && book[k].event == event;
        assert next[k].event == event;
      } else if rows[0].event == event {
        assert next[|next| - 1].event == event;
      } else {
        var k :| 0 <= k < |rows| && rows[k].event == event;
        assert rows[1..][k - 1].event == event;
      }
      RecordedStays(next, rows[1..], event);
    }
  }

  lemma {:induction false} KnownChangesNothing(book: Book, rows: seq<Row>)
    requires forall k :: 0 <= k < |rows| ==> Recorded(book, rows[k].event)
    ensures RecordAll(book, rows) == book
    decreases |rows|
  {
    if rows != [] { KnownChangesNothing(book, rows[1..]); }
  }

  lemma {:induction false} RecordAllAppend(book: Book, one: seq<Row>, two: seq<Row>)
    ensures RecordAll(book, one + two) == RecordAll(RecordAll(book, one), two)
    decreases |one|
  {
    if one == [] {
      assert one + two == two;
    } else {
      assert (one + two)[1..] == one[1..] + two;
      RecordAllAppend(Record(book, one[0]), one[1..], two);
    }
  }

  /** Delivering any part of the results again, in any order and as often as one likes, changes nothing. */
  lemma ReplayChangesNothing(book: Book, rows: seq<Row>, again: seq<Row>)
    requires forall k :: 0 <= k < |again| ==> again[k] in rows
    ensures RecordAll(book, rows + again) == RecordAll(book, rows)
  {
    RecordAllAppend(book, rows, again);
    forall k | 0 <= k < |again| ensures Recorded(RecordAll(book, rows), again[k].event) {
      var j :| 0 <= j < |rows| && rows[j] == again[k];
      assert rows[j].event == again[k].event;
      RecordedStays(book, rows, again[k].event);
    }
    KnownChangesNothing(RecordAll(book, rows), again);
  }

  // ---- the table itself ------------------------------------------------------------------------

  /** The realized-result table as the cell holds it. */
  class RealizedResults {
    var rows: Book

    constructor ()
      ensures rows == []
    {
      rows := [];
    }

    /** `_record_realized_pnl` */
    method RecordRealized(row: Row)
      modifies this
      ensures rows == Record(old(rows), row)
      ensures rows == old(rows) + (if exists k :: 0 <= k < |old(rows)| && old(rows)[k].event == row.event then [] else [row])
    {
      var k := 0;
      while k < |rows|
        invariant 0 <= k <= |rows|
        invariant rows == old(rows)
        invariant forall j :: 0 <= j < k ==> rows[j].event != row.event
      {
        if rows[k].event == row.event {
          return;
        }
        k := k + 1;
      }
      rows := rows + [row];
    }

    /** `accumulated_realized_loss_usd` */
    method AccumulatedLoss(day: nat) returns (loss: real)
      ensures loss == Loss(rows, day)
    {
      var net := 0.0;
      var k := 0;
      while k < |rows|
        invariant 0 <= k <= |rows|
        invariant net == Net(rows[..k], day)
      {
        assert rows[..k + 1][..k] == rows[..k];
        if rows[k].day == day { net := net + rows[k].amount; }
        k := k + 1;
      }
      assert rows[..k] == rows;
      loss := if net < 0.0 then -net else 0.0;
    }
  }
}
