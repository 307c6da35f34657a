/**
  The Worker's write-ahead journal of broker effects (abt/worker/effect_journal.py).

  One row per effect identifier.  A row is `Prepared` before MT5 is touched, `SendStarted` from the
  moment the irreversible call may happen, and finally carries evidence.  The table is a map; the
  class keeps one in a field and every method is specified by a function on tables.
  The payload hash is taken to be injective, so payloads are compared directly.
*/
module EffectJournal {
  import opened Prelude

  datatype EffectState = Prepared | SendStarted | HasReceipt | Observed

  datatype Row<P, V> = Row(payload: P, state: EffectState, evidence: Option<V>)

  type Table<!E, P, V> = map<E, Row<P, V>>

  datatype JournalError =
    | MissingEffectId
    | ConflictingPayload
    | NotPrepared
    | AlreadyStarted
    | ConflictingEvidence
    | NoEvidence

  // ---- the table operations --------------------------------------------------------------------

  /** The state `prepare` answers with, and the table it leaves. */
  function Prepare<E, P(==), V>(t: Table<E, P, V>, e: E, p: P): Result<(EffectState, Table<E, P, V>), JournalError> {
    if e in t then
      if t[e].payload == p then Ok((t[e].state, t)) else Err(ConflictingPayload)
    else
      Ok((Prepared, t[e := Row(p, Prepared, None)]))
  }

  function MarkSendStarted<E, P, V>(t: Table<E, P, V>, e: E): Result<Table<E, P, V>, JournalError> {
    if e !in t then Err(NotPrepared)
    else if t[e].state != Prepared then Err(AlreadyStarted)
    else Ok(t[e := t[e].(state := SendStarted, evidence := None)])
  }

  /** `_complete`: evidence may be recorded on an unresolved row, or again in the same state. */
  function Complete<E, P, V>(t: Table<E, P, V>, e: E, state: EffectState, v: V): Result<Table<E, P, V>, JournalError> {
    if e !in t then Err(NotPrepared)
    else if t[e].state !in {Prepared, SendStarted, state} then Err(ConflictingEvidence)
    else Ok(t[e := t[e].(state := state, evidence := Some(v))])
  }

  predicate IsUnresolved<E, P, V>(t: Table<E, P, V>, e: E) {
    e in t && t[e].state in {Prepared, SendStarted}
  }

  function Evidence<E, P, V>(t: Table<E, P, V>, e: E): Result<V, JournalError> {
    if e in t && t[e].state in {HasReceipt, Observed} && t[e].evidence.Some? then Ok(t[e].evidence.value)
    else Err(NoEvidence)
  }

  // ---- whole histories of one journal ----------------------------------------------------------

  datatype Op<E, P, V> =
    | PrepareOp(effect: E, payload: P)
    | StartOp(effect: E)
    | CompleteOp(effect: E, state: EffectState, evidence: V)

  /** One call: a refused call raises and leaves the table alone. */
  function Apply<E, P(==), V>(t: Table<E, P, V>, op: Op<E, P, V>): Table<E, P, V> {
    match op
    case PrepareOp(e, p) => var r := Prepare(t, e, p); if r.Ok? then r.value.1 else t
    case StartOp(e) => var r := MarkSendStarted(t, e); if r.Ok? then r.value else t
    case CompleteOp(e, s, v) => var r := Complete(t, e, s, v); if r.Ok? then r.value else t
  }

  function Replay<E, P(==), V>(t: Table<E, P, V>, ops: seq<Op<E, P, V>>): Table<E, P, V>
    decreases |ops|
  {
    if ops == [] then t else Replay(Apply(t, ops[0]), ops[1..])
  }

  /** How many times a history crosses the send boundary of one effect. */
  function Crossings<E(==), P(==), V>(t: Table<E, P, V>, ops: seq<Op<E, P, V>>, e: E): nat
    decreases |ops|
  {
    if ops == [] then 0
    else
      (if ops[0].StartOp? && ops[0].effect == e && MarkSendStarted(t, e).Ok? then 1 else 0)
      + Crossings(Apply(t, ops[0]), ops[1..], e)
  }

  /** Evidence is only ever recorded under the two evidence states. */
  predicate EvidenceOps<E, P, V>(ops: seq<Op<E, P, V>>) {
    forall k :: 0 <= k < |ops| && ops[k].CompleteOp? ==> ops[k].state in {HasReceipt, Observed}
  }

  /** No history, replayed or not, crosses the send boundary of one effect twice; a row that has
      left `Prepared` never crosses it again. */
  lemma {:induction false} AtMostOneCrossing<E, P, V>(t: Table<E, P, V>, ops: seq<Op<E, P, V>>, e: E)
    requires EvidenceOps(ops)
    ensures Crossings(t, ops, e) <= 1
    ensures e in t && t[e].state != Prepared ==> Crossings(t, ops, e) == 0
    decreases |ops|
  {
    if ops != [] {
      AtMostOneCrossing(Apply(t, ops[0]), ops[1..], e);
    }
  }

  /** What a row promised is never rewritten: its payload is fixed for life and, once the boundary
      may have been crossed, the row never again reads as unsent. */
  lemma {:induction false} RowsAreWriteAhead<E, P, V>(t: Table<E, P, V>, ops: seq<Op<E, P, V>>, e: E)
    requires EvidenceOps(ops)
    requires e in t
    ensures e in Replay(t, ops) && Replay(t, ops)[e].payload == t[e].payload
    ensures t[e].state != Prepared ==> Replay(t, ops)[e].state != Prepared
    ensures Evidence(t, e).Ok? ==> Evidence(Replay(t, ops), e).Ok?
    ensures t[e].state in {HasReceipt, Observed} ==> Replay(t, ops)[e].state == t[e].state
    decreases |ops|
  {
    if ops != [] {
      RowsAreWriteAhead(Apply(t, ops[0]), ops[1..], e);
    }
  }

  // ---- the journal object ----------------------------------------------------------------------

  /** One Worker's journal.  Effect identifiers are the source's strings; the empty one is refused. */
  class WorkerEffectJournal<P(==), V> {
    var rows: Table<string, P, V>

    constructor ()
      ensures rows == map[]
    {
      rows := map[];
    }

    method PrepareEffect(effectId: string, payload: P) returns (r: Result<EffectState, JournalError>)
      modifies this
      ensures effectId == "" ==> r == Err(MissingEffectId) && rows == old(rows)
      ensures effectId != "" ==>
        match Prepare(old(rows), effectId, payload)
        case Ok((s, t)) => r == Ok(s) && rows == t
        case Err(err) => r == Err(err) && rows == old(rows)
      ensures r.Ok? <==> effectId != "" && (effectId in old(rows) ==> old(rows)[effectId].payload == payload)
      ensures effectId in old(rows) || r.Err? ==> rows == old(rows)
      ensures r.Ok? ==> rows == (if effectId in old(rows) then old(rows) else old(rows)[effectId := Row(payload, Prepared, None)])
      ensures r.Ok? ==> r.value == rows[effectId].state
    {
      if effectId == "" {
        return Err(MissingEffectId);
      }
      if effectId in rows {
        if rows[effectId].payload != payload {
          return Err(ConflictingPayload);
        }
        return Ok(rows[effectId].state);
      }
      rows := rows[effectId := Row(payload, Prepared, None)];
      return Ok(Prepared);
    }

    method StartSend(effectId: string) returns (r: Result<(), JournalError>)
      modifies this
      ensures match MarkSendStarted(old(rows), effectId)
              case Ok(t) => r == Ok(()) && rows == t
              case Err(err) => r == Err(err) && rows == old(rows)
      ensures r.Ok? <==> effectId in old(rows) && old(rows)[effectId].state == Prepared
      ensures rows == if r.Ok? then old(rows)[effectId := Row(old(rows)[effectId].payload, SendStarted, None)] else old(rows)
      ensures r == Err(NotPrepared) <==> effectId !in old(rows)
    {
      if effectId !in rows {
        return Err(NotPrepared);
      }
      if rows[effectId].state != Prepared {
        return Err(AlreadyStarted);
      }
      rows := rows[effectId := rows[effectId].(state := SendStarted, evidence := None)];
      return Ok(());
    }

    method CompleteEffect(effectId: string, state: EffectState, evidence: V) returns (r: Result<(), JournalError>)
      modifies this
      ensures match Complete(old(rows), effectId, state, evidence)
              case Ok(t) => r == Ok(()) && rows == t
              case Err(err) => r == Err(err) && rows == old(rows)
      ensures r.Ok? <==> effectId in old(rows) && (old(rows)[effectId].state in {HasReceipt, Observed} ==> old(rows)[effectId].state == state)
      ensures rows == if r.Ok? then old(rows)[effectId := Row(old(rows)[effectId].payload, state, Some(evidence))] else old(rows)
      ensures r == Err(NotPrepared) <==> effectId !in old(rows)
    {
      if effectId !in rows {
        return Err(NotPrepared);
      }
      var current := rows[effectId].state;
      if current != Prepared && current != SendStarted && current != state {
        return Err(ConflictingEvidence);
      }
      rows := rows[effectId := rows[effectId].(state := state, evidence := Some(evidence))];
      return Ok(());
    }

    method RecordReceipt(effectId: string, receipt: V) returns (r: Result<(), JournalError>)
      modifies this
      ensures match Complete(old(rows), effectId, HasReceipt, receipt)
              case Ok(t) => r == Ok(()) && rows == t
              case Err(err) => r == Err(err) && rows == old(rows)
      ensures r.Ok? <==> effectId in old(rows) && old(rows)[effectId].state != Observed
      ensures rows == if r.Ok? then old(rows)[effectId := Row(old(rows)[effectId].payload, HasReceipt, Some(receipt))] else old(rows)
    {
      r := CompleteEffect(effectId, HasReceipt, receipt);
    }

    method RecordObservation(effectId: string, observation: V) returns (r: Result<(), JournalError>)
      modifies this
      ensures match Complete(old(rows), effectId, Observed, observation)
              case Ok(t) => r == Ok(()) && rows == t
              case Err(err) => r == Err(err) && rows == old(rows)
      ensures r.Ok? <==> effectId in old(rows) && old(rows)[effectId].state != HasReceipt
      ensures rows == if r.Ok? then old(rows)[effectId := Row(old(rows)[effectId].payload, Observed, Some(observation))] else old(rows)
    {
      r := CompleteEffect(effectId, Observed, observation);
    }
  }
}
