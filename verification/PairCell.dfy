/**
  The Pair Execution Cell as the object it is (abt/pair_cell.py): its methods update fields and write durable
  rows one after the other, and each handler is a path of the micro-steps the pair's safety is proved on.
*/
module PairCell {
  import opened Prelude
  import opened PairState
  import opened PairWorker
  import opened PairDiscipline
  import opened PairPaths
  import J = EffectJournal

  class PairExecutionCell {
    const cfg: Config
    const role: Role

    // durable: the SQLite tables and the effect journal
    var attempts: map<nat, AttemptRow>
    var latest: Option<nat>
    var legs: map<nat, Leg>
    var peerLegs: map<nat, LegStatus>
    var storedDesired: Desired
    var storedConfirmed: bool
    var active: set<nat>
    var needsHuman: bool
    var journal: Journal

    // volatile
    var attempt: Option<Attempt>
    var peer: LegStatus
    var desired: Desired
    var confirmed: bool
    var probes: nat
    var deadline: Option<nat>
    var deferred: set<EffectId>   // `_replay_deferred`

    // the world: the account, the clock, what the relay was given
    var broker: Broker
    var clock: nat
    var sent: seq<Msg>

    /** What survives a crash. */
    function Rows(): Db
      reads this`attempts, this`latest, this`legs, this`peerLegs, this`storedDesired, this`storedConfirmed, this`active, this`needsHuman, this`journal
    {
      Db(attempts, latest, legs, peerLegs, storedDesired, storedConfirmed, active, needsHuman, journal)
    }

    /** This Worker between two handlers. */
    function W(): Worker
      reads this
    {
      Worker(Rows(), Up(attempt, peer, desired, confirmed, probes, deadline, Idle), broker, clock)
    }

    /** This Worker inside a handler, and everything it has said. */
    function Now(pc: Pc): Stepped
      reads this
    {
      Stepped(WithPc(W(), pc), sent)
    }

    ghost predicate Valid()
      reads this
    {
      Sane(role, W())
    }

    /** EMPTY is wanted, in memory and in the row, and no timer runs. */
    predicate Closed()
      reads this
    {
      desired == EmptyDesired && storedDesired == EmptyDesired && deadline.None?
    }

    /** What is wanted, confirmed and timed, in memory and in the row. */
    function Wanted(): Wish
      reads this
    {
      Wish(desired, storedDesired, confirmed, storedConfirmed, deadline)
    }

    /** What following up on a peer status may change. */
    function Side(): LegSide
      reads this
    {
      LegSide(legs, journal, broker, sent, Wanted())
    }

    /** A close request is never half made. */
    predicate CloseIsWhole()
      reads this
    {
      desired == EmptyDesired ==> Closed()
    }

    /** Every fact of this Worker but its journal, its account and what it has said. */
    twostate predicate OnlyWrote()
      reads this
    {
      W() == old(W()).(db := old(W()).db.(journal := journal), broker := broker)
    }

    // ---- one commit each -----------------------------------------------------------------------

    method PersistDesired(d: Desired, c: bool)
      modifies this
      ensures deferred == old(deferred)
      ensures W() == PutDesired(old(W()), d, c) && sent == old(sent)
    {
      desired, confirmed := d, c;
      storedDesired, storedConfirmed := d, c;
    }

    method PersistLeg(id: nat, leg: Leg)
      modifies this
      ensures deferred == old(deferred)
      ensures W() == PutLeg(old(W()), id, leg) && sent == old(sent)
    {
      legs := legs[id := leg];
    }

    method BeginLocalClose()
      modifies this
      ensures deferred == old(deferred)
      ensures W() == BeginClose(old(W())) && sent == old(sent)
      ensures attempt.Some? && old(CloseIsWhole()) ==> Closed()
    {
      if attempt.None? || desired == EmptyDesired { return; }
      PersistDesired(EmptyDesired, confirmed);
      deadline := None;
    }

    method SetNeedsHuman()
      modifies this
      ensures deferred == old(deferred)
      ensures W() == Latch(old(W())) && sent == old(sent)
    {
      needsHuman := true;
    }

    /** An effect that is still open is closed with this evidence; any other row is as it was. */
    static ghost predicate ObservedAs(j: Journal, j': Journal, e: EffectId, v: Evidence) {
      j' == if e in j && j[e].state in {J.Prepared, J.SendStarted} then j[e := J.Row(j[e].payload, J.Observed, Some(v))] else j
    }

    method RecordObservation(e: EffectId, v: Evidence)
      modifies this
      ensures deferred == old(deferred)
      ensures W() == Observe(old(W()), e, v) && sent == old(sent)
      ensures W() == old(W()).(db := old(W()).db.(journal := journal)) && ObservedAs(old(journal), journal, e, v)
    {
      if J.IsUnresolved(journal, e) {
        var r := J.Complete(journal, e, J.Observed, v);
        if r.Ok? { journal := r.value; }
      }
    }

    method Relay(m: Msg)
      modifies this
      ensures deferred == old(deferred)
      ensures W() == old(W()) && sent == old(sent) + [m]
    {
      sent := sent + [m];
    }

    // ---- `_run_broker_write` -------------------------------------------------------------------

    /** No other effect's row is touched. */
    static ghost predicate OthersKept(j: Journal, j': Journal, e: EffectId) {
      forall x :: x != e ==> (x in j' <==> x in j) && (x in j ==> j'[x] == j[x])
    }

    static predicate Evidenced(j: Journal, e: EffectId) {
      e in j && j[e].state in {J.HasReceipt, J.Observed}
    }

    /** The effect is prepared and was not sent. */
    static predicate Ready(j: Journal, e: EffectId) {
      e in j && j[e].state == J.Prepared
    }

    /** It may have been sent; nothing has come back. */
    static predicate InFlight(j: Journal, e: EffectId) {
      e in j && j[e].state == J.SendStarted
    }

    /** Its row says that it may have been sent. */
    static predicate Marked(j: Journal, j': Journal, e: EffectId) {
      InFlight(j', e) && e in j && j'[e].payload == j[e].payload && j' == j[e := j'[e]]
    }

    /** The broker was called once more, with this, for this effect and no other. */
    static ghost predicate CalledOnce(b: Broker, b': Broker, e: EffectId, p: Payload) {
      CallsOf(b', e) == CallsOf(b, e) + [p] && forall x :: x != e ==> CallsOf(b', x) == CallsOf(b, x)
    }

    /** What a write comes to: no call at all, or one call past the durable boundary and its receipt. */
    static ghost predicate WriteEnds(j: Journal, j': Journal, b: Broker, b': Broker, e: EffectId, p: Payload, a: Answer, result: WriteResult) {
      if a.decision.Grant? && Ready(j, e) then
        && CalledOnce(b, b', e, p) && e in j' && j'[e].state != J.Prepared && j'[e].payload == j[e].payload
        && result == (if a.reply == Answered(true) then Completed else if a.reply == Answered(false) then RejectedByBroker else Unclear)
        && (a.reply.Answered? ==> j'[e].evidence == Some(Receipt(a.reply.success)))
      else
        && b' == b && result == (if a.decision.Refuse? then a.decision.result else Unclear)
    }

    predicate Open(job: Job, a: Answer)
      reads this
    {
      attempt.Some? && attempt.value.id in legs && Possible(cfg, a, JobPayload(job, attempt.value, role, legs[attempt.value.id]))
    }

    /** `scheduler.admit` and the wait for this item: granted, or a result without a call. */
    method AdmitWrite(job: Job, a: Answer) returns (granted: bool, result: WriteResult)
      requires Open(job, a)
      modifies this
      ensures deferred == old(deferred)
      ensures attempt == old(attempt) && legs == old(legs) && sent == old(sent) && (granted ==> journal == old(journal)) && (granted <==> a.decision.Grant?)
      ensures broker == old(broker) && OthersKept(old(journal), journal, JobEffect(job, old(attempt).value.id)) && (!granted ==> result != Completed && result != RejectedByBroker)
      ensures Now(Write(job, if granted then Granted else Done(result))) == Then(cfg, role, old(Now(Write(job, Admit))), Schedule(a.decision))
      ensures OnlyWrote() && (!granted ==> result == if a.decision.Refuse? then a.decision.result else Unclear)
    {
      hide Then;
      WriteStepIs(cfg, role, Now(Write(job, Admit)), attempt.value, job, Admit, Schedule(a.decision));
      granted, result := a.decision.Grant?, Unclear;
      if a.decision.Refuse? {
        result := a.decision.result;
        RecordObservation(JobEffect(job, attempt.value.id), NotStarted);
      }
    }

    /** `mark_send_started`: the boundary is durable before the call. */
    method CrossBoundary(job: Job) returns (ok: bool)
      requires attempt.Some? && attempt.value.id in legs
      modifies this`journal
      ensures ok <==> J.MarkSendStarted(old(journal), JobEffect(job, attempt.value.id)).Ok?
      ensures OthersKept(old(journal), journal, JobEffect(job, attempt.value.id))
      ensures Now(Write(job, if ok then Started else Done(Unclear))) == Then(cfg, role, old(Now(Write(job, Granted))), Proceed)
      ensures ok <==> Ready(old(journal), JobEffect(job, attempt.value.id))
      ensures if ok then Marked(old(journal), journal, JobEffect(job, attempt.value.id)) else journal == old(journal)
    {
      hide Then;
      WriteStepIs(cfg, role, Now(Write(job, Granted)), attempt.value, job, Granted, Proceed);
      var marked := J.MarkSendStarted(journal, JobEffect(job, attempt.value.id));
      ok := marked.Ok?;
      if ok { journal := marked.value; }
    }

    /** `order_send` */
    method CallOut(job: Job, a: Answer)
      requires Open(job, a)
      modifies this`broker
      ensures Now(Write(job, Returned(a.reply))) == Then(cfg, role, old(Now(Write(job, Started))), Outcome(a.reply, a.exposure, a.removed))
      ensures !JobPayload(job, attempt.value, role, legs[attempt.value.id]).Market? ==> broker.holdings.Keys <= old(broker.holdings).Keys
      ensures CalledOnce(old(broker), broker, JobEffect(job, attempt.value.id), JobPayload(job, attempt.value, role, legs[attempt.value.id]))
    {
      hide Then;
      WriteStepIs(cfg, role, Now(Write(job, Started)), attempt.value, job, Started, Outcome(a.reply, a.exposure, a.removed));
      var payload := JobPayload(job, attempt.value, role, legs[attempt.value.id]);
      broker := CallBroker(broker, JobEffect(job, attempt.value.id), payload, a.exposure, a.removed);
      hide CallBroker;
    }

    /** `record_receipt` */
    method RecordReceipt(job: Job, reply: Reply) returns (result: WriteResult)
      requires attempt.Some? && attempt.value.id in legs
      modifies this`journal
      ensures Now(Write(job, Done(result))) == Then(cfg, role, old(Now(Write(job, Returned(reply)))), Proceed)
      ensures OthersKept(old(journal), journal, JobEffect(job, attempt.value.id))
      ensures result in {Completed, RejectedByBroker} ==> Evidenced(journal, JobEffect(job, attempt.value.id))
      ensures InFlight(old(journal), JobEffect(job, attempt.value.id)) ==>
                && result == (if reply == Answered(true) then Completed else if reply == Answered(false) then RejectedByBroker else Unclear)
                && JobEffect(job, attempt.value.id) in journal && journal[JobEffect(job, attempt.value.id)].payload == old(journal)[JobEffect(job, attempt.value.id)].payload
                && (reply.Answered? ==> journal[JobEffect(job, attempt.value.id)].evidence == Some(Receipt(reply.success)))
                && (reply.NoReceipt? ==> journal == old(journal))
    {
      hide Then;
      WriteStepIs(cfg, role, Now(Write(job, Returned(reply))), attempt.value, job, Returned(reply), Proceed);
      result := Unclear;
      if reply.Answered? {
        var done := J.Complete(journal, JobEffect(job, attempt.value.id), J.HasReceipt, Receipt(reply.success));
        if done.Ok? {
          journal := done.value;
          result := if reply.success then Completed else RejectedByBroker;
        }
      }
    }

    /** The second half of a write: the call and its receipt. */
    method FinishWrite(job: Job, a: Answer, ghost s0: Stepped, ghost cs: seq<Choice>) returns (result: WriteResult)
      requires Open(job, a) && InFlight(journal, JobEffect(job, attempt.value.id))
      requires Settle(cfg, role, s0, cs) == Now(Write(job, Started))
      modifies this
      ensures deferred == old(deferred) && sent == old(sent) && OnlyWrote()
      ensures OthersKept(old(journal), journal, JobEffect(job, old(attempt).value.id))
      ensures result in {Completed, RejectedByBroker} ==> Evidenced(journal, JobEffect(job, old(attempt).value.id))
      ensures !JobPayload(job, old(attempt).value, role, old(legs)[old(attempt).value.id]).Market? ==> broker.holdings.Keys <= old(broker.holdings).Keys
      ensures var e := JobEffect(job, old(attempt).value.id);
              && CalledOnce(old(broker), broker, e, JobPayload(job, old(attempt).value, role, old(legs)[old(attempt).value.id]))
              && e in journal && journal[e].state != J.Prepared && journal[e].payload == old(journal)[e].payload
              && result == (if a.reply == Answered(true) then Completed else if a.reply == Answered(false) then RejectedByBroker else Unclear)
              && (a.reply.Answered? ==> journal[e].evidence == Some(Receipt(a.reply.success)))
      ensures Now(Write(job, Done(result))) == Settle(cfg, role, s0, cs + [Outcome(a.reply, a.exposure, a.removed)] + [Proceed])
    {
      hide Then, Settle, Possible, CallBroker, CalledOnce;
      ghost var s2 := Now(Write(job, Started));
      CallOut(job, a);
      ghost var s3 := Now(Write(job, Returned(a.reply)));
      Onto(cfg, role, s0, cs, s2, Outcome(a.reply, a.exposure, a.removed), s3);
      result := RecordReceipt(job, a.reply);
      Onto(cfg, role, s0, cs + [Outcome(a.reply, a.exposure, a.removed)], s3, Proceed, Now(Write(job, Done(result))));
    }

    method RunBrokerWrite(job: Job, a: Answer) returns (result: WriteResult)
      requires Open(job, a)
      modifies this
      ensures deferred == old(deferred)
      ensures attempt == old(attempt) && legs == old(legs) && sent == old(sent)
      ensures OthersKept(old(journal), journal, JobEffect(job, old(attempt).value.id))
      ensures result in {Completed, RejectedByBroker} ==> Evidenced(journal, JobEffect(job, old(attempt).value.id))
      ensures !job.EntryJob? && !JobPayload(job, old(attempt).value, role, old(legs)[old(attempt).value.id]).Market? ==> broker.holdings.Keys <= old(broker.holdings).Keys
      ensures Now(Write(job, Done(result)))
           == Settle(cfg, role, old(Now(Write(job, Admit))), WriteChoices(a)[..WriteLength(old(journal), JobEffect(job, old(attempt).value.id), a)])
      ensures OnlyWrote()
      ensures WriteEnds(old(journal), journal, old(broker), broker, JobEffect(job, old(attempt).value.id),
                        JobPayload(job, old(attempt).value, role, old(legs)[old(attempt).value.id]), a, result)
    {
      hide Then, Settle, Possible, CallBroker, CalledOnce, JobPayload;
      ghost var s0 := Now(Write(job, Admit));
      NothingYet(s0);
      WriteStepsAre(a);
      var granted;
      granted, result := AdmitWrite(job, a);
      ghost var s1 := Now(Write(job, if granted then Granted else Done(result)));
      Onto(cfg, role, s0, [], s0, Schedule(a.decision), s1);
      if !granted { return; }
      var ok := CrossBoundary(job);
      ghost var s2 := Now(Write(job, if ok then Started else Done(Unclear)));
      Onto(cfg, role, s0, [] + [Schedule(a.decision)], s1, Proceed, s2);
      if !ok { return Unclear; }
      result := FinishWrite(job, a, s0, [] + [Schedule(a.decision)] + [Proceed]);
    }

    lemma WriteStepsAre(a: Answer)
      ensures WriteChoices(a)[..1] == [] + [Schedule(a.decision)]
      ensures WriteChoices(a)[..2] == [] + [Schedule(a.decision)] + [Proceed]
      ensures WriteChoices(a)[..4] == [] + [Schedule(a.decision)] + [Proceed] + [Outcome(a.reply, a.exposure, a.removed)] + [Proceed]
    {
    }

    lemma NothingYet(s: Stepped)
      ensures Settle(cfg, role, s, []) == s
    {
    }

    // ---- entry ---------------------------------------------------------------------------------

    /** The one market order of an attempt on this side: its symbol and volume, mirrored for the follower. */
    ghost function EntryOrder(att: Attempt): Payload {
      Market(att.symbol, att.lots, if role == Leader then att.leaderDirection else Mirror(att.leaderDirection))
    }

    /** What the answers of scheduler and broker make of an entry. */
    static ghost function EntryEnd(a: Answer): EntryStatus {
      match a.decision
      case NoItem => UnknownAfterSend
      case Refuse(result) => EntryStatusOf(result)
      case Grant => if a.reply == Answered(true) then Sent else if a.reply == Answered(false) then Rejected else UnknownAfterSend
    }

    static ghost function EntryStatusOf(result: WriteResult): EntryStatus {
      match result
      case Completed => Sent
      case RejectedByBroker => Rejected
      case Refused => Rejected
      case NeverStarted => ExpiredNotStarted
      case Unclear => UnknownAfterSend
    }

    /** What the peer is told of it: an uncertain entry is not reported, a negative one is announced too. */
    static ghost function EntrySays(id: nat, s: EntryStatus): seq<Msg> {
      match s
      case Sent => [LegStatusMsg(id, StSent)]
      case Rejected => [LegStatusMsg(id, StRejected), FailedMsg(id)]
      case ExpiredNotStarted => [LegStatusMsg(id, StExpired), FailedMsg(id)]
      case _ => []
    }

    /** A negative end wants EMPTY, any other leaves what is wanted alone. */
    twostate predicate EndsLike(status: EntryStatus)
      reads this
    {
      if status in {Rejected, ExpiredNotStarted} then
        confirmed == old(confirmed) && (old(desired) != EmptyDesired ==> Closed() && storedConfirmed == confirmed)
      else
        WishKept()
    }

    predicate OnEntryPath()
      reads this
    {
      attempt.Some? && attempt.value.id in legs
    }

    /** Local desired state first: the attempt is meant to be active. */
    method WantActive()
      requires attempt.Some?
      modifies this
      ensures deferred == old(deferred)
      ensures Now(DesiredSaved) == Then(cfg, role, old(Now(NewRow)), Proceed)
      ensures W() == PutDesired(old(W()), ActiveDesired, old(confirmed)) && sent == old(sent)
    {
      hide Then;
      EntryStepIs(cfg, role, Now(NewRow), attempt.value, Proceed);
      PersistDesired(ActiveDesired, confirmed);
      assert sent == old(sent) + [];
    }

    /** The leg row precedes everything that could leave a trace outside. */
    method WriteLegRow()
      requires attempt.Some?
      modifies this
      ensures deferred == old(deferred)
      ensures Now(LegSaved) == Then(cfg, role, old(Now(DesiredSaved)), Proceed) && OnEntryPath()
      ensures W() == PutLeg(old(W()), attempt.value.id, NewLeg) && sent == old(sent)
    {
      hide Then;
      EntryStepIs(cfg, role, Now(DesiredSaved), attempt.value, Proceed);
      PersistLeg(attempt.value.id, NewLeg);
      assert sent == old(sent) + [];
    }

    /** `_prepare_entry_effect` */
    method PrepareEntry()
      requires OnEntryPath() && Entry(attempt.value.id) !in journal
      modifies this`journal
      ensures Now(EffectPrepared) == Then(cfg, role, old(Now(LegSaved)), Proceed)
      ensures journal == old(journal)[Entry(attempt.value.id) := J.Row(EntryOrder(attempt.value), J.Prepared, None)]
    {
      hide Then;
      EntryStepIs(cfg, role, Now(LegSaved), attempt.value, Proceed);
      var prepared := J.Prepare(journal, Entry(attempt.value.id), EntryPayload(attempt.value, role));
      journal := prepared.value.1;
      assert sent == old(sent) + [];
    }

    /** `_start_timer` */
    method StartTimer()
      requires OnEntryPath()
      modifies this`deadline
      ensures Now(if role == Leader then TimerArmed else RelaySent) == Then(cfg, role, old(Now(EffectPrepared)), Proceed)
      ensures deadline == Some(clock + cfg.timeout)
    {
      hide Then;
      EntryStepIs(cfg, role, Now(EffectPrepared), attempt.value, Proceed);
      deadline := Some(clock + cfg.timeout);
      assert sent == old(sent) + [];
    }

    /** The leader's relay intent is durable before the envelope leaves. */
    method IntendRelay()
      requires OnEntryPath()
      modifies this
      ensures deferred == old(deferred)
      ensures Now(RelayIntended) == Then(cfg, role, old(Now(TimerArmed)), Proceed) && OnEntryPath()
      ensures W() == PutLeg(old(W()), attempt.value.id, old(legs)[attempt.value.id].(attemptRelayed := true)) && sent == old(sent)
    {
      hide Then;
      EntryStepIs(cfg, role, Now(TimerArmed), attempt.value, Proceed);
      PersistLeg(attempt.value.id, legs[attempt.value.id].(attemptRelayed := true));
      assert sent == old(sent) + [];
    }

    method RelayAttempt()
      requires OnEntryPath()
      modifies this
      ensures deferred == old(deferred)
      ensures Now(RelaySent) == Then(cfg, role, old(Now(RelayIntended)), Proceed) && OnEntryPath()
      ensures W() == old(W()) && sent == old(sent) + [AttemptMsg(attempt.value)]
    {
      hide Then;
      EntryStepIs(cfg, role, Now(RelayIntended), attempt.value, Proceed);
      Relay(AttemptMsg(attempt.value));
    }

    method MarkDispatched()
      requires OnEntryPath()
      modifies this
      ensures deferred == old(deferred)
      ensures Now(Write(EntryJob, Admit)) == Then(cfg, role, old(Now(RelaySent)), Proceed) && OnEntryPath()
      ensures W() == PutLeg(old(W()), attempt.value.id, old(legs)[attempt.value.id].(entryDispatched := true)) && sent == old(sent)
    {
      hide Then;
      EntryStepIs(cfg, role, Now(RelaySent), attempt.value, Proceed);
      PersistLeg(attempt.value.id, legs[attempt.value.id].(entryDispatched := true));
      assert sent == old(sent) + [];
    }

    /** The leg takes the result of the write, and the report, the notice and the close follow. */
    method ConcludeEntry(result: WriteResult)
      requires OnEntryPath()
      modifies this
      ensures deferred == old(deferred)
      ensures Now(Idle) == Settle(cfg, role, old(Now(Write(EntryJob, Done(result)))), [Proceed, Proceed, Proceed])
      ensures RowsKept() && Kept() && broker == old(broker) && journal == old(journal)
      ensures legs == old(legs)[attempt.value.id := old(legs)[attempt.value.id].(entryStatus := EntryStatusOf(result))]
      ensures EndsLike(EntryStatusOf(result))
      ensures sent == old(sent) + EntrySays(old(attempt).value.id, EntryStatusOf(result))
    {
      hide Then, Settle;
      ghost var s0 := Now(Write(EntryJob, Done(result)));
      var pc := TakeResult(result);
      if result == Unclear {
        assert sent + [] == sent;
        StaysUnclear(s0);
      } else {
        ReportOutcome(s0, pc.status, result != Completed);
      }
    }

    /** `_send_entry` right after the write. */
    method TakeResult(result: WriteResult) returns (pc: Pc)
      requires OnEntryPath()
      modifies this
      ensures deferred == old(deferred) && OnEntryPath()
      ensures RowsKept() && Kept() && broker == old(broker) && journal == old(journal) && sent == old(sent)
      ensures WishKept()
      ensures legs == old(legs)[attempt.value.id := old(legs)[attempt.value.id].(entryStatus := EntryStatusOf(result))]
      ensures pc == if result == Unclear then Idle
                    else if result == Completed then Reporting(StSent, false, false)
                    else Reporting(if result == NeverStarted then StExpired else StRejected, true, true)
      ensures Now(pc) == Settle(cfg, role, old(Now(Write(EntryJob, Done(result)))), [Proceed])
    {
      hide Then, Settle;
      ghost var s0 := Now(Write(EntryJob, Done(result)));
      var att := attempt.value;
      var (leg, next) := EntryOutcome(legs[att.id], result);
      WriteStepIs(cfg, role, s0, att, EntryJob, Done(result), Proceed);
      PersistLeg(att.id, leg);
      pc := next;
      OneStep(s0, Now(pc), Proceed);
    }

    lemma StaysUnclear(s0: Stepped)
      requires OnEntryPath() && Settle(cfg, role, s0, [Proceed]) == Now(Idle)
      ensures Settle(cfg, role, s0, [Proceed, Proceed, Proceed]) == Now(Idle)
    {
      hide Settle;
      assert [Proceed] + [Proceed, Proceed] == [Proceed, Proceed, Proceed];
      SettleAppend(cfg, role, s0, [Proceed], [Proceed, Proceed]);
      IdleStays(cfg, role, Now(Idle), [Proceed, Proceed]);
    }

    /** Report; a negative outcome is also announced and then closed. */
    method ReportOutcome(ghost s0: Stepped, status: LegStatus, negative: bool)
      requires OnEntryPath()
      requires Settle(cfg, role, s0, [Proceed]) == Now(Reporting(status, negative, negative))
      modifies this
      ensures deferred == old(deferred)
      ensures Now(Idle) == Settle(cfg, role, s0, [Proceed, Proceed, Proceed])
      ensures RowsKept() && Kept() && broker == old(broker) && journal == old(journal) && legs == old(legs)
      ensures EndsLike(if negative then Rejected else Sent)
      ensures sent == old(sent) + (if negative then [LegStatusMsg(old(attempt).value.id, status), FailedMsg(old(attempt).value.id)] else [LegStatusMsg(old(attempt).value.id, status)])
    {
      hide Then, Settle;
      var att := attempt.value;
      ghost var s1 := Now(Reporting(status, negative, negative));
      RestStepIs(cfg, role, s1, att, Proceed);
      Relay(LegStatusMsg(att.id, status));
      if negative { Relay(FailedMsg(att.id)); }
      ghost var s2 := Now(if negative then Closing else Idle);
      assert s2.out == s1.out + AdvanceRest(s1.w, att.id).out;
      Onto(cfg, role, s0, [Proceed], s1, Proceed, s2);
      assert [Proceed] + [Proceed] == [Proceed, Proceed];
      RestStepIs(cfg, role, s2, att, Proceed);
      if negative {
        BeginLocalClose();
      } else {
        IdleRests(s2.w, att.id);
      }
      assert sent == s2.out + [];
      Onto(cfg, role, s0, [Proceed, Proceed], s2, Proceed, Now(Idle));
      assert [Proceed, Proceed] + [Proceed] == [Proceed, Proceed, Proceed];
    }

    /** The choices of the steps from the attempt row to the end of the handler. */
    ghost function EntryChoices(a: Answer): seq<Choice> {
      Steps(if role == Leader then 7 else 5) + WriteChoices(a)[..if a.decision.Grant? then 4 else 1] + Steps(3)
    }

    /** The way of every attempt up to its timer: desired state, leg row, prepared effect, each durable before
        the next. */
    method PrepareAttempt() returns (ghost s0: Stepped)
      requires attempt.Some? && Entry(attempt.value.id) !in journal
      modifies this
      ensures deferred == old(deferred)
      ensures s0 == old(Now(NewRow)) && attempt == old(attempt) && OnEntryPath() && Ready(journal, Entry(attempt.value.id))
      ensures legs == old(legs)[attempt.value.id := NewLeg] && RowsKept() && Kept() && broker == old(broker) && sent == old(sent)
      ensures desired == ActiveDesired && storedDesired == ActiveDesired && confirmed == storedConfirmed == old(confirmed) && deadline == Some(clock + cfg.timeout)
      ensures Now(if role == Leader then TimerArmed else RelaySent) == Settle(cfg, role, s0, Steps(4))
    {
      hide Then, Settle;
      s0 := Now(NewRow);
      NothingYet(s0);
      assert Steps(0) == [];
      WantActive();
      Onto(cfg, role, s0, Steps(0), s0, Proceed, Now(DesiredSaved));
      StepsOneMore(0);
      ghost var s1 := Now(DesiredSaved);
      WriteLegRow();
      Onto(cfg, role, s0, Steps(1), s1, Proceed, Now(LegSaved));
      StepsOneMore(1);
      ghost var s2 := Now(LegSaved);
      PrepareEntry();
      Onto(cfg, role, s0, Steps(2), s2, Proceed, Now(EffectPrepared));
      StepsOneMore(2);
      ghost var s3 := Now(EffectPrepared);
      StartTimer();
      Onto(cfg, role, s0, Steps(3), s3, Proceed, Now(if role == Leader then TimerArmed else RelaySent));
      StepsOneMore(3);
    }

    /** The leader relays; then either role is dispatched to its own write. */
    method DispatchAttempt(ghost s0: Stepped)
      requires OnEntryPath() && Ready(journal, Entry(attempt.value.id))
      requires Now(if role == Leader then TimerArmed else RelaySent) == Settle(cfg, role, s0, Steps(4))
      modifies this
      ensures deferred == old(deferred)
      ensures attempt == old(attempt) && OnEntryPath() && Ready(journal, Entry(attempt.value.id))
      ensures RowsKept() && Kept() && broker == old(broker)
      ensures var leg := old(legs)[attempt.value.id];
              legs == old(legs)[attempt.value.id := leg.(attemptRelayed := role == Leader || leg.attemptRelayed, entryDispatched := true)]
      ensures WishKept()
      ensures sent == old(sent) + (if role == Leader then [AttemptMsg(attempt.value)] else [])
      ensures Now(Write(EntryJob, Admit)) == Settle(cfg, role, s0, Steps(if role == Leader then 7 else 5))
    {
      hide Then, Settle;
      if role == Leader {
        ghost var s1 := Now(TimerArmed);
        IntendRelay();
        Onto(cfg, role, s0, Steps(4), s1, Proceed, Now(RelayIntended));
        StepsOneMore(4);
        ghost var s2 := Now(RelayIntended);
        RelayAttempt();
        Onto(cfg, role, s0, Steps(5), s2, Proceed, Now(RelaySent));
        StepsOneMore(5);
      }
      ghost var s3 := Now(RelaySent);
      MarkDispatched();
      Onto(cfg, role, s0, Steps(if role == Leader then 6 else 4), s3, Proceed, Now(Write(EntryJob, Admit)));
      StepsOneMore(if role == Leader then 6 else 4);
    }

    /** One market order if the scheduler grants it, otherwise none. */
    ghost predicate EntryCalled(b: Broker, b': Broker, att: Attempt, a: Answer) {
      if a.decision.Grant? then CalledOnce(b, b', Entry(att.id), EntryOrder(att)) else b' == b
    }

    /** `_send_entry` */
    method SendEntry(a: Answer, ghost s0: Stepped, ghost cs: seq<Choice>)
      requires OnEntryPath() && Ready(journal, Entry(attempt.value.id)) && Possible(cfg, a, EntryPayload(attempt.value, role))
      requires Now(Write(EntryJob, Admit)) == Settle(cfg, role, s0, cs)
      modifies this
      ensures deferred == old(deferred)
      ensures Now(Idle) == Settle(cfg, role, s0, cs + WriteChoices(a)[..if a.decision.Grant? then 4 else 1] + Steps(3))
      ensures RowsKept() && Kept()
      ensures legs == old(legs)[attempt.value.id := old(legs)[attempt.value.id].(entryStatus := EntryEnd(a))]
      ensures EndsLike(EntryEnd(a))
      ensures sent == old(sent) + EntrySays(old(attempt).value.id, EntryEnd(a))
      ensures EntryCalled(old(broker), broker, old(attempt).value, a)
    {
      hide Then, Settle, Possible, EntrySays, CalledOnce;
      ghost var write := WriteChoices(a)[..if a.decision.Grant? then 4 else 1];
      var result := RunBrokerWrite(EntryJob, a);
      SettleAppend(cfg, role, s0, cs, write);
      ConcludeEntry(result);
      assert Steps(3) == [Proceed, Proceed, Proceed];
      SettleAppend(cfg, role, s0, cs + write, Steps(3));
    }

    /** What an entry has nothing to do with. */
    twostate predicate Kept()
      reads this
    {
      && peer == old(peer) && peerLegs == old(peerLegs) && probes == old(probes) && active == old(active) && needsHuman == old(needsHuman) && clock == old(clock)
    }

    /** What is wanted, confirmed and timed stays. */
    twostate predicate WishKept()
      reads this
    {
      desired == old(desired) && storedDesired == old(storedDesired) && confirmed == old(confirmed) && storedConfirmed == old(storedConfirmed) && deadline == old(deadline)
    }

    twostate predicate RowsKept()
      reads this
    {
      attempt == old(attempt) && attempts == old(attempts) && latest == old(latest)
    }

    /** An entry behind the Worker: its leg row, one order if it was granted, what was said, and EMPTY wanted exactly if
        it ended badly. */
    twostate predicate EntryRan(att: Attempt, a: Answer)
      reads this
    {
      && legs == old(legs)[att.id := Leg(EntryEnd(a), None, Rough, false, role == Leader, true)]
      && confirmed == storedConfirmed == old(confirmed) && Kept()
      && EntryCalled(old(broker), broker, att, a)
      && (if EntryEnd(a) in {Rejected, ExpiredNotStarted} then Closed()
          else desired == ActiveDesired && storedDesired == ActiveDesired && deadline == Some(clock + cfg.timeout))
      && sent == old(sent) + (if role == Leader then [AttemptMsg(att)] else []) + EntrySays(att.id, EntryEnd(a))
    }

    /** From the new attempt row to the end of the handler. */
    method RunEntry(a: Answer)
      requires attempt.Some? && Entry(attempt.value.id) !in journal && Possible(cfg, a, EntryPayload(attempt.value, role))
      modifies this
      ensures deferred == old(deferred)
      ensures Now(Idle) == Settle(cfg, role, old(Now(NewRow)), EntryChoices(a))
      ensures EntryRan(old(attempt).value, a) && RowsKept()
    {
      hide Then, Settle, Possible, EntrySays, EntryCalled;
      ghost var s0 := PrepareAttempt();
      DispatchAttempt(s0);
      SendEntry(a, s0, Steps(if role == Leader then 7 else 5));
    }

    // ---- attempts ------------------------------------------------------------------------------

    lemma OneStep(s: Stepped, next: Stepped, c: Choice)
      requires Then(cfg, role, s, c) == next
      ensures Settle(cfg, role, s, [c]) == next
    {
      hide Then;
      NothingYet(s);
      Onto(cfg, role, s, [], s, c, next);
      assert [] + [c] == [c];
    }

    /** A new attempt: in memory first, then its durable row. */
    method Adopt(att: Attempt)
      modifies this
      ensures deferred == old(deferred)
      ensures WithPc(W(), NewRow) == AdoptAttempt(old(W()), att) && sent == old(sent)
      ensures attempt == Some(att) && attempts == old(attempts)[att.id := AttemptRow(att, None)] && latest == Some(att.id)
      ensures W() == old(W()).(db := old(W()).db.(attempts := attempts, latest := latest), mem := old(W()).mem.(attempt := attempt))
    {
      attempt := Some(att);
      attempts := attempts[att.id := AttemptRow(att, None)];
      latest := Some(att.id);
    }

    lemma NoEffectYet(id: nat)
      requires Valid() && id !in attempts
      ensures Entry(id) !in journal
    {
      assert EffectOk(W(), Entry(id)) && AttemptOk(W(), id);
    }

    /** A new attempt, in memory and as the latest row, with its entry behind it. */
    twostate predicate Entered(att: Attempt, a: Answer)
      reads this
    {
      attempt == Some(att) && latest == Some(att.id) && attempts == old(attempts)[att.id := AttemptRow(att, None)] && EntryRan(att, a)
    }

    /** The rows of a new attempt, then its entry. */
    method AdmitAttempt(att: Attempt, a: Answer)
      requires Valid() && att.id !in attempts && Possible(cfg, a, EntryPayload(att, role))
      modifies this
      ensures deferred == old(deferred)
      ensures Now(Idle) == Settle(cfg, role, Stepped(AdoptAttempt(old(W()), att), old(sent)), EntryChoices(a))
      ensures Entered(att, a)
    {
      hide Sane, Settle, Possible, EntryCalled, EntrySays;
      NoEffectYet(att.id);
      Adopt(att);
      hide AdoptAttempt, EntryChoices;
      RunEntry(a);
    }

    /** `_maybe_create_attempt`, from the decision to the end of the leader's own entry. */
    method MaybeCreateAttempt(att: Attempt, a: Answer)
      requires Valid() && Possible(cfg, a, EntryPayload(att, role))
      modifies this
      ensures deferred == old(deferred)
      ensures Now(Idle) == if CreateAttempt(role, old(W()), att) == old(W()) then old(Now(Idle))
                           else Settle(cfg, role, Stepped(CreateAttempt(role, old(W()), att), old(sent)), EntryChoices(a))
      ensures Valid()
      ensures if role == Leader && old(attempt).None? && !old(needsHuman) && old(broker).holdings == map[] && att.id !in old(attempts)
              then Entered(att, a) else W() == old(W()) && sent == old(sent)
    {
      hide Sane, Settle, Possible, Entered, EntryChoices;
      if role != Leader || attempt.Some? || needsHuman || broker.holdings != map[] || att.id in attempts {
        return;
      }
      MoveSane(cfg, role, W(), Create(att));
      SettleSane(cfg, role, Stepped(CreateAttempt(role, W(), att), sent), EntryChoices(a));
      AdmitAttempt(att, a);
    }

    /** How a leg reads to the peer: verified empty, precisely protected, or by its entry. */
    ghost function LegReads(att: Attempt, leg: Leg): LegStatus {
      if leg.emptyVerified then StEmpty
      else if leg.protection == Precise then StPrecise
      else if leg.entryStatus == Filled then StFilled(att.symbol, if role == Leader then att.leaderDirection else Mirror(att.leaderDirection), att.lots)
      else if leg.entryStatus == Pending then StPending
      else if leg.entryStatus == Sent then StSent
      else if leg.entryStatus == Rejected then StRejected
      else if leg.entryStatus == ExpiredNotStarted then StExpired
      else StUnknownAfterSend
    }

    /** `_answer_leg_status`: the running attempt from its leg, another from its terminal row, an open one not at all, and
        the absence of a record only when it was asked for. */
    method AnswerLegStatus(id: nat, allowNoRecord: bool)
      modifies this
      ensures deferred == old(deferred)
      ensures W() == old(W()) && sent == old(sent) + AnswerOf(old(W()), id, allowNoRecord)
      ensures sent == old(sent) +
                (if attempt.Some? && attempt.value.id == id then
                   if id in legs then [LegStatusMsg(id, LegReads(attempt.value, legs[id]))] else []
                 else if id in attempts then
                   if attempts[id].terminal == Some(AdmissionRejected) then [LegStatusMsg(id, StRejected)]
                   else if attempts[id].terminal.Some? then [LegStatusMsg(id, StEmpty)] else []
                 else if allowNoRecord then [LegStatusMsg(id, StNoRecord)] else [])
    {
      if attempt.Some? && attempt.value.id == id {
        if id in legs { Relay(LegStatusMsg(id, CurrentStatus(attempt.value, role, legs[id]))); }
      } else if id !in attempts {
        if allowNoRecord { Relay(LegStatusMsg(id, StNoRecord)); }
      } else if attempts[id].terminal.Some? {
        Relay(LegStatusMsg(id, TerminalStatus(attempts[id].terminal.value)));
      }
      assert sent + [] == sent;
    }

    ghost function AnswerOf(w: Worker, id: nat, allowNoRecord: bool): seq<Msg> {
      PairWorker.Answer(role, w, id, allowNoRecord)
    }

    /** What this message makes of the Worker, before its handler's further steps. */
    ghost function Received(w: Worker, said: seq<Msg>, m: Msg, how: Reading): Stepped {
      var s := Receive(role, w, m, how);
      Stepped(s.w, said + s.out)
    }

    /** A durable refusal, said after it was written: nothing of the running attempt changes. */
    twostate predicate Refusing(att: Attempt)
      reads this
    {
      && attempts == old(attempts)[att.id := AttemptRow(att, Some(AdmissionRejected))] && latest == Some(att.id)
      && W() == old(W()).(db := old(W()).db.(attempts := attempts, latest := latest))
      && sent == old(sent) + [LegStatusMsg(att.id, StRejected)]
    }

    /** `_persist_rejected_attempt`: the refusal is durable before it is said. */
    method PersistRejectedAttempt(att: Attempt)
      modifies this
      ensures deferred == old(deferred)
      ensures Now(Idle) == Settle(cfg, role, Stepped(RefuseAttempt(old(W()), att), old(sent)), [Proceed])
      ensures Refusing(att)
    {
      hide Settle;
      attempts := attempts[att.id := AttemptRow(att, Some(AdmissionRejected))];
      latest := Some(att.id);
      ghost var s := Now(RejectReport(att.id));
      assert s == Stepped(RefuseAttempt(old(W()), att), old(sent));
      RestartStepIs(cfg, role, s, Proceed);
      Relay(LegStatusMsg(att.id, StRejected));
      OneStep(s, Now(Idle), Proceed);
    }

    /** A known id is answered from its record. */
    method ReplayAttempt(att: Attempt)
      requires att.id in attempts
      modifies this
      ensures deferred == old(deferred)
      ensures W() == old(W())
      ensures sent == old(sent) + (if attempts[att.id].attempt != att then [LegStatusMsg(att.id, StRejected)] else AnswerOf(old(W()), att.id, false))
    {
      if attempts[att.id].attempt != att { Relay(LegStatusMsg(att.id, StRejected)); }
      else { AnswerLegStatus(att.id, false); }
    }

    lemma ReceivedAttemptIs(w: Worker, said: seq<Msg>, att: Attempt, admit: bool)
      requires CanReceive(w)
      ensures var s := Received(w, said, AttemptMsg(att), Reading(admit, 0, 0));
              s == if role != Follower then Stepped(w, said)
                   else if att.id in w.db.attempts then
                     Stepped(w, said + (if w.db.attempts[att.id].attempt != att then [LegStatusMsg(att.id, StRejected)] else AnswerOf(w, att.id, false)))
                   else if admit && w.mem.attempt.None? && !w.db.needsHuman && AccountFlat(w) then Stepped(AdoptAttempt(w, att), said)
                   else Stepped(RefuseAttempt(w, att), said)
    {
      assert said + [] == said;
    }

    /** A handler that ended at once. */
    lemma EndedAtOnce(s: Stepped)
      requires s.w.mem.Up? && s.w.mem.pc == Idle
      ensures Settle(cfg, role, s, [Proceed]) == s
    {
      RestartStepIs(cfg, role, s, Proceed);
      OneStep(s, s, Proceed);
      hide Then;
    }

    /** `_handle_attempt`: replay of a known id, durable refusal, or admission and entry. */
    method HandleAttempt(att: Attempt, admit: bool, a: Answer)
      requires Valid() && Possible(cfg, a, EntryPayload(att, role))
      modifies this
      ensures deferred == old(deferred)
      ensures var s := Received(old(W()), old(sent), AttemptMsg(att), Reading(admit, 0, 0));
              Now(Idle) == Settle(cfg, role, s, if s.w.mem.pc == NewRow then EntryChoices(a) else [Proceed])
      ensures Valid()
      ensures role == Follower && att.id !in old(attempts) ==>
                if admit && old(attempt).None? && !old(needsHuman) && old(broker).holdings == map[] then Entered(att, a) else Refusing(att)
      ensures role == Leader || att.id in old(attempts) ==> W() == old(W())
      ensures role == Follower && att.id in old(attempts) && old(attempts)[att.id].attempt != att ==> sent == old(sent) + [LegStatusMsg(att.id, StRejected)]
    {
      hide Entered, Refusing;
      hide Sane, Settle, Possible, Received, EntryChoices, AdoptAttempt, RefuseAttempt;
      ghost var w, said := W(), sent;
      ghost var s := Received(w, said, AttemptMsg(att), Reading(admit, 0, 0));
      ReceivedAttemptIs(w, said, att, admit);
      AdoptedOrRefused(w, att);
      ReceivedIsValid(AttemptMsg(att), Reading(admit, 0, 0), if s.w.mem.pc == NewRow then EntryChoices(a) else [Proceed]);
      if role != Follower {
        EndedAtOnce(Now(Idle));
      } else if att.id in attempts {
        ReplayAttempt(att);
        EndedAtOnce(Now(Idle));
      } else if admit && attempt.None? && !needsHuman && broker.holdings == map[] {
        AdmitAttempt(att, a);
      } else {
        PersistRejectedAttempt(att);
      }
    }

    lemma AdoptedOrRefused(w: Worker, att: Attempt)
      requires w.mem.Up?
      ensures AdoptAttempt(w, att).mem.Up? && AdoptAttempt(w, att).mem.pc == NewRow
      ensures RefuseAttempt(w, att).mem.Up? && RefuseAttempt(w, att).mem.pc == RejectReport(att.id)
    {
    }

    /** Whatever the handler goes on to do, the invariant of the steps is the invariant of the object. */
    lemma ReceivedIsValid(m: Msg, how: Reading, cs: seq<Choice>)
      requires Valid()
      ensures Sane(role, Settle(cfg, role, Received(W(), sent, m, how), cs).w)
    {
      ReceiveSane(role, W(), m, how);
      SettleSane(cfg, role, Received(W(), sent, m, how), cs);
      hide Sane, Settle, Receive;
    }

    /** Between handlers a running attempt has its leg row, and a close request is whole. */
    lemma ValidFacts()
      requires Valid()
      ensures CloseIsWhole() && (attempt.Some? ==> OnEntryPath() && attempt.value.id in attempts && legs[attempt.value.id].entryStatus != Pending)
      ensures attempt.None? ==> desired == NoDesire && !confirmed
    {
      hide Core;
    }

    // ---- messages about the current attempt ------------------------------------------------------

    /** `_handle_pair_entry_confirmed` */
    method HandlePairEntryConfirmed(id: nat)
      requires Valid()
      modifies this
      ensures deferred == old(deferred)
      ensures Now(Idle) == Received(old(W()), old(sent), ConfirmedMsg(id), Reading(false, 0, 0)) && Valid()
      ensures sent == old(sent)
      ensures var open := role == Follower && old(attempt).Some? && old(attempt).value.id == id && old(desired) == ActiveDesired && !old(needsHuman);
              && (!open ==> W() == old(W()))
              && (open && old(deadline).Some? && clock < old(deadline).value ==>
                    W() == old(W()).(db := old(W()).db.(desired := ActiveDesired, confirmed := true),
                                     mem := old(W()).mem.(confirmed := true, deadline := None)))
              && (open && !(old(deadline).Some? && clock < old(deadline).value) ==> Closed() && confirmed == old(confirmed) && legs == old(legs))
    {
      ValidFacts();
      ReceiveSane(role, W(), ConfirmedMsg(id), Reading(false, 0, 0));
      hide Sane;
      assert sent + [] == sent;
      if role != Follower || attempt.None? || attempt.value.id != id || id !in legs { return; }
      if desired != ActiveDesired || needsHuman { return; }
      if deadline.None? || clock >= deadline.value {
        BeginLocalClose();
        return;
      }
      PersistDesired(ActiveDesired, true);
      deadline := None;
    }

    /** `_handle_pair_entry_failed` */
    method HandlePairEntryFailed(id: nat)
      requires Valid()
      modifies this
      ensures deferred == old(deferred)
      ensures Now(Idle) == Received(old(W()), old(sent), FailedMsg(id), Reading(false, 0, 0)) && Valid()
      ensures sent == old(sent) && legs == old(legs) && confirmed == old(confirmed)
      ensures if old(attempt).Some? && old(attempt).value.id == id then Closed() else W() == old(W())
    {
      ValidFacts();
      ReceiveSane(role, W(), FailedMsg(id), Reading(false, 0, 0));
      hide Sane;
      assert sent + [] == sent;
      if attempt.Some? && attempt.value.id == id { BeginLocalClose(); }
    }

    /** `_maybe_finalize_empty` with the reset that follows the terminal row. */
    method MaybeFinalizeEmpty()
      requires Valid()
      modifies this
      ensures Now(Idle) == Settle(cfg, role, Stepped(FinalizeStep(role, old(W())), old(sent)), [Proceed]) && Valid()
      ensures sent == old(sent) && broker == old(broker)
      ensures if old(attempt).Some? && old(attempt).value.id in old(attempts) && old(attempt).value.id in old(legs)
                 && old(legs)[old(attempt).value.id].emptyVerified
                 && (old(peer) in {StRejected, StExpired, StNoRecord, StEmpty}
                     || (old(peer) == StUnknown && role == Leader && !old(legs)[old(attempt).value.id].attemptRelayed))
              then Forgotten(BothEmptyVerified) else W() == old(W())
    {
      hide Sane, Settle;
      ghost var s := Stepped(FinalizeStep(role, W()), sent);
      MoveSane(cfg, role, W(), Finalize);
      SettleSane(cfg, role, s, [Proceed]);
      if attempt.Some? && attempt.value.id in legs && legs[attempt.value.id].emptyVerified
         && !PeerSendPossible(role, W(), attempt.value.id) && attempt.value.id in attempts
      {
        assert s.w == WithPc(Terminate(W(), attempt.value.id, BothEmptyVerified), Resetting);
        hide FinalizeStep;
        EndAttempt(BothEmptyVerified);
        OneStep(s, Now(Idle), Proceed);
      } else {
        assert s == Now(Idle);
        EndedAtOnce(s);
      }
    }

    /** `_send_proof_probe`: an empty leg reports itself and asks, as long as the peer may still have sent. */
    method SendProofProbe()
      requires Valid()
      modifies this
      ensures Now(Idle) == Stepped(ProbeStep(role, old(W())).w, old(sent) + ProbeStep(role, old(W())).out) && Valid()
      ensures if old(attempt).Some? && old(legs)[old(attempt).value.id].emptyVerified && old(peer) !in {StRejected, StExpired, StNoRecord, StEmpty}
                 && (old(peer) != StUnknown || role == Follower || old(legs)[old(attempt).value.id].attemptRelayed)
              then
                && W() == old(W()).(mem := old(W()).mem.(probes := old(probes) + 1))
                && sent == old(sent) + [LegStatusMsg(attempt.value.id, StEmpty), RequestMsg(attempt.value.id)]
              else W() == old(W()) && sent == old(sent)
    {
      ValidFacts();
      MoveSane(cfg, role, W(), Probe);
      hide Sane;
      assert sent + [] == sent;
      if attempt.Some? && legs[attempt.value.id].emptyVerified && PeerSendPossible(role, W(), attempt.value.id) {
        probes := probes + 1;
        sent := sent + [LegStatusMsg(attempt.value.id, StEmpty), RequestMsg(attempt.value.id)];
      }
    }

    /** `_maybe_declare_active`: a confirmed pair whose two legs report one and the same protection. */
    method MaybeDeclareActive()
      requires Valid()
      modifies this
      ensures W() == DeclareActiveStep(old(W())) && sent == old(sent) && Valid()
      ensures W() == old(W()).(db := old(W()).db.(active := active))
      ensures active == old(active) + (if attempt.Some? && !needsHuman && confirmed && desired == ActiveDesired
                                          && (legs[attempt.value.id].protection, peer) in {(Precise, StPrecise), (Fallback, StFallback), (Frozen, StFrozen)}
                                       then {attempt.value.id} else {})
    {
      ValidFacts();
      MoveSane(cfg, role, W(), DeclareActive);
      hide Sane;
      if attempt.Some? && !needsHuman && confirmed && desired == ActiveDesired {
        var id := attempt.value.id;
        var p := legs[id].protection;
        if (p == Precise && peer == StPrecise) || (p == Fallback && peer == StFallback) || (p == Frozen && peer == StFrozen) {
          active := active + {id};
        }
      }
      assert active + {} == active;
    }

    /** The terminal row, then the reset. */
    method EndAttempt(reason: TerminalReason)
      requires attempt.Some? && attempt.value.id in attempts
      modifies this
      ensures Now(Idle) == Then(cfg, role, Stepped(WithPc(Terminate(old(W()), old(attempt).value.id, reason), Resetting), old(sent)), Proceed)
      ensures Forgotten(reason) && sent == old(sent) && broker == old(broker)
    {
      hide Then;
      var id := attempt.value.id;
      attempts := attempts[id := attempts[id].(terminal := Some(reason))];
      ghost var s := Now(Resetting);
      assert s == Stepped(WithPc(Terminate(old(W()), id, reason), Resetting), old(sent));
      RestartStepIs(cfg, role, s, Proceed);
      ResetAttempt();
    }

    /** The attempt is over for this reason, and nothing of it is left in memory. */
    twostate predicate Forgotten(reason: TerminalReason)
      reads this
      requires old(attempt).Some? && old(attempt).value.id in old(attempts)
    {
      var id := old(attempt).value.id;
      && attempts == old(attempts)[id := old(attempts)[id].(terminal := Some(reason))]
      && attempt.None? && peer == StUnknown && desired == NoDesire && storedDesired == NoDesire && !confirmed && !storedConfirmed
      && probes == 0 && deadline.None? && deferred == {}
      && legs == old(legs) && latest == old(latest) && peerLegs == old(peerLegs) && journal == old(journal) && active == old(active) && needsHuman == old(needsHuman)
    }

    /** `_reset_attempt` */
    method ResetAttempt()
      modifies this
      ensures WithPc(W(), Idle) == StepResetting(WithPc(old(W()), Resetting)) && sent == old(sent) && deferred == {}
    {
      attempt, peer, probes, deadline, deferred := None, StUnknown, 0, None, {};
      PersistDesired(NoDesire, false);
    }

    /** A crash and a restart: what is durable is loaded, then `recover` runs to its end. */
    method Restart()
      requires Valid()
      modifies this
      ensures Now(Idle) == Settle(cfg, role, Stepped(old(W()).(mem := Load(old(W()).db)), old(sent)), Steps(3)) && Valid()
      ensures sent == old(sent) && broker == old(broker) && latest == old(latest) && peerLegs == old(peerLegs) && active == old(active) && needsHuman == old(needsHuman)
      ensures !old(LiveRow()) ==> attempt.None? && peer == StUnknown && attempts == old(attempts) && legs == old(legs) && journal == old(journal)
      ensures old(LiveRow()) && latest.value !in old(legs) ==>
                attempt.None? && attempts == old(attempts)[latest.value := old(attempts)[latest.value].(terminal := Some(NoLocalEffect))] && legs == old(legs)
      ensures old(LiveRow()) && latest.value in old(legs) ==>
                && attempts == old(attempts) && attempt == Some(attempts[latest.value].attempt) && probes == 0 && confirmed == old(storedConfirmed)
                && peer == (if latest.value in peerLegs then peerLegs[latest.value] else StUnknown)
                && legs == old(legs)[latest.value := Recovered(old(journal), latest.value, old(legs)[latest.value])]
                && (if StillActive(legs[latest.value], old(storedDesired), latest.value in active)
                    then desired == storedDesired == old(storedDesired) && deadline.None? else Closed())
    {
      EvidenceIsThere();
      hide Sane, Settle, Then;
      LoadSane(role, W());
      ghost var s := Stepped(W().(mem := Load(W().db)), sent);
      SettleSane(cfg, role, s, Steps(3));
      LatestIsKeyed();
      LoadPersistedState();
      assert s == Now(Recovering);
      Recover(s);
    }

    /** What a journal row that may have been sent makes of a leg still pending, and one that was not, or is not there. */
    static ghost function Recovered(j: Journal, id: nat, leg: Leg): Leg {
      if leg.entryStatus != Pending then leg
      else if Entry(id) in j && j[Entry(id)].state != J.Prepared then leg.(entryStatus := UnknownAfterSend, entryDispatched := true)
      else leg.(entryStatus := ExpiredNotStarted)
    }

    /** Declared active, protected, certain, and not asked to close: the only leg a restart does not close. */
    static ghost predicate StillActive(leg: Leg, stored: Desired, declared: bool) {
      leg.entryStatus != UnknownAfterSend && leg.protection != Rough && stored != EmptyDesired && declared
    }

    /** A row that is over has its evidence. */
    lemma EvidenceIsThere()
      requires Valid()
      ensures forall e :: e in journal && journal[e].state in {J.HasReceipt, J.Observed} ==> journal[e].evidence.Some?
    {
      forall e | e in journal && journal[e].state in {J.HasReceipt, J.Observed} ensures journal[e].evidence.Some? { assert EffectOk(W(), e); }
    }

    lemma LatestIsKeyed()
      requires Valid()
      ensures latest.Some? && latest.value in attempts ==> attempts[latest.value].attempt.id == latest.value
    {
      if latest.Some? { assert AttemptOk(W(), latest.value); }
    }

    predicate LiveRow()
      reads this
    {
      latest.Some? && latest.value in attempts && attempts[latest.value].terminal.None?
    }

    /** `_load_persisted_state` */
    method LoadPersistedState()
      modifies this
      ensures WithPc(W(), Recovering) == old(W()).(mem := Load(old(W()).db)) && sent == old(sent)
      ensures attempts == old(attempts) && latest == old(latest) && legs == old(legs) && journal == old(journal) && broker == old(broker)
      ensures peerLegs == old(peerLegs) && active == old(active) && needsHuman == old(needsHuman) && storedDesired == old(storedDesired) && storedConfirmed == old(storedConfirmed)
      ensures probes == 0 && deadline.None? && (attempt.Some? <==> old(LiveRow()))
      ensures attempt.Some? ==> desired == storedDesired && confirmed == storedConfirmed && peer == (if latest.value in peerLegs then peerLegs[latest.value] else StUnknown)
      ensures attempt.None? ==> peer == StUnknown
      ensures attempt.Some? ==> latest.Some? && latest.value in attempts && attempt.value == attempts[latest.value].attempt
    {
      deferred := {};
      if LiveRow() { LoadLiveAttempt(); } else { ForgetMemory(); }
      hide Load;
    }

    /** The latest attempt that is not over, its peer's last status and the stored desired state. */
    method LoadLiveAttempt()
      requires LiveRow()
      modifies this`attempt, this`peer, this`desired, this`confirmed, this`probes, this`deadline
      ensures Up(attempt, peer, desired, confirmed, probes, deadline, Recovering) == Load(old(Rows())) && attempt == Some(attempts[latest.value].attempt)
    {
      var id := latest.value;
      var last := if id in peerLegs then peerLegs[id] else StUnknown;
      attempt, peer, desired, confirmed := Some(attempts[id].attempt), last, storedDesired, storedConfirmed;
      probes, deadline := 0, None;
    }

    method ForgetMemory()
      requires !LiveRow()
      modifies this`attempt, this`peer, this`desired, this`confirmed, this`probes, this`deadline
      ensures Up(attempt, peer, desired, confirmed, probes, deadline, Recovering) == Load(old(Rows())) && attempt.None?
    {
      attempt, peer, desired, confirmed := None, StUnknown, NoDesire, false;
      probes, deadline := 0, None;
    }

    /** The leg as the journal tells, and closed unless it is still active. */
    twostate predicate LegRecovered()
      requires old(OnEntryPath())
      reads this
    {
      var id := old(attempt).value.id;
      && RowsKept() && Kept() && legs == old(legs)[id := Recovered(old(journal), id, old(legs)[id])]
      && confirmed == old(confirmed)
      && (if StillActive(legs[id], old(desired), id in active) then WishKept() else Closed())
    }

    /** `recover`: an attempt without a leg row did nothing; otherwise the journal decides what may have been
        sent, and anything not verified active is closed. */
    method Recover(ghost s: Stepped)
      requires s == Now(Recovering) && (attempt.Some? ==> attempt.value.id in attempts) && CloseIsWhole()
      requires forall e :: e in journal && journal[e].state in {J.HasReceipt, J.Observed} ==> journal[e].evidence.Some?
      modifies this
      ensures Now(Idle) == Settle(cfg, role, s, Steps(3))
      ensures sent == old(sent) && broker == old(broker)
      ensures old(attempt).None? ==> W() == old(W())
      ensures old(attempt).Some? && old(attempt).value.id !in old(legs) ==> Forgotten(NoLocalEffect)
      ensures old(attempt).Some? && old(attempt).value.id in old(legs) ==> LegRecovered()
    {
      hide Settle, Then;
      if attempt.None? {
        RestartStepIs(cfg, role, s, Proceed);
        OneStep(s, Now(Idle), Proceed);
        assert Steps(1) == [Proceed];
        RestIdle(s, 1);
      } else if attempt.value.id !in legs {
        RecoverWithoutLeg(s);
      } else {
        RecoverLeg(s);
      }
    }

    /** The row ends here: no effect was ever prepared. */
    method RecoverWithoutLeg(ghost s: Stepped)
      requires s == Now(Recovering) && attempt.Some? && attempt.value.id in attempts && attempt.value.id !in legs
      modifies this
      ensures Now(Idle) == Settle(cfg, role, s, Steps(3))
      ensures Forgotten(NoLocalEffect) && sent == old(sent) && broker == old(broker)
    {
      hide Settle, Then;
      var id := attempt.value.id;
      RestartStepIs(cfg, role, s, Proceed);
      ghost var s1 := Stepped(WithPc(Terminate(W(), id, NoLocalEffect), Resetting), sent);
      OneStep(s, s1, Proceed);
      assert Steps(1) == [Proceed];
      EndAttempt(NoLocalEffect);
      Onto(cfg, role, s, Steps(1), s1, Proceed, Now(Idle));
      StepsOneMore(1);
      RestIdle(s, 2);
    }

    /** `_reconcile_entry_effect_state`, then containment. */
    method RecoverLeg(ghost s: Stepped)
      requires s == Now(Recovering) && OnEntryPath() && CloseIsWhole()
      requires forall e :: e in journal && journal[e].state in {J.HasReceipt, J.Observed} ==> journal[e].evidence.Some?
      modifies this
      ensures Now(Idle) == Settle(cfg, role, s, Steps(3))
      ensures LegRecovered() && sent == old(sent) && broker == old(broker)
    {
      hide Settle, Then;
      var id := attempt.value.id;
      RestartStepIs(cfg, role, s, Proceed);
      var (leg, pc) := ReconcileEntry(journal, Entry(id), legs[id]);
      PersistLeg(id, leg);
      OneStep(s, Now(pc), Proceed);
      assert Steps(1) == [Proceed];
      ContainAfterRestart(s, pc);
    }

    twostate predicate ClosedUnlessActive()
      requires old(OnEntryPath())
      reads this
    {
      var id := old(attempt).value.id;
      && RowsKept() && Kept() && legs == old(legs) && sent == old(sent) && broker == old(broker) && confirmed == old(confirmed)
      && (if StillActive(legs[id], old(desired), id in active) then WishKept() else Closed())
    }

    /** The second half of `recover`. */
    method ContainAfterRestart(ghost s: Stepped, pc: Pc)
      requires OnEntryPath() && pc in {RecoverObserve, RecoverClose} && Settle(cfg, role, s, Steps(1)) == Now(pc) && CloseIsWhole()
      modifies this
      ensures Now(Idle) == Settle(cfg, role, s, Steps(3))
      ensures ClosedUnlessActive()
    {
      hide Settle, Then;
      var att := attempt.value;
      if pc == RecoverObserve {
        ghost var s1 := Now(pc);
        RestStepIs(cfg, role, s1, att, Proceed);
        assert sent + [] == sent;
        RecordObservation(Entry(att.id), NotStarted);
        Onto(cfg, role, s, Steps(1), s1, Proceed, Now(RecoverClose));
        StepsOneMore(1);
        CloseAfterRestart(s, 2);
      } else {
        CloseAfterRestart(s, 1);
      }
    }

    method CloseAfterRestart(ghost s: Stepped, ghost n: nat)
      requires OnEntryPath() && 1 <= n <= 2 && Settle(cfg, role, s, Steps(n)) == Now(RecoverClose) && CloseIsWhole()
      modifies this
      ensures Now(Idle) == Settle(cfg, role, s, Steps(3))
      ensures ClosedUnlessActive()
    {
      hide Settle, Then;
      var att := attempt.value;
      ghost var s2 := Now(RecoverClose);
      RestStepIs(cfg, role, s2, att, Proceed);
      assert sent + [] == sent;
      if !RecoversActive(W(), att.id) { BeginLocalClose(); }
      Onto(cfg, role, s, Steps(n), s2, Proceed, Now(Idle));
      StepsOneMore(n);
      RestIdle(s, n + 1);
    }

    lemma RestIdle(s: Stepped, n: nat)
      requires n <= 3 && Settle(cfg, role, s, Steps(n)).w.mem.Up? && Settle(cfg, role, s, Steps(n)).w.mem.pc == Idle
      ensures Settle(cfg, role, s, Steps(3)) == Settle(cfg, role, s, Steps(n))
    {
      hide Settle;
      assert Steps(n) + Steps(3 - n) == Steps(3);
      SettleAppend(cfg, role, s, Steps(n), Steps(3 - n));
      IdleStays(cfg, role, Settle(cfg, role, s, Steps(n)), Steps(3 - n));
    }

    // ---- peer statuses, confirmation, protection -------------------------------------------------

    /** `_restore_rough_protection` gets as far as its broker write. */
    ghost predicate RollsBack(w: Worker) {
      && w.mem.Up? && w.mem.attempt.Some? && w.mem.attempt.value.id in w.db.legs
      && w.mem.pc.PeerNoted? && w.mem.pc.followUp.RollbackFollow?
      && w.db.legs[w.mem.attempt.value.id].protection == Precise
      && J.Prepare(w.db.journal, Rollback(w.mem.attempt.value.id),
                   ModifyStops(w.db.legs[w.mem.attempt.value.id].ticket, w.mem.pc.followUp.sl, w.mem.pc.followUp.tp)).Ok?
    }

    ghost function PeerChoices(w: Worker, a: Answer): seq<Choice> {
      if RollsBack(w) then
        var id := w.mem.attempt.value.id;
        var f := w.mem.pc.followUp;
        var j := J.Prepare(w.db.journal, Rollback(id), ModifyStops(w.db.legs[id].ticket, f.sl, f.tp)).value.1;
        Steps(1) + WriteChoices(a)[..WriteLength(j, Rollback(id), a)] + Steps(2)
      else Steps(2)
    }

    /** The leg is back on its fallback and says so, or the attempt is closed. */
    static ghost predicate RolledBack(id: nat, was: LegSide, now: LegSide, completed: bool)
      requires id in was.legs
    {
      if completed then
        && now.legs == was.legs[id := was.legs[id].(protection := Fallback)] && now.sent == was.sent + [LegStatusMsg(id, StFallback)]
        && now.wish == was.wish
      else
        now.legs == was.legs && now.sent == was.sent && now.wish.IsClosed()
    }

    /** This effect may be written now with this payload: new, or prepared with it before and never sent. */
    static predicate Writable(j: Journal, e: EffectId, p: Payload) {
      e in j ==> Ready(j, e) && j[e].payload == p
    }

    /** The write's result becomes the leg's protection, or the attempt is closed. */
    method ConcludeRollback(ghost r: Stepped, ghost cs: seq<Choice>, job: Job, result: WriteResult)
      requires OnEntryPath() && CloseIsWhole() && job.RollbackJob? && Settle(cfg, role, r, cs) == Now(Write(job, Done(result)))
      modifies this
      ensures Now(Idle) == Settle(cfg, role, r, cs + Steps(2))
      ensures RowsKept() && Kept() && broker == old(broker) && journal == old(journal)
      ensures RolledBack(attempt.value.id, old(Side()), Side(), result == Completed)
    {
      hide Settle, Then;
      var att := attempt.value;
      ghost var s1 := Now(Write(job, Done(result)));
      WriteStepIs(cfg, role, s1, att, job, Done(result), Proceed);
      assert sent + [] == sent && Steps(2) == [Proceed] + [Proceed] && cs + ([Proceed] + [Proceed]) == cs + [Proceed] + [Proceed];
      if result == Completed {
        PersistLeg(att.id, legs[att.id].(protection := Fallback));
        ghost var s2 := Now(Reporting(StFallback, false, false));
        Onto(cfg, role, r, cs, s1, Proceed, s2);
        RestStepIs(cfg, role, s2, att, Proceed);
        Relay(LegStatusMsg(att.id, StFallback));
        Onto(cfg, role, r, cs + [Proceed], s2, Proceed, Now(Idle));
      } else {
        assert legs[att.id := legs[att.id]] == legs;
        Onto(cfg, role, r, cs, s1, Proceed, Now(Closing));
        CloseLast(r, cs + [Proceed]);
      }
    }

    method CloseLast(ghost r: Stepped, ghost cs: seq<Choice>)
      requires OnEntryPath() && Settle(cfg, role, r, cs) == Now(Closing)
      modifies this
      ensures Now(Idle) == Settle(cfg, role, r, cs + [Proceed])
      ensures W() == BeginClose(old(W())) && sent == old(sent) && (old(CloseIsWhole()) ==> Closed())
    {
      hide Settle, Then;
      ghost var s := Now(Closing);
      RestStepIs(cfg, role, s, attempt.value, Proceed);
      assert sent + [] == sent;
      BeginLocalClose();
      Onto(cfg, role, r, cs, s, Proceed, Now(Idle));
    }

    /** One call with these stops for this leg's ticket if it may be written and is granted, otherwise none; and its end. */
    static ghost predicate RollbackWritten(id: nat, sl: int, tp: int, a: Answer, was: LegSide, now: LegSide)
      requires id in was.legs
    {
      var payload := ModifyStops(was.legs[id].ticket, sl, tp);
      var writes := a.decision.Grant? && Writable(was.journal, Rollback(id), payload);
      && (if writes then CalledOnce(was.broker, now.broker, Rollback(id), payload) else now.broker == was.broker)
      && RolledBack(id, was, now, writes && a.reply == Answered(true))
    }

    /** A peer that kept rough protection: an accepted precise write is rolled back, journaled like any other. */
    method RestoreRoughProtection(sl: int, tp: int, a: Answer, ghost r: Stepped)
      requires OnEntryPath() && CloseIsWhole() && Prompt(a) && r == Now(PeerNoted(RollbackFollow(sl, tp))) && legs[attempt.value.id].protection == Precise
      modifies this
      ensures Now(Idle) == Settle(cfg, role, r, PeerChoices(r.w, a))
      ensures RowsKept() && Kept() && RollbackWritten(attempt.value.id, sl, tp, a, old(Side()), Side())
    {
      hide Settle, Then, Possible, CalledOnce;
      var att := attempt.value;
      var payload := ModifyStops(legs[att.id].ticket, sl, tp);
      RestStepIs(cfg, role, r, att, Proceed);
      assert sent + [] == sent && Steps(1) == [Proceed];
      var prepared := J.Prepare(journal, Rollback(att.id), payload);
      if prepared.Err? {
        OneStep(r, Now(Closing), Proceed);
        CloseLast(r, [Proceed]);
        assert [Proceed] + [Proceed] == Steps(2);
        return;
      }
      journal := prepared.value.1;
      OneStep(r, Now(Write(RollbackJob(sl, tp), Admit)), Proceed);
      WriteRollback(r, sl, tp, a);
    }

    method WriteRollback(ghost r: Stepped, sl: int, tp: int, a: Answer)
      requires OnEntryPath() && CloseIsWhole() && Prompt(a) && Settle(cfg, role, r, [Proceed]) == Now(Write(RollbackJob(sl, tp), Admit))
      modifies this
      ensures Now(Idle) == Settle(cfg, role, r, [Proceed] + WriteChoices(a)[..WriteLength(old(journal), Rollback(old(attempt).value.id), a)] + Steps(2))
      ensures RowsKept() && Kept()
      ensures var id := attempt.value.id;
              var writes := a.decision.Grant? && Ready(old(journal), Rollback(id));
              && (if writes then CalledOnce(old(broker), broker, Rollback(id), ModifyStops(old(legs)[id].ticket, sl, tp)) else broker == old(broker))
              && RolledBack(id, old(Side()), Side(), writes && a.reply == Answered(true))
    {
      hide Settle, Then, Possible, CalledOnce;
      var att := attempt.value;
      var job := RollbackJob(sl, tp);
      PromptIsPossible(a, ModifyStops(legs[att.id].ticket, sl, tp));
      ghost var write := WriteChoices(a)[..WriteLength(journal, Rollback(att.id), a)];
      var result := RunBrokerWrite(job, a);
      SettleAppend(cfg, role, r, [Proceed], write);
      ConcludeRollback(r, [Proceed] + write, job, result);
    }

    lemma PromptIsPossible(a: Answer, p: Payload)
      requires Prompt(a) && !p.Market?
      ensures Possible(cfg, a, p)
    {
    }

    /** How a status of the running attempt's other leg is answered: a leg that is gone, failed or never was closes this one;
        a frozen one freezes precise protection, a fallback rolls it back; anything else is only taken down. */
    static ghost predicate FollowedUp(id: nat, status: LegStatus, sl: int, tp: int, a: Answer, was: LegSide, now: LegSide)
      requires id in was.legs
    {
      var precise := was.legs[id].protection == Precise;
      if status == StFallback && precise then RollbackWritten(id, sl, tp, a, was, now)
      else
        && now.broker == was.broker && now.journal == was.journal
        && now.legs == (if status == StFrozen && precise then was.legs[id := was.legs[id].(protection := Frozen)] else was.legs)
        && now.sent == was.sent + (if status == StFrozen && precise then [LegStatusMsg(id, StFrozen)] else [])
        && (if status in {StRejected, StExpired, StInconsistent, StEmpty, StNoRecord} then now.wish.IsClosed() else now.wish == was.wish)
    }

    /** What follows a noted peer status. */
    method FollowPeer(status: LegStatus, sl: int, tp: int, a: Answer, ghost r: Stepped)
      requires OnEntryPath() && Prompt(a) && r == Now(PeerNoted(FollowUpOf(status, sl, tp))) && CloseIsWhole()
      modifies this
      ensures Now(Idle) == Settle(cfg, role, r, PeerChoices(r.w, a))
      ensures RowsKept() && Kept() && FollowedUp(attempt.value.id, status, sl, tp, a, old(Side()), Side())
      ensures status in {StRejected, StExpired, StInconsistent, StEmpty, StNoRecord} ==> Closed()
    {
      hide Settle, PeerChoices, RollbackWritten, FollowedUp;
      var f, precise := FollowUpOf(status, sl, tp), legs[attempt.value.id].protection == Precise;
      if f.RollbackFollow? && precise {
        RestoreRoughProtection(f.sl, f.tp, a, r);
        RolledBackFollows(attempt.value.id, sl, tp, a, old(Side()), Side());
      } else if f.FreezeFollow? && precise {
        FreezeProtection(a, r);
        FrozenFollows(attempt.value.id, sl, tp, a, old(Side()), Side());
      } else {
        CloseIfAsked(f, a, r);
        OthersFollow(attempt.value.id, status, sl, tp, a, old(Side()), Side());
      }
    }

    static lemma RolledBackFollows(id: nat, sl: int, tp: int, a: Answer, was: LegSide, now: LegSide)
      requires id in was.legs && was.legs[id].protection == Precise && RollbackWritten(id, sl, tp, a, was, now)
      ensures FollowedUp(id, StFallback, sl, tp, a, was, now)
    {
    }

    static lemma FrozenFollows(id: nat, sl: int, tp: int, a: Answer, was: LegSide, now: LegSide)
      requires id in was.legs && was.legs[id].protection == Precise && now.broker == was.broker && now.journal == was.journal && now.wish == was.wish
      requires now.legs == was.legs[id := was.legs[id].(protection := Frozen)] && now.sent == was.sent + [LegStatusMsg(id, StFrozen)]
      ensures FollowedUp(id, StFrozen, sl, tp, a, was, now)
    {
    }

    static lemma OthersFollow(id: nat, status: LegStatus, sl: int, tp: int, a: Answer, was: LegSide, now: LegSide)
      requires id in was.legs && now.broker == was.broker && now.journal == was.journal && now.legs == was.legs && now.sent == was.sent
      requires status in {StFallback, StFrozen} ==> was.legs[id].protection != Precise
      requires if FollowUpOf(status, sl, tp).CloseFollow? then now.wish.IsClosed() else now.wish == was.wish
      ensures FollowedUp(id, status, sl, tp, a, was, now)
    {
      assert was.sent + [] == was.sent;
    }

    /** Precise protection stays as it is, and says so. */
    method FreezeProtection(a: Answer, ghost r: Stepped)
      requires OnEntryPath() && r == Now(PeerNoted(FreezeFollow)) && legs[attempt.value.id].protection == Precise
      modifies this
      ensures Now(Idle) == Settle(cfg, role, r, PeerChoices(r.w, a))
      ensures RowsKept() && Kept() && WishKept() && broker == old(broker) && journal == old(journal)
      ensures legs == old(legs)[attempt.value.id := old(legs)[attempt.value.id].(protection := Frozen)]
      ensures sent == old(sent) + [LegStatusMsg(attempt.value.id, StFrozen)]
    {
      hide Settle, Then;
      var att := attempt.value;
      RestStepIs(cfg, role, r, att, Proceed);
      assert sent + [] == sent && Steps(2) == [Proceed] + [Proceed];
      PersistLeg(att.id, legs[att.id].(protection := Frozen));
      ghost var s1 := Now(Reporting(StFrozen, false, false));
      OneStep(r, s1, Proceed);
      RestStepIs(cfg, role, s1, att, Proceed);
      Relay(LegStatusMsg(att.id, StFrozen));
      Onto(cfg, role, r, [Proceed], s1, Proceed, Now(Idle));
    }

    method CloseIfAsked(f: FollowUp, a: Answer, ghost r: Stepped)
      requires OnEntryPath() && r == Now(PeerNoted(f)) && CloseIsWhole()
      requires f.NoFollowUp? || f.CloseFollow? || legs[attempt.value.id].protection != Precise
      modifies this
      ensures Now(Idle) == Settle(cfg, role, r, PeerChoices(r.w, a))
      ensures RowsKept() && Kept() && broker == old(broker) && journal == old(journal) && legs == old(legs) && sent == old(sent)
      ensures if f.CloseFollow? then Closed() else WishKept()
    {
      hide Settle, Then;
      RestStepIs(cfg, role, r, attempt.value, Proceed);
      assert sent + [] == sent && Steps(2) == [Proceed] + [Proceed];
      if f.CloseFollow? { BeginLocalClose(); }
      OneStep(r, Now(Idle), Proceed);
      RestartStepIs(cfg, role, Now(Idle), Proceed);
      Onto(cfg, role, r, [Proceed], Now(Idle), Proceed, Now(Idle));
    }

    /** `_handle_peer_leg_status`: another attempt's status is recorded and, if it is not final, answered; an
        unsolicited absence claim about this one proves nothing. */
    method HandlePeerLegStatus(id: nat, status: LegStatus, sl: int, tp: int, a: Answer)
      requires Valid() && Prompt(a)
      modifies this
      ensures var r := Received(old(W()), old(sent), LegStatusMsg(id, status), Reading(false, sl, tp));
              Now(Idle) == Settle(cfg, role, r, PeerChoices(r.w, a))
      ensures Valid()
      ensures old(attempt).None? || old(attempt).value.id != id ==>
                W() == old(W()).(db := old(W()).db.(peerLegs := old(peerLegs)[id := status]))
      ensures old(attempt).Some? && old(attempt).value.id == id && status == StNoRecord && old(probes) == 0 ==> W() == old(W()) && sent == old(sent)
      ensures old(attempt).Some? && old(attempt).value.id == id && (status != StNoRecord || old(probes) > 0) ==>
                && attempt == old(attempt) && peer == status && peerLegs == old(peerLegs)[id := status]
                && FollowedUp(id, status, sl, tp, a, old(Side()), Side())
                && (status in {StRejected, StExpired, StInconsistent, StEmpty, StNoRecord} ==>
                      desired == EmptyDesired && storedDesired == EmptyDesired && deadline.None?)
    {
      hide FollowedUp, Side;
      hide Sane, Settle, PeerChoices, Received;
      ValidFacts();
      ghost var r := Received(W(), sent, LegStatusMsg(id, status), Reading(false, sl, tp));
      ReceivedIsValid(LegStatusMsg(id, status), Reading(false, sl, tp), PeerChoices(r.w, a));
      ReceivedStatusIs(W(), sent, id, status, sl, tp);
      assert sent + [] == sent;
      if attempt.None? || attempt.value.id != id {
        RecordOther(id, status);
        NothingToFollow(r, a);
      } else if status == StNoRecord && probes == 0 {
        NothingToFollow(r, a);
      } else {
        TakePeerStatus(status, sl, tp, a, r);
      }
    }

    /** A status of another attempt is kept, and a status that is not final is answered. */
    method RecordOther(id: nat, status: LegStatus)
      requires attempt.None? || attempt.value.id != id
      modifies this
      ensures W() == old(W()).(db := old(W()).db.(peerLegs := old(peerLegs)[id := status]))
      ensures sent == old(sent) + (if IsTerminalStatus(status) then [] else AnswerOf(old(W()), id, false))
    {
      peerLegs := peerLegs[id := status];
      if !IsTerminalStatus(status) { AnswerLegStatus(id, false); }
      assert sent + [] == sent;
    }

    /** A status of the running attempt's other leg is taken down and followed up. */
    method TakePeerStatus(status: LegStatus, sl: int, tp: int, a: Answer, ghost r: Stepped)
      requires OnEntryPath() && Prompt(a) && CloseIsWhole()
      requires var noted := W().(db := W().db.(peerLegs := peerLegs[attempt.value.id := status]));
               r == Stepped(noted.(mem := noted.mem.(peer := status, pc := PeerNoted(FollowUpOf(status, sl, tp)))), sent)
      modifies this
      ensures Now(Idle) == Settle(cfg, role, r, PeerChoices(r.w, a))
      ensures attempt == old(attempt) && peer == status && peerLegs == old(peerLegs)[attempt.value.id := status]
      ensures FollowedUp(attempt.value.id, status, sl, tp, a, old(Side()), Side())
      ensures status in {StRejected, StExpired, StInconsistent, StEmpty, StNoRecord} ==> Closed()
    {
      hide Settle, PeerChoices, FollowedUp;
      NotePeer(status);
      FollowPeer(status, sl, tp, a, r);
    }

    /** `_persist_peer_leg` */
    method NotePeer(status: LegStatus)
      requires attempt.Some?
      modifies this`peer, this`peerLegs
      ensures peer == status && peerLegs == old(peerLegs)[attempt.value.id := status]
    {
      peerLegs := peerLegs[attempt.value.id := status];
      peer := status;
    }

    lemma ReceivedStatusIs(w: Worker, said: seq<Msg>, id: nat, s: LegStatus, sl: int, tp: int)
      requires CanReceive(w)
      ensures var noted := w.(db := w.db.(peerLegs := w.db.peerLegs[id := s]));
              Received(w, said, LegStatusMsg(id, s), Reading(false, sl, tp))
              == if !CurrentIs(w, id) then Stepped(noted, said + (if IsTerminalStatus(s) then [] else AnswerOf(w, id, false)))
                 else if s == StNoRecord && w.mem.probes == 0 then Stepped(w, said)
                 else Stepped(noted.(mem := noted.mem.(peer := s, pc := if id in w.db.legs then PeerNoted(FollowUpOf(s, sl, tp)) else Idle)), said)
    {
      assert said + [] == said;
    }

    lemma NothingToFollow(r: Stepped, a: Answer)
      requires r.w.mem.Up? && r.w.mem.pc == Idle
      ensures Settle(cfg, role, r, PeerChoices(r.w, a)) == r
    {
      hide Settle, Then;
      IdleStays(cfg, role, r, Steps(2));
    }

    /** `_maybe_emit_pair_confirmation`: durable first, then said; inexact peer evidence closes instead. */
    method MaybeEmitPairConfirmation(ownStops: bool, peerStops: bool)
      requires Valid()
      modifies this
      ensures Now(Idle) == Settle(cfg, role, Stepped(ConfirmStep(role, old(W()), ownStops, peerStops), old(sent)), Steps(2))
      ensures Valid()
      ensures RowsKept() && Kept() && legs == old(legs) && broker == old(broker) && journal == old(journal)
      ensures if role == Leader && !old(confirmed) && !old(needsHuman) && old(desired) == ActiveDesired && old(attempt).Some?
                 && old(legs)[old(attempt).value.id].entryStatus == Filled && old(legs)[old(attempt).value.id].ticket.Some? && ownStops && old(peer).StFilled?
              then
                if old(peer) == StFilled(attempt.value.symbol, Mirror(attempt.value.leaderDirection), attempt.value.lots) && peerStops
                then confirmed && storedConfirmed && desired == ActiveDesired && storedDesired == ActiveDesired && deadline.None? && sent == old(sent) + [ConfirmedMsg(attempt.value.id)]
                else Closed() && confirmed == old(confirmed) && sent == old(sent) + [FailedMsg(attempt.value.id)]
              else WishKept() && sent == old(sent)
    {
      ValidFacts();
      ghost var s := Stepped(ConfirmStep(role, W(), ownStops, peerStops), sent);
      MoveSane(cfg, role, W(), Confirm(ownStops, peerStops));
      hide Sane, Settle, Then;
      SettleSane(cfg, role, s, Steps(2));
      if role != Leader || confirmed || needsHuman || attempt.None? || attempt.value.id !in legs || desired != ActiveDesired {
        IdleStays(cfg, role, s, Steps(2));
        return;
      }
      var att := attempt.value;
      var leg := legs[att.id];
      if leg.entryStatus != Filled || leg.ticket.None? || !ownStops || !peer.StFilled? {
        IdleStays(cfg, role, s, Steps(2));
        return;
      }
      if peer == StFilled(att.symbol, att.DirectionOf(Follower), att.lots) && peerStops {
        PersistDesired(ActiveDesired, true);
        deadline := None;
        assert s == Now(ConfirmSend);
        SayConfirmed(s);
      } else {
        assert s == Now(FailNotice);
        SayFailed(s);
      }
    }

    method SayConfirmed(ghost s: Stepped)
      requires OnEntryPath() && s == Now(ConfirmSend)
      modifies this
      ensures deferred == old(deferred)
      ensures W() == old(W()) && sent == old(sent) + [ConfirmedMsg(attempt.value.id)] && Now(Idle) == Settle(cfg, role, s, Steps(2))
    {
      hide Settle, Then;
      RestStepIs(cfg, role, s, attempt.value, Proceed);
      Relay(ConfirmedMsg(attempt.value.id));
      OneStep(s, Now(Idle), Proceed);
      RestartStepIs(cfg, role, Now(Idle), Proceed);
      Onto(cfg, role, s, [Proceed], Now(Idle), Proceed, Now(Idle));
      assert [Proceed] + [Proceed] == Steps(2);
    }

    method SayFailed(ghost s: Stepped)
      requires OnEntryPath() && s == Now(FailNotice)
      modifies this
      ensures Now(Idle) == Settle(cfg, role, s, Steps(2))
      ensures W() == BeginClose(old(W())) && sent == old(sent) + [FailedMsg(old(attempt).value.id)] && (old(CloseIsWhole()) ==> Closed())
    {
      hide Settle, Then;
      RestStepIs(cfg, role, s, attempt.value, Proceed);
      Relay(FailedMsg(attempt.value.id));
      OneStep(s, Now(Closing), Proceed);
      CloseLast(s, [Proceed]);
      assert [Proceed] + [Proceed] == Steps(2);
    }

    /** The way of a precise write, or of its fallback. */
    ghost function ProtectChoices(w: Worker, a: Answer): seq<Choice> {
      if w.mem.Up? && w.mem.attempt.Some? && w.mem.pc.Write?
      then WriteChoices(a)[..WriteLength(w.db.journal, Protection(w.mem.attempt.value.id), a)] + Steps(2)
      else Steps(1)
    }

    /** One call with these stops for this leg's ticket if they are executable, may be written and are granted, otherwise
        none; the leg is precise if the broker completed it and on its fallback if not, and says which. */
    twostate predicate ProtectionWritten(executable: bool, sl: int, tp: int, a: Answer)
      requires old(OnEntryPath())
      reads this
    {
      var id := old(attempt).value.id;
      var payload := ModifyStops(old(legs)[id].ticket, sl, tp);
      var writes := executable && a.decision.Grant? && Writable(old(journal), Protection(id), payload);
      var precise := writes && a.reply == Answered(true);
      && RowsKept() && Kept() && WishKept()
      && (if writes then CalledOnce(old(broker), broker, Protection(id), payload) && Protection(id) in journal && journal[Protection(id)].payload == payload
          else broker == old(broker))
      && legs == old(legs)[id := old(legs)[id].(protection := if precise then Precise else Fallback)]
      && sent == old(sent) + [LegStatusMsg(id, if precise then StPrecise else StFallback)]
    }

    /** `_maybe_apply_precise_protection`: once, from rough protection, journaled before it is sent. */
    method MaybeApplyPreciseProtection(executable: bool, sl: int, tp: int, a: Answer)
      requires Valid() && Prompt(a)
      modifies this
      ensures var w := ProtectStep(old(W()), executable, sl, tp);
              Now(Idle) == Settle(cfg, role, Stepped(w, old(sent)), ProtectChoices(w, a))
      ensures Valid()
      ensures if !old(needsHuman) && old(confirmed) && old(desired) == ActiveDesired && old(attempt).Some? && old(legs)[old(attempt).value.id].protection == Rough
              then ProtectionWritten(executable, sl, tp, a) else W() == old(W()) && sent == old(sent)
    {
      ValidFacts();
      ghost var s := Stepped(ProtectStep(W(), executable, sl, tp), sent);
      MoveSane(cfg, role, W(), Protect(executable, sl, tp));
      hide Sane, Settle, ProtectionWritten;
      SettleSane(cfg, role, s, ProtectChoices(s.w, a));
      if needsHuman || !confirmed || desired != ActiveDesired || attempt.None? || attempt.value.id !in legs
         || legs[attempt.value.id].protection != Rough
      {
        IdleStays(cfg, role, s, Steps(1));
        return;
      }
      ProtectNow(executable, sl, tp, a, s);
    }

    method ProtectNow(executable: bool, sl: int, tp: int, a: Answer, ghost s: Stepped)
      requires OnEntryPath() && Prompt(a) && legs[attempt.value.id].protection == Rough && s == Stepped(ProtectStep(W(), executable, sl, tp), sent)
      requires !needsHuman && confirmed && desired == ActiveDesired
      modifies this
      ensures Now(Idle) == Settle(cfg, role, s, ProtectChoices(s.w, a))
      ensures ProtectionWritten(executable, sl, tp, a)
    {
      hide Settle, CalledOnce;
      var id := attempt.value.id;
      var prepared := J.Prepare(journal, Protection(id), ModifyStops(legs[id].ticket, sl, tp));
      if !executable || prepared.Err? {
        FallBack(s);
        return;
      }
      journal := prepared.value.1;
      WriteProtection(s, sl, tp, a);
    }

    /** No executable box, or nothing that may be journaled: rough protection stays. */
    method FallBack(ghost s: Stepped)
      requires OnEntryPath() && legs[attempt.value.id].protection == Rough
      requires s == Stepped(WithPc(PutLeg(W(), attempt.value.id, FreezeOrFallback(legs[attempt.value.id]).0), FreezeOrFallback(legs[attempt.value.id]).1), sent)
      modifies this
      ensures Now(Idle) == Settle(cfg, role, s, Steps(1))
      ensures RowsKept() && Kept() && WishKept() && broker == old(broker) && journal == old(journal)
      ensures legs == old(legs)[attempt.value.id := old(legs)[attempt.value.id].(protection := Fallback)]
      ensures sent == old(sent) + [LegStatusMsg(attempt.value.id, StFallback)]
    {
      hide Settle, Then;
      var att := attempt.value;
      PersistLeg(att.id, legs[att.id].(protection := Fallback));
      assert s == Now(Reporting(StFallback, false, false));
      RestStepIs(cfg, role, s, att, Proceed);
      Relay(LegStatusMsg(att.id, StFallback));
      OneStep(s, Now(Idle), Proceed);
      assert Steps(1) == [Proceed];
    }

    method WriteProtection(ghost s: Stepped, sl: int, tp: int, a: Answer)
      requires OnEntryPath() && Prompt(a) && s == Now(Write(ProtectionJob(sl, tp), Admit)) && legs[attempt.value.id].protection == Rough
      modifies this
      ensures Now(Idle) == Settle(cfg, role, s, WriteChoices(a)[..WriteLength(s.w.db.journal, Protection(old(attempt).value.id), a)] + Steps(2))
      ensures RowsKept() && Kept() && WishKept()
      ensures var id := attempt.value.id;
              var writes := a.decision.Grant? && Ready(old(journal), Protection(id));
              var precise := writes && a.reply == Answered(true);
              && (if writes then CalledOnce(old(broker), broker, Protection(id), ModifyStops(old(legs)[id].ticket, sl, tp)) else broker == old(broker))
              && legs == old(legs)[id := old(legs)[id].(protection := if precise then Precise else Fallback)]
              && sent == old(sent) + [LegStatusMsg(id, if precise then StPrecise else StFallback)]
              && (writes ==> Protection(id) in journal && journal[Protection(id)].payload == old(journal)[Protection(id)].payload)
    {
      hide Settle, Then, Possible, CalledOnce;
      var att := attempt.value;
      var job := ProtectionJob(sl, tp);
      ghost var write := WriteChoices(a)[..WriteLength(journal, Protection(att.id), a)];
      PromptIsPossible(a, ModifyStops(legs[att.id].ticket, sl, tp));
      var result := RunBrokerWrite(job, a);
      ConcludeProtection(s, write, job, result);
    }

    /** Precise on completion, otherwise frozen or fallback; reported either way. */
    method ConcludeProtection(ghost s: Stepped, ghost cs: seq<Choice>, job: Job, result: WriteResult)
      requires OnEntryPath() && job.ProtectionJob? && Settle(cfg, role, s, cs) == Now(Write(job, Done(result)))
      modifies this
      ensures Now(Idle) == Settle(cfg, role, s, cs + Steps(2))
      ensures RowsKept() && Kept() && WishKept() && broker == old(broker) && journal == old(journal)
      ensures var id := attempt.value.id;
              var now := if result == Completed then Precise else if old(legs)[id].protection == Precise then Frozen else Fallback;
              && legs == old(legs)[id := old(legs)[id].(protection := now)]
              && sent == old(sent) + [LegStatusMsg(id, if now == Precise then StPrecise else if now == Frozen then StFrozen else StFallback)]
    {
      hide Settle, Then;
      var att := attempt.value;
      ghost var s1 := Now(Write(job, Done(result)));
      WriteStepIs(cfg, role, s1, att, job, Done(result), Proceed);
      assert sent + [] == sent && Steps(2) == [Proceed] + [Proceed] && cs + ([Proceed] + [Proceed]) == cs + [Proceed] + [Proceed];
      var (leg, pc) := AfterWrite(job, legs[att.id], result);
      PersistLeg(att.id, leg);
      ghost var s2 := Now(pc);
      Onto(cfg, role, s, cs, s1, Proceed, s2);
      RestStepIs(cfg, role, s2, att, Proceed);
      Relay(LegStatusMsg(att.id, pc.status));
      Onto(cfg, role, s, cs + [Proceed], s2, Proceed, Now(Idle));
    }

    // ---- one broker snapshot ---------------------------------------------------------------------

    /** Orders are read after positions. */
    method SeeOrders(ps: Holdings) returns (os: Holdings)
      requires OnEntryPath()
      ensures os == Orders(broker.holdings) && Now(Seen(ps, os)) == Then(cfg, role, Now(Looking(ps)), Proceed)
    {
      hide Then;
      SnapshotStepIs(cfg, role, Now(Looking(ps)), attempt.value, Proceed);
      os := Orders(broker.holdings);
      assert sent + [] == sent;
    }

    /** The only exact match, or else a ticket that is none. */
    method UniqueMatch(ps: Holdings) returns (t: nat)
      requires attempt.Some? && forall k :: k in ps ==> k < broker.nextTicket
      ensures var m := Matches(ps, attempt.value, role);
              if exists k :: m == {k} then m == {t} else t !in m
    {
      var m := Matches(ps, attempt.value, role);
      t := broker.nextTicket;
      if m != {} {
        var k :| k in m;
        if m == {k} { t := k; }
      }
    }

    /** The positions of exactly this attempt's symbol, side and volume. */
    ghost function ExactTickets(ps: Holdings): set<nat>
      reads this`attempt
      requires attempt.Some?
    {
      var side := if role == Leader then attempt.value.leaderDirection else Mirror(attempt.value.leaderDirection);
      set t | t in ps && ps[t].symbol == attempt.value.symbol && ps[t].direction == side && ps[t].volume == attempt.value.lots
    }

    lemma MatchesAreExact(ps: Holdings)
      requires attempt.Some?
      ensures Matches(ps, attempt.value, role) == ExactTickets(ps)
    {
    }

    /** What a snapshot with these exact positions makes of a leg: only one that is sent or uncertain is looked for; exactly
        one position is its fill; none is the absence of an uncertain one; several decide nothing. */
    static ghost predicate LegSeen(was: Leg, now: Leg, exact: set<nat>, consistent: bool, v: Verdict) {
      if was.entryStatus !in {Sent, UnknownAfterSend} then now == was && v == NoChange
      else if exact == {} then
        if was.entryStatus == UnknownAfterSend then now == was.(entryStatus := Rejected) && v == SeenAbsent else now == was && v == NoChange
      else if exists t :: exact == {t} then
        exists t :: exact == {t} && now == was.(ticket := Some(t), entryStatus := Filled) && v == if consistent then SeenFilled else SeenInconsistent
      else now == was && v == SeenAmbiguous
    }

    /** Entry attribution: the unique exact match is the fill. */
    method AttributeSnapshot(ps: Holdings, os: Holdings, consistent: bool) returns (v: Verdict, ghost c: Choice)
      requires OnEntryPath() && forall k :: k in ps ==> k < broker.nextTicket
      modifies this
      ensures deferred == old(deferred)
      ensures Now(Attributed(ps, os, v)) == Then(cfg, role, old(Now(Seen(ps, os))), c)
      ensures OnEntryPath() && journal == old(journal) && broker == old(broker)
      ensures RowsKept() && Kept() && WishKept() && sent == old(sent)
      ensures legs == old(legs)[attempt.value.id := legs[attempt.value.id]] && LegSeen(old(legs)[attempt.value.id], legs[attempt.value.id], ExactTickets(ps), consistent, v)
    {
      hide Then;
      MatchesAreExact(ps);
      var att := attempt.value;
      var t := UniqueMatch(ps);
      c := Pick(t, consistent);
      SnapshotStepIs(cfg, role, Now(Seen(ps, os)), att, c);
      assert sent + [] == sent;
      var r := AttributeEntry(role, legs[att.id], att, ps, t, consistent);
      var (leg, verdict) := r.value;
      v := verdict;
      hide Matches;
      PersistLeg(att.id, leg);
    }

    /** The journal learns what the snapshot proved about the entry. */
    method RecordEntryEvidence(ps: Holdings, os: Holdings, v: Verdict)
      requires OnEntryPath()
      modifies this
      ensures deferred == old(deferred)
      ensures Now(Recorded(ps, os, v)) == Then(cfg, role, old(Now(Attributed(ps, os, v))), Proceed)
      ensures OnEntryPath() && broker == old(broker) && OnlyObserved(old(journal), journal)
      ensures W() == old(W()).(db := old(W()).db.(journal := journal)) && sent == old(sent)
      ensures if v in {SeenFilled, SeenInconsistent} then ObservedAs(old(journal), journal, Entry(attempt.value.id), PositionSeen)
              else if v == SeenAbsent then ObservedAs(old(journal), journal, Entry(attempt.value.id), AbsenceSeen)
              else journal == old(journal)
    {
      hide Then;
      SnapshotStepIs(cfg, role, Now(Attributed(ps, os, v)), attempt.value, Proceed);
      assert sent + [] == sent;
      if v in {SeenFilled, SeenInconsistent} { RecordObservation(Entry(attempt.value.id), PositionSeen); }
      else if v == SeenAbsent { RecordObservation(Entry(attempt.value.id), AbsenceSeen); }
    }

    /** ... and the peer learns the verdict. */
    method ReportVerdict(ps: Holdings, os: Holdings, v: Verdict)
      requires OnEntryPath()
      modifies this
      ensures deferred == old(deferred)
      ensures Now(Observing(ps, os, v)) == Then(cfg, role, old(Now(Recorded(ps, os, v))), Proceed)
      ensures OnEntryPath() && W() == old(W())
      ensures sent == old(sent) + (match v
                case SeenFilled => [LegStatusMsg(attempt.value.id, StFilled(attempt.value.symbol, if role == Leader then attempt.value.leaderDirection else Mirror(attempt.value.leaderDirection), attempt.value.lots))]
                case SeenInconsistent => [LegStatusMsg(attempt.value.id, StInconsistent), FailedMsg(attempt.value.id)]
                case SeenAbsent => [LegStatusMsg(attempt.value.id, StRejected), FailedMsg(attempt.value.id)]
                case _ => [])
    {
      hide Then;
      SnapshotStepIs(cfg, role, Now(Recorded(ps, os, v)), attempt.value, Proceed);
      sent := sent + VerdictMessages(role, attempt.value, v);
    }

    /** Protection and close effects of the owned ticket become observable. */
    method RecordTicketEvidence(ps: Holdings)
      requires OnEntryPath()
      modifies this
      ensures deferred == old(deferred)
      ensures W() == ObservedTicket(old(W()), old(attempt).value.id, ps) && sent == old(sent)
      ensures attempt == old(attempt) && legs == old(legs) && broker == old(broker) && OnlyObserved(old(journal), journal)
      ensures W() == old(W()).(db := old(W()).db.(journal := journal))
      ensures var id, t := attempt.value.id, legs[attempt.value.id].ticket;
              if t.None? then journal == old(journal)
              else if t.value in ps then ObservedAs(old(journal), journal, Protection(id), PositionSeen)
              else exists j :: ObservedAs(old(journal), j, Protection(id), AbsenceSeen) && ObservedAs(j, journal, Close(id, t.value), AbsenceSeen)
    {
      var id := attempt.value.id;
      var leg := legs[id];
      if leg.ticket.Some? {
        if leg.ticket.value in ps {
          RecordObservation(Protection(id), PositionSeen);
        } else {
          RecordObservation(Protection(id), AbsenceSeen);
          RecordObservation(Close(id, leg.ticket.value), AbsenceSeen);
        }
      }
    }

    /** Reasons to close that a snapshot can give: inconsistent, absent or ambiguous evidence, an owned position that is gone,
        or one that is protected otherwise than it should be. */
    static ghost predicate MustClose(leg: Leg, ps: Holdings, v: Verdict, mismatch: bool) {
      || v in {SeenInconsistent, SeenAbsent, SeenAmbiguous}
      || (leg.entryStatus == Filled && leg.ticket.Some? && leg.ticket.value !in ps && !leg.emptyVerified)
      || (leg.ticket.Some? && leg.ticket.value in ps && leg.protection != Rough && mismatch)
    }

    /** Then every reason to close that a snapshot can give is acted on. */
    method ObserveOwnedTicket(ps: Holdings, os: Holdings, v: Verdict, mismatch: bool) returns (ghost c: Choice)
      requires OnEntryPath()
      modifies this
      ensures deferred == old(deferred)
      ensures Now(Converging(ps, os)) == Then(cfg, role, old(Now(Observing(ps, os, v))), c)
      ensures attempt == old(attempt) && OnEntryPath() && broker == old(broker) && OnlyObserved(old(journal), journal)
      ensures RowsKept() && Kept() && legs == old(legs) && sent == old(sent) && confirmed == old(confirmed)
      ensures if MustClose(legs[attempt.value.id], ps, v, mismatch) then old(CloseIsWhole()) ==> Closed() else WishKept()
    {
      hide Then, OnlyObserved, ObservedAs;
      c := Pick(0, mismatch);
      var id := attempt.value.id;
      SnapshotStepIs(cfg, role, Now(Observing(ps, os, v)), attempt.value, c);
      assert sent + [] == sent;
      ObservedTicketKeepsLegs(W(), id, ps, Observing(ps, os, v));
      hide ObservedTicket;
      RecordTicketEvidence(ps);
      CloseOnEvidence(ps, v, mismatch);
    }

    method CloseOnEvidence(ps: Holdings, v: Verdict, mismatch: bool)
      requires OnEntryPath()
      modifies this
      ensures deferred == old(deferred) && sent == old(sent) && RowsKept() && Kept() && legs == old(legs) && journal == old(journal) && broker == old(broker) && confirmed == old(confirmed)
      ensures W() == if MustClose(old(legs)[old(attempt).value.id], ps, v, mismatch) then BeginClose(old(W())) else old(W())
      ensures if MustClose(legs[attempt.value.id], ps, v, mismatch) then old(CloseIsWhole()) ==> Closed() else WishKept()
    {
      var leg := legs[attempt.value.id];
      var gone := leg.ticket.Some? && leg.ticket.value !in ps && leg.entryStatus == Filled && !leg.emptyVerified;
      var diverged := leg.ticket.Some? && leg.ticket.value in ps && leg.protection != Rough && mismatch;
      if v in {SeenInconsistent, SeenAbsent, SeenAmbiguous} || gone || diverged {
        BeginLocalClose();
      }
    }

    /** Journal observations do not depend on where the handler stands. */
    lemma ObservedTicketKeepsLegs(w: Worker, id: nat, ps: Holdings, pc: Pc)
      requires w.mem.Up? && id in w.db.legs
      ensures ObservedTicket(WithPc(w, pc), id, ps) == WithPc(ObservedTicket(w, id, ps), pc) && ObservedTicket(w, id, ps).mem == w.mem
      ensures ObservedTicket(w, id, ps).db.legs == w.db.legs
    {
    }

    /** Rows of the journal may have become observed; nothing was sent. */
    static ghost predicate OnlyObserved(j: Journal, j': Journal) {
      forall e :: (e in j' <==> e in j) && (e in j ==> j'[e] == j[e] || j'[e].state == J.Observed)
    }

    // ---- convergence -----------------------------------------------------------------------------

    /** One call with this payload if the effect is new, or was prepared with it and never sent, and is granted; an effect
        that may have been sent, or says something else, stops for the operator; one with evidence is left alone. */
    twostate predicate EmergencyWritten(e: EffectId, p: Payload, a: Answer, end: PassEnd)
      reads this
    {
      && RowsKept() && WishKept() && legs == old(legs) && sent == old(sent)
      && peer == old(peer) && peerLegs == old(peerLegs) && probes == old(probes) && active == old(active) && clock == old(clock)
      && (if Writable(old(journal), e, p) then
            if a.decision.Grant? then
              && CalledOnce(old(broker), broker, e, p)
              && end == (if a.reply == Answered(true) then Again(e) else if a.reply == Answered(false) then Waiting(e) else Stopped)
            else broker == old(broker) && end == Stopped
          else
            && broker == old(broker) && journal == old(journal)
            && end == (if old(journal)[e].payload != p || old(journal)[e].state == J.SendStarted then Stopped else Replayed(e)))
      && needsHuman == (old(needsHuman) || end == Stopped)
    }

    /** The first half of `_journaled_emergency_write`: prepare, or end early. */
    method PrepareContainment(ps: Holdings, os: Holdings, e: EffectId, p: Payload, c: Choice) returns (early: Option<PassEnd>)
      requires OnEntryPath() && c.Pick?
      requires Converge(desired, needsHuman, legs[attempt.value.id], attempt.value, ps, os, c.ticket) == Contain(e, p)
      modifies this
      ensures W() == old(W()).(db := old(W()).db.(journal := journal, needsHuman := needsHuman)) && sent == old(sent) && deferred == old(deferred)
      ensures early.None? <==> Writable(old(journal), e, p)
      ensures early.None? ==> Ready(journal, e) && OthersKept(old(journal), journal, e) && Unsent(old(journal), e)
      ensures early.Some? ==> journal == old(journal) && e in journal
      ensures early.Some? ==>
                early.value == (if journal[e].payload != p || journal[e].state == J.SendStarted then Stopped else Replayed(e))
      ensures early.Some? && early.value.Replayed? ==> Evidenced(journal, e)
      ensures needsHuman == (old(needsHuman) || early == Some(Stopped))
      ensures Now(if early.None? then Write(ContainJob(e, p), Admit) else Idle) == Settle(cfg, role, old(Now(Converging(ps, os))), [c])
    {
      hide Then, Settle, Converge, CallBroker;
      ghost var s0 := Now(Converging(ps, os));
      NothingYet(s0);
      ConvergingStepIs(s0, attempt.value, ps, os, e, p, c);
      ghost var s1 := Stepped(StartContainment(s0.w, e, p), s0.out);
      Onto(cfg, role, s0, [], s0, c, s1);
      assert [] + [c] == [c];
      var prepared := J.Prepare(journal, e, p);
      if prepared.Err? || prepared.value.0 == J.SendStarted {
        SetNeedsHuman();
        assert Now(Idle) == s1;
        return Some(Stopped);
      }
      if prepared.value.0 != J.Prepared {
        assert Now(Idle) == s1;
        return Some(Replayed(e));
      }
      journal := prepared.value.1;
      assert Now(Write(ContainJob(e, p), Admit)) == s1;
      return None;
    }

    /** `_journaled_emergency_write`, from the decision of `_advance_convergence` to cancel or close. */
    method JournaledEmergencyWrite(ps: Holdings, os: Holdings, e: EffectId, p: Payload, c: Choice, a: Answer) returns (end: PassEnd, ghost cs: seq<Choice>)
      requires OnEntryPath() && c.Pick? && !p.Market? && Possible(cfg, a, p) && Prompt(a)
      requires Converge(desired, needsHuman, legs[attempt.value.id], attempt.value, ps, os, c.ticket) == Contain(e, p)
      modifies this
      ensures deferred == old(deferred)
      ensures attempt == old(attempt) && OnEntryPath() && OthersKept(old(journal), journal, e)
      ensures broker.holdings.Keys <= old(broker.holdings).Keys
      ensures Now(Idle) == Settle(cfg, role, old(Now(Converging(ps, os))), cs)
      ensures end in {Stopped, Waiting(e), Replayed(e), Again(e)}
      ensures end == Stopped ==> needsHuman
      ensures end != Stopped ==> Evidenced(journal, e)
      ensures end == Again(e) || Unsent(journal, e) ==> Unsent(old(journal), e)
      ensures end == Replayed(e) ==> journal == old(journal)
      ensures EmergencyWritten(e, p, a, end)
    {
      hide Then, Settle, Possible, Converge, CallBroker, Evidenced;
      ghost var s0 := Now(Converging(ps, os));
      var early := PrepareContainment(ps, os, e, p, c);
      cs := [c];
      if early.Some? {
        return early.value, cs;
      }
      ghost var more;
      end, more := WriteContainment(s0, [c], ContainJob(e, p), a);
      cs := [c] + more;
    }

    method WriteContainment(ghost s0: Stepped, ghost before: seq<Choice>, job: Job, a: Answer) returns (end: PassEnd, ghost cs: seq<Choice>)
      requires OnEntryPath() && job.ContainJob? && !job.payload.Market? && Possible(cfg, a, job.payload) && Prompt(a)
      requires Settle(cfg, role, s0, before) == Now(Write(job, Admit))
      modifies this
      ensures deferred == old(deferred)
      ensures attempt == old(attempt) && OnEntryPath() && OthersKept(old(journal), journal, job.effect)
      ensures broker.holdings.Keys <= old(broker.holdings).Keys
      ensures Now(Idle) == Settle(cfg, role, s0, before + cs)
      ensures end in {Stopped, Waiting(job.effect), Again(job.effect)}
      ensures end == Stopped ==> needsHuman
      ensures end != Stopped ==> Evidenced(journal, job.effect)
      ensures RowsKept() && WishKept() && legs == old(legs) && sent == old(sent)
      ensures peer == old(peer) && peerLegs == old(peerLegs) && probes == old(probes) && active == old(active) && clock == old(clock)
      ensures needsHuman == (old(needsHuman) || end == Stopped)
      ensures if a.decision.Grant? && Ready(old(journal), job.effect) then
                && CalledOnce(old(broker), broker, job.effect, job.payload)
                && end == (if a.reply == Answered(true) then Again(job.effect) else if a.reply == Answered(false) then Waiting(job.effect) else Stopped)
              else broker == old(broker) && end == Stopped
    {
      hide Then, Settle, Possible, CallBroker;
      ghost var write := WriteChoices(a)[..WriteLength(journal, job.effect, a)];
      var result := RunBrokerWrite(job, a);
      SettleAppend(cfg, role, s0, before, write);
      end := ConcludeContainment(s0, before + write, job, result);
      cs := write + [Proceed];
      assert before + (write + [Proceed]) == before + write + [Proceed];
    }

    lemma ConvergingStepIs(s: Stepped, att: Attempt, ps: Holdings, os: Holdings, e: EffectId, p: Payload, c: Choice)
      requires s.w.mem.Up? && s.w.mem.attempt == Some(att) && att.id in s.w.db.legs && s.w.mem.pc == Converging(ps, os) && c.Pick?
      requires Converge(s.w.mem.desired, s.w.db.needsHuman, s.w.db.legs[att.id], att, ps, os, c.ticket) == Contain(e, p)
      ensures Then(cfg, role, s, c) == Stepped(StartContainment(s.w, e, p), s.out)
    {
      hide Then, Converge, StartContainment;
      SnapshotStepIs(cfg, role, s, att, c);
      assert s.out + [] == s.out;
    }

    /** A containment write that ends neither completed nor rejected stops loudly. */
    method ConcludeContainment(ghost s0: Stepped, ghost cs: seq<Choice>, job: Job, result: WriteResult) returns (end: PassEnd)
      requires OnEntryPath() && job.ContainJob? && Settle(cfg, role, s0, cs) == Now(Write(job, Done(result)))
      modifies this`needsHuman
      ensures Now(Idle) == Settle(cfg, role, s0, cs + [Proceed])
      ensures end == (if result == Completed then Again(job.effect) else if result == RejectedByBroker then Waiting(job.effect) else Stopped)
      ensures needsHuman == (old(needsHuman) || end == Stopped)
    {
      hide Then, Settle;
      ghost var s1 := Now(Write(job, Done(result)));
      WriteStepIs(cfg, role, s1, attempt.value, job, Done(result), Proceed);
      assert legs[attempt.value.id := legs[attempt.value.id]] == legs;
      end := if result == Completed then Again(job.effect) else if result == RejectedByBroker then Waiting(job.effect) else Stopped;
      if end == Stopped { needsHuman := true; }
      Onto(cfg, role, s0, cs, s1, Proceed, Now(Idle));
    }

    /** Nothing of this effect has reached the broker. */
    static predicate Unsent(j: Journal, e: EffectId) {
      e in j ==> j[e].state == J.Prepared
    }

    static predicate Prompt(a: Answer) {
      a.decision.Refuse? ==> a.decision.result in {Refused, NeverStarted, Unclear}
    }

    /** The ticket of a containment effect of this attempt. */
    static predicate Targets(e: EffectId, id: nat, h: Holdings) {
      match e
      case Cancel(i, t) => i == id && t in h
      case Close(i, t) => i == id && t in h
      case _ => false
    }

    /** What wanting EMPTY comes to on a snapshot: an order of the symbol is cancelled first; then the one owned position is
        closed, whole, unless a stop is latched; then anything left over stops; and a flat account verifies the leg. */
    twostate predicate Converged(ps: Holdings, os: Holdings, a: Answer, end: PassEnd)
      requires old(OnEntryPath())
      reads this
    {
      var att := old(attempt).value;
      var leg := old(legs)[att.id];
      if old(desired) != EmptyDesired then W() == old(W()) && sent == old(sent) && end == NotWanted
      else if exists o :: o in os && os[o].symbol == att.symbol then
        exists o :: o in os && os[o].symbol == att.symbol && EmergencyWritten(Cancel(att.id, o), CancelOrder(o), a, end)
      else if leg.ticket.Some? && leg.ticket.value in ps then
        if old(needsHuman) then W() == old(W()) && sent == old(sent) && end == Stopped
        else EmergencyWritten(Close(att.id, leg.ticket.value), ClosePosition(leg.ticket.value, ps[leg.ticket.value].volume), a, end)
      else if ps != map[] || os != map[] then
        W() == old(W()).(db := old(W()).db.(needsHuman := true)) && sent == old(sent) && end == Stopped
      else if leg.emptyVerified then W() == old(W()) && sent == old(sent) && end == Emptied
      else
        && W() == old(W()).(db := old(W()).db.(legs := old(legs)[att.id := leg.(emptyVerified := true)]))
        && sent == old(sent) + [LegStatusMsg(att.id, StEmpty)] && end == Emptied
    }

    /** `_advance_convergence` */
    method AdvanceConvergence(ps: Holdings, os: Holdings, a: Answer) returns (end: PassEnd, ghost cs: seq<Choice>)
      requires OnEntryPath() && Prompt(a)
      requires ps == Positions(broker.holdings) && os == Orders(broker.holdings)
      modifies this
      ensures deferred == old(deferred)
      ensures attempt == old(attempt) && OnEntryPath() && broker.holdings.Keys <= old(broker.holdings).Keys
      ensures Now(Idle) == Settle(cfg, role, old(Now(Converging(ps, os))), cs)
      ensures end == NotWanted ==> desired != EmptyDesired
      ensures end == Emptied ==> old(broker.holdings) == map[] && legs[attempt.value.id].emptyVerified
      ensures end == Stopped ==> needsHuman
      ensures end in {NotWanted, Emptied} ==> journal == old(journal)
      ensures end.Waiting? || end.Replayed? || end.Again? ==>
                Evidenced(journal, end.effect) && Targets(end.effect, attempt.value.id, old(broker.holdings)) && OthersKept(old(journal), journal, end.effect)
      ensures end.Replayed? ==> journal == old(journal)
      ensures end.Again? ==> Unsent(old(journal), end.effect)
      ensures forall e :: Unsent(journal, e) ==> Unsent(old(journal), e)
      ensures Converged(ps, os, a, end)
    {
      hide Then, Settle, CallBroker, EmergencyWritten;
      var att := attempt.value;
      var t := 0;
      if exists o :: o in os && os[o].symbol == att.symbol {
        t :| t in os && os[t].symbol == att.symbol;
      }
      var c := Pick(t, false);
      var move := Converge(desired, needsHuman, legs[att.id], att, ps, os, t);
      NothingHeldNothingSeen(old(broker).holdings);
      if move.Contain? {
        end, cs := JournaledEmergencyWrite(ps, os, move.effect, move.payload, c, a);
        assert t in os && os[t].symbol == att.symbol ==> EmergencyWritten(Cancel(att.id, t), CancelOrder(t), a, end);
        return;
      }
      end, cs := ConvergeWithoutWrite(ps, os, c);
    }

    lemma NothingHeldNothingSeen(h: Holdings)
      ensures Positions(h) == map[] && Orders(h) == map[] ==> h == map[]
    {
      if h != map[] {
        var t :| t in h;
        assert t in Positions(h) || t in Orders(h);
      }
    }

    /** Not converging, verified empty, or exposure that cannot be attributed. */
    method ConvergeWithoutWrite(ps: Holdings, os: Holdings, c: Choice) returns (end: PassEnd, ghost cs: seq<Choice>)
      requires OnEntryPath() && c.Pick?
      requires Converge(desired, needsHuman, legs[attempt.value.id], attempt.value, ps, os, c.ticket) in {NotConverging, Unattributable, VerifiedEmpty}
      modifies this
      ensures deferred == old(deferred)
      ensures attempt == old(attempt) && OnEntryPath() && broker == old(broker) && journal == old(journal)
      ensures Now(Idle) == Settle(cfg, role, old(Now(Converging(ps, os))), cs)
      ensures end in {NotWanted, Emptied, Stopped}
      ensures end == NotWanted ==> desired != EmptyDesired
      ensures end == Emptied ==> ps == map[] && os == map[] && legs[attempt.value.id].emptyVerified
      ensures end == Stopped ==> needsHuman
      ensures match Converge(old(desired), old(needsHuman), old(legs)[attempt.value.id], attempt.value, ps, os, c.ticket)
              case Unattributable => W() == old(W()).(db := old(W()).db.(needsHuman := true)) && sent == old(sent) && end == Stopped
              case VerifiedEmpty =>
                && W() == old(W()).(db := old(W()).db.(legs := old(legs)[attempt.value.id := old(legs)[attempt.value.id].(emptyVerified := true)]))
                && sent == old(sent) + [LegStatusMsg(attempt.value.id, StEmpty)] && end == Emptied
              case _ =>
                && W() == old(W()) && sent == old(sent)
                && end == if desired != EmptyDesired then NotWanted else if legs[attempt.value.id].emptyVerified && ps == map[] && os == map[] then Emptied else Stopped
    {
      hide Then, Settle;
      ghost var s0 := Now(Converging(ps, os));
      var att := attempt.value;
      var id := att.id;
      var move := Converge(desired, needsHuman, legs[id], att, ps, os, c.ticket);
      NothingYet(s0);
      SnapshotStepIs(cfg, role, s0, att, c);
      assert sent + [] == sent && [] + [c] == [c];
      cs := [c];
      if move == Unattributable {
        SetNeedsHuman();
        end := Stopped;
        Onto(cfg, role, s0, [], s0, c, Now(Idle));
      } else if move == VerifiedEmpty {
        PersistLeg(id, legs[id].(emptyVerified := true));
        ghost var s1 := Now(Reporting(StEmpty, false, false));
        Onto(cfg, role, s0, [], s0, c, s1);
        RestStepIs(cfg, role, s1, att, Proceed);
        Relay(LegStatusMsg(id, StEmpty));
        Onto(cfg, role, s0, [c], s1, Proceed, Now(Idle));
        end, cs := Emptied, [c] + [Proceed];
      } else {
        end := if desired != EmptyDesired then NotWanted else if legs[id].emptyVerified && ps == map[] && os == map[] then Emptied else Stopped;
        Onto(cfg, role, s0, [], s0, c, Now(Idle));
      }
    }

    /** `_apply_broker_snapshot` up to convergence. */
    method ApplySnapshot(ps: Holdings, round: Round) returns (os: Holdings, ghost cs: seq<Choice>)
      requires OnEntryPath() && forall k :: k in ps ==> k < broker.nextTicket
      modifies this
      ensures attempt == old(attempt) && OnEntryPath() && broker == old(broker) && OnlyObserved(old(journal), journal) && deferred == old(deferred)
      ensures os == Orders(broker.holdings)
      ensures Now(Converging(ps, os)) == Settle(cfg, role, old(Now(Looking(ps))), cs)
    {
      hide Then, Settle, OnlyObserved;
      ghost var s0 := Now(Looking(ps));
      ghost var j0 := journal;
      NothingYet(s0);
      os := SeeOrders(ps);
      ghost var s1 := Now(Seen(ps, os));
      Onto(cfg, role, s0, [], s0, Proceed, s1);
      cs := [] + [Proceed];
      ghost var c1, c2;
      var v;
      v, c1 := AttributeSnapshot(ps, os, round.consistent);
      ghost var s2 := Now(Attributed(ps, os, v));
      Onto(cfg, role, s0, cs, s1, c1, s2);
      cs := cs + [c1];
      RecordEntryEvidence(ps, os, v);
      ghost var s3 := Now(Recorded(ps, os, v));
      Onto(cfg, role, s0, cs, s2, Proceed, s3);
      cs := cs + [Proceed];
      ghost var j1 := journal;
      ReportVerdict(ps, os, v);
      ghost var s4 := Now(Observing(ps, os, v));
      Onto(cfg, role, s0, cs, s3, Proceed, s4);
      cs := cs + [Proceed];
      c2 := ObserveOwnedTicket(ps, os, v, round.mismatch);
      Onto(cfg, role, s0, cs, s4, c2, Now(Converging(ps, os)));
      cs := cs + [c2];
      ObservedTwice(j0, j1, journal);
    }

    lemma ObservedTwice(j: Journal, j': Journal, j'': Journal)
      requires OnlyObserved(j, j') && OnlyObserved(j', j'')
      ensures OnlyObserved(j, j'')
    {
    }

    /** The state in which a snapshot begins: positions are read. */
    ghost function ReadFrom(s: Stepped): Stepped
      requires s.w.mem.Up?
    {
      Stepped(WithPc(s.w, Looking(Positions(s.w.broker.holdings))), s.out)
    }

    /** One snapshot with everything it leads to. */
    method ReadOnce(round: Round) returns (end: PassEnd, ghost cs: seq<Choice>)
      requires Valid() && OnEntryPath() && Prompt(round.answer)
      modifies this
      ensures Valid() && attempt == old(attempt) && OnEntryPath() && broker.holdings.Keys <= old(broker.holdings).Keys && deferred == old(deferred)
      ensures Now(Idle) == Settle(cfg, role, ReadFrom(old(Now(Idle))), cs)
      ensures end == NotWanted ==> desired != EmptyDesired
      ensures end == Emptied ==> old(broker.holdings) == map[] && legs[attempt.value.id].emptyVerified
      ensures end == Stopped ==> needsHuman
      ensures forall e :: Unsent(journal, e) ==> Unsent(old(journal), e)
      ensures end.Waiting? || end.Replayed? || end.Again? ==> Evidenced(journal, end.effect) && Targets(end.effect, attempt.value.id, old(broker.holdings))
      ensures end.Again? ==> Unsent(old(journal), end.effect)
    {
      hide Then, Settle, Sane;
      ghost var s0 := ReadFrom(Now(Idle));
      ghost var j0 := journal;
      HoldingsNumbered();
      ReadingKeeps();
      var ps := Positions(broker.holdings);
      ghost var one, two;
      var os;
      os, one := ApplySnapshot(ps, round);
      ghost var j1 := journal;
      end, two := AdvanceConvergence(ps, os, round.answer);
      SettleAppend(cfg, role, s0, one, two);
      cs := one + two;
      SettleSane(cfg, role, s0, cs);
      assert Valid();
      ObservedStaysSent(j0, j1);
    }

    static lemma ObservedStaysSent(j: Journal, j': Journal)
      requires OnlyObserved(j, j')
      ensures forall e :: Unsent(j', e) ==> Unsent(j, e)
    {
    }

    lemma HoldingsNumbered()
      requires Valid()
      ensures forall k :: k in Positions(broker.holdings) ==> k < broker.nextTicket
    {
      forall k | k in broker.holdings ensures k < broker.nextTicket { assert HoldingOk(W(), k); }
    }

    lemma ReadingKeeps()
      requires Valid() && OnEntryPath()
      ensures Sane(role, ReadFrom(Now(Idle)).w)
    {
      MoveSane(cfg, role, W(), ReadPositions);
      hide Sane;
    }

    // ---- a containment pass ends -------------------------------------------------------------------

    /** Containment effects of this attempt's tickets the broker was not asked for yet. */
    static ghost function UnsentOf(j: Journal, h: Holdings, id: nat): set<EffectId> {
      (set t | t in h && Unsent(j, Cancel(id, t)) :: Cancel(id, t)) + (set t | t in h && Unsent(j, Close(id, t)) :: Close(id, t))
    }

    /** ... and those not deferred to the broker's own settling yet. */
    static ghost function UndeferredOf(d: set<EffectId>, h: Holdings, id: nat): set<EffectId> {
      (set t | t in h && Cancel(id, t) !in d :: Cancel(id, t)) + (set t | t in h && Close(id, t) !in d :: Close(id, t))
    }

    ghost function Left(): nat
      reads this
      requires attempt.Some?
    {
      |UnsentOf(journal, broker.holdings, attempt.value.id)| + |UndeferredOf(deferred, broker.holdings, attempt.value.id)|
    }

    static lemma FewerThan(a: set<EffectId>, b: set<EffectId>, e: EffectId)
      requires a <= b
      ensures |a| <= |b| && (e in b && e !in a ==> |a| < |b|)
    {
      assert b == a + (b - a);
    }

    static lemma UnsentShrinks(j: Journal, j': Journal, h: Holdings, h': Holdings, id: nat)
      requires h'.Keys <= h.Keys && (forall x :: Unsent(j', x) ==> Unsent(j, x))
      ensures UnsentOf(j', h', id) <= UnsentOf(j, h, id)
    {
    }

    static lemma UndeferredShrinks(d: set<EffectId>, d': set<EffectId>, h: Holdings, h': Holdings, id: nat)
      requires h'.Keys <= h.Keys && d <= d'
      ensures UndeferredOf(d', h', id) <= UndeferredOf(d, h, id)
    {
    }

    /** A completed write uses up one unsent effect. */
    static lemma WriteUsesUp(j: Journal, j': Journal, h: Holdings, h': Holdings, d: set<EffectId>, id: nat, e: EffectId)
      requires h'.Keys <= h.Keys && (forall x :: Unsent(j', x) ==> Unsent(j, x))
      requires Targets(e, id, h) && Unsent(j, e) && Evidenced(j', e)
      ensures |UnsentOf(j', h', id)| < |UnsentOf(j, h, id)| && |UndeferredOf(d, h', id)| <= |UndeferredOf(d, h, id)|
    {
      UnsentShrinks(j, j', h, h', id);
      UndeferredShrinks(d, d, h, h', id);
      assert e in UnsentOf(j, h, id) && e !in UnsentOf(j', h', id);
      hide UnsentOf, UndeferredOf;
      FewerThan(UnsentOf(j', h', id), UnsentOf(j, h, id), e);
      FewerThan(UndeferredOf(d, h', id), UndeferredOf(d, h, id), e);
    }

    /** A deferral uses up one undeferred effect. */
    static lemma DeferralUsesUp(j: Journal, j': Journal, h: Holdings, h': Holdings, d: set<EffectId>, id: nat, e: EffectId)
      requires h'.Keys <= h.Keys && (forall x :: Unsent(j', x) ==> Unsent(j, x))
      requires Targets(e, id, h) && e !in d
      ensures |UnsentOf(j', h', id)| <= |UnsentOf(j, h, id)| && |UndeferredOf(d + {e}, h', id)| < |UndeferredOf(d, h, id)|
    {
      UnsentShrinks(j, j', h, h', id);
      UndeferredShrinks(d, d + {e}, h, h', id);
      assert e in UndeferredOf(d, h, id) && e !in UndeferredOf(d + {e}, h', id);
      hide UnsentOf, UndeferredOf;
      FewerThan(UnsentOf(j', h', id), UnsentOf(j, h, id), e);
      FewerThan(UndeferredOf(d + {e}, h', id), UndeferredOf(d, h, id), e);
    }

    /** Snapshot after snapshot, as far as the pass goes. */
    ghost function Rounds(s: Stepped, css: seq<seq<Choice>>): Stepped
      decreases |css|
    {
      if css == [] then s
      else
        var before := Rounds(s, css[..|css| - 1]);
        if before.w.mem.Up? then Settle(cfg, role, ReadFrom(before), css[|css| - 1]) else before
    }

    lemma {:induction false} RoundsAppend(s: Stepped, one: seq<seq<Choice>>, two: seq<seq<Choice>>)
      ensures Rounds(s, one + two) == Rounds(Rounds(s, one), two)
      decreases |two|
    {
      hide Settle;
      if two == [] {
        assert one + two == one;
      } else {
        assert (one + two)[..|one + two| - 1] == one + two[..|two| - 1];
        RoundsAppend(s, one, two[..|two| - 1]);
      }
    }

    /** `_request_broker_read` and everything it leads to: snapshot, cancel or close, snapshot again.  It ends
        whatever the broker answers; it ends for one of four reasons; and it is a sequence of snapshots
        and steps like any other. */
    method RequestBrokerRead(rounds: nat -> Round, k: nat) returns (end: PassEnd, ghost css: seq<seq<Choice>>)
      requires Valid() && OnEntryPath() && forall i :: Prompt(rounds(i).answer)
      modifies this
      ensures Valid() && attempt == old(attempt) && OnEntryPath()
      ensures css != [] && Now(Idle) == Rounds(old(Now(Idle)), css)
      ensures end == NotWanted ==> desired != EmptyDesired
      ensures end == Emptied ==> legs[attempt.value.id].emptyVerified
      ensures end == Stopped ==> needsHuman
      ensures end.Waiting? ==> Evidenced(journal, end.effect)
      ensures !end.Again? && !end.Replayed?
      decreases Left()
    {
      hide Settle, Sane, UnsentOf, UndeferredOf, Targets;
      ghost var s0 := Now(Idle);
      ghost var j0, h0, d0 := journal, broker.holdings, deferred;
      ghost var cs;
      end, cs := ReadOnce(rounds(k));
      css := [cs];
      assert [cs][..0] == [] && Rounds(s0, []) == s0;
      var again := false;
      if end.Again? {
        again := true;
        WriteUsesUp(j0, journal, h0, broker.holdings, d0, attempt.value.id, end.effect);
      } else if end.Replayed? {
        var e := end.effect;
        if journal[e].evidence == Some(Receipt(true)) {
          deferred := deferred - {e};
        } else if e !in deferred {
          deferred := deferred + {e};
          again := true;
          DeferralUsesUp(j0, journal, h0, broker.holdings, d0, attempt.value.id, e);
        }
        end := Waiting(e);
      }
      if again {
        ghost var more;
        end, more := RequestBrokerRead(rounds, k + 1);
        RoundsAppend(s0, css, more);
        css := css + more;
      }
    }
  }

  /** Desired state, confirmation and timer. */
  datatype Wish = Wish(desired: Desired, storedDesired: Desired, confirmed: bool, storedConfirmed: bool, deadline: Option<nat>)
  {
    predicate IsClosed() {
      desired == EmptyDesired && storedDesired == EmptyDesired && deadline.None?
    }
  }

  datatype LegSide = LegSide(legs: map<nat, Leg>, journal: Journal, broker: Broker, sent: seq<Msg>, wish: Wish)

  /** How one pass of containment ends: nothing to do, verified empty, waiting for the broker to show the outcome
      of a write, stopped for the operator, an effect already evidenced, or a completed write after which the
      broker is read again. */
  datatype PassEnd = NotWanted | Emptied | Waiting(effect: EffectId) | Stopped | Replayed(effect: EffectId) | Again(effect: EffectId)

  /** What the environment contributes to one pass: whether the evidence is consistent, whether the protection
      differs, and what the broker answers to a write. */
  datatype Round = Round(consistent: bool, mismatch: bool, answer: Answer)
}
