/**
 * The Redis keys and Celery queues the coordination code writes: the marker, the two
 * seeding routes and the reconciliation sweep, and how each follows the gate protocol.
 */
module DuplicateDispatch {
  import opened Common
  import opened PendingStepGate

  datatype Message = GisJob(id: ReportId) | AiJob(id: ReportId) | ScoreJob(id: ReportId)

  /** Value of the shared state: gate keys and queued messages, oldest first. */
  datatype Broker = Broker(gate: map<ReportId, int>, queue: seq<Message>)

  /** The command at which a Redis or broker error is raised and swallowed. */
  datatype Outage = NoOutage | AtDecr | AtDelete | AtSend

  function GateOf(b: Broker, id: ReportId): Option<int> {
    if id in b.gate then Some(b.gate[id]) else None
  }

  /** How `_match_building_impl` ends. */
  datatype StepOutcome = Completed | IntegrityFailure | Raised

  /** State after the marker of one step of `id`. */
  function Marked(b: Broker, id: ReportId, outage: Outage): Broker {
    var remaining := PendingStepGate.Decr(GateOf(b, id));
    if outage.AtDecr? then b
    else if remaining > 0 || outage.AtDelete? then b.(gate := b.gate[id := remaining])
    else if outage.AtSend? then b.(gate := b.gate - {id})
    else Broker(b.gate - {id}, b.queue + [ScoreJob(id)])
  }

  function StageMessage(id: ReportId, stage: Stage): Message {
    if stage.Gis? then GisJob(id) else AiJob(id)
  }

  // ------------------------------------------------------------------
  // Seeding
  // ------------------------------------------------------------------

  /** Messages of the first `k` stages, without those whose publication failed. */
  function SentMessages(id: ReportId, stages: seq<Stage>, sent: seq<bool>, k: nat): seq<Message>
    requires k <= |stages| == |sent|
  {
    if k == 0 then []
    else SentMessages(id, stages, sent, k - 1) + (if sent[k - 1] then [StageMessage(id, stages[k - 1])] else [])
  }

  /** The gate set to the number of stages, then the first `k` of them published. */
  function Seeded(b: Broker, id: ReportId, stages: seq<Stage>, sent: seq<bool>, k: nat): Broker
    requires k <= |stages| == |sent|
  {
    Broker(b.gate[id := |stages|], b.queue + SentMessages(id, stages, sent, k))
  }

  function NewStages(hasPhoto: bool): seq<Stage> {
    if hasPhoto then [Gis, Ai] else [Gis]
  }

  function NewSent(hasPhoto: bool, gisOk: bool, aiOk: bool): (sent: seq<bool>)
    ensures |sent| == |NewStages(hasPhoto)|
  {
    if hasPhoto then [gisOk, aiOk] else [gisOk]
  }

  /** Shared state after the tail of `POST /reports`. */
  function NewReportDispatched(b: Broker, id: ReportId, hasPhoto: bool, seedOk: bool, gisOk: bool, aiOk: bool): Broker {
    if !seedOk then b
    else Seeded(b, id, NewStages(hasPhoto), NewSent(hasPhoto, gisOk, aiOk), |NewStages(hasPhoto)|)
  }

  /** Shared state after the tail of `PATCH /reports/{id}/photo`. */
  function PhotoDispatched(b: Broker, id: ReportId, seedOk: bool, aiOk: bool): Broker {
    if !seedOk then b else Seeded(b, id, [Ai], [aiOk], 1)
  }

  lemma SentTwo(id: ReportId, s: Stage, t: Stage, first: bool, second: bool)
    ensures SentMessages(id, [s], [first], 1) == if first then [StageMessage(id, s)] else []
    ensures SentMessages(id, [s, t], [first, second], 2)
         == (if first then [StageMessage(id, s)] else []) + (if second then [StageMessage(id, t)] else [])
  {
    assert SentMessages(id, [s], [first], 0) == [] && SentMessages(id, [s, t], [first, second], 0) == [];
    assert SentMessages(id, [s, t], [first, second], 1) == if first then [StageMessage(id, s)] else [];
  }

  // ------------------------------------------------------------------
  // The sweep's rows
  // ------------------------------------------------------------------

  datatype StuckRow = StuckRow(id: ReportId, needsGis: bool, needsAi: bool, needsDedup: bool)

  /** `BrokerFails(k)` raises at the (k+1)-th send of the row and ends the sweep. */
  datatype RowFault = Fine | SeedFails | BrokerFails(sent: nat)

  datatype Summary = Summary(scanned: nat, gis: nat, ai: nat, dedupDirect: nat)

  function MissingStages(row: StuckRow): seq<Stage> {
    (if row.needsGis then [Gis] else []) + (if row.needsAi then [Ai] else [])
  }

  function RowMessages(row: StuckRow): seq<Message> {
    (if row.needsGis then [GisJob(row.id)] else [])
    + (if row.needsAi then [AiJob(row.id)] else [])
    + (if !row.needsGis && !row.needsAi && row.needsDedup then [ScoreJob(row.id)] else [])
  }

  function RowSends(row: StuckRow, fault: RowFault): seq<Message> {
    match fault
    case Fine => RowMessages(row)
    case SeedFails => if MissingStages(row) != [] then [] else RowMessages(row)
    case BrokerFails(k) => if k < |RowMessages(row)| then RowMessages(row)[..k] else RowMessages(row)
  }

  predicate Aborts(row: StuckRow, fault: RowFault) {
    fault.BrokerFails? && fault.sent < |RowMessages(row)|
  }

  function RowSwept(b: Broker, row: StuckRow, fault: RowFault): Broker {
    Broker(
      if MissingStages(row) != [] && !fault.SeedFails? then b.gate[row.id := |MissingStages(row)|] else b.gate,
      b.queue + RowSends(row, fault))
  }

  function FaultAt(faults: seq<RowFault>, i: nat): RowFault {
    if i < |faults| then faults[i] else Fine
  }

  /** The first row, counted from `i`, at which the sweep raises, or the number of rows. */
  function AbortRow(rows: seq<StuckRow>, faults: seq<RowFault>, i: nat): (n: nat)
    requires i <= |rows|
    ensures i <= n <= |rows|
    ensures n < |rows| ==> Aborts(rows[n], FaultAt(faults, n))
    ensures forall k :: i <= k < n ==> !Aborts(rows[k], FaultAt(faults, k))
    decreases |rows| - i
  {
    if i == |rows| || Aborts(rows[i], FaultAt(faults, i)) then i else AbortRow(rows, faults, i + 1)
  }

  lemma AbortNext(rows: seq<StuckRow>, faults: seq<RowFault>, i: nat)
    requires i < |rows| && AbortRow(rows, faults, 0) == AbortRow(rows, faults, i)
    ensures AbortRow(rows, faults, 0)
         == if Aborts(rows[i], FaultAt(faults, i)) then i else AbortRow(rows, faults, i + 1)
  {
  }

  /** State after the first `n` rows. */
  function SweptPrefix(b: Broker, rows: seq<StuckRow>, faults: seq<RowFault>, n: nat): Broker
    requires n <= |rows|
  {
    if n == 0 then b
    else RowSwept(SweptPrefix(b, rows, faults, n - 1), rows[n - 1], FaultAt(faults, n - 1))
  }

  function Swept(b: Broker, rows: seq<StuckRow>, faults: seq<RowFault>): Broker {
    var n := AbortRow(rows, faults, 0);
    SweptPrefix(b, rows, faults, if n < |rows| then n + 1 else n)
  }

  function IsGisJob(m: Message): nat { if m.GisJob? then 1 else 0 }

  function IsAiJob(m: Message): nat { if m.AiJob? then 1 else 0 }

  function IsScoreJob(m: Message): nat { if m.ScoreJob? then 1 else 0 }

  /** The counters agree with what was put on the queues since `before`. */
  ghost predicate CountsSends(summary: Summary, before: seq<Message>, after: seq<Message>) {
    && before <= after
    && summary.gis == Total(after[|before|..], IsGisJob)
    && summary.ai == Total(after[|before|..], IsAiJob)
    && summary.dedupDirect == Total(after[|before|..], IsScoreJob)
  }

  /** The counters after one more row whose messages were `sent`. */
  function Counted(s: Summary, sent: seq<Message>): Summary {
    Summary(s.scanned + 1, s.gis + Total(sent, IsGisJob), s.ai + Total(sent, IsAiJob),
            s.dedupDirect + Total(sent, IsScoreJob))
  }

  lemma CountMore(s: Summary, before: seq<Message>, after: seq<Message>, sent: seq<Message>)
    requires CountsSends(s, before, after)
    ensures CountsSends(Counted(s, sent), before, after + sent)
  {
    assert (after + sent)[|before|..] == after[|before|..] + sent;
    TotalConcat(after[|before|..], sent, IsGisJob);
    TotalConcat(after[|before|..], sent, IsAiJob);
    TotalConcat(after[|before|..], sent, IsScoreJob);
  }

  /** What a row sends, case by case. */
  lemma RowSendsCases(row: StuckRow, fault: RowFault)
    ensures var g, a := row.needsGis, row.needsAi;
      var gis := if g && !fault.SeedFails? && fault != BrokerFails(0) then [GisJob(row.id)] else [];
      var ai := if a && !fault.SeedFails? && fault != BrokerFails(0) && !(g && fault == BrokerFails(1))
                then [AiJob(row.id)] else [];
      var score := if !g && !a && row.needsDedup && fault != BrokerFails(0) then [ScoreJob(row.id)] else [];
      && RowSends(row, fault) == gis + ai + score
      && Total(RowSends(row, fault), IsGisJob) == |gis|
      && Total(RowSends(row, fault), IsAiJob) == |ai|
      && Total(RowSends(row, fault), IsScoreJob) == |score|
    ensures |MissingStages(row)| == (if row.needsGis then 1 else 0) + (if row.needsAi then 1 else 0)
    ensures |RowMessages(row)| == |MissingStages(row)|
                               + (if MissingStages(row) == [] && row.needsDedup then 1 else 0)
  {
    if row.needsGis && row.needsAi {
      assert RowMessages(row) == [GisJob(row.id), AiJob(row.id)];
    }
    TotalSmall(GisJob(row.id), AiJob(row.id), IsGisJob);
    TotalSmall(GisJob(row.id), AiJob(row.id), IsAiJob);
    TotalSmall(GisJob(row.id), AiJob(row.id), IsScoreJob);
    if Aborts(row, fault) {
      if fault.sent == 0 {
        assert RowSends(row, fault) == [];
      } else {
        assert row.needsGis && row.needsAi && fault.sent == 1;
        assert RowSends(row, fault) == [GisJob(row.id)];
      }
    }
  }

  class Coordinator {
    var gate: map<ReportId, int>
    var queue: seq<Message>

    function View(): Broker
      reads this
    {
      Broker(gate, queue)
    }

    constructor ()
      ensures gate == map[] && queue == []
    {
      gate, queue := map[], [];
    }

    method Decr(id: ReportId) returns (remaining: int)
      modifies this`gate
      ensures remaining == PendingStepGate.Decr(GateOf(old(View()), id))
      ensures gate == old(gate)[id := remaining]
    {
      remaining := (if id in gate then gate[id] else 0) - 1;
      gate := gate[id := remaining];
    }

    method Delete(id: ReportId)
      modifies this`gate
      ensures gate == old(gate) - {id}
    {
      gate := gate - {id};
    }

    method Set(id: ReportId, steps: nat)
      modifies this`gate
      ensures gate == old(gate)[id := steps]
    {
      gate := gate[id := steps];
    }

    method SendTask(m: Message)
      modifies this`queue
      ensures queue == old(queue) + [m]
    {
      queue := queue + [m];
    }

    /** Never raises: an outage ends it early. */
    method MarkStepDoneAndMaybeDispatch(id: ReportId, outage: Outage)
      modifies this
      ensures View() == Marked(old(View()), id, outage)
    {
      if outage.AtDecr? {
        return;
      }
      var remaining := Decr(id);
      if remaining <= 0 {
        if outage.AtDelete? {
          return;
        }
        Delete(id);
        assert gate == old(gate) - {id};
        if outage.AtSend? {
          return;
        }
        SendTask(ScoreJob(id));
      }
    }

    /** `match_building`: an integrity error is terminal at once; any other exception is retried until
        the retries are exhausted. */
    method MatchBuilding(id: ReportId, retries: Attempt, outcome: StepOutcome, outage: Outage)
      returns (retried: bool)
      modifies this
      ensures retried <==> outcome.Raised? && retries < 3
      ensures View() == StepRun(old(View()), id, Gis, retries, !outcome.Raised?, outage)
    {
      retried := outcome.Raised? && retries < MAX_RETRIES;
      if retried {
        SendTask(GisJob(id));
      } else {
        MarkStepDoneAndMaybeDispatch(id, outage);
      }
    }

    /** `process_report_image`: every exception is retried until the retries are exhausted. */
    method ProcessReportImage(id: ReportId, retries: Attempt, raised: bool, outage: Outage)
      returns (retried: bool)
      modifies this
      ensures retried <==> raised && retries < 3
      ensures View() == StepRun(old(View()), id, Ai, retries, !raised, outage)
    {
      if raised && retries < MAX_RETRIES {
        SendTask(AiJob(id));
        return true;
      }
      MarkStepDoneAndMaybeDispatch(id, outage);
      return false;
    }

    /** Tail of `POST /reports`, after the commit. `publish_*` swallows a failed send; a failed
        seed raises, so nothing is published. */
    method DispatchNewReport(id: ReportId, hasPhoto: bool, seedOk: bool, gisOk: bool, aiOk: bool)
      returns (ok: bool)
      modifies this
      ensures ok == seedOk
      ensures !ok ==> View() == old(View())
      ensures ok ==> gate == old(gate)[id := if hasPhoto then 2 else 1]
      ensures ok ==> queue == old(queue) + (if gisOk then [GisJob(id)] else [])
                            + (if hasPhoto && aiOk then [AiJob(id)] else [])
      ensures View() == NewReportDispatched(old(View()), id, hasPhoto, seedOk, gisOk, aiOk)
    {
      SentTwo(id, Gis, Ai, gisOk, aiOk);
      ok := seedOk;
      if !ok {
        return;
      }
      Set(id, if hasPhoto then 2 else 1);
      if gisOk {
        SendTask(GisJob(id));
      }
      if hasPhoto && aiOk {
        SendTask(AiJob(id));
      }
    }

    /** Tail of `PATCH /reports/{id}/photo`: the gate is re-seeded to the AI step alone. */
    method DispatchPhoto(id: ReportId, seedOk: bool, aiOk: bool) returns (ok: bool)
      modifies this
      ensures ok == seedOk
      ensures !ok ==> View() == old(View())
      ensures ok ==> gate == old(gate)[id := 1]
      ensures ok ==> queue == old(queue) + (if aiOk then [AiJob(id)] else [])
      ensures View() == PhotoDispatched(old(View()), id, seedOk, aiOk)
    {
      SentTwo(id, Ai, Ai, aiOk, aiOk);
      ok := seedOk;
      if !ok {
        return;
      }
      Set(id, 1);
      if aiOk {
        SendTask(AiJob(id));
      }
    }

    /** One send of the sweep: counts it, or raises. */
    method SweepSend(m: Message, fails: bool) returns (raised: bool)
      modifies this`queue
      ensures raised == fails
      ensures queue == old(queue) + (if fails then [] else [m])
    {
      raised := fails;
      if !fails {
        SendTask(m);
      }
    }

    method ReconcileRow(row: StuckRow, fault: RowFault, start: Summary)
      returns (summary: Summary, raised: bool)
      modifies this
      ensures View() == RowSwept(old(View()), row, fault)
      ensures raised == Aborts(row, fault)
      ensures summary == Counted(start, RowSends(row, fault))
    {
      RowSendsCases(row, fault);
      summary := start.(scanned := start.scanned + 1);
      raised := false;
      var steps := (if row.needsGis then 1 else 0) + (if row.needsAi then 1 else 0);
      if steps > 0 {
        if fault.SeedFails? {
          return;
        }
        Set(row.id, steps);
        if row.needsGis {
          raised := SweepSend(GisJob(row.id), fault == BrokerFails(0));
          if raised {
            return;
          }
          summary := summary.(gis := summary.gis + 1);
        }
        if row.needsAi {
          raised := SweepSend(AiJob(row.id), fault == BrokerFails(if row.needsGis then 1 else 0));
          if raised {
            return;
          }
          summary := summary.(ai := summary.ai + 1);
        }
      } else if row.needsDedup {
        raised := SweepSend(ScoreJob(row.id), fault == BrokerFails(0));
        if raised {
          return;
        }
        summary := summary.(dedupDirect := summary.dedupDirect + 1);
      }
    }

    /** `_reconcile_impl` on the rows its query returned. */
    method ReconcileImpl(rows: seq<StuckRow>, redisUp: bool, faults: seq<RowFault>)
      returns (result: Result<Summary, ()>)
      modifies this
      ensures View() == if redisUp then Swept(old(View()), rows, faults) else old(View())
      ensures result.Ok? <==> (redisUp ==> AbortRow(rows, faults, 0) == |rows|)
      ensures result.Ok? ==> CountsSends(result.value, old(queue), queue)
      ensures result.Ok? ==> result.value.scanned == if redisUp then |rows| else 0
    {
      var summary := Summary(0, 0, 0, 0);
      if rows == [] || !redisUp {
        return Ok(summary);
      }
      ghost var before := queue;
      var i := 0;
      while i < |rows|
        invariant 0 <= i <= |rows| && summary.scanned == i
        invariant AbortRow(rows, faults, 0) == AbortRow(rows, faults, i)
        invariant View() == SweptPrefix(old(View()), rows, faults, i)
        invariant CountsSends(summary, before, queue)
      {
        AbortNext(rows, faults, i);
        CountMore(summary, before, queue, RowSends(rows[i], FaultAt(faults, i)));
        var raised;
        summary, raised := ReconcileRow(rows[i], FaultAt(faults, i), summary);
        if raised {
          return Err(());
        }
        i := i + 1;
      }
      return Ok(summary);
    }
  }

  // ------------------------------------------------------------------
  // The code follows the protocol
  // ------------------------------------------------------------------

  function QueuedGis(j: Job): nat { if j.stage.Gis? && j.phase.Queued? then 1 else 0 }

  function QueuedAi(j: Job): nat { if j.stage.Ai? && j.phase.Queued? then 1 else 0 }

  function Waiting(b: Broker, m: Message): nat {
    multiset(b.queue)[m]
  }

  /** The shared state, seen from one report, is the protocol state `p`. */
  ghost predicate Shows(b: Broker, id: ReportId, p: Pipe) {
    && GateOf(b, id) == p.gate
    && Waiting(b, GisJob(id)) == Total(p.jobs, QueuedGis)
    && Waiting(b, AiJob(id)) == Total(p.jobs, QueuedAi)
    && Waiting(b, ScoreJob(id)) == p.scores
  }

  function MarkActions(b: Broker, id: ReportId, i: nat, outage: Outage): seq<Action> {
    if outage.AtDecr? then [LoseMark(i)]
    else if PendingStepGate.Decr(GateOf(b, id)) > 0 then [Mark(i), Return(i)]
    else match outage
      case AtDelete => [Mark(i), LoseDelete(i)]
      case AtSend => [Mark(i), Delete(i), LoseSend(i)]
      case _ => [Mark(i), Delete(i), Send(i)]
  }

  lemma RunTwo(p: Pipe, a: Action, c: Action)
    requires Enabled(p, a) && Enabled(Next(p, a), c)
    ensures Reaches(p, [a, c], Next(Next(p, a), c))
  {
  }

  lemma RunThree(p: Pipe, a: Action, c: Action, d: Action)
    requires Enabled(p, a) && Enabled(Next(p, a), c) && Enabled(Next(Next(p, a), c), d)
    ensures Reaches(p, [a, c, d], Next(Next(Next(p, a), c), d))
  {
    RunTwo(p, a, c);
    Extend(p, [a, c], Next(Next(p, a), c), d);
    assert [a, c] + [d] == [a, c, d];
  }

  function Done(p: Pipe, i: nat): seq<Job>
    requires i < |p.jobs|
  {
    p.jobs[i := p.jobs[i].(phase := Finished)]
  }

  lemma RunDelete(p: Pipe, i: nat) returns (q: Pipe)
    requires Enabled(p, Mark(i)) && PendingStepGate.Decr(p.gate) <= 0
    ensures Reaches(p, [Mark(i), Delete(i)], q)
    ensures q == Pipe(None, p.jobs[i := p.jobs[i].(phase := Deleted)], p.scores, p.row, p.log + [MarkDone])
  {
    RunTwo(p, Mark(i), Delete(i));
    q := Next(Next(p, Mark(i)), Delete(i));
    assert q.jobs == p.jobs[i := p.jobs[i].(phase := Deleted)];
  }

  lemma RunLoseSend(p: Pipe, i: nat)
    requires Enabled(p, Mark(i)) && PendingStepGate.Decr(p.gate) <= 0
    ensures Reaches(p, [Mark(i), Delete(i), LoseSend(i)],
                    Pipe(None, Done(p, i), p.scores, p.row, p.log + [MarkDone] + [SendLost]))
  {
    var q := RunDelete(p, i);
    Extend(p, [Mark(i), Delete(i)], q, LoseSend(i));
    assert [Mark(i), Delete(i)] + [LoseSend(i)] == [Mark(i), Delete(i), LoseSend(i)];
    assert Next(q, LoseSend(i)).jobs == Done(p, i);
  }

  lemma RunSend(p: Pipe, i: nat)
    requires Enabled(p, Mark(i)) && PendingStepGate.Decr(p.gate) <= 0
    ensures Reaches(p, [Mark(i), Delete(i), Send(i)],
                    Pipe(None, Done(p, i), p.scores + 1, p.row, p.log + [MarkDone] + [ScoreSent]))
  {
    var q := RunDelete(p, i);
    Extend(p, [Mark(i), Delete(i)], q, Send(i));
    assert [Mark(i), Delete(i)] + [Send(i)] == [Mark(i), Delete(i), Send(i)];
    assert Next(q, Send(i)).jobs == Done(p, i);
  }

  lemma WaitingAppend(b: Broker, more: seq<Message>, m: Message)
    ensures multiset(b.queue + more)[m] == Waiting(b, m) + multiset(more)[m]
  {
  }

  /** The protocol state a marker leads to. */
  function MarkedPipe(p: Pipe, i: nat, outage: Outage): Pipe
    requires i < |p.jobs|
  {
    var remaining := PendingStepGate.Decr(p.gate);
    if outage.AtDecr? then Pipe(p.gate, Done(p, i), p.scores, p.row, p.log + [MarkLost])
    else if remaining > 0 then Pipe(Some(remaining), Done(p, i), p.scores, p.row, p.log + [MarkDone])
    else if outage.AtDelete? then Pipe(Some(remaining), Done(p, i), p.scores, p.row, p.log + [MarkDone] + [SendLost])
    else if outage.AtSend? then Pipe(None, Done(p, i), p.scores, p.row, p.log + [MarkDone] + [SendLost])
    else Pipe(None, Done(p, i), p.scores + 1, p.row, p.log + [MarkDone] + [ScoreSent])
  }

  lemma MarkRuns(b: Broker, id: ReportId, outage: Outage, p: Pipe, i: nat)
    requires GateOf(b, id) == p.gate && Enabled(p, Mark(i))
    ensures Reaches(p, MarkActions(b, id, i, outage), MarkedPipe(p, i, outage))
  {
    if outage.AtDecr? {
    } else if PendingStepGate.Decr(p.gate) > 0 {
    } else if outage.AtDelete? {
    } else if outage.AtSend? {
      RunLoseSend(p, i);
    } else {
      RunSend(p, i);
    }
  }

  lemma MarkShows(b: Broker, id: ReportId, outage: Outage, p: Pipe, i: nat)
    requires Shows(b, id, p) && Enabled(p, Mark(i))
    ensures Shows(Marked(b, id, outage), id, MarkedPipe(p, i, outage))
  {
    TotalUpdate(p.jobs, i, p.jobs[i].(phase := Finished), QueuedGis);
    TotalUpdate(p.jobs, i, p.jobs[i].(phase := Finished), QueuedAi);
    WaitingAppend(b, [ScoreJob(id)], GisJob(id));
    WaitingAppend(b, [ScoreJob(id)], AiJob(id));
    WaitingAppend(b, [ScoreJob(id)], ScoreJob(id));
  }

  /** The marker executes exactly the protocol's commands for the job that reached its terminal
      outcome, outages included. */
  lemma MarkFollowsProtocol(b: Broker, id: ReportId, outage: Outage, p: Pipe, i: nat) returns (q: Pipe)
    requires Shows(b, id, p) && Enabled(p, Mark(i))
    ensures Reaches(p, MarkActions(b, id, i, outage), q)
    ensures q.jobs == p.jobs[i := p.jobs[i].(phase := Finished)]
    ensures Shows(Marked(b, id, outage), id, q)
  {
    q := MarkedPipe(p, i, outage);
    MarkRuns(b, id, outage, p, i);
    MarkShows(b, id, outage, p, i);
  }

  /** A marker of one report touches no other report's gate or messages. */
  lemma MarkLeavesOthersAlone(b: Broker, id: ReportId, outage: Outage, other: ReportId, p: Pipe)
    requires other != id && Shows(b, other, p)
    ensures Shows(Marked(b, id, outage), other, p)
  {
  }

  /** Shared state after one execution of a step's task. */
  function StepRun(b: Broker, id: ReportId, stage: Stage, retries: Attempt, terminal: bool, outage: Outage): Broker {
    if !terminal && retries < MAX_RETRIES then b.(queue := b.queue + [StageMessage(id, stage)])
    else Marked(b, id, outage)
  }

  /** Putting a job that was not queued on its queue, with its message. */
  lemma QueuedShows(b: Broker, id: ReportId, p: Pipe, i: nat, retries: Attempt, q: Pipe)
    requires Shows(b, id, p) && i < |p.jobs| && !p.jobs[i].phase.Queued?
    requires q.jobs == p.jobs[i := p.jobs[i].(phase := Queued(retries))] && q.gate == p.gate && q.scores == p.scores
    ensures Shows(b.(queue := b.queue + [StageMessage(id, p.jobs[i].stage)]), id, q)
  {
    var m := StageMessage(id, p.jobs[i].stage);
    TotalUpdate(p.jobs, i, p.jobs[i].(phase := Queued(retries)), QueuedGis);
    TotalUpdate(p.jobs, i, p.jobs[i].(phase := Queued(retries)), QueuedAi);
    WaitingAppend(b, [m], GisJob(id));
    WaitingAppend(b, [m], AiJob(id));
    WaitingAppend(b, [m], ScoreJob(id));
  }

  lemma RetryShows(b: Broker, id: ReportId, p: Pipe, i: nat, wrote: bool)
    requires Shows(b, id, p) && Enabled(p, Retry(i, wrote))
    ensures Shows(b.(queue := b.queue + [StageMessage(id, p.jobs[i].stage)]), id, Next(p, Retry(i, wrote)))
  {
    QueuedShows(b, id, p, i, p.jobs[i].phase.attempt + 1, Next(p, Retry(i, wrote)));
  }

  lemma FinishShows(b: Broker, id: ReportId, p: Pipe, i: nat, wrote: bool)
    requires Shows(b, id, p) && Enabled(p, Finish(i, wrote))
    ensures Shows(b, id, Next(p, Finish(i, wrote)))
  {
    TotalUpdate(p.jobs, i, p.jobs[i].(phase := Marking), QueuedGis);
    TotalUpdate(p.jobs, i, p.jobs[i].(phase := Marking), QueuedAi);
  }

  /** Each execution of a step's task is either one protocol retry or its finish and marker. */
  lemma StepFollowsProtocol(b: Broker, id: ReportId, p: Pipe, i: nat, terminal: bool, wrote: bool, outage: Outage)
    returns (acts: seq<Action>, q: Pipe)
    requires Shows(b, id, p) && i < |p.jobs| && p.jobs[i].phase.Running?
    ensures Reaches(p, acts, q)
    ensures Shows(StepRun(b, id, p.jobs[i].stage, p.jobs[i].phase.attempt, terminal, outage), id, q)
    ensures !terminal && p.jobs[i].phase.attempt < MAX_RETRIES <==> acts == [Retry(i, wrote)]
    ensures acts != [Retry(i, wrote)] ==> acts == [Finish(i, wrote)] + MarkActions(b, id, i, outage)
  {
    if !terminal && p.jobs[i].phase.attempt < MAX_RETRIES {
      RetryShows(b, id, p, i, wrote);
      acts, q := [Retry(i, wrote)], Next(p, Retry(i, wrote));
      Extend(p, [], p, Retry(i, wrote));
      assert [] + [Retry(i, wrote)] == [Retry(i, wrote)];
    } else {
      FinishShows(b, id, p, i, wrote);
      var p1 := Next(p, Finish(i, wrote));
      q := MarkFollowsProtocol(b, id, outage, p1, i);
      acts := [Finish(i, wrote)] + MarkActions(b, id, i, outage);
      assert acts[1..] == MarkActions(b, id, i, outage) && acts[0] == Finish(i, wrote);
    }
  }

  // ------------------------------------------------------------------
  // The sweep re-drives only what is missing
  // ------------------------------------------------------------------

  function Redriving(row: StuckRow): seq<Job> {
    (if row.needsGis then [Job(Gis, Queued(0))] else []) + (if row.needsAi then [Job(Ai, Queued(0))] else [])
  }

  lemma RedrivingCounts(row: StuckRow)
    ensures Total(Redriving(row), QueuedGis) == if row.needsGis then 1 else 0
    ensures Total(Redriving(row), QueuedAi) == if row.needsAi then 1 else 0
    ensures Redriving(row) == seq(|MissingStages(row)|,
              i requires 0 <= i < |MissingStages(row)| => Job(MissingStages(row)[i], Queued(0)))
  {
    var g := if row.needsGis then [Job(Gis, Queued(0))] else [];
    var a := if row.needsAi then [Job(Ai, Queued(0))] else [];
    TotalConcat(g, a, QueuedGis);
    TotalConcat(g, a, QueuedAi);
  }

  /** The protocol actions a sweep performs for one selected row. */
  function Redriven(p: Pipe, row: StuckRow): Pipe {
    var stages := MissingStages(row);
    if stages != [] then
      Pipe(Some(|stages|), p.jobs + Redriving(row), p.scores, p.row, p.log)
    else if row.needsDedup then Next(p, Redispatch)
    else p
  }

  /** Re-driving is a seeding followed by the publications, or a direct dispatch. */
  lemma RedrivenRun(p: Pipe, row: StuckRow) returns (acts: seq<Action>)
    ensures Reaches(p, acts, Redriven(p, row))
    ensures AllReliable(acts)
  {
    var stages := MissingStages(row);
    var n := |p.jobs|;
    RedrivingCounts(row);
    if stages == [] {
      acts := if row.needsDedup then [Redispatch] else [];
      if row.needsDedup {
        Extend(p, [], p, Redispatch);
        assert [] + [Redispatch] == [Redispatch];
      }
    } else if |stages| == 1 {
      acts := [Seed(stages), Publish(n)];
      RunTwo(p, Seed(stages), Publish(n));
      assert Next(Next(p, Seed(stages)), Publish(n)).jobs == Redriven(p, row).jobs;
    } else {
      acts := [Seed(stages), Publish(n), Publish(n + 1)];
      RunThree(p, Seed(stages), Publish(n), Publish(n + 1));
      assert Next(Next(Next(p, Seed(stages)), Publish(n)), Publish(n + 1)).jobs == Redriven(p, row).jobs;
    }
  }

  lemma RowMessageCounts(row: StuckRow, id: ReportId)
    ensures multiset(RowMessages(row))[GisJob(id)] == if row.needsGis && id == row.id then 1 else 0
    ensures multiset(RowMessages(row))[AiJob(id)] == if row.needsAi && id == row.id then 1 else 0
    ensures multiset(RowMessages(row))[ScoreJob(id)]
         == if !row.needsGis && !row.needsAi && row.needsDedup && id == row.id then 1 else 0
  {
  }

  lemma RedrivenJobs(p: Pipe, row: StuckRow)
    ensures Total(Redriven(p, row).jobs, QueuedGis) == Total(p.jobs, QueuedGis) + (if row.needsGis then 1 else 0)
    ensures Total(Redriven(p, row).jobs, QueuedAi) == Total(p.jobs, QueuedAi) + (if row.needsAi then 1 else 0)
  {
    RedrivingCounts(row);
    TotalConcat(p.jobs, Redriving(row), QueuedGis);
    TotalConcat(p.jobs, Redriving(row), QueuedAi);
  }

  lemma RowSweptWaiting(b: Broker, row: StuckRow, m: Message)
    ensures Waiting(RowSwept(b, row, Fine), m) == Waiting(b, m) + multiset(RowMessages(row))[m]
  {
  }

  lemma RowSweptGate(b: Broker, row: StuckRow, p: Pipe)
    requires GateOf(b, row.id) == p.gate
    ensures GateOf(RowSwept(b, row, Fine), row.id) == Redriven(p, row).gate
    ensures Redriven(p, row).scores
         == p.scores + if !row.needsGis && !row.needsAi && row.needsDedup then 1 else 0
  {
  }

  lemma RowSweptShows(b: Broker, row: StuckRow, p: Pipe)
    requires Shows(b, row.id, p)
    ensures Shows(RowSwept(b, row, Fine), row.id, Redriven(p, row))
  {
    RedrivenJobs(p, row);
    RowSweptGate(b, row, p);
    RowMessageCounts(row, row.id);
    RowSweptWaiting(b, row, GisJob(row.id));
    RowSweptWaiting(b, row, AiJob(row.id));
    RowSweptWaiting(b, row, ScoreJob(row.id));
  }

  lemma RowSendsItsOwn(row: StuckRow, fault: RowFault, m: Message)
    requires m.id != row.id
    ensures multiset(RowSends(row, fault))[m] == 0
  {
    RowSendsCases(row, fault);
  }

  lemma RowSweptLeavesOthersAlone(b: Broker, row: StuckRow, fault: RowFault, other: ReportId, p: Pipe)
    requires other != row.id && Shows(b, other, p)
    ensures Shows(RowSwept(b, row, fault), other, p)
  {
    RowSendsItsOwn(row, fault, GisJob(other));
    RowSendsItsOwn(row, fault, AiJob(other));
    RowSendsItsOwn(row, fault, ScoreJob(other));
    WaitingAppend(b, RowSends(row, fault), GisJob(other));
    WaitingAppend(b, RowSends(row, fault), AiJob(other));
    WaitingAppend(b, RowSends(row, fault), ScoreJob(other));
  }

  ghost predicate DistinctRows(rows: seq<StuckRow>) {
    forall i, j :: 0 <= i < j < |rows| ==> rows[i].id != rows[j].id
  }

  /** `states[k]` is the shared state after the first `k` rows. */
  ghost predicate SweepStates(rows: seq<StuckRow>, faults: seq<RowFault>, states: seq<Broker>) {
    && |states| == |rows| + 1
    && forall k :: 0 <= k < |rows| ==> states[k + 1] == RowSwept(states[k], rows[k], FaultAt(faults, k))
  }

  /** Rows of other reports leave what is seen of `id` as the first `m` rows left it. */
  lemma {:induction false} OtherRowsKeep(rows: seq<StuckRow>, faults: seq<RowFault>, states: seq<Broker>,
                                         m: nat, n: nat, id: ReportId, p: Pipe)
    requires SweepStates(rows, faults, states) && m <= n <= |rows| && Shows(states[m], id, p)
    requires forall k :: m <= k < n ==> rows[k].id != id
    ensures Shows(states[n], id, p)
  {
    if m < n {
      OtherRowsKeep(rows, faults, states, m, n - 1, id, p);
      assert states[n - 1 + 1] == RowSwept(states[n - 1], rows[n - 1], FaultAt(faults, n - 1));
      RowSweptLeavesOthersAlone(states[n - 1], rows[n - 1], FaultAt(faults, n - 1), id, p);
    }
  }

  /** How many rows the sweep acts on: all of them, or those up to the one it raises at. */
  function Handled(rows: seq<StuckRow>, faults: seq<RowFault>): (n: nat)
    ensures n <= |rows|
  {
    var n := AbortRow(rows, faults, 0);
    if n < |rows| then n + 1 else n
  }

  function StatesOf(b: Broker, rows: seq<StuckRow>, faults: seq<RowFault>): (states: seq<Broker>)
    ensures SweepStates(rows, faults, states)
    ensures states[0] == b && states[Handled(rows, faults)] == Swept(b, rows, faults)
  {
    seq(|rows| + 1, k requires 0 <= k <= |rows| => SweptPrefix(b, rows, faults, k))
  }

  /** A fault-free sweep re-drives exactly the missing stages of a selected report. */
  lemma SweepRedrivesTheSelected(b: Broker, rows: seq<StuckRow>, k: nat, p: Pipe)
    requires DistinctRows(rows) && k < |rows| && Shows(b, rows[k].id, p)
    ensures Shows(Swept(b, rows, []), rows[k].id, Redriven(p, rows[k]))
  {
    var states := StatesOf(b, rows, []);
    assert Handled(rows, []) == |rows|;
    OtherRowsKeep(rows, [], states, 0, k, rows[k].id, p);
    RowSweptShows(states[k], rows[k], p);
    OtherRowsKeep(rows, [], states, k + 1, |rows|, rows[k].id, Redriven(p, rows[k]));
  }

  /** Whatever faults it meets, a sweep leaves every report of which it handled no row as it was. */
  lemma SweepLeavesOthersAlone(b: Broker, rows: seq<StuckRow>, faults: seq<RowFault>, id: ReportId, p: Pipe)
    requires Shows(b, id, p) && forall k :: 0 <= k < Handled(rows, faults) ==> rows[k].id != id
    ensures Shows(Swept(b, rows, faults), id, p)
  {
    OtherRowsKeep(rows, faults, StatesOf(b, rows, faults), 0, Handled(rows, faults), id, p);
  }
}
