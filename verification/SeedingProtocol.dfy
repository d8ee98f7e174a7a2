/**
 * Every seeding of the gate follows the gate protocol: the two routes, and the sweep's rows under each
 * fault. A publication that fails, or is never attempted, is the protocol's lost job.
 */
module SeedingProtocol {
  import opened Common
  import opened PendingStepGate
  import opened DuplicateDispatch

  function PublishAct(sent: bool, i: nat): Action {
    if sent then Publish(i) else LosePublish(i)
  }

  /** A seeding and its first `k` publications, for a report that has `n` jobs already. */
  function SeedActions(n: nat, stages: seq<Stage>, sent: seq<bool>, k: nat): seq<Action>
    requires k <= |stages| == |sent|
  {
    if k == 0 then [Seed(stages)]
    else SeedActions(n, stages, sent, k - 1) + [PublishAct(sent[k - 1], n + k - 1)]
  }

  lemma {:induction false} FreshNotQueued(stages: seq<Stage>)
    ensures Total(Fresh(stages), QueuedGis) == 0 && Total(Fresh(stages), QueuedAi) == 0
  {
    TotalZero(Fresh(stages), QueuedGis);
    TotalZero(Fresh(stages), QueuedAi);
  }

  lemma SeedShows(b: Broker, id: ReportId, p: Pipe, stages: seq<Stage>)
    requires Shows(b, id, p) && stages != []
    ensures Shows(b.(gate := b.gate[id := |stages|]), id, Next(p, Seed(stages)))
  {
    FreshNotQueued(stages);
    TotalConcat(p.jobs, Fresh(stages), QueuedGis);
    TotalConcat(p.jobs, Fresh(stages), QueuedAi);
  }

  lemma PublishShows(b: Broker, id: ReportId, p: Pipe, i: nat)
    requires Shows(b, id, p) && Enabled(p, Publish(i))
    ensures Shows(b.(queue := b.queue + [StageMessage(id, p.jobs[i].stage)]), id, Next(p, Publish(i)))
  {
    QueuedShows(b, id, p, i, 0, Next(p, Publish(i)));
  }

  lemma LosePublishShows(b: Broker, id: ReportId, p: Pipe, i: nat)
    requires Shows(b, id, p) && Enabled(p, LosePublish(i))
    ensures Shows(b, id, Next(p, LosePublish(i)))
  {
    TotalUpdate(p.jobs, i, p.jobs[i].(phase := Finished), QueuedGis);
    TotalUpdate(p.jobs, i, p.jobs[i].(phase := Finished), QueuedAi);
  }

  /** The jobs after the first `n` are the seeded ones; those from the `k`-th on are not published yet. */
  ghost predicate Awaiting(q: Pipe, n: nat, stages: seq<Stage>, k: nat) {
    && |q.jobs| == n + |stages|
    && forall i :: k <= i < |stages| ==> q.jobs[n + i] == Job(stages[i], Unpublished)
  }

  lemma OnePublication(b: Broker, id: ReportId, q: Pipe, n: nat, stages: seq<Stage>, sent: bool, k: nat)
    returns (r: Pipe)
    requires Shows(b, id, q) && Awaiting(q, n, stages, k) && k < |stages|
    ensures Enabled(q, PublishAct(sent, n + k)) && r == Next(q, PublishAct(sent, n + k))
    ensures Awaiting(r, n, stages, k + 1)
    ensures Shows(b.(queue := b.queue + if sent then [StageMessage(id, stages[k])] else []), id, r)
  {
    assert q.jobs[n + k] == Job(stages[k], Unpublished);
    r := Next(q, PublishAct(sent, n + k));
    if sent {
      PublishShows(b, id, q, n + k);
    } else {
      LosePublishShows(b, id, q, n + k);
      assert b.queue + [] == b.queue;
    }
  }

  /** `q` is the protocol's state after seeding and the first `k` publications. */
  ghost predicate SeededTo(b: Broker, id: ReportId, p: Pipe, stages: seq<Stage>, sent: seq<bool>, k: nat, q: Pipe) {
    && k <= |stages| == |sent|
    && Reaches(p, SeedActions(|p.jobs|, stages, sent, k), q)
    && Shows(Seeded(b, id, stages, sent, k), id, q)
    && Awaiting(q, |p.jobs|, stages, k)
  }

  lemma SeedingStart(b: Broker, id: ReportId, p: Pipe, stages: seq<Stage>, sent: seq<bool>) returns (q: Pipe)
    requires Shows(b, id, p) && stages != [] && |stages| == |sent|
    ensures SeededTo(b, id, p, stages, sent, 0, q)
  {
    q := Next(p, Seed(stages));
    Extend(p, [], p, Seed(stages));
    assert [] + [Seed(stages)] == [Seed(stages)];
    SeedShows(b, id, p, stages);
    assert b.queue + [] == b.queue;
  }

  lemma OneMoreAction(p: Pipe, stages: seq<Stage>, sent: seq<bool>, k: nat, q: Pipe)
    requires k < |stages| == |sent| && Reaches(p, SeedActions(|p.jobs|, stages, sent, k), q)
    requires Enabled(q, PublishAct(sent[k], |p.jobs| + k))
    ensures Reaches(p, SeedActions(|p.jobs|, stages, sent, k + 1), Next(q, PublishAct(sent[k], |p.jobs| + k)))
  {
    Extend(p, SeedActions(|p.jobs|, stages, sent, k), q, PublishAct(sent[k], |p.jobs| + k));
  }

  lemma MoreShown(b: Broker, id: ReportId, stages: seq<Stage>, sent: seq<bool>, n: nat, k: nat, q: Pipe)
    returns (r: Pipe)
    requires k < |stages| == |sent| && Shows(Seeded(b, id, stages, sent, k), id, q) && Awaiting(q, n, stages, k)
    ensures Enabled(q, PublishAct(sent[k], n + k)) && r == Next(q, PublishAct(sent[k], n + k))
    ensures Shows(Seeded(b, id, stages, sent, k + 1), id, r) && Awaiting(r, n, stages, k + 1)
  {
    r := OnePublication(Seeded(b, id, stages, sent, k), id, q, n, stages, sent[k], k);
    QueueRegroups(b, id, stages, sent, k + 1);
  }

  lemma SeedingMore(b: Broker, id: ReportId, p: Pipe, stages: seq<Stage>, sent: seq<bool>, k: nat, q: Pipe)
    returns (r: Pipe)
    requires SeededTo(b, id, p, stages, sent, k, q) && k < |stages|
    ensures SeededTo(b, id, p, stages, sent, k + 1, r)
  {
    r := MoreShown(b, id, stages, sent, |p.jobs|, k, q);
    OneMoreAction(p, stages, sent, k, q);
  }

  lemma {:induction false} SeedingRun(b: Broker, id: ReportId, p: Pipe, stages: seq<Stage>, sent: seq<bool>, k: nat)
    returns (q: Pipe)
    requires Shows(b, id, p) && stages != [] && k <= |stages| == |sent|
    ensures SeededTo(b, id, p, stages, sent, k, q)
  {
    if k == 0 {
      q := SeedingStart(b, id, p, stages, sent);
    } else {
      q := SeedingRun(b, id, p, stages, sent, k - 1);
      q := SeedingMore(b, id, p, stages, sent, k - 1, q);
    }
  }

  lemma QueueRegroups(b: Broker, id: ReportId, stages: seq<Stage>, sent: seq<bool>, k: nat)
    requires 0 < k <= |stages| == |sent|
    ensures var b0 := Seeded(b, id, stages, sent, k - 1);
      Seeded(b, id, stages, sent, k)
      == b0.(queue := b0.queue + if sent[k - 1] then [StageMessage(id, stages[k - 1])] else [])
  {
    var more := if sent[k - 1] then [StageMessage(id, stages[k - 1])] else [];
    assert (b.queue + SentMessages(id, stages, sent, k - 1)) + more
        == b.queue + (SentMessages(id, stages, sent, k - 1) + more);
  }

  // ------------------------------------------------------------------
  // The routes
  // ------------------------------------------------------------------

  /** `POST /reports`: seeding by the number of jobs, then their publication, each of which may fail. */
  lemma NewReportFollowsProtocol(b: Broker, id: ReportId, p: Pipe, hasPhoto: bool, seedOk: bool, gisOk: bool,
                                 aiOk: bool)
    returns (acts: seq<Action>, q: Pipe)
    requires Shows(b, id, p)
    ensures acts == if seedOk then SeedActions(|p.jobs|, NewStages(hasPhoto), NewSent(hasPhoto, gisOk, aiOk),
                                               |NewStages(hasPhoto)|) else []
    ensures Reaches(p, acts, q)
    ensures Shows(NewReportDispatched(b, id, hasPhoto, seedOk, gisOk, aiOk), id, q)
  {
    acts, q := [], p;
    if seedOk {
      var stages, sent := NewStages(hasPhoto), NewSent(hasPhoto, gisOk, aiOk);
      q := SeedingRun(b, id, p, stages, sent, |stages|);
      acts := SeedActions(|p.jobs|, stages, sent, |stages|);
    }
  }

  /** `PATCH /reports/{id}/photo`: a seeding for the AI job alone, whatever jobs are still in flight. */
  lemma PhotoFollowsProtocol(b: Broker, id: ReportId, p: Pipe, seedOk: bool, aiOk: bool)
    returns (acts: seq<Action>, q: Pipe)
    requires Shows(b, id, p)
    ensures acts == if seedOk then SeedActions(|p.jobs|, [Ai], [aiOk], 1) else []
    ensures Reaches(p, acts, q)
    ensures Shows(PhotoDispatched(b, id, seedOk, aiOk), id, q)
  {
    acts, q := [], p;
    if seedOk {
      q := SeedingRun(b, id, p, [Ai], [aiOk], 1);
      acts := SeedActions(|p.jobs|, [Ai], [aiOk], 1);
    }
  }

  // ------------------------------------------------------------------
  // The sweep
  // ------------------------------------------------------------------

  /** Which of a row's jobs are published: those before the send that raises. */
  function RowSent(row: StuckRow, fault: RowFault): (sent: seq<bool>)
    ensures |sent| == |MissingStages(row)|
  {
    seq(|MissingStages(row)|, i requires 0 <= i => !fault.BrokerFails? || i < fault.sent)
  }

  /** The protocol actions of one row: nothing when the seed fails or the direct send raises. */
  function RowActions(n: nat, row: StuckRow, fault: RowFault): seq<Action> {
    var stages := MissingStages(row);
    if stages != [] then
      if fault.SeedFails? then [] else SeedActions(n, stages, RowSent(row, fault), |stages|)
    else if row.needsDedup && !Aborts(row, fault) then [Redispatch]
    else []
  }

  lemma RowSendsItsJobs(row: StuckRow, fault: RowFault)
    requires MissingStages(row) != [] && !fault.SeedFails?
    ensures SentMessages(row.id, MissingStages(row), RowSent(row, fault), |MissingStages(row)|) == RowSends(row, fault)
  {
    var stages, sent := MissingStages(row), RowSent(row, fault);
    RowSendsCases(row, fault);
    assert SentMessages(row.id, stages, sent, 0) == [];
    assert SentMessages(row.id, stages, sent, 1) == if sent[0] then [StageMessage(row.id, stages[0])] else [];
    if |stages| == 2 {
      assert SentMessages(row.id, stages, sent, 2)
          == SentMessages(row.id, stages, sent, 1) + if sent[1] then [StageMessage(row.id, stages[1])] else [];
    }
  }

  lemma RedispatchShows(b: Broker, id: ReportId, p: Pipe)
    requires Shows(b, id, p)
    ensures Reaches(p, [Redispatch], Next(p, Redispatch))
    ensures Shows(b.(queue := b.queue + [ScoreJob(id)]), id, Next(p, Redispatch))
  {
    Extend(p, [], p, Redispatch);
    assert [] + [Redispatch] == [Redispatch];
    WaitingAppend(b, [ScoreJob(id)], GisJob(id));
    WaitingAppend(b, [ScoreJob(id)], AiJob(id));
    WaitingAppend(b, [ScoreJob(id)], ScoreJob(id));
  }

  /** One row under any fault: a seeding whose unsent jobs are lost, a direct dispatch, or nothing. */
  lemma RowFollowsProtocol(b: Broker, row: StuckRow, fault: RowFault, p: Pipe) returns (q: Pipe)
    requires Shows(b, row.id, p)
    ensures Reaches(p, RowActions(|p.jobs|, row, fault), q)
    ensures Shows(RowSwept(b, row, fault), row.id, q)
  {
    var stages := MissingStages(row);
    q := p;
    if stages != [] && !fault.SeedFails? {
      q := SeedingRun(b, row.id, p, stages, RowSent(row, fault), |stages|);
      RowSendsItsJobs(row, fault);
    } else if stages == [] && row.needsDedup && !Aborts(row, fault) {
      RedispatchShows(b, row.id, p);
      q := Next(p, Redispatch);
      DirectRow(b, row, fault);
    } else {
      SilentRow(b, row, fault);
    }
  }

  lemma DirectRow(b: Broker, row: StuckRow, fault: RowFault)
    requires MissingStages(row) == [] && row.needsDedup && !Aborts(row, fault)
    ensures RowSwept(b, row, fault) == b.(queue := b.queue + [ScoreJob(row.id)])
  {
    RowSendsCases(row, fault);
    assert [] + [] + [ScoreJob(row.id)] == [ScoreJob(row.id)];
  }

  lemma SilentRow(b: Broker, row: StuckRow, fault: RowFault)
    requires MissingStages(row) != [] ==> fault.SeedFails?
    requires MissingStages(row) == [] ==> !row.needsDedup || Aborts(row, fault)
    ensures RowSwept(b, row, fault) == b
  {
    RowSendsCases(row, fault);
    assert b.queue + [] == b.queue;
  }

  lemma HandledRow(b: Broker, rows: seq<StuckRow>, faults: seq<RowFault>, k: nat, p: Pipe) returns (q: Pipe)
    requires DistinctRows(rows) && k < Handled(rows, faults) && Shows(b, rows[k].id, p)
    ensures Reaches(p, RowActions(|p.jobs|, rows[k], FaultAt(faults, k)), q)
    ensures Shows(Swept(b, rows, faults), rows[k].id, q)
  {
    var states, row := StatesOf(b, rows, faults), rows[k];
    OtherRowsKeep(rows, faults, states, 0, k, row.id, p);
    q := RowFollowsProtocol(states[k], row, FaultAt(faults, k), p);
    OtherRowsKeep(rows, faults, states, k + 1, Handled(rows, faults), row.id, q);
  }

  /** Main result: a whole sweep, under any faults, acts on each report as the protocol actions of its
      row do, and on a report without a handled row not at all. */
  lemma SweepFollowsProtocol(b: Broker, rows: seq<StuckRow>, faults: seq<RowFault>, id: ReportId, p: Pipe)
    returns (acts: seq<Action>, q: Pipe)
    requires DistinctRows(rows) && Shows(b, id, p)
    ensures Reaches(p, acts, q) && Shows(Swept(b, rows, faults), id, q)
    ensures forall k :: 0 <= k < Handled(rows, faults) && rows[k].id == id ==>
              acts == RowActions(|p.jobs|, rows[k], FaultAt(faults, k))
    ensures (forall k :: 0 <= k < Handled(rows, faults) ==> rows[k].id != id) ==> acts == []
  {
    if k: nat :| k < Handled(rows, faults) && rows[k].id == id {
      acts := RowActions(|p.jobs|, rows[k], FaultAt(faults, k));
      OnlyRow(rows, k);
      q := HandledRow(b, rows, faults, k, p);
    } else {
      acts, q := [], p;
      SweepLeavesOthersAlone(b, rows, faults, id, p);
    }
  }

  lemma OnlyRow(rows: seq<StuckRow>, k: nat)
    requires DistinctRows(rows) && k < |rows|
    ensures forall j :: 0 <= j < |rows| && rows[j].id == rows[k].id ==> j == k
  {
  }
}
