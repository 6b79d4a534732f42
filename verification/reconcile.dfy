/** The pull reconciliation loop run after a Git/Argo submission
    (the goroutine body of GitDeploymentArgo.Submit, workflows/argo_git.go). */
module Reconcile {
  import opened Wrappers
  import opened StateTypes
  import opened StateManager

  /** Failed outcomes the loop tolerates before giving up. */
  const MaxRetries: nat := 35

  /** One entry of the status file a build pod writes. */
  datatype PodStatus = PodStatus(status: string, message: string, time: string)

  /** What one read of the pod's status file gives: an error, or the entries together with
      the clock reading at which the updates of this batch are stamped. */
  datatype ReadOutcome = ReadFailed(err: string) | ReadOk(statuses: seq<PodStatus>, at: int)

  /** How processing one batch ends. */
  datatype BatchEnd = BatchDone | BatchStopped | BatchPanicked

  /** How the loop ends. `ReadsExhausted` means only that the finite sequence of read
      outcomes given to the model ran out while the loop would go on polling. */
  datatype PollEnd = BudgetExhausted | StateMissing | StatusReported | Panicked | ReadsExhausted

  /** A status counts as seen when some transition starts or ends at it. */
  predicate Seen(transitions: seq<StateTransition>, status: string) {
    exists i | 0 <= i < |transitions| :: transitions[i].from == status || transitions[i].to == status
  }

  /** The pod statuses on which the loop returns. */
  predicate StopsPolling(status: string) {
    status == "SUCCEEDED" || status == "FAILED"
  }

  /** Processes a batch entry by entry against the snapshot taken before it: an unseen
      status is applied with UpdateState (whose send panics once the watcher is closed),
      and a SUCCEEDED or FAILED entry ends the loop. */
  function ApplyBatch(b: Build, snapshot: seq<StateTransition>, batch: seq<PodStatus>, at: int): (Build, BatchEnd)
    decreases |batch|
  {
    if batch == [] then (b, BatchDone)
    else
      var e := batch[0];
      var seen := Seen(snapshot, e.status);
      if !seen && b.watcher.closed then (b, BatchPanicked)
      else
        var b1 := if seen then b else Updated(b, e.message, e.status, at);
        if StopsPolling(e.status) then (b1, BatchStopped)
        else ApplyBatch(b1, snapshot, batch[1..], at)
  }

  /** The loop: a failed read costs one retry, a successful one reads the job again (ending
      the loop if it is gone) and processes the batch; no budget left ends the loop. */
  function Poll(job: Option<Build>, outcomes: seq<ReadOutcome>, retries: nat): (Option<Build>, PollEnd)
    decreases |outcomes|
  {
    if retries == 0 then (job, BudgetExhausted)
    else if outcomes == [] then (job, ReadsExhausted)
    else match outcomes[0]
      case ReadFailed(_) => Poll(job, outcomes[1..], retries - 1)
      case ReadOk(batch, at) =>
        if job.None? then (job, StateMissing)
        else
          var (b1, end) := ApplyBatch(job.value, job.value.state.transitions, batch, at);
          if end == BatchStopped then (Some(b1), StatusReported)
          else if end == BatchPanicked then (Some(b1), Panicked)
          else Poll(Some(b1), outcomes[1..], retries)
  }

  /** Number of failed outcomes. */
  function Failures(outcomes: seq<ReadOutcome>): (n: nat)
    ensures n <= |outcomes|
  {
    if outcomes == [] then 0 else (if outcomes[0].ReadFailed? then 1 else 0) + Failures(outcomes[1..])
  }

  /** The history after some updates extends the one before; owner and engine are kept. */
  predicate LogExtends(before: Build, after: Build) {
    && |before.state.transitions| <= |after.state.transitions|
    && after.state.transitions[..|before.state.transitions|] == before.state.transitions
    && after.state.userToken == before.state.userToken
    && after.state.buildEngine == before.state.buildEngine
  }

  /** A batch only appends to the history, keeps the store's invariant, never reopens a
      closed job, and panics only on a closed watcher. */
  lemma {:induction false} ApplyBatchExtendsLog(b: Build, snapshot: seq<StateTransition>, batch: seq<PodStatus>, at: int)
    requires WellFormed(b)
    ensures var (b1, end) := ApplyBatch(b, snapshot, batch, at);
      && LogExtends(b, b1) && WellFormed(b1)
      && (b.watcher.closed ==> b1 == b)
      && (end == BatchPanicked ==> b1.watcher.closed)
    decreases |batch|
  {
    if batch != [] {
      var e := batch[0];
      var seen := Seen(snapshot, e.status);
      if !(!seen && b.watcher.closed) {
        var b1 := if seen then b else Updated(b, e.message, e.status, at);
        if !seen {
          UpdatedIsWellFormed(b, e.message, e.status, at);
        }
        if !StopsPolling(e.status) {
          ApplyBatchExtendsLog(b1, snapshot, batch[1..], at);
          var b2 := ApplyBatch(b1, snapshot, batch[1..], at).0;
          assert b2.state.transitions[..|b.state.transitions|] == b1.state.transitions[..|b.state.transitions|];
        }
      }
    }
  }

  /** Every transition a batch appends goes to a status of the batch that the snapshot
      had not seen, and (when the batch is processed to its end) every status of the batch
      is seen afterwards. */
  lemma {:induction false} ApplyBatchAppliesOnlyUnseen(b: Build, snapshot: seq<StateTransition>, batch: seq<PodStatus>, at: int)
    requires WellFormed(b)
    requires |snapshot| <= |b.state.transitions| && b.state.transitions[..|snapshot|] == snapshot
    ensures var (b1, end) := ApplyBatch(b, snapshot, batch, at);
      && (forall j | |b.state.transitions| <= j < |b1.state.transitions| ::
            !Seen(snapshot, b1.state.transitions[j].to)
            && exists i | 0 <= i < |batch| :: batch[i].status == b1.state.transitions[j].to)
      && (end == BatchDone ==> forall i | 0 <= i < |batch| ::
            Seen(b1.state.transitions, batch[i].status) && !StopsPolling(batch[i].status))
    decreases |batch|
  {
    if batch != [] {
      var e := batch[0];
      var seen := Seen(snapshot, e.status);
      var t := b.state.transitions;
      if !(!seen && b.watcher.closed) {
        var b1 := if seen then b else Updated(b, e.message, e.status, at);
        var t1 := b1.state.transitions;
        if !seen {
          UpdatedIsWellFormed(b, e.message, e.status, at);
          assert t1[|t|].to == e.status;
        }
        assert t1[..|snapshot|] == snapshot by {
          assert t1[..|t|] == t;
        }
        if !StopsPolling(e.status) {
          ApplyBatchAppliesOnlyUnseen(b1, snapshot, batch[1..], at);
          ApplyBatchExtendsLog(b1, snapshot, batch[1..], at);
          var (b2, end) := ApplyBatch(b1, snapshot, batch[1..], at);
          var t2 := b2.state.transitions;
          forall j | |t| <= j < |t2|
            ensures !Seen(snapshot, t2[j].to) && exists i | 0 <= i < |batch| :: batch[i].status == t2[j].to
          {
            if j < |t1| {
              assert t2[j] == t1[j];
              assert batch[0].status == t2[j].to;
            } else {
              var i :| 0 <= i < |batch[1..]| && batch[1..][i].status == t2[j].to;
              assert batch[i + 1].status == t2[j].to;
            }
          }
          if end == BatchDone {
            forall i | 0 <= i < |batch| ensures Seen(t2, batch[i].status) && !StopsPolling(batch[i].status) {
              if i == 0 {
                if seen {
                  var k :| 0 <= k < |snapshot| && (snapshot[k].from == e.status || snapshot[k].to == e.status);
                  assert t2[k] == snapshot[k];
                } else {
                  assert t2[|t|] == t1[|t|];
                }
              } else {
                assert batch[i] == batch[1..][i - 1];
              }
            }
          }
        } else {
          if !seen {
            assert t1[|t|].to == e.status;
          }
        }
      }
    }
  }

  /** Redelivery: once a batch has been processed to its end, reading the same batch
      again changes nothing. */
  lemma {:induction false} RedeliveryIsIdempotent(b: Build, batch: seq<PodStatus>, at: int, at2: int)
    requires WellFormed(b) && ApplyBatch(b, b.state.transitions, batch, at).1 == BatchDone
    ensures var b1 := ApplyBatch(b, b.state.transitions, batch, at).0;
      ApplyBatch(b1, b1.state.transitions, batch, at2) == (b1, BatchDone)
  {
    var b1 := ApplyBatch(b, b.state.transitions, batch, at).0;
    ApplyBatchAppliesOnlyUnseen(b, b.state.transitions, batch, at);
    AllSeenIsNoop(b1, b1.state.transitions, batch, at2);
  }

  /** A batch whose statuses are all seen and none of which stops the loop changes nothing. */
  lemma {:induction false} AllSeenIsNoop(b: Build, snapshot: seq<StateTransition>, batch: seq<PodStatus>, at: int)
    requires forall i | 0 <= i < |batch| :: Seen(snapshot, batch[i].status) && !StopsPolling(batch[i].status)
    ensures ApplyBatch(b, snapshot, batch, at) == (b, BatchDone)
    decreases |batch|
  {
    if batch != [] {
      assert Seen(snapshot, batch[0].status) && !StopsPolling(batch[0].status);
      AllSeenIsNoop(b, snapshot, batch[1..], at);
    }
  }

  /** The loop only appends to the job's history and keeps the store's invariant. */
  lemma {:induction false} PollExtendsLog(b: Build, outcomes: seq<ReadOutcome>, retries: nat)
    requires WellFormed(b)
    ensures var (job, end) := Poll(Some(b), outcomes, retries);
      job.Some? && LogExtends(b, job.value) && WellFormed(job.value)
      && (b.watcher.closed ==> job.value == b)
      && end != StateMissing
    decreases |outcomes|
  {
    if retries != 0 && outcomes != [] {
      match outcomes[0]
      case ReadFailed(_) =>
        PollExtendsLog(b, outcomes[1..], retries - 1);
      case ReadOk(batch, at) =>
        ApplyBatchExtendsLog(b, b.state.transitions, batch, at);
        var (b1, end) := ApplyBatch(b, b.state.transitions, batch, at);
        if end == BatchDone {
          PollExtendsLog(b1, outcomes[1..], retries);
          var b2 := Poll(Some(b1), outcomes[1..], retries).0.value;
          assert b2.state.transitions[..|b.state.transitions|] == b1.state.transitions[..|b.state.transitions|];
        }
    }
  }

  /** The budget is spent only by failed outcomes: the loop gives up for lack of budget only
      after at least `retries` failed outcomes. */
  lemma {:induction false} ExhaustionNeedsFailures(job: Option<Build>, outcomes: seq<ReadOutcome>, retries: nat)
    requires Poll(job, outcomes, retries).1 == BudgetExhausted
    ensures Failures(outcomes) >= retries
    decreases |outcomes|
  {
    if retries != 0 {
      match outcomes[0]
      case ReadFailed(_) =>
        ExhaustionNeedsFailures(job, outcomes[1..], retries - 1);
      case ReadOk(batch, at) =>
        var (b1, end) := ApplyBatch(job.value, job.value.state.transitions, batch, at);
        ExhaustionNeedsFailures(Some(b1), outcomes[1..], retries);
    }
  }

  /** Each failed read costs exactly one retry: `retries` failed outcomes in a row exhaust
      the budget and leave the job untouched. */
  lemma {:induction false} FailuresConsumeBudget(job: Option<Build>, outcomes: seq<ReadOutcome>, retries: nat)
    requires retries <= |outcomes| && forall i | 0 <= i < retries :: outcomes[i].ReadFailed?
    ensures Poll(job, outcomes, retries) == (job, BudgetExhausted)
    decreases retries
  {
    if retries != 0 {
      assert outcomes[0].ReadFailed?;
      FailuresConsumeBudget(job, outcomes[1..], retries - 1);
    }
  }

  /** A job that is gone ends the loop at the first successful read, untouched. */
  lemma {:induction false} MissingJobStopsAtFirstRead(outcomes: seq<ReadOutcome>, retries: nat)
    ensures var (job, end) := Poll(None, outcomes, retries);
      job == None && end in {BudgetExhausted, ReadsExhausted, StateMissing}
      && (end == StateMissing <==> exists i | 0 <= i < |outcomes| :: outcomes[i].ReadOk? && Failures(outcomes[..i]) < retries)
    decreases |outcomes|
  {
    if retries != 0 && outcomes != [] {
      if outcomes[0].ReadFailed? {
        MissingJobStopsAtFirstRead(outcomes[1..], retries - 1);
        var end := Poll(None, outcomes, retries).1;
        if end == StateMissing {
          var i :| 0 <= i < |outcomes[1..]| && outcomes[1..][i].ReadOk? && Failures(outcomes[1..][..i]) < retries - 1;
          assert outcomes[..i + 1][1..] == outcomes[1..][..i];
        } else {
          forall i | 0 <= i < |outcomes| && outcomes[i].ReadOk? ensures Failures(outcomes[..i]) >= retries {
            assert i > 0;
            assert outcomes[..i][1..] == outcomes[1..][..i - 1];
          }
        }
      } else {
        assert Failures(outcomes[..0]) == 0;
      }
    } else if retries == 0 {
    }
  }

  /** As written, a pod reporting SUCCEEDED on an open job records the transition and ends
      the loop, but SUCCEEDED is not the store's terminal SUCCESS: the job stays open and
      keeps its admission slot. */
  lemma SucceededLeavesJobOpen(b: Build, message: string, time: string, at: int, rest: seq<ReadOutcome>, retries: nat)
    requires WellFormed(b) && !b.watcher.closed && retries > 0
    requires !Seen(b.state.transitions, "SUCCEEDED")
    ensures var (job, end) := Poll(Some(b), [ReadOk([PodStatus("SUCCEEDED", message, time)], at)] + rest, retries);
      && end == StatusReported
      && job == Some(Updated(b, message, "SUCCEEDED", at))
      && job.value.state.buildStatus == "SUCCEEDED"
      && !job.value.watcher.closed
  {
  }

  /** A FAILED report on an open job closes it and ends the loop, whatever follows in the batch. */
  lemma FailedClosesJob(b: Build, message: string, time: string, tail: seq<PodStatus>, at: int, rest: seq<ReadOutcome>, retries: nat)
    requires WellFormed(b) && !b.watcher.closed && retries > 0
    requires b.state.buildStatus != StatusFailed
    ensures var (job, end) := Poll(Some(b), [ReadOk([PodStatus(StatusFailed, message, time)] + tail, at)] + rest, retries);
      && end == StatusReported
      && job == Some(Updated(b, message, StatusFailed, at))
      && job.value.watcher.closed
  {
    var batch := [PodStatus(StatusFailed, message, time)] + tail;
    assert batch[0].status == StatusFailed;
    var t := b.state.transitions;
    forall i | 0 <= i < |t| ensures t[i].from != StatusFailed && t[i].to != StatusFailed {
      if i > 0 {
        assert t[i].from == t[i - 1].to;
      }
    }
  }
}
