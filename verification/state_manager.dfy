/** The in-memory job state store (state_manager/localStateManager.go). */
module StateManager {
  import opened Wrappers
  import opened StateTypes

  const ErrJobNotFound := "job doesn't exist"
  const ErrJobIdNotFound := "job_id not found"
  const ErrJobIdRequired := "job_id is required"
  const ErrSecretRequired := "webhookSecret is required"
  const CreatedReason := "Build request successfully submitted, waiting for scheduling"

  /** A job's watcher channel: the snapshots sent to it so far, and whether it is closed. */
  datatype Watcher = Watcher(delivered: seq<State>, closed: bool)

  /** One entry of the job map: the job's state and its watcher. The Go `State` struct
      declares no `Watcher` field, though the store sets, sends on and closes one; the
      model keeps it beside the state. */
  datatype Build = Build(state: State, watcher: Watcher)

  /** The entry CreateState stores. */
  function Created(token: string, engine: string, now: int): (b: Build)
    ensures b.state.buildStatus == StatusPending && b.state.buildEngine == engine
    ensures b.state.userToken == token && b.state.timestamp == now
    ensures b.state.transitions == [StateTransition(StatusProcessing, StatusPending, now, CreatedReason)]
    ensures b.watcher == Watcher([], false)
  {
    Build(State(engine, StatusPending, now, token, [StateTransition(StatusProcessing, StatusPending, now, CreatedReason)]),
          Watcher([], false))
  }

  /** The entry after UpdateState: one transition appended, the new state broadcast,
      the watcher closed on a terminal status. */
  function Updated(b: Build, reason: string, status: BuildStatus, now: int): (r: Build)
  {
    var s := b.state.(buildStatus := status,
                      transitions := b.state.transitions + [StateTransition(b.state.buildStatus, status, now, reason)],
                      timestamp := now);
    Build(s, Watcher(b.watcher.delivered + [s], b.watcher.closed || IsTerminal(status)))
  }

  /** One UpdateState call: the reason and the new status. */
  datatype Update = Update(reason: string, status: BuildStatus)

  /** A job after a sequence of UpdateState calls, all stamped `now`. */
  function ApplyUpdates(b: Build, updates: seq<Update>, now: int): Build
    decreases |updates|
  {
    if updates == [] then b
    else ApplyUpdates(Updated(b, updates[0].reason, updates[0].status, now), updates[1..], now)
  }

  /** The statuses a history moves through, in order. */
  function Targets(transitions: seq<StateTransition>): (r: seq<BuildStatus>)
    ensures |r| == |transitions| && forall i | 0 <= i < |r| :: r[i] == transitions[i].to
  {
    if transitions == [] then [] else [transitions[0].to] + Targets(transitions[1..])
  }

  /** The statuses of a sequence of updates, in order. */
  function Statuses(updates: seq<Update>): seq<BuildStatus> {
    seq(|updates|, i requires 0 <= i < |updates| => updates[i].status)
  }

  /** The snapshot sent for the k-th update of a job. */
  ghost predicate DeliveredAt(b: Build, k: nat)
    requires k < |b.watcher.delivered| && k + 2 <= |b.state.transitions|
  {
    var d := b.watcher.delivered[k];
    && d.transitions == b.state.transitions[..k + 2]
    && d.buildStatus == b.state.transitions[k + 1].to
    && d.userToken == b.state.userToken
    && d.buildEngine == b.state.buildEngine
  }

  /** What holds of every job the store keeps: the history starts PROCESSING -> PENDING,
      each transition starts where the previous one ended, the last one ends at the
      current status, a terminal status can only be the last, the watcher is closed
      exactly when the job is terminal, and every update was broadcast, in order. */
  ghost predicate WellFormed(b: Build) {
    var t := b.state.transitions;
    && |t| >= 1
    && t[0].from == StatusProcessing && t[0].to == StatusPending
    && (forall i :: 0 < i < |t| ==> t[i].from == t[i - 1].to)
    && t[|t| - 1].to == b.state.buildStatus
    && (forall i :: 0 <= i < |t| - 1 ==> !IsTerminal(t[i].to))
    && (b.watcher.closed <==> IsTerminal(b.state.buildStatus))
    && |b.watcher.delivered| == |t| - 1
    && (forall k: nat :: k < |b.watcher.delivered| ==> DeliveredAt(b, k))
  }

  /** The entry of a job id, if any. */
  function Find(builds: map<string, Build>, jobId: string): Option<Build> {
    if jobId in builds then Some(builds[jobId]) else None
  }

  /** Counter of a token, 0 when the token was never seen. */
  function CountOf(counters: map<string, int>, token: string): int {
    if token in counters then counters[token] else 0
  }

  /** Jobs of a token that are not terminal yet. */
  ghost function OpenJobs(builds: map<string, Build>, token: string): set<string> {
    set j | j in builds && builds[j].state.userToken == token && !builds[j].watcher.closed
  }

  /** Admission accounting: every token's counter is the number of its open jobs. */
  ghost predicate Accounted(counters: map<string, int>, builds: map<string, Build>) {
    forall t :: CountOf(counters, t) == |OpenJobs(builds, t)|
  }

  /** Counters after `before` became `after`: decremented once when the job closed. */
  function Released(counters: map<string, int>, before: Build, after: Build): map<string, int> {
    if !before.watcher.closed && after.watcher.closed
    then counters[before.state.userToken := CountOf(counters, before.state.userToken) - 1]
    else counters
  }

  lemma CreatedIsWellFormed(token: string, engine: string, now: int)
    ensures WellFormed(Created(token, engine, now))
  {
  }

  /** An update of an open job appends exactly one transition (from the old status to the
      new one), keeps the earlier history, and keeps the store's invariant. */
  lemma {:induction false} UpdatedIsWellFormed(b: Build, reason: string, status: BuildStatus, now: int)
    requires WellFormed(b) && !b.watcher.closed
    ensures var r := Updated(b, reason, status, now);
      && WellFormed(r)
      && r.state.transitions == b.state.transitions + [StateTransition(b.state.buildStatus, status, now, reason)]
      && r.state.buildStatus == status && r.state.userToken == b.state.userToken
      && (r.watcher.closed <==> IsTerminal(status))
  {
    var r := Updated(b, reason, status, now);
    var t, t' := b.state.transitions, r.state.transitions;
    assert t' == t + [StateTransition(b.state.buildStatus, status, now, reason)];
    assert forall i :: 0 <= i < |t'| - 1 ==> !IsTerminal(t'[i].to) by {
      forall i | 0 <= i < |t'| - 1 ensures !IsTerminal(t'[i].to) {
        if i < |t| - 1 {
          assert t'[i] == t[i];
        } else {
          assert t'[i] == t[|t| - 1];
        }
      }
    }
    forall k: nat | k < |r.watcher.delivered| ensures DeliveredAt(r, k) {
      if k < |b.watcher.delivered| {
        assert DeliveredAt(b, k);
        assert t'[..k + 2] == t[..k + 2];
      } else {
        assert t'[..k + 2] == t';
      }
    }
  }

  /** Updates of an open job of which only the last may be terminal are all accepted: the
      job keeps the store's invariant, its owner and engine, and is closed exactly when the
      last status is terminal. */
  lemma {:induction false} ApplyUpdatesIsWellFormed(b: Build, updates: seq<Update>, now: int)
    requires WellFormed(b) && !b.watcher.closed
    requires forall i | 0 <= i < |updates| - 1 :: !IsTerminal(updates[i].status)
    ensures var r := ApplyUpdates(b, updates, now);
      && WellFormed(r)
      && r.state.userToken == b.state.userToken && r.state.buildEngine == b.state.buildEngine
      && (r.watcher.closed <==> updates != [] && IsTerminal(updates[|updates| - 1].status))
    decreases |updates|
  {
    if updates != [] {
      UpdatedIsWellFormed(b, updates[0].reason, updates[0].status, now);
      if |updates| > 1 {
        ApplyUpdatesIsWellFormed(Updated(b, updates[0].reason, updates[0].status, now), updates[1..], now);
      }
    }
  }

  /** The history grows by one transition per update, to that update's status, in order. */
  lemma {:induction false} ApplyUpdatesTargets(b: Build, updates: seq<Update>, now: int)
    ensures Targets(ApplyUpdates(b, updates, now).state.transitions) == Targets(b.state.transitions) + Statuses(updates)
    decreases |updates|
  {
    if updates != [] {
      var b1 := Updated(b, updates[0].reason, updates[0].status, now);
      ApplyUpdatesTargets(b1, updates[1..], now);
      assert Targets(b1.state.transitions) == Targets(b.state.transitions) + [updates[0].status];
      assert Statuses(updates) == [updates[0].status] + Statuses(updates[1..]);
    }
  }

  /** Applying one more update after a sequence is one more UpdateState. */
  lemma {:induction false} ApplyUpdatesSnoc(b: Build, updates: seq<Update>, u: Update, now: int)
    ensures ApplyUpdates(b, updates + [u], now) == Updated(ApplyUpdates(b, updates, now), u.reason, u.status, now)
    decreases |updates|
  {
    if updates != [] {
      assert (updates + [u])[1..] == updates[1..] + [u];
      ApplyUpdatesSnoc(Updated(b, updates[0].reason, updates[0].status, now), updates[1..], u, now);
    }
  }

  /** Registering a job under a fresh id keeps every counter equal to its open-job count. */
  lemma {:induction false} CreateKeepsAccounting(counters: map<string, int>, builds: map<string, Build>,
                                                jobId: string, token: string, engine: string, now: int)
    requires Accounted(counters, builds) && jobId !in builds
    ensures Accounted(counters[token := CountOf(counters, token) + 1], builds[jobId := Created(token, engine, now)])
  {
    var counters', builds' := counters[token := CountOf(counters, token) + 1], builds[jobId := Created(token, engine, now)];
    forall t ensures CountOf(counters', t) == |OpenJobs(builds', t)| {
      assert CountOf(counters, t) == |OpenJobs(builds, t)|;
      if t == token {
        assert OpenJobs(builds', t) == OpenJobs(builds, t) + {jobId};
      } else {
        assert OpenJobs(builds', t) == OpenJobs(builds, t);
      }
    }
  }

  /** Updating an open job keeps the accounting, the counter dropping by one when it closes. */
  lemma {:induction false} UpdateKeepsAccounting(counters: map<string, int>, builds: map<string, Build>,
                                                jobId: string, reason: string, status: BuildStatus, now: int)
    requires Accounted(counters, builds) && jobId in builds && !builds[jobId].watcher.closed
    ensures var b' := Updated(builds[jobId], reason, status, now);
      Accounted(Released(counters, builds[jobId], b'), builds[jobId := b'])
  {
    var b := builds[jobId];
    var b' := Updated(b, reason, status, now);
    var counters', builds' := Released(counters, b, b'), builds[jobId := b'];
    var owner := b.state.userToken;
    forall t ensures CountOf(counters', t) == |OpenJobs(builds', t)| {
      assert CountOf(counters, t) == |OpenJobs(builds, t)|;
      if t == owner && b'.watcher.closed {
        assert jobId in OpenJobs(builds, t);
        assert OpenJobs(builds', t) == OpenJobs(builds, t) - {jobId};
      } else {
        assert OpenJobs(builds', t) == OpenJobs(builds, t);
      }
    }
  }

  /** Under the accounting invariant no counter is negative, and a token with an open job
      has a positive counter. */
  lemma CountersNonNegative(counters: map<string, int>, builds: map<string, Build>, token: string, jobId: string)
    requires Accounted(counters, builds)
    ensures CountOf(counters, token) >= 0
    ensures jobId in builds && builds[jobId].state.userToken == token && !builds[jobId].watcher.closed
            ==> CountOf(counters, token) >= 1
  {
    assert CountOf(counters, token) == |OpenJobs(builds, token)|;
    if jobId in builds && builds[jobId].state.userToken == token && !builds[jobId].watcher.closed {
      assert jobId in OpenJobs(builds, token);
    }
  }

  /** The Go store. Jobs are values in the map (the store hands out copies only). */
  class LocalStateManager {
    /** Number of open builds per caller token. */
    var userConcurrentBuilds: map<string, int>
    /** Job id to the job's state and watcher. */
    var buildMap: map<string, Build>
    /** Webhook secret to job id. */
    var webhookSecretRef: map<string, string>

    ghost predicate Valid()
      reads this
    {
      forall j {:trigger WellFormed(buildMap[j])} :: j in buildMap ==> WellFormed(buildMap[j])
    }

    /** The admission accounting holds for the current maps. */
    ghost predicate Balanced()
      reads this
    {
      Accounted(userConcurrentBuilds, buildMap)
    }

    /** NewLocalStateManager: three empty maps. */
    constructor ()
      ensures userConcurrentBuilds == map[] && buildMap == map[] && webhookSecretRef == map[]
      ensures Valid() && Balanced()
    {
      userConcurrentBuilds := map[];
      buildMap := map[];
      webhookSecretRef := map[];
      new;
      assert forall t :: OpenJobs(buildMap, t) == {};
    }

    /** Resolves a webhook secret to the job it was attached to. */
    method GetJobIdByWebhookSecretRef(webhookSecret: string) returns (r: Result<string>)
      ensures webhookSecret in webhookSecretRef ==> r == Ok(webhookSecretRef[webhookSecret])
      ensures webhookSecret !in webhookSecretRef ==> r == Err(ErrJobIdNotFound)
    {
      if webhookSecret in webhookSecretRef {
        return Ok(webhookSecretRef[webhookSecret]);
      }
      return Err(ErrJobIdNotFound);
    }

    /** Attaches a job id to a webhook secret; the job id is checked first, then the secret. */
    method AttachJobIdToWebhookSecretRef(whSecret: string, jobId: string) returns (err: Option<string>)
      modifies this`webhookSecretRef
      ensures jobId == "" ==> err == Some(ErrJobIdRequired) && webhookSecretRef == old(webhookSecretRef)
      ensures jobId != "" && whSecret == "" ==> err == Some(ErrSecretRequired) && webhookSecretRef == old(webhookSecretRef)
      ensures jobId != "" && whSecret != "" ==> err == None && webhookSecretRef == old(webhookSecretRef)[whSecret := jobId]
    {
      if jobId == "" {
        return Some(ErrJobIdRequired);
      }
      if whSecret == "" {
        return Some(ErrSecretRequired);
      }
      webhookSecretRef := webhookSecretRef[whSecret := jobId];
      return None;
    }

    /** Registers a job as PENDING with one transition PROCESSING -> PENDING and counts it
        for its token. An entry with the same id is overwritten; no ceiling is checked. */
    method CreateState(jobId: string, token: string, engine: string, now: int) returns (err: Option<string>)
      requires Valid()
      modifies this`userConcurrentBuilds, this`buildMap
      ensures Valid()
      ensures err == None
      ensures buildMap == old(buildMap)[jobId := Created(token, engine, now)]
      ensures userConcurrentBuilds == old(userConcurrentBuilds)[token := CountOf(old(userConcurrentBuilds), token) + 1]
      ensures old(Balanced()) && jobId !in old(buildMap) ==> Balanced()
    {
      ghost var before, jobs := userConcurrentBuilds, buildMap;
      if token !in userConcurrentBuilds {
        userConcurrentBuilds := userConcurrentBuilds[token := 0];
      }
      userConcurrentBuilds := userConcurrentBuilds[token := userConcurrentBuilds[token] + 1];
      buildMap := buildMap[jobId := Build(State(engine, StatusPending, now, token,
                                                 [StateTransition(StatusProcessing, StatusPending, now, CreatedReason)]),
                                           Watcher([], false))];
      CreatedIsWellFormed(token, engine, now);
      if Accounted(before, jobs) && jobId !in jobs {
        CreateKeepsAccounting(before, jobs, jobId, token, engine, now);
      }
      return None;
    }

    /** Number of open builds of a token; 0 for a token never seen. */
    method GetConcurrentBuilds(token: string) returns (n: int)
      ensures n == CountOf(userConcurrentBuilds, token)
      ensures token !in userConcurrentBuilds ==> n == 0
      ensures Balanced() ==> n == |OpenJobs(buildMap, token)|
    {
      if token !in userConcurrentBuilds {
        return 0;
      }
      return userConcurrentBuilds[token];
    }

    /** A copy of a job's state, or "job doesn't exist". */
    method GetState(jobId: string) returns (r: Result<State>)
      ensures jobId in buildMap ==> r == Ok(buildMap[jobId].state)
      ensures jobId !in buildMap ==> r == Err(ErrJobNotFound)
    {
      if jobId !in buildMap {
        return Err(ErrJobNotFound);
      }
      return Ok(buildMap[jobId].state);
    }

    /** Appends a transition from the job's status to `status`, broadcasts the new state and,
        on SUCCESS or FAILED, releases the owner's admission slot and closes the watcher.
        The watcher must be open: sending to a closed channel panics in the source. */
    method UpdateState(jobId: string, reason: string, status: BuildStatus, now: int) returns (err: Option<string>)
      requires Valid()
      requires jobId in buildMap ==> !buildMap[jobId].watcher.closed
      modifies this`userConcurrentBuilds, this`buildMap
      ensures Valid()
      ensures jobId !in old(buildMap) ==>
                err == Some(ErrJobNotFound) && buildMap == old(buildMap) && userConcurrentBuilds == old(userConcurrentBuilds)
      ensures jobId in old(buildMap) ==>
                && err == None
                && buildMap == old(buildMap)[jobId := Updated(old(buildMap)[jobId], reason, status, now)]
                && userConcurrentBuilds == Released(old(userConcurrentBuilds), old(buildMap)[jobId], buildMap[jobId])
      ensures old(Balanced()) ==> Balanced()
    {
      if jobId !in buildMap {
        return Some(ErrJobNotFound);
      }
      ghost var before, jobs := userConcurrentBuilds, buildMap;
      var oldState := buildMap[jobId].state;
      var newTransition := StateTransition(oldState.buildStatus, status, now, reason);
      var b := buildMap[jobId];
      b := b.(state := b.state.(buildStatus := status));
      b := b.(state := b.state.(transitions := b.state.transitions + [newTransition]));
      b := b.(state := b.state.(timestamp := now));
      // notify the watcher
      b := b.(watcher := b.watcher.(delivered := b.watcher.delivered + [b.state]));
      if status == StatusSuccess || status == StatusFailed {
        userConcurrentBuilds := userConcurrentBuilds[oldState.userToken := CountOf(userConcurrentBuilds, oldState.userToken) - 1];
        b := b.(watcher := b.watcher.(closed := true));
      }
      buildMap := buildMap[jobId := b];
      assert b == Updated(jobs[jobId], reason, status, now);
      UpdatedIsWellFormed(jobs[jobId], reason, status, now);
      if Accounted(before, jobs) {
        UpdateKeepsAccounting(before, jobs, jobId, reason, status, now);
      }
      return None;
    }
  }
}
