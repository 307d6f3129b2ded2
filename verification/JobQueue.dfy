/** The lease queue `ai.jobs`: claim, heartbeat, complete, cancel, fail, release and the reaper. Every
    operation is one statement; workers may share a worker id, and only the generation tells claims apart. */
module JobQueue {
  import opened Drafts

  datatype Kind = SENTENCE | TEXT_RETRY | OTHER(name: string)

  datatype Status = QUEUED | RUNNING | SUCCEEDED | FAILED | CANCELLED

  datatype Lease = Lease(owner: string, generation: nat, expires: real)

  /** `lease` is None when owner, generation and lease time are NULL; they are always set together. */
  datatype Job = Job(
    kind: Kind, status: Status, lease: Option<Lease>, attempts: nat, maxAttempts: nat,
    availableAt: real, deadline: Option<real>, priority: int, createdAt: real, lastError: Option<string>)

  /** Rows are identified by their position. `next` is the supply of fresh generation ids. */
  datatype Table = Table(jobs: seq<Job>, next: nat)

  // ----- the statements -----

  predicate Claimable(j: Job, kinds: set<Kind>, now: real) {
    && j.status == QUEUED && j.kind in kinds && j.attempts < j.maxAttempts
    && j.availableAt <= now && (j.deadline.None? || j.deadline.value > now)
  }

  /** `ORDER BY priority DESC, available_at, created_at, id`. */
  predicate Before(jobs: seq<Job>, a: nat, b: nat)
    requires a < |jobs| && b < |jobs|
  {
    var x, y := jobs[a], jobs[b];
    if x.priority != y.priority then x.priority > y.priority
    else if x.availableAt != y.availableAt then x.availableAt < y.availableAt
    else if x.createdAt != y.createdAt then x.createdAt < y.createdAt
    else a < b
  }

  /** `x` has no claim to go before `y`: a higher priority goes first, among equals what has been available for longer,
      then what was created earlier. */
  predicate GoesNoEarlier(x: Job, y: Job) {
    && x.priority <= y.priority
    && (x.priority == y.priority ==> y.availableAt <= x.availableAt)
    && (x.priority == y.priority && y.availableAt == x.availableAt ==> y.createdAt <= x.createdAt)
  }

  /** The queue order is total: of any two rows exactly one goes first, and the order can be followed along. */
  lemma QueueIsALine(jobs: seq<Job>, a: nat, b: nat, c: nat)
    requires a < |jobs| && b < |jobs| && c < |jobs|
    ensures a != b ==> (Before(jobs, a, b) <==> !Before(jobs, b, a))
    ensures Before(jobs, a, b) && Before(jobs, b, c) ==> Before(jobs, a, c)
    ensures Before(jobs, a, b) ==> GoesNoEarlier(jobs[b], jobs[a])
    ensures a != b && GoesNoEarlier(jobs[b], jobs[a]) && GoesNoEarlier(jobs[a], jobs[b]) ==> (Before(jobs, a, b) <==> a < b)
  {}

  function Claimed(j: Job, worker: string, generation: nat, until: real): Job {
    j.(status := RUNNING, lease := Some(Lease(worker, generation, until)), attempts := j.attempts + 1)
  }

  /** A token: what a claim hands to its worker. */
  datatype Token = Token(id: nat, worker: string, generation: nat)

  predicate Owns(t: Table, k: Token, now: real) {
    && k.id < |t.jobs|
    && var j := t.jobs[k.id];
       j.status == RUNNING && j.lease.Some? && j.lease.value.owner == k.worker && j.lease.value.generation == k.generation && j.lease.value.expires > now
  }

  datatype Owned = Heartbeat(leaseS: real) | Complete | Cancel(code: string) | Fail(code: string, retryAfter: Option<real>) | Release

  function FailStatus(j: Job, now: real, retry: real): Status {
    if j.kind == SENTENCE && j.deadline.Some? && j.deadline.value <= now + retry then CANCELLED
    else if j.attempts >= j.maxAttempts then FAILED
    else QUEUED
  }

  function Decremented(n: nat): nat {
    if n == 0 then 0 else n - 1
  }

  /** The effect of an operation on the row it owns. */
  function Effect(j: Job, op: Owned, now: real): Job {
    match op
    case Heartbeat(leaseS) => if j.lease.Some? then j.(lease := Some(j.lease.value.(expires := now + leaseS))) else j
    case Complete => j.(status := SUCCEEDED)
    case Cancel(code) => j.(status := CANCELLED, lastError := Some(code), lease := None)
    case Fail(code, retryAfter) =>
      var retry := if retryAfter.Some? then retryAfter.value else 0.0;
      j.(status := FailStatus(j, now, retry), availableAt := now + retry, lastError := Some(code), lease := None)
    case Release => j.(status := QUEUED, attempts := Decremented(j.attempts), lease := None)
  }

  function Operate(t: Table, k: Token, op: Owned, now: real): Table {
    if Owns(t, k, now) then t.(jobs := t.jobs[k.id := Effect(t.jobs[k.id], op, now)]) else t
  }

  predicate Expired(j: Job, now: real) {
    j.status == RUNNING && j.lease.Some? && j.lease.value.expires < now
  }

  function ReapedStatus(j: Job, now: real): Status {
    if j.kind == TEXT_RETRY then FAILED
    else if j.kind == SENTENCE && (j.deadline.None? || j.deadline.value <= now) then CANCELLED
    else if j.attempts >= j.maxAttempts then FAILED
    else QUEUED
  }

  function Reaped(j: Job, now: real): Job {
    if Expired(j, now) then
      j.(status := ReapedStatus(j, now), lease := None, lastError := if j.lastError.Some? then j.lastError else Some("LEASE_EXPIRED"))
    else j
  }

  function Reap(t: Table, now: real): (r: Table)
    ensures |r.jobs| == |t.jobs| && forall i :: 0 <= i < |r.jobs| ==> r.jobs[i] == Reaped(t.jobs[i], now)
  {
    t.(jobs := seq(|t.jobs|, i requires 0 <= i < |t.jobs| => Reaped(t.jobs[i], now)))
  }

  function ClaimRow(t: Table, id: nat, worker: string, until: real): Table
    requires id < |t.jobs|
  {
    Table(t.jobs[id := Claimed(t.jobs[id], worker, t.next, until)], t.next + 1)
  }

  // ----- runs -----

  /** `EClaim` names the row that was picked: any claimable row when others are locked. */
  datatype Event =
    | EInsert(job: Job)
    | EClaim(id: nat, kinds: set<Kind>, worker: string, now: real, leaseS: real)
    | EOwned(token: Token, op: Owned, now: real)
    | EReap(now: real)

  /** What the backend may insert. */
  predicate Fresh(j: Job) {
    && j.status == QUEUED && j.lease.None? && j.attempts == 0 < j.maxAttempts
    && (j.kind == SENTENCE && j.deadline.Some? ==> j.availableAt < j.deadline.value)
  }

  predicate Possible(t: Table, e: Event) {
    match e
    case EInsert(job) => Fresh(job)
    case EClaim(id, kinds, _, now, _) => id < |t.jobs| && Claimable(t.jobs[id], kinds, now)
    case _ => true
  }

  function After(t: Table, e: Event): Table
    requires Possible(t, e)
  {
    match e
    case EInsert(job) => t.(jobs := t.jobs + [job])
    case EClaim(id, _, worker, now, leaseS) => ClaimRow(t, id, worker, now + leaseS)
    case EOwned(token, op, now) => Operate(t, token, op, now)
    case EReap(now) => Reap(t, now)
  }

  ghost predicate IsRun(trace: seq<Table>, events: seq<Event>) {
    && |trace| == |events| + 1
    && forall k :: 0 <= k < |events| ==> Possible(trace[k], events[k]) && trace[k + 1] == After(trace[k], events[k])
  }

  lemma StepIn(trace: seq<Table>, events: seq<Event>, k: nat)
    requires IsRun(trace, events) && k < |events|
    ensures Possible(trace[k], events[k]) && trace[k + 1] == After(trace[k], events[k])
  {}

  // ----- the invariant -----

  /** Attempts stay within bounds, a running row holds a lease of a generation already handed out, and a
      sentence with a deadline becomes available before it. */
  predicate JobOk(j: Job, next: nat) {
    && j.attempts <= j.maxAttempts
    && (j.status == QUEUED ==> j.attempts < j.maxAttempts && j.lease.None?)
    && (j.status == RUNNING ==> 1 <= j.attempts && j.lease.Some?)
    && (j.lease.Some? ==> j.lease.value.generation < next)
    && (j.kind == SENTENCE && j.deadline.Some? && (j.status == QUEUED || j.status == RUNNING) ==> j.availableAt < j.deadline.value)
  }

  predicate TableOk(t: Table) {
    forall i :: 0 <= i < |t.jobs| ==> JobOk(t.jobs[i], t.next)
  }

  lemma StepKeepsTable(t: Table, e: Event)
    requires TableOk(t) && Possible(t, e)
    ensures TableOk(After(t, e))
  {}

  lemma {:induction false} RunKeepsTable(trace: seq<Table>, events: seq<Event>, k: nat)
    requires IsRun(trace, events) && TableOk(trace[0]) && k < |trace|
    ensures TableOk(trace[k])
  {
    if k > 0 {
      RunKeepsTable(trace, events, k - 1);
      StepIn(trace, events, k - 1);
      StepKeepsTable(trace[k - 1], events[k - 1]);
    }
  }

  // ----- fencing -----

  predicate RunningAs(t: Table, id: nat, g: nat) {
    id < |t.jobs| && t.jobs[id].status == RUNNING && t.jobs[id].lease.Some? && t.jobs[id].lease.value.generation == g
  }

  /** Generation `g` was handed out and no longer runs row `id`. */
  predicate Gone(t: Table, id: nat, g: nat) {
    g < t.next && !RunningAs(t, id, g)
  }

  lemma StepKeepsGone(t: Table, e: Event, id: nat, g: nat)
    requires Possible(t, e) && Gone(t, id, g)
    ensures Gone(After(t, e), id, g)
  {}

  lemma {:induction false} GoneForever(trace: seq<Table>, events: seq<Event>, id: nat, g: nat, i: nat, j: nat)
    requires IsRun(trace, events) && i <= j < |trace| && Gone(trace[i], id, g)
    ensures Gone(trace[j], id, g)
    decreases j
  {
    if i < j {
      GoneForever(trace, events, id, g, i, j - 1);
      StepIn(trace, events, j - 1);
      StepKeepsGone(trace[j - 1], events[j - 1], id, g);
    }
  }

  /** Once a row has left RUNNING for a generation, no operation carrying that generation changes anything,
      whichever worker sends it and however often. */
  lemma StaleTokensChangeNothing(trace: seq<Table>, events: seq<Event>, i: nat, k: nat)
    requires IsRun(trace, events) && i <= k < |events| && events[k].EOwned?
    requires Gone(trace[i], events[k].token.id, events[k].token.generation)
    ensures trace[k + 1] == trace[k]
  {
    GoneForever(trace, events, events[k].token.id, events[k].token.generation, i, k);
    StepIn(trace, events, k);
  }

  predicate Leaves(trace: seq<Table>, id: nat, g: nat, k: nat)
    requires k + 1 < |trace|
  {
    RunningAs(trace[k], id, g) && !RunningAs(trace[k + 1], id, g)
  }

  /** Each claim ends at most once. */
  lemma OneExitPerClaim(trace: seq<Table>, events: seq<Event>, id: nat, g: nat, k: nat, l: nat)
    requires IsRun(trace, events) && TableOk(trace[0]) && k <= l < |events|
    requires Leaves(trace, id, g, k) && Leaves(trace, id, g, l)
    ensures k == l
  {
    RunKeepsTable(trace, events, k);
    StepIn(trace, events, k);
    assert trace[k].next <= trace[k + 1].next;
    if k < l {
      GoneForever(trace, events, id, g, k + 1, l);
    }
  }

  /** Two claims never share a generation, even when the same worker id makes both. */
  lemma ClaimsGetFreshGenerations(trace: seq<Table>, events: seq<Event>, k: nat, l: nat)
    requires IsRun(trace, events) && k < l < |events| && events[k].EClaim? && events[l].EClaim?
    ensures RunningAs(trace[k + 1], events[k].id, trace[k].next) && RunningAs(trace[l + 1], events[l].id, trace[l].next)
    ensures trace[k].next < trace[l].next
  {
    StepIn(trace, events, k);
    StepIn(trace, events, l);
    SupplyGrows(trace, events, k + 1, l);
  }

  lemma {:induction false} SupplyGrows(trace: seq<Table>, events: seq<Event>, i: nat, j: nat)
    requires IsRun(trace, events) && i <= j < |trace|
    ensures trace[i].next <= trace[j].next
    decreases j
  {
    if i < j {
      SupplyGrows(trace, events, i, j - 1);
      StepIn(trace, events, j - 1);
    }
  }

  /** While a lease is alive, nobody but its holder can change the row. */
  lemma LiveLeaseIsExclusive(t: Table, e: Event, id: nat, g: nat, now: real)
    requires Possible(t, e) && RunningAs(t, id, g) && now <= t.jobs[id].lease.value.expires
    requires match e case EReap(at) => at <= now case EOwned(token, _, _) => token.id != id || token.generation != g case _ => true
    ensures After(t, e).jobs[id] == t.jobs[id]
  {}

  // ----- terminal states -----

  predicate Terminal(j: Job) {
    j.status == SUCCEEDED || j.status == FAILED || j.status == CANCELLED
  }

  lemma {:induction false} TerminalForever(trace: seq<Table>, events: seq<Event>, id: nat, i: nat, j: nat)
    requires IsRun(trace, events) && i <= j < |trace| && id < |trace[i].jobs| && Terminal(trace[i].jobs[id])
    ensures id < |trace[j].jobs| && trace[j].jobs[id] == trace[i].jobs[id]
    decreases j
  {
    if i < j {
      TerminalForever(trace, events, id, i, j - 1);
      StepIn(trace, events, j - 1);
    }
  }

  // ----- why a job ends -----

  /** The owner's operation is accepted for row `id`. */
  predicate Accepted(t: Table, e: Event, id: nat) {
    e.EOwned? && e.token.id == id && Owns(t, e.token, e.now)
  }

  function Delay(retryAfter: Option<real>): real {
    if retryAfter.Some? then retryAfter.value else 0.0
  }

  predicate TooLate(j: Job, at: real) {
    j.kind == SENTENCE && j.deadline.Some? && j.deadline.value <= at
  }

  predicate CompletesIt(t: Table, e: Event, id: nat) {
    Accepted(t, e, id) && e.op.Complete?
  }

  /** Cancelled by its owner, failed with the next try past its deadline, or reaped as a sentence without time left. */
  predicate CancelsIt(t: Table, e: Event, id: nat) {
    && id < |t.jobs|
    && var j := t.jobs[id];
       || (Accepted(t, e, id) && e.op.Cancel?)
       || (Accepted(t, e, id) && e.op.Fail? && TooLate(j, e.now + Delay(e.op.retryAfter)))
       || (e.EReap? && Expired(j, e.now) && j.kind == SENTENCE && (j.deadline.None? || TooLate(j, e.now)))
  }

  /** Failed or reaped with its attempts used up and nothing to cancel it for; a text retry is never taken up again. */
  predicate FailsIt(t: Table, e: Event, id: nat) {
    && id < |t.jobs|
    && var j := t.jobs[id];
       || (Accepted(t, e, id) && e.op.Fail? && !TooLate(j, e.now + Delay(e.op.retryAfter)) && j.attempts == j.maxAttempts)
       || (e.EReap? && Expired(j, e.now) && j.kind == TEXT_RETRY)
       || (e.EReap? && Expired(j, e.now) && j.kind != TEXT_RETRY && (j.kind == SENTENCE ==> j.deadline.Some? && !TooLate(j, e.now)) && j.attempts == j.maxAttempts)
  }

  lemma EndsByItsCause(t: Table, e: Event, id: nat)
    requires TableOk(t) && Possible(t, e) && id < |t.jobs| && !Terminal(t.jobs[id])
    ensures var j := After(t, e).jobs[id];
            && (j.status == SUCCEEDED <==> CompletesIt(t, e, id))
            && (j.status == CANCELLED <==> CancelsIt(t, e, id))
            && (j.status == FAILED <==> FailsIt(t, e, id))
  {}

  lemma FinishedHaveNoCause(t: Table, e: Event, id: nat)
    requires id < |t.jobs| && Terminal(t.jobs[id])
    ensures !CompletesIt(t, e, id) && !CancelsIt(t, e, id) && !FailsIt(t, e, id)
  {}

  /** In every run from the empty table: a job has succeeded exactly when its owner's completion was accepted, and is
      cancelled or failed exactly when one of the causes for that occurred. */
  lemma {:induction false} EachEndHasItsCause(trace: seq<Table>, events: seq<Event>, id: nat, k: nat)
    requires IsRun(trace, events) && trace[0] == Table([], 0) && k < |trace| && id < |trace[k].jobs|
    ensures trace[k].jobs[id].status == SUCCEEDED <==> exists j :: 0 <= j < k && CompletesIt(trace[j], events[j], id)
    ensures trace[k].jobs[id].status == CANCELLED <==> exists j :: 0 <= j < k && CancelsIt(trace[j], events[j], id)
    ensures trace[k].jobs[id].status == FAILED <==> exists j :: 0 <= j < k && FailsIt(trace[j], events[j], id)
  {
    hide CompletesIt, CancelsIt, FailsIt, TableOk, After, Possible, Terminal;
    NoRowYet(trace, events, id, k);
    if k > 0 && id < |trace[k - 1].jobs| {
      EachEndHasItsCause(trace, events, id, k - 1);
      EndsAtThisStep(trace, events, id, k - 1);
    }
  }

  /** One step: what was finished stays as it is and has no cause, and what was not is finished by its cause. */
  lemma EndsAtThisStep(trace: seq<Table>, events: seq<Event>, id: nat, k: nat)
    requires IsRun(trace, events) && trace[0] == Table([], 0) && k < |events| && id < |trace[k].jobs| && id < |trace[k + 1].jobs|
    ensures trace[k + 1].jobs[id].status == SUCCEEDED <==> trace[k].jobs[id].status == SUCCEEDED || CompletesIt(trace[k], events[k], id)
    ensures trace[k + 1].jobs[id].status == CANCELLED <==> trace[k].jobs[id].status == CANCELLED || CancelsIt(trace[k], events[k], id)
    ensures trace[k + 1].jobs[id].status == FAILED <==> trace[k].jobs[id].status == FAILED || FailsIt(trace[k], events[k], id)
  {
    hide CompletesIt, CancelsIt, FailsIt, TableOk, After, Possible;
    EmptyTableOk();
    RunKeepsTable(trace, events, k);
    StepIn(trace, events, k);
    if Terminal(trace[k].jobs[id]) {
      FinishedHaveNoCause(trace[k], events[k], id);
      TerminalForever(trace, events, id, k, k + 1);
    } else {
      EndsByItsCause(trace[k], events[k], id);
    }
  }

  /** A row that has only just been inserted is queued, and nothing happened to it before. */
  lemma NoRowYet(trace: seq<Table>, events: seq<Event>, id: nat, k: nat)
    requires IsRun(trace, events) && trace[0] == Table([], 0) && k < |trace| && id < |trace[k].jobs|
    ensures k > 0
    ensures id >= |trace[k - 1].jobs| ==>
              trace[k].jobs[id].status == QUEUED
              && forall j :: 0 <= j < k ==> !CompletesIt(trace[j], events[j], id) && !CancelsIt(trace[j], events[j], id) && !FailsIt(trace[j], events[j], id)
  {
    hide CompletesIt, CancelsIt, FailsIt;
    StepIn(trace, events, k - 1);
    if id >= |trace[k - 1].jobs| {
      NewRowIsQueued(trace[k - 1], events[k - 1], id);
      forall j | 0 <= j < k
        ensures !CompletesIt(trace[j], events[j], id) && !CancelsIt(trace[j], events[j], id) && !FailsIt(trace[j], events[j], id)
      {
        RowsStay(trace, events, j, k - 1);
        NoRowNoCause(trace[j], events[j], id);
      }
    }
  }

  lemma EmptyTableOk()
    ensures TableOk(Table([], 0))
  {}

  lemma NoRowNoCause(t: Table, e: Event, id: nat)
    requires id >= |t.jobs|
    ensures !CompletesIt(t, e, id) && !CancelsIt(t, e, id) && !FailsIt(t, e, id)
  {}

  lemma NewRowIsQueued(t: Table, e: Event, id: nat)
    requires Possible(t, e) && |t.jobs| <= id < |After(t, e).jobs|
    ensures After(t, e).jobs[id].status == QUEUED
  {}

  lemma {:induction false} RowsStay(trace: seq<Table>, events: seq<Event>, i: nat, j: nat)
    requires IsRun(trace, events) && i <= j < |trace|
    ensures |trace[i].jobs| <= |trace[j].jobs|
    decreases j
  {
    if i < j {
      RowsStay(trace, events, i, j - 1);
      StepIn(trace, events, j - 1);
    }
  }

  /** May be claimed by a worker of its kind from the instant `at` on, until its deadline. */
  ghost predicate ClaimableFrom(j: Job, at: real) {
    forall kinds, now :: Claimable(j, kinds, now) <==> j.kind in kinds && at <= now && (j.deadline.Some? ==> now < j.deadline.value)
  }

  /** A failure with attempts left and the next try before the deadline puts the job back for after the delay. */
  lemma FailureIsTriedAgain(t: Table, k: Token, code: string, retryAfter: Option<real>, now: real)
    requires TableOk(t) && Owns(t, k, now)
    requires t.jobs[k.id].attempts < t.jobs[k.id].maxAttempts && !TooLate(t.jobs[k.id], now + Delay(retryAfter))
    ensures var j := Operate(t, k, Fail(code, retryAfter), now).jobs[k.id];
            j.lease.None? && j.attempts == t.jobs[k.id].attempts && j.lastError == Some(code) && ClaimableFrom(j, now + Delay(retryAfter))
  {}

  /** A reaped job with attempts left and time before its deadline, and a released one, can be claimed again at once. */
  lemma TakenBackIsTriedAgain(t: Table, id: nat, now: real)
    requires TableOk(t) && id < |t.jobs| && Expired(t.jobs[id], now) && t.jobs[id].attempts < t.jobs[id].maxAttempts
    requires t.jobs[id].kind != TEXT_RETRY && (t.jobs[id].kind == SENTENCE ==> t.jobs[id].deadline.Some? && now < t.jobs[id].deadline.value)
    ensures var j := Reap(t, now).jobs[id]; j.lease.None? && ClaimableFrom(j, t.jobs[id].availableAt)
  {}

  /** A release hands the claim back: the job is where it was before it. */
  lemma ReleaseUndoesTheClaim(t: Table, id: nat, kinds: set<Kind>, worker: string, now: real, leaseS: real, later: real)
    requires TableOk(t) && id < |t.jobs| && Claimable(t.jobs[id], kinds, now) && later < now + leaseS
    ensures var claimed := ClaimRow(t, id, worker, now + leaseS);
            Operate(claimed, Token(id, worker, t.next), Release, later).jobs == t.jobs
  {}

  /** An accepted heartbeat moves the end of the lease and nothing else, and the claim stays its owner's until then. */
  lemma HeartbeatKeepsTheClaim(t: Table, k: Token, leaseS: real, now: real)
    requires Owns(t, k, now)
    ensures var after := Operate(t, k, Heartbeat(leaseS), now);
            && (forall later :: Owns(after, k, later) <==> later < now + leaseS)
            && after.jobs[k.id].(lease := t.jobs[k.id].lease) == t.jobs[k.id]
            && forall i :: 0 <= i < |t.jobs| && i != k.id ==> after.jobs[i] == t.jobs[i]
  {}

  // ----- progress -----

  /** What is left to do for one job; heartbeats leave it, releases raise it, everything else lowers it. */
  function Measure(j: Job): nat
    requires j.attempts <= j.maxAttempts
  {
    if Terminal(j) then 0 else 2 * (j.maxAttempts - j.attempts) + if j.status == RUNNING then 2 else 1
  }

  lemma StepsLowerTheMeasure(t: Table, e: Event, id: nat)
    requires TableOk(t) && Possible(t, e) && id < |t.jobs| && After(t, e).jobs[id] != t.jobs[id]
    requires e.EOwned? ==> !e.op.Heartbeat? && !e.op.Release?
    ensures id < |After(t, e).jobs| && After(t, e).jobs[id].attempts <= After(t, e).jobs[id].maxAttempts
    ensures Measure(After(t, e).jobs[id]) < Measure(t.jobs[id])
  {
    StepKeepsTable(t, e);
  }

  predicate ClaimsIt(e: Event, id: nat) {
    e.EClaim? && e.id == id
  }

  predicate ReleasesIt(t: Table, e: Event, id: nat) {
    e.EOwned? && e.op.Release? && e.token.id == id && Owns(t, e.token, e.now)
  }

  function Claims(events: seq<Event>, id: nat, k: nat): nat
    requires k <= |events|
  {
    if k == 0 then 0 else Claims(events, id, k - 1) + if ClaimsIt(events[k - 1], id) then 1 else 0
  }

  function Releases(trace: seq<Table>, events: seq<Event>, id: nat, k: nat): nat
    requires k <= |events| < |trace|
  {
    if k == 0 then 0 else Releases(trace, events, id, k - 1) + if ReleasesIt(trace[k - 1], events[k - 1], id) then 1 else 0
  }

  lemma AttemptsMove(t: Table, e: Event, id: nat)
    requires TableOk(t) && Possible(t, e) && id < |t.jobs|
    ensures id < |After(t, e).jobs| && After(t, e).jobs[id].maxAttempts == t.jobs[id].maxAttempts
    ensures After(t, e).jobs[id].attempts + (if ReleasesIt(t, e, id) then 1 else 0) == t.jobs[id].attempts + if ClaimsIt(e, id) then 1 else 0
  {}

  /** A job is claimed at most `max_attempts` times, not counting claims that were handed back: its attempts
      are its claims minus its releases, at every point of every run. */
  lemma {:induction false} ClaimsAreBounded(trace: seq<Table>, events: seq<Event>, id: nat, k: nat)
    requires IsRun(trace, events) && TableOk(trace[0]) && k < |trace|
    requires id < |trace[0].jobs| && trace[0].jobs[id].attempts == 0
    ensures id < |trace[k].jobs| && trace[k].jobs[id].maxAttempts == trace[0].jobs[id].maxAttempts
    ensures Claims(events, id, k) == trace[k].jobs[id].attempts + Releases(trace, events, id, k)
    ensures Claims(events, id, k) <= trace[0].jobs[id].maxAttempts + Releases(trace, events, id, k)
  {
    hide After, Possible, ClaimsIt, ReleasesIt;
    RunKeepsTable(trace, events, k);
    if k > 0 {
      ClaimsAreBounded(trace, events, id, k - 1);
      RunKeepsTable(trace, events, k - 1);
      StepIn(trace, events, k - 1);
      AttemptsMove(trace[k - 1], events[k - 1], id);
    }
  }

  // ----- the table -----

  class Jobs {
    var jobs: seq<Job>
    var next: nat
    const leaseS: real

    function Contents(): Table
      reads this
    {
      Table(jobs, next)
    }

    predicate Valid()
      reads this
    {
      TableOk(Contents())
    }

    constructor (leaseS: real)
      ensures Valid() && Contents() == Table([], 0) && this.leaseS == leaseS
    {
      jobs, next, this.leaseS := [], 0, leaseS;
    }

    /** Picks the first claimable row in the queue order among those no one has locked; None exactly when
        there is none. With nothing locked it is the first of all. */
    method ClaimNext(kinds: set<Kind>, worker: string, locked: set<nat>, now: real) returns (r: Option<Token>)
      requires Valid()
      modifies this
      ensures Valid()
      ensures r.None? ==> Contents() == old(Contents())
      ensures r.None? <==> forall i :: 0 <= i < |old(jobs)| && i !in locked ==> !Claimable(old(jobs)[i], kinds, now)
      ensures r.Some? ==>
        var k := r.value;
        && k == Token(k.id, worker, old(next))
        && k.id < |old(jobs)| && k.id !in locked && Claimable(old(jobs)[k.id], kinds, now)
        && Contents() == ClaimRow(old(Contents()), k.id, worker, now + leaseS) == After(old(Contents()), EClaim(k.id, kinds, worker, now, leaseS))
        && (forall i :: 0 <= i < |old(jobs)| && i !in locked && i != k.id && Claimable(old(jobs)[i], kinds, now) ==> Before(old(jobs), k.id, i))
        && (forall i :: 0 <= i < |old(jobs)| && i !in locked && Claimable(old(jobs)[i], kinds, now) ==> GoesNoEarlier(old(jobs)[i], old(jobs)[k.id]))
    {
      var best: Option<nat> := None;
      for i := 0 to |jobs|
        invariant best.None? <==> forall h :: 0 <= h < i && h !in locked ==> !Claimable(jobs[h], kinds, now)
        invariant best.Some? ==> best.value < i && best.value !in locked && Claimable(jobs[best.value], kinds, now)
        invariant best.Some? ==> forall h :: 0 <= h < i && h !in locked && h != best.value && Claimable(jobs[h], kinds, now) ==> Before(jobs, best.value, h)
      {
        if i !in locked && Claimable(jobs[i], kinds, now) && (best.None? || Before(jobs, i, best.value)) {
          best := Some(i);
        }
      }
      if best.None? {
        return None;
      }
      StepKeepsTable(Contents(), EClaim(best.value, kinds, worker, now, leaseS));
      r := Some(Token(best.value, worker, next));
      jobs := jobs[best.value := Claimed(jobs[best.value], worker, next, now + leaseS)];
      next := next + 1;
    }

    /** Heartbeat, complete, cancel, fail and release share this compare-and-set on the ownership. */
    method Own(k: Token, op: Owned, now: real) returns (done: bool)
      requires Valid()
      modifies this`jobs
      ensures Valid() && done == old(Owns(Contents(), k, now)) && Contents() == Operate(old(Contents()), k, op, now)
    {
      StepKeepsTable(Contents(), EOwned(k, op, now));
      done := Owns(Contents(), k, now);
      if done {
        jobs := jobs[k.id := Effect(jobs[k.id], op, now)];
      }
    }

    method ReapExpired(now: real)
      requires Valid()
      modifies this`jobs
      ensures Valid() && Contents() == Reap(old(Contents()), now)
      ensures forall i :: 0 <= i < |jobs| ==> !Expired(jobs[i], now) && (!Expired(old(jobs)[i], now) ==> jobs[i] == old(jobs)[i])
      ensures forall i :: 0 <= i < |jobs| && Expired(old(jobs)[i], now) ==>
                && jobs[i].lease.None? && jobs[i].attempts == old(jobs)[i].attempts && (jobs[i].status == QUEUED ==> jobs[i].attempts < jobs[i].maxAttempts)
                && jobs[i].lastError == (if old(jobs)[i].lastError.None? then Some("LEASE_EXPIRED") else old(jobs)[i].lastError)
    {
      StepKeepsTable(Contents(), EReap(now));
      jobs := Reap(Contents(), now).jobs;
    }
  }
}
