/** One model call through the gateway (`LLMGateway.scoped_call`) once its money is reserved: at most one
    retry, cancellation at every await, an epoch check before the retry, and the closing of the ledger row. */
module Gateway {
  import opened Drafts
  import opened Budget
  import L = CallLedger

  /** What one inner call does within its timeout. `Breaks` is any exception that is no `LLMError`. */
  datatype Inner =
    | Reply(cost: L.Cost)
    | Raises(kind: ErrorKind, retryAfter: Option<real>, hasUsage: bool, billed: Option<L.Cost>)
    | Breaks
    | CancelledInCall

  datatype Nap = Slept | CancelledAsleep
  datatype Check = Current | StaleScopes | CheckBroken | CancelledInCheck

  /** The outside world of one call. `elapsed` is how long attempt `n` would take if nobody stopped it. */
  datatype World = World(inner: nat -> Inner, elapsed: nat -> real, nap: Nap, check: Check, cancelledInClose: bool)

  ghost predicate ForwardInTime(w: World) {
    forall n :: w.elapsed(n) >= 0.0
  }

  /** `expires` is None for calls without a deadline. */
  datatype Scope = Scope(expires: Option<real>, reserve: real, timeout: real)

  datatype Closing = ToSettle(cost: L.Cost) | ToFail(kind: ErrorKind, hasUsage: bool, billed: Option<L.Cost>) | ToUnknown

  datatype Exit = Returned(cost: L.Cost) | Raised(kind: ErrorKind) | EpochChanged | Aborted | StatusError

  datatype Attempt = Attempt(start: real, limit: real, end: real)

  datatype Trace = Trace(exit: Exit, closings: seq<Closing>, attempts: seq<Attempt>, end: real)

  // ----- one attempt -----

  /** What the caller sees of an attempt. */
  datatype Seen = Answer(cost: L.Cost) | Error(kind: ErrorKind, retryAfter: Option<real>, hasUsage: bool, billed: Option<L.Cost>) | Cut

  /** The wait for the inner call is cut at `limit`. */
  function Duration(w: World, n: nat, limit: real): real {
    if w.elapsed(n) > limit then Max(limit, 0.0) else w.elapsed(n)
  }

  /** A call that outlasts its limit is a timeout, any foreign exception a transport error. */
  function Look(w: World, n: nat, limit: real): Seen {
    if w.elapsed(n) > limit then Error(TIMEOUT, None, false, None)
    else
      match w.inner(n)
      case Reply(cost) => Answer(cost)
      case Raises(kind, retryAfter, hasUsage, billed) => Error(kind, retryAfter, hasUsage, billed)
      case Breaks => Error(TRANSPORT, None, false, None)
      case CancelledInCall => Cut
  }

  function Left(s: Scope, now: real): Option<real> {
    if s.expires.None? then None else Some(Remaining(s.expires.value, now))
  }

  /** Time for the retry after waiting `wait`. */
  function RetryLimit(s: Scope, now: real, wait: real): real {
    match Left(s, now)
    case None => s.timeout
    case Some(left) => Min(s.timeout, left - s.reserve - wait)
  }

  /** The wait before the retry; None when there is none. */
  function RetryWait(s: Scope, now: real, n: nat, kind: ErrorKind, retryAfter: Option<real>): (r: Option<real>)
    ensures r.Some? ==> n == 1 && r.value >= 0.0 && (kind == RATE_LIMIT || kind == SERVER) && RetryLimit(s, now, r.value) > 0.0
  {
    var wait := Backoff(kind, n, Left(s, now), retryAfter, s.reserve);
    if wait.Some? && RetryLimit(s, now, wait.value) > 0.0 then wait else None
  }

  function ClosingFor(kind: ErrorKind, hasUsage: bool, billed: Option<L.Cost>): Option<Closing> {
    match StatusOf(kind)
    case None => None
    case Some(UNKNOWN) => Some(ToUnknown)
    case Some(FAILED) => Some(ToFail(kind, hasUsage, billed))
  }

  /** How one attempt ends: the call is over, or it is made again. */
  datatype Step = Over(exit: Exit, closings: seq<Closing>, at: real) | Again(limit: real, at: real)

  /** Giving up on an error: the row is closed by its kind, unless the kind has no ledger status at all. */
  function GiveUp(w: World, e: Seen, stale: bool, now: real): Step
    requires e.Error?
  {
    match ClosingFor(e.kind, e.hasUsage, e.billed)
    case None => Over(StatusError, [], now)
    case Some(c) => Over(if w.cancelledInClose then Aborted else if stale then EpochChanged else Raised(e.kind), [c], now)
  }

  /** After an error that may be retried: sleep, look at the epochs, then try again or give up. */
  function Retry(w: World, s: Scope, e: Seen, now: real, wait: real): Step
    requires e.Error?
  {
    if w.nap.CancelledAsleep? then Over(Aborted, [ToUnknown], now)
    else
      match w.check
      case CancelledInCheck => Over(Aborted, [ToUnknown], now + wait)
      case CheckBroken => GiveUp(w, e, false, now + wait)
      case StaleScopes => GiveUp(w, e, true, now + wait)
      case Current => Again(RetryLimit(s, now, wait), now + wait)
  }

  function Try(w: World, s: Scope, n: nat, limit: real, start: real): (r: Step)
    ensures r.Again? ==> n == 1
  {
    var now := start + Duration(w, n, limit);
    var seen := Look(w, n, limit);
    match seen
    case Cut => Over(Aborted, [ToUnknown], now)
    case Answer(cost) => Over(if w.cancelledInClose then Aborted else Returned(cost), [ToSettle(cost)], now)
    case Error(kind, retryAfter, _, _) =>
      var wait := RetryWait(s, now, n, kind, retryAfter);
      if wait.None? then GiveUp(w, seen, false, now) else Retry(w, s, seen, now, wait.value)
  }

  // ----- the whole call -----

  function From(w: World, s: Scope, n: nat, limit: real, start: real): Trace
    decreases if n == 1 then 1 else 0
  {
    var a := Attempt(start, limit, start + Duration(w, n, limit));
    match Try(w, s, n, limit, start)
    case Over(exit, closings, end) => Trace(exit, closings, [a], end)
    case Again(nextLimit, later) =>
      var rest := From(w, s, n + 1, nextLimit, later);
      rest.(attempts := [a] + rest.attempts)
  }

  function Call(w: World, s: Scope, start: real): Trace {
    From(w, s, 1, s.timeout, start)
  }

  /** One turn of the loop. */
  method TryOnce(w: World, s: Scope, n: nat, limit: real, start: real) returns (step: Step)
    ensures step == Try(w, s, n, limit, start)
  {
    hide GiveUp, RetryWait, ClosingFor, RetryLimit, Duration, Look;
    var end := start + Duration(w, n, limit);
    var seen := Look(w, n, limit);
    match seen {
      case Cut => step := Over(Aborted, [ToUnknown], end);
      case Answer(cost) => step := Over(if w.cancelledInClose then Aborted else Returned(cost), [ToSettle(cost)], end);
      case Error(kind, retryAfter, _, _) =>
        var wait := RetryWait(s, end, n, kind, retryAfter);
        if wait.None? {
          step := GiveUp(w, seen, false, end);
        } else if w.nap.CancelledAsleep? {
          step := Over(Aborted, [ToUnknown], end);
        } else {
          match w.check {
            case CancelledInCheck => step := Over(Aborted, [ToUnknown], end + wait.value);
            case CheckBroken => step := GiveUp(w, seen, false, end + wait.value);
            case StaleScopes => step := GiveUp(w, seen, true, end + wait.value);
            case Current => step := Again(RetryLimit(s, end, wait.value), end + wait.value);
          }
        }
    }
  }

  function Prefixed(before: seq<Attempt>, t: Trace): Trace {
    t.(attempts := before + t.attempts)
  }

  /** One turn of the specification behind earlier attempts. */
  lemma Unfolded(w: World, s: Scope, n: nat, limit: real, start: real, before: seq<Attempt>)
    ensures var attempts := before + [Attempt(start, limit, start + Duration(w, n, limit))];
            Prefixed(before, From(w, s, n, limit, start)) ==
            match Try(w, s, n, limit, start)
            case Over(exit, closings, end) => Trace(exit, closings, attempts, end)
            case Again(nextLimit, later) => Prefixed(attempts, From(w, s, n + 1, nextLimit, later))
  {
    hide Try, Duration;
    var a := Attempt(start, limit, start + Duration(w, n, limit));
    var step := Try(w, s, n, limit, start);
    if step.Again? {
      var rest := From(w, s, n + 1, step.limit, step.at).attempts;
      assert before + ([a] + rest) == (before + [a]) + rest;
    }
  }

  lemma NothingBefore(t: Trace)
    ensures Prefixed([], t) == t
  {}

  /** The loop itself. */
  method ScopedCall(w: World, s: Scope, start: real) returns (t: Trace)
    ensures t == Call(w, s, start)
  {
    hide Try, From, Duration, Prefixed;
    var n, limit, now := 1, s.timeout, start;
    var before: seq<Attempt> := [];
    NothingBefore(From(w, s, n, limit, now));
    while true
      invariant 1 <= n <= 2
      invariant Call(w, s, start) == Prefixed(before, From(w, s, n, limit, now))
      decreases 2 - n
    {
      Unfolded(w, s, n, limit, now, before);
      var attempts := before + [Attempt(now, limit, now + Duration(w, n, limit))];
      var step := TryOnce(w, s, n, limit, now);
      if step.Over? {
        return Trace(step.exit, step.closings, attempts, step.at);
      }
      n, limit, now, before := n + 1, step.limit, step.at, attempts;
    }
  }

  // ----- closing the ledger row -----

  /** What the last attempt ended in. */
  function LastSeen(w: World, t: Trace): Seen
    requires t.attempts != []
  {
    Look(w, |t.attempts|, t.attempts[|t.attempts| - 1].limit)
  }

  /** The last attempt ended in a kind that is raised before a call starts. */
  predicate EndsUnledgered(w: World, t: Trace) {
    t.attempts != [] && LastSeen(w, t).Error? && NoLedger(LastSeen(w, t).kind)
  }

  function ClosingOf(e: Seen): Option<Closing> {
    match e
    case Answer(cost) => Some(ToSettle(cost))
    case Error(kind, _, hasUsage, billed) => ClosingFor(kind, hasUsage, billed)
    case Cut => Some(ToUnknown)
  }

  /** The closing fits the exit: a reply is settled at its cost, an error by its kind, an interrupted call is
      unknown; an interruption during the closing itself does not undo it. */
  predicate Fits(w: World, seen: Seen, exit: Exit, closings: seq<Closing>) {
    match exit
    case Returned(cost) => seen == Answer(cost) && closings == [ToSettle(cost)]
    case Raised(kind) => seen.Error? && seen.kind == kind && |closings| == 1 && ClosingOf(seen) == Some(closings[0])
    case EpochChanged => seen.Error? && w.check == StaleScopes && w.nap == Slept && |closings| == 1 && ClosingOf(seen) == Some(closings[0])
    case Aborted => closings == [ToUnknown] || (w.cancelledInClose && |closings| == 1 && ClosingOf(seen) == Some(closings[0]))
    case StatusError => seen.Error? && NoLedger(seen.kind) && closings == []
  }

  lemma TryFits(w: World, s: Scope, n: nat, limit: real, start: real)
    ensures var step := Try(w, s, n, limit, start);
            step.Over? ==> Fits(w, Look(w, n, limit), step.exit, step.closings)
                           && (step.exit == StatusError <==> Look(w, n, limit).Error? && NoLedger(Look(w, n, limit).kind))
  {
    hide RetryWait, Look, Duration;
  }

  /** A second attempt follows only an error of the two kinds that are tried again. */
  lemma RetriesOnlyTheRetryable(w: World, s: Scope, n: nat, limit: real, start: real)
    ensures Try(w, s, n, limit, start).Again? ==>
              n == 1 && Look(w, n, limit).Error? && (Look(w, n, limit).kind == RATE_LIMIT || Look(w, n, limit).kind == SERVER)
  {
    hide Look, Duration, Backoff;
  }

  /** Every call makes one or two attempts and asks for exactly one closing, the one its exit demands, unless the
      inner model raises one of the two kinds without a ledger status: then, and only then, it asks for none. */
  lemma ClosesOnceUnlessUnledgered(w: World, s: Scope, start: real)
    ensures var t := Call(w, s, start);
            && 1 <= |t.attempts| <= 2
            && |t.closings| == (if EndsUnledgered(w, t) then 0 else 1)
            && (t.exit == StatusError <==> EndsUnledgered(w, t))
            && Fits(w, LastSeen(w, t), t.exit, t.closings)
            && (|t.attempts| == 2 ==> Look(w, 1, s.timeout).Error? && (Look(w, 1, s.timeout).kind == RATE_LIMIT || Look(w, 1, s.timeout).kind == SERVER))
  {
    hide Try, Look, Duration, ClosingOf;
    TryFits(w, s, 1, s.timeout, start);
    RetriesOnlyTheRetryable(w, s, 1, s.timeout, start);
    var step := Try(w, s, 1, s.timeout, start);
    if step.Again? {
      TryFits(w, s, 2, step.limit, step.at);
    }
  }

  /** And one that raises DEGRADED at once does. */
  lemma DegradedInsideLeavesTheRowOpen(w: World, s: Scope, start: real)
    requires w.inner(1) == Raises(DEGRADED, None, false, None) && w.elapsed(1) <= s.timeout
    ensures Call(w, s, start).closings == [] && Call(w, s, start).exit == StatusError
  {}

  // ----- which exit a call takes -----

  /** The error is of a kind that is tried again, and the wait the vendor asks for leaves time for another attempt. */
  predicate MayRetry(s: Scope, e: Seen, now: real) {
    && e.Error? && (e.kind == RATE_LIMIT || e.kind == SERVER) && s.timeout > 0.0
    && (s.expires.Some? ==> AskedFor(e.retryAfter) < Remaining(s.expires.value, now) - s.reserve)
  }

  /** The call was cancelled while it waited for its retry or looked at the epochs. */
  predicate CutBeforeRetry(w: World) {
    w.nap.CancelledAsleep? || w.check.CancelledInCheck?
  }

  lemma RetryWaitIff(s: Scope, now: real, n: nat, e: Seen)
    requires e.Error?
    ensures var wait := RetryWait(s, now, n, e.kind, e.retryAfter);
            (wait.Some? <==> n == 1 && MayRetry(s, e, now)) && (wait.Some? ==> wait.value == AskedFor(e.retryAfter))
  {}

  /** A second attempt is made exactly when the first may be retried, the wait is not interrupted and the epochs are
      still current; it begins after the wait, with the time that is left before the reserve. */
  lemma SecondAttemptIff(w: World, s: Scope, start: real)
    ensures var t, e, end := Call(w, s, start), Look(w, 1, s.timeout), start + Duration(w, 1, s.timeout);
            && (|t.attempts| == 2 <==> MayRetry(s, e, end) && w.nap.Slept? && w.check.Current?)
            && (|t.attempts| == 2 ==>
                  && t.attempts[1].start == end + AskedFor(e.retryAfter)
                  && t.attempts[1].limit <= s.timeout
                  && (s.expires.None? ==> t.attempts[1].limit == s.timeout)
                  && (s.expires.Some? ==>
                        var left := Remaining(s.expires.value, end) - s.reserve - AskedFor(e.retryAfter);
                        t.attempts[1].limit <= left && (t.attempts[1].limit == s.timeout || t.attempts[1].limit == left)))
  {
    hide Duration, Look, RetryWait, ClosingFor, Backoff;
    var e, end := Look(w, 1, s.timeout), start + Duration(w, 1, s.timeout);
    var step := Try(w, s, 1, s.timeout, start);
    if e.Error? {
      RetryWaitIff(s, end, 1, e);
    }
    if step.Again? {
      assert Try(w, s, 2, step.limit, step.at).Over?;
    }
  }

  /** The exit, read off what the last attempt ended in and what happened around it. */
  function ExitFor(w: World, s: Scope, t: Trace): Exit
    requires t.attempts != []
  {
    var seen := LastSeen(w, t);
    var retrying := |t.attempts| == 1 && MayRetry(s, seen, t.attempts[0].end);
    if EndsUnledgered(w, t) then StatusError
    else if seen.Cut? || w.cancelledInClose || (retrying && CutBeforeRetry(w)) then Aborted
    else if seen.Answer? then Returned(seen.cost)
    else if retrying && w.check.StaleScopes? then EpochChanged
    else Raised(seen.kind)
  }

  lemma StepExit(w: World, s: Scope, n: nat, limit: real, start: real)
    requires 1 <= n <= 2
    ensures var step, a := Try(w, s, n, limit, start), Attempt(start, limit, start + Duration(w, n, limit));
            var seen := Look(w, n, limit);
            var retrying := n == 1 && MayRetry(s, seen, a.end);
            step.Over? ==>
              step.exit == if seen.Error? && NoLedger(seen.kind) then StatusError
                           else if seen.Cut? || w.cancelledInClose || (retrying && CutBeforeRetry(w)) then Aborted
                           else if seen.Answer? then Returned(seen.cost)
                           else if retrying && w.check.StaleScopes? then EpochChanged
                           else Raised(seen.kind)
  {
    hide Duration, Look, RetryWait, Backoff;
    var seen := Look(w, n, limit);
    if seen.Error? {
      RetryWaitIff(s, start + Duration(w, n, limit), n, seen);
      RetryableIsLedgered(s, seen, start + Duration(w, n, limit));
    }
  }

  lemma RetryableIsLedgered(s: Scope, e: Seen, now: real)
    ensures MayRetry(s, e, now) ==> !NoLedger(e.kind)
  {}

  /** In particular a call ends with EpochChanged exactly when its only attempt could be retried, the wait went through,
      the epochs had moved, and nothing interrupted the closing. */
  lemma ExitIsToldByTheWorld(w: World, s: Scope, start: real)
    ensures var t := Call(w, s, start); t.attempts != [] && t.exit == ExitFor(w, s, t)
  {
    hide Try, Look, Duration, MayRetry;
    StepExit(w, s, 1, s.timeout, start);
    var step := Try(w, s, 1, s.timeout, start);
    if step.Again? {
      StepExit(w, s, 2, step.limit, step.at);
    }
  }

  /** A call that outlasts its time or breaks is over at once, and whether it will be billed is unknown. */
  lemma BrokenCallIsUnknown(w: World, s: Scope, start: real)
    requires w.elapsed(1) > s.timeout || w.inner(1).Breaks?
    ensures var t := Call(w, s, start);
            && t.closings == [ToUnknown]
            && t.exit == (if w.cancelledInClose then Aborted else Raised(if w.elapsed(1) > s.timeout then TIMEOUT else TRANSPORT))
            && t.end == start + (if w.elapsed(1) <= s.timeout then w.elapsed(1) else if s.timeout < 0.0 then 0.0 else s.timeout)
  {}

  /** An answer in time is passed on at its cost, and an error of another kind as it is; both end the call. */
  lemma AnswerIsPassedOn(w: World, s: Scope, start: real)
    requires w.elapsed(1) <= s.timeout && !w.cancelledInClose
    ensures var t := Call(w, s, start);
            match w.inner(1)
            case Reply(cost) => t == Trace(Returned(cost), [ToSettle(cost)], t.attempts, start + w.elapsed(1))
            case CancelledInCall => t == Trace(Aborted, [ToUnknown], t.attempts, start + w.elapsed(1))
            case Raises(kind, _, hasUsage, billed) =>
              && (kind in {REFUSAL, SCHEMA, PARSE, AUTH} ==> t == Trace(Raised(kind), [ToFail(kind, hasUsage, billed)], t.attempts, start + w.elapsed(1)))
              && (kind in {TIMEOUT, TRANSPORT} ==> t == Trace(Raised(kind), [ToUnknown], t.attempts, start + w.elapsed(1)))
              && (kind in {DEGRADED, BUDGET} ==> t == Trace(StatusError, [], t.attempts, start + w.elapsed(1)))
              && (kind in {RATE_LIMIT, SERVER} && t.exit.Raised? && |t.attempts| == 1 ==> t.exit == Raised(kind) && t.closings == [ToFail(kind, hasUsage, billed)])
            case Breaks => true
  {}

  // ----- the closing, seen from the ledger -----

  function EventOf(c: Closing, id: nat): L.Event {
    match c
    case ToSettle(cost) => L.EClose(id, L.COMPLETE, Some(cost), false)
    case ToFail(_, hasUsage, billed) => L.EClose(id, L.FAILED, billed, !hasUsage && billed.None?)
    case ToUnknown => L.EUnknown(id)
  }

  /** The ledger takes the closing: its cost can be turned into money. */
  predicate Payable(c: Closing) {
    match c
    case ToSettle(cost) => L.Resolve(Some(cost)).Some?
    case ToFail(_, _, billed) => L.Resolve(billed).Some?
    case ToUnknown => true
  }

  /** After its closing the row of a call is no longer open, whatever sweepers did in the meantime; it stays
      open exactly when the reply came with negative ticks. */
  lemma RowEndsClosed(b: L.Books, id: nat, c: Closing)
    requires id < |b.rows|
    ensures L.Possible(b, EventOf(c, id))
    ensures L.Open(L.After(b, EventOf(c, id)).rows[id]) <==> L.Open(b.rows[id]) && !Payable(c)
  {}

  /** The books once the call is over: `b` are those its closing meets, if it asks for one. */
  function Booked(b: L.Books, id: nat, t: Trace): L.Books
    requires id < |b.rows|
  {
    if t.closings == [] then b else L.After(b, EventOf(t.closings[0], id))
  }

  /** The call asks for no closing, or for one the ledger cannot price. */
  predicate StaysOpen(w: World, t: Trace) {
    EndsUnledgered(w, t) || (t.closings != [] && !Payable(t.closings[0]))
  }

  function StatusAfter(kind: ErrorKind): L.Status
    requires !NoLedger(kind)
  {
    if StatusOf(kind) == Some(UNKNOWN) then L.UNKNOWN else L.FAILED
  }

  /** What the exit makes of the row. */
  ghost predicate EndsAs(w: World, t: Trace, was: L.Row, row: L.Row)
    requires t.attempts != []
  {
    match t.exit
    case Returned(cost) => L.Resolve(Some(cost)).Some? && row == was.(status := L.COMPLETE, actual := L.Resolve(Some(cost)).value)
    case Raised(kind) => !NoLedger(kind) && row.status == StatusAfter(kind)
    case EpochChanged => LastSeen(w, t).Error? && !NoLedger(LastSeen(w, t).kind) && row.status == StatusAfter(LastSeen(w, t).kind)
    case Aborted =>
      || row == was.(status := L.UNKNOWN)
      || (w.cancelledInClose && (LastSeen(w, t).Answer? ==> row.status == L.COMPLETE)
          && (LastSeen(w, t).Error? ==> !NoLedger(LastSeen(w, t).kind) && row.status == StatusAfter(LastSeen(w, t).kind)))
    case StatusError => row == was
  }

  /** The row of a call that is open when its closing arrives: it stays open exactly after an error without a ledger
      status or for a cost that cannot be priced, and otherwise ends as the exit demands: complete after a reply,
      failed or unknown by the kind of the error, unknown after an interruption. A row a sweeper took is left alone. */
  lemma CallClosesItsRow(w: World, s: Scope, start: real, b: L.Books, id: nat)
    requires id < |b.rows|
    ensures var t := Call(w, s, start);
            && t.attempts != [] && |Booked(b, id, t).rows| == |b.rows|
            && var row := Booked(b, id, t).rows[id];
               && (L.Open(row) <==> L.Open(b.rows[id]) && StaysOpen(w, t))
               && (L.Open(b.rows[id]) && !StaysOpen(w, t) ==> EndsAs(w, t, b.rows[id], row))
               && (!L.Open(b.rows[id]) ==> row == b.rows[id])
  {
    hide Call, Look;
    ClosesOnceUnlessUnledgered(w, s, start);
    var t := Call(w, s, start);
    if t.closings != [] {
      RowEndsClosed(b, id, t.closings[0]);
    }
  }

  /** No money moves: nothing is charged and every estimate stays where it is. */
  predicate NoMoneyMoves(b: L.Books, after: L.Books) {
    after.budgets == b.budgets && after.history == b.history
  }

  /** The charge for a reply or an error: its known cost, its estimate when that is unknown, nothing without any
      response; and for an error of unclear billing nothing yet. */
  ghost predicate ChargedAs(b: L.Books, after: L.Books, id: nat, seen: Seen)
    requires id < |b.rows|
  {
    match seen
    case Answer(cost) =>
      && (forall u :: L.Costs(Some(cost), u) ==> L.ChargedFor(b, after, id, u))
      && (L.UnknownCost(Some(cost)) ==> L.ChargedFor(b, after, id, b.rows[id].spec.est))
    case Error(kind, _, hasUsage, billed) =>
      && (kind in {TIMEOUT, TRANSPORT, DEGRADED, BUDGET} ==> NoMoneyMoves(b, after))
      && (kind in {RATE_LIMIT, SERVER, REFUSAL, SCHEMA, PARSE, AUTH} ==>
            && (forall u :: L.Costs(billed, u) ==> L.ChargedFor(b, after, id, u))
            && (billed.None? && !hasUsage ==> L.ChargedFor(b, after, id, 0))
            && (L.UnknownCost(billed) && (billed.Some? || hasUsage) ==> L.ChargedFor(b, after, id, b.rows[id].spec.est)))
    case Cut => NoMoneyMoves(b, after)
  }

  lemma ClosingMovesMoney(b: L.Books, id: nat, seen: Seen)
    requires id < |b.rows| && L.Open(b.rows[id])
    ensures ChargedAs(b, if ClosingOf(seen).None? then b else L.After(b, EventOf(ClosingOf(seen).value, id)), id, seen)
  {
    hide L.CloseIn, L.ChargedFor, L.Costs;
    match seen {
      case Answer(cost) => L.ClosingCharges(b, id, L.COMPLETE, Some(cost), false);
      case Error(_, _, hasUsage, billed) => L.ClosingCharges(b, id, L.FAILED, billed, !hasUsage && billed.None?);
      case Cut =>
    }
  }

  /** What a call whose row is open when its closing arrives is charged: by what its last attempt ended in, unless it
      was interrupted before its closing began; then nothing is charged and the estimate stays held. */
  lemma CallIsCharged(w: World, s: Scope, start: real, b: L.Books, id: nat)
    requires id < |b.rows| && L.Open(b.rows[id])
    ensures var t := Call(w, s, start);
            && t.attempts != []
            && (ChargedAs(b, Booked(b, id, t), id, LastSeen(w, t)) || (t.exit == Aborted && NoMoneyMoves(b, Booked(b, id, t))))
  {
    hide Call, Look, ChargedAs, L.CloseIn;
    ClosesOnceUnlessUnledgered(w, s, start);
    var t := Call(w, s, start);
    ClosingMovesMoney(b, id, LastSeen(w, t));
  }

  /** An answer after which the row is closed: a priced reply, or an error with a ledger status and a priced bill. */
  predicate Closable(i: Inner) {
    match i
    case Reply(cost) => L.Resolve(Some(cost)).Some?
    case Raises(kind, _, _, billed) => !NoLedger(kind) && (StatusOf(kind) == Some(FAILED) ==> L.Resolve(billed).Some?)
    case _ => true
  }

  predicate Retryable(i: Inner) {
    i.Raises? && (i.kind == RATE_LIMIT || i.kind == SERVER)
  }

  /** A model that never leaves an open row open, however its calls are timed and interrupted. */
  ghost predicate AlwaysCloses(inner: nat -> Inner) {
    forall w: World, s: Scope, start: real :: w.inner == inner ==> !StaysOpen(w, Call(w, s, start))
  }

  lemma ClosableSeen(w: World, n: nat, limit: real)
    requires Closable(w.inner(n))
    ensures var seen := Look(w, n, limit);
            && !(seen.Error? && NoLedger(seen.kind))
            && (ClosingOf(seen).Some? ==> Payable(ClosingOf(seen).value))
  {}

  /** Exactly the models whose first answer is closable, and whose second is if the first is tried again, always close. */
  lemma WellBehavedModelsAlwaysClose(inner: nat -> Inner)
    ensures AlwaysCloses(inner) <==> Closable(inner(1)) && (Retryable(inner(1)) ==> Closable(inner(2)))
  {
    if Closable(inner(1)) && (Retryable(inner(1)) ==> Closable(inner(2))) {
      forall w: World, s: Scope, start: real | w.inner == inner ensures !StaysOpen(w, Call(w, s, start)) {
        GoodAnswersClose(w, s, start);
      }
    } else {
      var w, s := BadAnswerStays(inner);
      assert w.inner == inner && StaysOpen(w, Call(w, s, 0.0));
    }
  }

  lemma GoodAnswersClose(w: World, s: Scope, start: real)
    requires Closable(w.inner(1)) && (Retryable(w.inner(1)) ==> Closable(w.inner(2)))
    ensures !StaysOpen(w, Call(w, s, start))
  {
    ClosesOnceUnlessUnledgered(w, s, start);
    hide Call, Payable, Closable;
    var t := Call(w, s, start);
    ClosableSeen(w, |t.attempts|, t.attempts[|t.attempts| - 1].limit);
    assert Payable(ToUnknown) by { UnknownIsPayable(); }
  }

  lemma UnknownIsPayable()
    ensures Payable(ToUnknown)
  {}

  /** The worlds that show it: the bad answer comes at once, and a first answer that would be tried again is either not,
      because the epochs cannot be read, or is and meets the bad second one. */
  lemma BadAnswerStays(inner: nat -> Inner) returns (w: World, s: Scope)
    requires !(Closable(inner(1)) && (Retryable(inner(1)) ==> Closable(inner(2))))
    ensures w.inner == inner && StaysOpen(w, Call(w, s, 0.0))
  {
    s := Scope(None, 0.0, 1.0);
    w := World(inner, n => 0.0, Slept, if Closable(inner(1)) then Current else CheckBroken, false);
    hide L.Resolve;
    var step := Try(w, s, 1, s.timeout, 0.0);
    if step.Again? {
      assert Try(w, s, 2, step.limit, step.at).Over?;
    }
  }

  // ----- deadlines -----

  /** One attempt within `room` of its start keeps within it, waiting and the next limit included. */
  lemma TryKeepsTheReserve(w: World, s: Scope, n: nat, limit: real, start: real, expires: real)
    requires ForwardInTime(w) && s.expires == Some(expires) && limit > 0.0 && s.reserve >= 0.0
    requires start + limit <= expires - s.reserve
    ensures var step := Try(w, s, n, limit, start);
            var now := start + Duration(w, n, limit);
            start <= now <= step.at <= expires - s.reserve
            && (step.Again? ==> 0.0 < step.limit <= s.timeout && step.at + step.limit <= expires - s.reserve)
  {
    hide Look, ClosingFor, StatusOf;
    assert w.elapsed(n) >= 0.0;
  }

  /** Every attempt, the wait and the retry included, is over before the time kept for later steps begins. */
  lemma AttemptsKeepTheReserve(w: World, s: Scope, start: real)
    requires ForwardInTime(w) && s.expires.Some? && s.timeout > 0.0
    requires s.timeout <= Remaining(s.expires.value, start) - s.reserve && s.reserve >= 0.0
    ensures var t := Call(w, s, start);
            && start <= t.end <= s.expires.value - s.reserve
            && (forall k :: 0 <= k < |t.attempts| ==> start <= t.attempts[k].start <= t.attempts[k].end <= s.expires.value - s.reserve && t.attempts[k].limit <= s.timeout)
  {
    hide Try, Duration, ForwardInTime;
    TryKeepsTheReserve(w, s, 1, s.timeout, start, s.expires.value);
    var step := Try(w, s, 1, s.timeout, start);
    if step.Again? {
      TryKeepsTheReserve(w, s, 2, step.limit, step.at, s.expires.value);
    }
  }

  function NodeScope(node: Node, caps: Caps, expires: real, timeout: real): Scope {
    Scope(Some(expires), ReserveAfter(node, caps), timeout)
  }

  function WriterCall(caps: Caps, expires: real, w: World, start: real): Trace
    requires NodeTimeout(WRITER, caps, expires, start).Some?
  {
    Call(w, NodeScope(WRITER, caps, expires, NodeTimeout(WRITER, caps, expires, start).value), start)
  }

  /** A set of writer calls, each started when the node allowed it: once the last of them is over, the
      evaluator still gets its full cap, and when that is over finalize still has its half second. */
  lemma WritersLeaveTimeForTheRest(caps: Caps, expires: real, worlds: seq<World>, starts: seq<real>, evaluating: World, begin: real)
    requires Positive(caps) && |worlds| == |starts| > 0 && ForwardInTime(evaluating)
    requires forall k :: 0 <= k < |worlds| ==> ForwardInTime(worlds[k]) && NodeTimeout(WRITER, caps, expires, starts[k]).Some?
    requires exists k :: 0 <= k < |worlds| && begin == WriterCall(caps, expires, worlds[k], starts[k]).end
    ensures NodeTimeout(EVALUATOR, caps, expires, begin) == Some(caps.evaluator)
    ensures Remaining(expires, Call(evaluating, NodeScope(EVALUATOR, caps, expires, caps.evaluator), begin).end) >= FINALIZE_RESERVE
  {
    hide Call, ForwardInTime;
    var k :| 0 <= k < |worlds| && begin == WriterCall(caps, expires, worlds[k], starts[k]).end;
    AttemptsKeepTheReserve(worlds[k], NodeScope(WRITER, caps, expires, NodeTimeout(WRITER, caps, expires, starts[k]).value), starts[k]);
    AttemptsKeepTheReserve(evaluating, NodeScope(EVALUATOR, caps, expires, caps.evaluator), begin);
  }
}
