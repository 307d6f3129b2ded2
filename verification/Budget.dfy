/** Time budgets of `domain/budget.py` and the retry rules of `domain/retries.py`. Seconds are reals. */
module Budget {
  import opened Drafts

  datatype Node = SENTENCING | WRITER | EVALUATOR

  datatype Caps = Caps(sentencing: real, writer: real, evaluator: real)

  predicate Positive(caps: Caps) {
    caps.sentencing > 0.0 && caps.writer > 0.0 && caps.evaluator > 0.0
  }

  const FINALIZE_RESERVE := 0.5

  function Cap(node: Node, caps: Caps): real {
    match node
    case SENTENCING => caps.sentencing
    case WRITER => caps.writer
    case EVALUATOR => caps.evaluator
  }

  /** Time the steps after `node` must still find. */
  function ReserveAfter(node: Node, caps: Caps): real {
    match node
    case SENTENCING => 0.0
    case EVALUATOR => FINALIZE_RESERVE
    case WRITER => caps.evaluator + FINALIZE_RESERVE
  }

  function Remaining(expires: real, now: real): real {
    if expires - now < 0.0 then 0.0 else expires - now
  }

  function Min(a: real, b: real): real {
    if a <= b then a else b
  }

  function Max(a: real, b: real): real {
    if a <= b then b else a
  }

  /** None: the node must not be started. */
  function NodeTimeout(node: Node, caps: Caps, expires: real, now: real): Option<real> {
    var budget := Min(Cap(node, caps), Remaining(expires, now) - ReserveAfter(node, caps));
    if budget <= 0.0 then None else Some(budget)
  }

  predicate SmallerOf(t: real, a: real, b: real) {
    t <= a && t <= b && (t == a || t == b)
  }

  /** A node is given its cap or what is left behind the steps that must still follow it, whichever is smaller: nothing
      behind sentencing, half a second behind the evaluator, the evaluator and half a second behind the writers. Where
      nothing is left it is not started. */
  lemma NodesGetTheirTime(caps: Caps, expires: real, now: real)
    requires Positive(caps)
    ensures var t := NodeTimeout(SENTENCING, caps, expires, now);
            (t.Some? <==> now < expires) && (t.Some? ==> SmallerOf(t.value, caps.sentencing, expires - now))
    ensures var t := NodeTimeout(EVALUATOR, caps, expires, now);
            (t.Some? <==> now + 0.5 < expires) && (t.Some? ==> SmallerOf(t.value, caps.evaluator, expires - now - 0.5))
    ensures var t := NodeTimeout(WRITER, caps, expires, now);
            (t.Some? <==> now + caps.evaluator + 0.5 < expires) && (t.Some? ==> SmallerOf(t.value, caps.writer, expires - now - caps.evaluator - 0.5))
  {}

  datatype ErrorKind = TIMEOUT | RATE_LIMIT | SERVER | TRANSPORT | REFUSAL | SCHEMA | PARSE | AUTH | DEGRADED | BUDGET

  datatype LedgerStatus = FAILED | UNKNOWN

  /** Kinds raised before a call starts; they have no ledger row and hence no ledger status. */
  predicate NoLedger(kind: ErrorKind) {
    kind == DEGRADED || kind == BUDGET
  }

  /** None stands for the exception `ledger_status` raises. */
  function StatusOf(kind: ErrorKind): Option<LedgerStatus> {
    if NoLedger(kind) then None
    else if kind == TIMEOUT || kind == TRANSPORT then Some(UNKNOWN)
    else Some(FAILED)
  }

  predicate RetryAllowed(kind: ErrorKind, attempt: nat) {
    (kind == RATE_LIMIT || kind == SERVER) && attempt == 1
  }

  /** The wait the vendor asks for, at least none. */
  function AskedFor(retryAfter: Option<real>): (wait: real)
    ensures wait == 0.0 || Some(wait) == retryAfter
    ensures retryAfter.Some? ==> retryAfter.value <= wait
    ensures wait >= 0.0
  {
    Max(if retryAfter.Some? then retryAfter.value else 0.0, 0.0)
  }

  /** Seconds to wait before the retry, exactly what the vendor asks for; None when there must be no retry or the wait
      does not fit. `remaining` is None without a deadline. */
  function Backoff(kind: ErrorKind, attempt: nat, remaining: Option<real>, retryAfter: Option<real>, reserve: real): (wait: Option<real>)
    ensures wait.Some? <==> && (kind == RATE_LIMIT || kind == SERVER) && attempt == 1
                            && (remaining.Some? ==> AskedFor(retryAfter) <= remaining.value - reserve)
    ensures wait.Some? ==> wait.value == AskedFor(retryAfter)
  {
    if !RetryAllowed(kind, attempt) then None
    else
      var wait := AskedFor(retryAfter);
      if remaining.None? then Some(wait)
      else if remaining.value - reserve < 0.0 || wait > remaining.value - reserve then None
      else Some(wait)
  }

  datatype FailCode = VENDOR_UNAVAILABLE | EVAL_FAILED | SCHEMA_INVALID | DEADLINE_EXCEEDED | EVIDENCE_INVALIDATED | BUDGET_EXCEEDED

  /** A call that could not be paid for is blamed on money, one that ran out of time on time, anything else on the vendor,
      and money comes before time. */
  lemma WritersBlame(errors: seq<ErrorKind>, skipped: bool)
    ensures var code := WriterFailureCode(errors, skipped);
            && (code == BUDGET_EXCEEDED <==> BUDGET in errors)
            && (code == DEADLINE_EXCEEDED <==> BUDGET !in errors && (skipped || TIMEOUT in errors))
            && (code == VENDOR_UNAVAILABLE <==> BUDGET !in errors && TIMEOUT !in errors && !skipped)
  {}

  /** For the evaluator a vendor that is degraded or refuses the key is to blame, and otherwise the evaluation. */
  lemma EvaluatorBlames(errors: seq<ErrorKind>)
    ensures var code := EvaluatorFailureCode(errors);
            && (code == BUDGET_EXCEEDED <==> BUDGET in errors)
            && (code == VENDOR_UNAVAILABLE <==> BUDGET !in errors && (DEGRADED in errors || AUTH in errors))
            && (code == EVAL_FAILED <==> BUDGET !in errors && DEGRADED !in errors && AUTH !in errors)
  {}

  /** Why no usable text came from the writers: money before time before vendor. */
  function WriterFailureCode(errors: seq<ErrorKind>, skipped: bool): FailCode {
    if BUDGET in errors then BUDGET_EXCEEDED
    else if skipped || TIMEOUT in errors then DEADLINE_EXCEEDED
    else VENDOR_UNAVAILABLE
  }

  /** Same for the evaluator's calls. */
  function EvaluatorFailureCode(errors: seq<ErrorKind>): FailCode {
    if BUDGET in errors then BUDGET_EXCEEDED
    else if DEGRADED in errors || AUTH in errors then VENDOR_UNAVAILABLE
    else EVAL_FAILED
  }
}
