/** The money ledger: budgets per case and one row per model call. Every method is one database
    transaction; any interleaving of callers and sweepers is a sequence of them. */
module CallLedger {
  import opened Drafts

  datatype Status = RESERVED | SENT | COMPLETE | FAILED | UNKNOWN

  datatype Spec = Spec(generation: Option<string>, node: string, index: nat, est: nat)

  /** `actual` is only filled by a settlement or a sweep; `post` is None for rows without a budget. */
  datatype Row = Row(post: Option<string>, spec: Spec, status: Status, actual: Option<int>, startedAt: real)

  datatype Account = Account(cap: nat, spent: int, reserved: int)

  /** One settlement: `amount` was moved into `spent` when the call of estimate `est` was closed. */
  datatype Charge = Charge(call: nat, post: Option<string>, est: nat, amount: int)

  datatype Cost = Cost(micro: Option<int>, ticks: Option<int>)

  const TICKS_PER_MICRO_USD := 10000

  // ----- sums -----

  predicate Open(r: Row) {
    r.status == RESERVED || r.status == SENT
  }

  /** The estimate is still held: the call is open, or unknown and not swept. */
  predicate Holding(r: Row) {
    Open(r) || (r.status == UNKNOWN && r.actual.None?)
  }

  function Held(r: Row, post: string): int {
    if Holding(r) && r.post == Some(post) then r.spec.est else 0
  }

  function SumHeld(rows: seq<Row>, post: string): int {
    if rows == [] then 0 else SumHeld(rows[..|rows| - 1], post) + Held(rows[|rows| - 1], post)
  }

  function Amount(c: Charge, post: string): int {
    if c.post == Some(post) then c.amount else 0
  }

  function SumCharged(history: seq<Charge>, post: string): int {
    if history == [] then 0 else SumCharged(history[..|history| - 1], post) + Amount(history[|history| - 1], post)
  }

  /** By how much settlements went over their estimates. */
  function Overrun(history: seq<Charge>, post: string): (n: nat) {
    if history == [] then 0
    else
      var c := history[|history| - 1];
      Overrun(history[..|history| - 1], post) + if c.post == Some(post) && c.amount > c.est then c.amount - c.est else 0
  }

  lemma {:induction false} HeldAfterUpdate(rows: seq<Row>, i: nat, r: Row, post: string)
    requires i < |rows|
    ensures SumHeld(rows[i := r], post) == SumHeld(rows, post) - Held(rows[i], post) + Held(r, post)
  {
    var n := |rows| - 1;
    if i < n {
      HeldAfterUpdate(rows[..n], i, r, post);
      assert rows[i := r][..n] == rows[..n][i := r];
    } else {
      assert rows[i := r][..n] == rows[..n];
    }
  }

  lemma {:induction false} ChargedAppend(a: seq<Charge>, b: seq<Charge>, post: string)
    ensures SumCharged(a + b, post) == SumCharged(a, post) + SumCharged(b, post)
    ensures Overrun(a + b, post) == Overrun(a, post) + Overrun(b, post)
  {
    if b == [] {
      assert a + b == a;
    } else {
      var n := |b| - 1;
      ChargedAppend(a, b[..n], post);
      assert (a + b)[..|a| + n] == a + b[..n];
    }
  }

  lemma OneCharge(history: seq<Charge>, c: Charge, post: string)
    ensures SumCharged(history + [c], post) == SumCharged(history, post) + Amount(c, post)
    ensures Overrun(history + [c], post) == Overrun(history, post) + if c.post == Some(post) && c.amount > c.est then c.amount - c.est else 0
  {
    assert (history + [c])[..|history|] == history;
  }

  lemma OneRow(rows: seq<Row>, r: Row, post: string)
    ensures SumHeld(rows + [r], post) == SumHeld(rows, post) + Held(r, post)
  {
    assert (rows + [r])[..|rows|] == rows;
  }

  // ----- what is charged -----

  /** The cost of a reply; None when unknown. The outer None is the exception for negative ticks. */
  function Resolve(cost: Option<Cost>): Option<Option<int>> {
    if cost.None? then Some(None)
    else if cost.value.micro.Some? then Some(cost.value.micro)
    else if cost.value.ticks.None? then Some(None)
    else if cost.value.ticks.value < 0 then None
    else Some(Some(cost.value.ticks.value / TICKS_PER_MICRO_USD))
  }

  function AmountFor(actual: Option<int>, est: nat, noResponse: bool): int {
    if noResponse then 0 else if actual.None? then est else actual.value
  }

  // ----- the sweep as two set updates -----

  function MarkStale(r: Row, cutoff: real): Row {
    if r.status == RESERVED && r.startedAt < cutoff then r.(status := UNKNOWN) else r
  }

  predicate IsDue(r: Row, cutoff: real) {
    r.status == UNKNOWN && r.actual.None? && r.startedAt < cutoff
  }

  function Settled(r: Row, cutoff: real): Row {
    if IsDue(r, cutoff) then r.(actual := Some(r.spec.est)) else r
  }

  function Stale(rows: seq<Row>, cutoff: real): nat {
    if rows == [] then 0 else Stale(rows[..|rows| - 1], cutoff) + if MarkStale(rows[|rows| - 1], cutoff) != rows[|rows| - 1] then 1 else 0
  }

  /** Where the reservations stand that began before the cutoff. */
  function OldReservations(rows: seq<Row>, cutoff: real): set<nat> {
    set k: nat | k < |rows| && rows[k].status == RESERVED && rows[k].startedAt < cutoff
  }

  lemma {:induction false} StaleCounts(rows: seq<Row>, cutoff: real)
    ensures Stale(rows, cutoff) == |OldReservations(rows, cutoff)|
  {
    if rows == [] {
      assert OldReservations(rows, cutoff) == {};
    } else {
      StaleCounts(rows[..|rows| - 1], cutoff);
      LastReservation(rows, cutoff);
    }
  }

  lemma LastReservation(rows: seq<Row>, cutoff: real)
    requires rows != []
    ensures var n := |rows| - 1;
            && n !in OldReservations(rows[..n], cutoff)
            && OldReservations(rows, cutoff) == OldReservations(rows[..n], cutoff) + if MarkStale(rows[n], cutoff) != rows[n] then {n} else {}
  {
    assert forall k :: 0 <= k < |rows| - 1 ==> rows[..|rows| - 1][k] == rows[k];
  }

  function MarkAll(rows: seq<Row>, cutoff: real): (s: seq<Row>)
    ensures |s| == |rows| && forall k :: 0 <= k < |s| ==> s[k] == MarkStale(rows[k], cutoff)
  {
    seq(|rows|, k requires 0 <= k < |rows| => MarkStale(rows[k], cutoff))
  }

  function SettleAll(rows: seq<Row>, cutoff: real): (s: seq<Row>)
    ensures |s| == |rows| && forall k :: 0 <= k < |s| ==> s[k] == Settled(rows[k], cutoff)
  {
    seq(|rows|, k requires 0 <= k < |rows| => Settled(rows[k], cutoff))
  }

  /** The rows the sweep settles, in the order of their ids, each at its estimate. */
  function Dues(rows: seq<Row>, cutoff: real): seq<Charge> {
    if rows == [] then []
    else
      var n := |rows| - 1;
      Dues(rows[..n], cutoff) + if IsDue(rows[n], cutoff) then [DueOf(rows, n)] else []
  }

  predicate DuesRight(rows: seq<Row>, cutoff: real, d: seq<Charge>) {
    && (forall k :: 0 <= k < |d| ==> d[k].call < |rows| && IsDue(rows[d[k].call], cutoff) && d[k] == DueOf(rows, d[k].call))
    && (forall i :: 0 <= i < |rows| && IsDue(rows[i], cutoff) ==> HasSettlement(d, i))
    && (forall j, k :: 0 <= j < k < |d| ==> d[j].call < d[k].call)
  }

  /** Exactly the due rows, each once and in order. */
  lemma {:induction false} DuesAreRight(rows: seq<Row>, cutoff: real)
    ensures DuesRight(rows, cutoff, Dues(rows, cutoff))
  {
    if rows != [] {
      var n := |rows| - 1;
      var init, d := Dues(rows[..n], cutoff), Dues(rows, cutoff);
      DuesAreRight(rows[..n], cutoff);
      hide Dues, IsDue;
      assert forall i :: 0 <= i < n ==> rows[..n][i] == rows[i] && DueOf(rows[..n], i) == DueOf(rows, i);
      forall i | 0 <= i < |rows| && IsDue(rows[i], cutoff) ensures HasSettlement(d, i) {
        if i < n {
          assert IsDue(rows[..n][i], cutoff);
          var k :| 0 <= k < |init| && init[k].call == i;
          assert d[k].call == i;
        } else {
          assert d[|init|].call == i;
        }
      }
    }
  }

  function DueOf(rows: seq<Row>, i: nat): Charge
    requires i < |rows|
  {
    Charge(i, rows[i].post, rows[i].spec.est, rows[i].spec.est)
  }

  lemma {:induction false} MarkingKeepsSums(rows: seq<Row>, cutoff: real, post: string)
    requires Unpriced(rows)
    ensures SumHeld(MarkAll(rows, cutoff), post) == SumHeld(rows, post)
  {
    if rows != [] {
      var n := |rows| - 1;
      MarkingKeepsSums(rows[..n], cutoff, post);
      assert MarkAll(rows, cutoff)[..n] == MarkAll(rows[..n], cutoff);
    }
  }

  /** Settling moves exactly the dues out of what is held. */
  lemma {:induction false} SettlingMovesDues(rows: seq<Row>, cutoff: real, post: string)
    ensures SumHeld(SettleAll(rows, cutoff), post) == SumHeld(rows, post) - SumCharged(Dues(rows, cutoff), post)
  {
    if rows == [] {
      NothingToSettle(cutoff, post);
    } else {
      hide Dues, SumCharged, SettleAll, SumHeld;
      SettlingMovesDues(rows[..|rows| - 1], cutoff, post);
      DuesStep(rows, cutoff, post);
      SettleStep(rows, cutoff, post);
      HeldStep(rows, post);
    }
  }

  lemma NothingToSettle(cutoff: real, post: string)
    ensures SettleAll([], cutoff) == [] && SumHeld([], post) == 0 && SumCharged(Dues([], cutoff), post) == 0
  {}

  lemma HeldStep(rows: seq<Row>, post: string)
    requires rows != []
    ensures SumHeld(rows, post) == SumHeld(rows[..|rows| - 1], post) + Held(rows[|rows| - 1], post)
  {}

  lemma SettleStep(rows: seq<Row>, cutoff: real, post: string)
    requires rows != []
    ensures var n := |rows| - 1;
            SumHeld(SettleAll(rows, cutoff), post) == SumHeld(SettleAll(rows[..n], cutoff), post) + Held(Settled(rows[n], cutoff), post)
  {
    hide SumHeld, Held, Settled;
    HeldStep(SettleAll(rows, cutoff), post);
    assert SettleAll(rows, cutoff)[..|rows| - 1] == SettleAll(rows[..|rows| - 1], cutoff);
  }

  lemma DuesStep(rows: seq<Row>, cutoff: real, post: string)
    requires rows != []
    ensures var n := |rows| - 1;
            SumCharged(Dues(rows, cutoff), post) == SumCharged(Dues(rows[..n], cutoff), post) + if IsDue(rows[n], cutoff) then Amount(DueOf(rows, n), post) else 0
  {
    var n := |rows| - 1;
    OneCharge(Dues(rows[..n], cutoff), DueOf(rows, n), post);
    assert Dues(rows[..n], cutoff) + [] == Dues(rows[..n], cutoff);
    hide SumCharged, Amount;
  }

  lemma {:induction false} DuesAtEstimate(dues: seq<Charge>, post: string)
    requires forall k :: 0 <= k < |dues| ==> dues[k].amount == dues[k].est
    ensures Overrun(dues, post) == 0
  {
    if dues != [] {
      DuesAtEstimate(dues[..|dues| - 1], post);
    }
  }

  // ----- the books -----

  /** Budgets, calls, and every settlement so far in order. */
  datatype Books = Books(budgets: map<string, Account>, rows: seq<Row>, history: seq<Charge>)

  predicate IsClosed(r: Row) {
    !Holding(r)
  }

  predicate Unpriced(rows: seq<Row>) {
    forall i :: 0 <= i < |rows| && Open(rows[i]) ==> rows[i].actual.None?
  }

  predicate Records(c: Charge, rows: seq<Row>) {
    c.call < |rows| && IsClosed(rows[c.call]) && c.post == rows[c.call].post && c.est == rows[c.call].spec.est
  }

  /** Every closed call has exactly one settlement, every settlement a closed call. */
  predicate SettledOnce(rows: seq<Row>, history: seq<Charge>) {
    && (forall k :: 0 <= k < |history| ==> Records(history[k], rows))
    && (forall j, k :: 0 <= j < k < |history| ==> history[j].call != history[k].call)
    && (forall i :: 0 <= i < |rows| && IsClosed(rows[i]) ==> HasSettlement(history, i))
  }

  predicate HasSettlement(history: seq<Charge>, call: nat) {
    exists k :: 0 <= k < |history| && history[k].call == call
  }

  predicate SameKey(a: Spec, b: Spec) {
    a.generation.Some? && a.generation == b.generation && a.node == b.node && a.index == b.index
  }

  predicate SameCall(a: Spec, b: Spec) {
    a == b.(est := a.est)
  }

  predicate UniqueKeys(rows: seq<Row>) {
    forall i, j :: 0 <= i < j < |rows| ==> !SameKey(rows[i].spec, rows[j].spec)
  }

  /** Conservation for one budget: what is reserved is what calls still hold, what is spent is what was
      charged, and the cap was exceeded by no more than calls went over their estimates. */
  predicate Balanced(a: Account, rows: seq<Row>, history: seq<Charge>, post: string) {
    && a.reserved == SumHeld(rows, post)
    && a.spent == SumCharged(history, post)
    && a.spent + a.reserved <= a.cap + Overrun(history, post)
  }

  ghost predicate Conserved(b: Books) {
    && (forall p :: p in b.budgets ==> Balanced(b.budgets[p], b.rows, b.history, p))
    && (forall i :: 0 <= i < |b.rows| && b.rows[i].post.Some? ==> b.rows[i].post.value in b.budgets)
  }

  ghost predicate Sound(b: Books) {
    Conserved(b) && SettledOnce(b.rows, b.history) && UniqueKeys(b.rows) && Unpriced(b.rows)
  }

  /** The account of a post with its cap raised to the process's own; a new one when there is none. */
  function Raised(budgets: map<string, Account>, post: string, cap: nat): (a: Account)
    ensures a.cap >= cap && (post in budgets ==> a.cap >= budgets[post].cap && a.spent == budgets[post].spent && a.reserved == budgets[post].reserved)
  {
    if post in budgets then budgets[post].(cap := if budgets[post].cap < cap then cap else budgets[post].cap)
    else Account(cap, 0, 0)
  }

  predicate Exceeds(b: Books, cap: nat, post: string, est: nat) {
    var a := Raised(b.budgets, post, cap);
    a.spent + a.reserved + est > a.cap
  }

  predicate KeyTaken(rows: seq<Row>, spec: Spec) {
    exists i :: 0 <= i < |rows| && SameKey(rows[i].spec, spec)
  }

  /** Opens a row and holds its estimate; a refusal leaves nothing behind, not even the raised cap. */
  function ReserveIn(b: Books, cap: nat, post: string, spec: Spec, now: real): Books {
    if Exceeds(b, cap, post, spec.est) || KeyTaken(b.rows, spec) then b
    else
      var a := Raised(b.budgets, post, cap);
      b.(budgets := b.budgets[post := a.(reserved := a.reserved + spec.est)],
         rows := b.rows + [Row(Some(post), spec, RESERVED, None, now)])
  }

  /** `amount` spent, `est` no longer reserved; a row without a post has no account to change. */
  function Moved(budgets: map<string, Account>, post: Option<string>, amount: int, est: int): map<string, Account> {
    if post.Some? && post.value in budgets then
      var a := budgets[post.value];
      budgets[post.value := a.(spent := a.spent + amount, reserved := a.reserved - est)]
    else budgets
  }

  /** Closes an open row at the reply's cost, at its estimate when that is unknown, or for nothing when no
      reply came; a row that is no longer open is left alone. */
  function CloseIn(b: Books, id: nat, status: Status, cost: Option<Cost>, noResponse: bool): Books
    requires id < |b.rows|
  {
    var actual := Resolve(cost);
    var row := b.rows[id];
    if actual.None? || !Open(row) then b
    else
      var c := Charge(id, row.post, row.spec.est, AmountFor(actual.value, row.spec.est, noResponse));
      Books(Moved(b.budgets, row.post, c.amount, c.est), b.rows[id := row.(status := status, actual := actual.value)], b.history + [c])
  }

  /** The outcome is not known: the estimate stays held and nothing is charged. */
  function UnknownIn(b: Books, id: nat): Books
    requires id < |b.rows|
  {
    if Open(b.rows[id]) then b.(rows := b.rows[id := b.rows[id].(status := UNKNOWN)]) else b
  }

  /** Old reservations become unknown, and every old unknown call is charged its estimate. */
  function SweepIn(b: Books, cutoff: real): Books {
    var marked := MarkAll(b.rows, cutoff);
    var dues := Dues(marked, cutoff);
    Books(SweptAll(b.budgets, dues), SettleAll(marked, cutoff), b.history + dues)
  }

  function SweptAll(budgets: map<string, Account>, dues: seq<Charge>): map<string, Account> {
    map p | p in budgets :: Swept(budgets[p], SumCharged(dues, p))
  }

  function Swept(a: Account, amount: int): Account {
    a.(spent := a.spent + amount, reserved := a.reserved - amount)
  }

  /** What a sweep does to a call: a reservation or an unknown outcome that began before the cutoff is unknown and
      charged its estimate; calls that were sent, closed or began later stay as they are. */
  lemma SweepTakesTheOld(b: Books, cutoff: real, i: nat)
    requires Sound(b) && i < |b.rows|
    ensures var row, after := b.rows[i], SweepIn(b, cutoff);
            var taken := row.startedAt < cutoff && (row.status == RESERVED || (row.status == UNKNOWN && row.actual.None?));
            && |after.rows| == |b.rows|
            && after.rows[i] == (if taken then row.(status := UNKNOWN, actual := Some(row.spec.est)) else row)
            && (HasSettlement(after.history[|b.history|..], i) <==> taken)
  {
    var marked := MarkAll(b.rows, cutoff);
    DuesAreRight(marked, cutoff);
    hide Dues, SumCharged, SweptAll, Conserved, SettledOnce, UniqueKeys;
    assert SweepIn(b, cutoff).history[|b.history|..] == Dues(marked, cutoff);
    if IsDue(marked[i], cutoff) {
      assert HasSettlement(Dues(marked, cutoff), i);
    }
  }

  // ----- every transaction keeps the books sound -----

  lemma {:induction false} NothingHeld(rows: seq<Row>, post: string)
    requires forall i :: 0 <= i < |rows| ==> rows[i].post != Some(post)
    ensures SumHeld(rows, post) == 0
  {
    if rows != [] {
      NothingHeld(rows[..|rows| - 1], post);
    }
  }

  lemma {:induction false} NothingCharged(history: seq<Charge>, post: string)
    requires forall k :: 0 <= k < |history| ==> history[k].post != Some(post)
    ensures SumCharged(history, post) == 0 && Overrun(history, post) == 0
  {
    if history != [] {
      NothingCharged(history[..|history| - 1], post);
    }
  }

  lemma ReserveKeepsSound(b: Books, cap: nat, post: string, spec: Spec, now: real)
    requires Sound(b)
    ensures Sound(ReserveIn(b, cap, post, spec, now))
  {
    var after := ReserveIn(b, cap, post, spec, now);
    if after != b {
      if post !in b.budgets {
        NothingHeld(b.rows, post);
        NothingCharged(b.history, post);
      }
      var row := after.rows[|b.rows|];
      forall p | p in after.budgets ensures Balanced(after.budgets[p], after.rows, after.history, p) {
        OneRow(b.rows, row, p);
      }
      assert UniqueKeys(after.rows);
    }
  }

  lemma CloseKeepsSound(b: Books, id: nat, status: Status, cost: Option<Cost>, noResponse: bool)
    requires Sound(b) && id < |b.rows| && (status == COMPLETE || status == FAILED)
    ensures Sound(CloseIn(b, id, status, cost, noResponse))
  {
    hide SettledOnce, Resolve, AmountFor;
    var after := CloseIn(b, id, status, cost, noResponse);
    if after != b {
      var c := after.history[|b.history|];
      NewSettlement(b.rows, b.history, id, after.rows[id], c);
      forall p | p in after.budgets ensures Balanced(after.budgets[p], after.rows, after.history, p) {
        CloseBalances(b, id, after.rows[id], c, p);
      }
      hide Balanced;
    }
  }

  lemma CloseBalances(b: Books, id: nat, closed: Row, c: Charge, p: string)
    requires id < |b.rows| && Open(b.rows[id]) && IsClosed(closed) && closed.post == b.rows[id].post == c.post && c.est == b.rows[id].spec.est
    requires p in b.budgets && Balanced(b.budgets[p], b.rows, b.history, p)
    ensures p in Moved(b.budgets, c.post, c.amount, c.est)
    ensures Balanced(Moved(b.budgets, c.post, c.amount, c.est)[p], b.rows[id := closed], b.history + [c], p)
  {
    hide SumHeld, SumCharged, Overrun;
    HeldAfterUpdate(b.rows, id, closed, p);
    OneCharge(b.history, c, p);
  }

  lemma NewSettlement(rows: seq<Row>, history: seq<Charge>, id: nat, closed: Row, c: Charge)
    requires SettledOnce(rows, history) && id < |rows| && Holding(rows[id]) && IsClosed(closed)
    requires c.call == id && c.post == closed.post && c.est == closed.spec.est
    ensures SettledOnce(rows[id := closed], history + [c])
  {
    var after, all := rows[id := closed], history + [c];
    assert all[|history|] == c;
    forall i | 0 <= i < |after| && IsClosed(after[i]) ensures HasSettlement(all, i) {
      if i != id {
        var k :| 0 <= k < |history| && history[k].call == i;
        assert all[k].call == i;
      }
    }
    forall k | 0 <= k < |all| ensures Records(all[k], after) {
      if k < |history| {
        assert Records(history[k], rows);
      }
    }
  }

  lemma UnknownKeepsSound(b: Books, id: nat)
    requires Sound(b) && id < |b.rows|
    ensures Sound(UnknownIn(b, id))
  {
    var after := UnknownIn(b, id);
    forall p | p in b.budgets ensures SumHeld(after.rows, p) == SumHeld(b.rows, p) {
      HeldAfterUpdate(b.rows, id, after.rows[id], p);
      assert b.rows[id := b.rows[id]] == b.rows;
    }
  }

  lemma SweepBalances(b: Books, cutoff: real, p: string)
    requires p in b.budgets && Balanced(b.budgets[p], b.rows, b.history, p) && Unpriced(b.rows)
    ensures var after := SweepIn(b, cutoff); p in after.budgets && Balanced(after.budgets[p], after.rows, after.history, p)
  {
    var marked := MarkAll(b.rows, cutoff);
    var dues := Dues(marked, cutoff);
    MarkingKeepsSums(b.rows, cutoff, p);
    SettlingMovesDues(marked, cutoff, p);
    ChargedAppend(b.history, dues, p);
    DuesAreRight(marked, cutoff);
    DuesAtEstimate(dues, p);
  }

  lemma SweepKeepsSound(b: Books, cutoff: real)
    requires Sound(b)
    ensures Sound(SweepIn(b, cutoff))
  {
    SweepSettlesOnce(b, cutoff);
    var after := SweepIn(b, cutoff);
    assert UniqueKeys(after.rows) && Unpriced(after.rows);
    hide SettledOnce, UniqueKeys, Unpriced, SumHeld, SumCharged, Overrun, Dues;
    forall p | p in after.budgets ensures Balanced(after.budgets[p], after.rows, after.history, p) {
      SweepBalances(b, cutoff, p);
    }
    hide Balanced;
  }

  lemma SweepSettlesOnce(b: Books, cutoff: real)
    requires SettledOnce(b.rows, b.history) && Unpriced(b.rows)
    ensures SettledOnce(SweepIn(b, cutoff).rows, SweepIn(b, cutoff).history)
  {
    hide Dues, SumCharged, HasSettlement, SweptAll;
    var marked := MarkAll(b.rows, cutoff);
    var dues := Dues(marked, cutoff);
    DuesAreRight(marked, cutoff);
    DuesAreNew(b, cutoff, dues);
    var after := SweepIn(b, cutoff);
    forall k | 0 <= k < |after.history| ensures Records(after.history[k], after.rows) {
      if k < |b.history| {
        assert Records(b.history[k], b.rows);
      } else {
        assert after.history[k] == dues[k - |b.history|];
      }
    }
    forall i | 0 <= i < |after.rows| && IsClosed(after.rows[i]) ensures HasSettlement(after.history, i) {
      SettlementAfterSweep(b.rows, b.history, marked, dues, cutoff, i);
    }
  }

  lemma DuesAreNew(b: Books, cutoff: real, dues: seq<Charge>)
    requires SettledOnce(b.rows, b.history) && Unpriced(b.rows) && dues == Dues(MarkAll(b.rows, cutoff), cutoff)
    ensures var all := b.history + dues; forall j, k :: 0 <= j < k < |all| ==> all[j].call != all[k].call
  {
    hide Dues;
    DuesAreRight(MarkAll(b.rows, cutoff), cutoff);
    var all := b.history + dues;
    forall j, k | 0 <= j < k < |all| ensures all[j].call != all[k].call {
      if k < |b.history| {
      } else if j < |b.history| {
        assert Records(b.history[j], b.rows) && all[k] == dues[k - |b.history|];
      } else {
        assert all[j] == dues[j - |b.history|] && all[k] == dues[k - |b.history|];
      }
    }
  }

  lemma SettlementAfterSweep(rows: seq<Row>, history: seq<Charge>, marked: seq<Row>, dues: seq<Charge>, cutoff: real, i: nat)
    requires SettledOnce(rows, history) && Unpriced(rows) && marked == MarkAll(rows, cutoff) && dues == Dues(marked, cutoff)
    requires i < |rows| && IsClosed(Settled(marked[i], cutoff))
    ensures HasSettlement(history + dues, i)
  {
    hide Dues;
    DuesAreRight(marked, cutoff);
    var all := history + dues;
    if IsDue(marked[i], cutoff) {
      assert HasSettlement(dues, i);
      var k :| 0 <= k < |dues| && dues[k].call == i;
      assert all[|history| + k].call == i;
    } else {
      assert HasSettlement(history, i);
      var k :| 0 <= k < |history| && history[k].call == i;
      assert all[k].call == i;
    }
  }

  // ----- what a call is charged -----

  /** Neither micro-USD nor ticks are known. */
  predicate UnknownCost(cost: Option<Cost>) {
    cost.None? || (cost.value.micro.None? && cost.value.ticks.None?)
  }

  /** `u` is the known cost in micro-USD; of ticks, 10,000 to one of them, only whole ones count. */
  predicate Costs(cost: Option<Cost>, u: int) {
    && cost.Some?
    && match cost.value
       case Cost(Some(micro), _) => u == micro
       case Cost(None, Some(ticks)) => 0 <= ticks && u * 10000 <= ticks < (u + 1) * 10000
       case Cost(None, None) => false
  }

  /** The call `id` was closed for `u`: its post has spent `u` more, the estimate is no longer reserved, the settlement
      is on record, and nothing else about money has changed. */
  predicate ChargedFor(b: Books, after: Books, id: nat, u: int)
    requires id < |b.rows|
  {
    var row := b.rows[id];
    && after.history == b.history + [Charge(id, row.post, row.spec.est, u)] && after.budgets.Keys == b.budgets.Keys
    && forall p :: p in b.budgets ==>
      && after.budgets[p].cap == b.budgets[p].cap
      && after.budgets[p].spent - b.budgets[p].spent == (if row.post == Some(p) then u else 0)
      && b.budgets[p].reserved - after.budgets[p].reserved == (if row.post == Some(p) then row.spec.est else 0)
  }

  /** A known cost is charged as it is, an unknown one at the estimate, a failure without any response not at all. */
  lemma ClosingCharges(b: Books, id: nat, status: Status, cost: Option<Cost>, noResponse: bool)
    requires id < |b.rows| && Open(b.rows[id]) && (noResponse ==> cost.None?)
    ensures var after := CloseIn(b, id, status, cost, noResponse);
            && (forall u :: Costs(cost, u) ==> ChargedFor(b, after, id, u) && after.rows[id].actual == Some(u))
            && (UnknownCost(cost) ==> ChargedFor(b, after, id, if noResponse then 0 else b.rows[id].spec.est) && after.rows[id].actual.None?)
  {
    var after := CloseIn(b, id, status, cost, noResponse);
    forall u | Costs(cost, u) ensures Resolve(cost) == Some(Some(u)) {
      if cost.value.micro.None? {
        WholeMicros(cost.value.ticks.value, u);
      }
    }
  }

  lemma WholeMicros(ticks: int, u: int)
    requires 0 <= ticks && u * 10000 <= ticks < (u + 1) * 10000
    ensures ticks / TICKS_PER_MICRO_USD == u
  {}

  /** A cost that is neither known nor unknown has negative ticks; it is refused and nothing changes. */
  lemma CostIsKnownOrNot(cost: Option<Cost>)
    ensures UnknownCost(cost) || (exists u :: Costs(cost, u)) || (cost.value.micro.None? && cost.value.ticks.value < 0)
    ensures Resolve(cost).None? <==> cost.Some? && cost.value.micro.None? && cost.value.ticks.Some? && cost.value.ticks.value < 0
  {
    if cost.Some? && cost.value.micro.Some? {
      assert Costs(cost, cost.value.micro.value);
    } else if cost.Some? && cost.value.ticks.Some? && cost.value.ticks.value >= 0 {
      assert Costs(cost, cost.value.ticks.value / TICKS_PER_MICRO_USD);
    }
  }

  /** A settlement agrees with its row: a complete call was charged its known cost or else its estimate, a swept one
      its estimate, a failed one its known cost, its estimate or nothing. */
  predicate Agrees(c: Charge, rows: seq<Row>) {
    && c.call < |rows|
    && var row := rows[c.call];
       match row.status
       case COMPLETE => c.amount == if row.actual.Some? then row.actual.value else row.spec.est
       case UNKNOWN => row.actual == Some(c.amount) && c.amount == row.spec.est
       case FAILED => if row.actual.Some? then c.amount == row.actual.value else c.amount == row.spec.est || c.amount == 0
       case _ => false
  }

  ghost predicate Priced(b: Books) {
    forall k :: 0 <= k < |b.history| ==> Agrees(b.history[k], b.rows)
  }

  lemma StepKeepsPriced(b: Books, e: Event)
    requires Sound(b) && Priced(b) && Possible(b, e)
    ensures Priced(After(b, e))
  {
    var after := After(b, e);
    StepGrows(b, e);
    if e.ESweep? {
      DuesAreRight(MarkAll(b.rows, e.cutoff), e.cutoff);
    }
    hide Resolve, Dues, SumCharged, SumHeld, Conserved, UniqueKeys, SameKey;
    forall k | 0 <= k < |after.history| ensures Agrees(after.history[k], after.rows) {
      if k < |b.history| {
        assert Agrees(b.history[k], b.rows) && Records(b.history[k], b.rows);
      }
    }
  }

  /** Along every run every settlement agrees with its row. */
  lemma {:induction false} RunsPrice(trace: seq<Books>, events: seq<Event>, k: nat)
    requires IsRun(trace, events) && Sound(trace[0]) && Priced(trace[0]) && k < |trace|
    ensures Priced(trace[k])
  {
    hide Sound, After, Possible, Priced;
    if k > 0 {
      RunsPrice(trace, events, k - 1);
      RunsConserve(trace, events, 0, k - 1);
      StepIn(trace, events, k - 1);
      StepKeepsPriced(trace[k - 1], events[k - 1]);
    }
  }

  // ----- any interleaving -----

  /** One transaction of some caller or sweeper. */
  datatype Event =
    | EReserve(cap: nat, post: string, spec: Spec, now: real)
    | EClose(id: nat, status: Status, cost: Option<Cost>, noResponse: bool)
    | EUnknown(id: nat)
    | ESweep(cutoff: real)

  predicate Possible(b: Books, e: Event) {
    match e
    case EReserve(_, _, _, _) => true
    case EClose(id, status, cost, noResponse) => id < |b.rows| && (status == COMPLETE || status == FAILED) && (noResponse ==> status == FAILED && cost.None?)
    case EUnknown(id) => id < |b.rows|
    case ESweep(_) => true
  }

  function After(b: Books, e: Event): Books
    requires Possible(b, e)
  {
    match e
    case EReserve(cap, post, spec, now) => ReserveIn(b, cap, post, spec, now)
    case EClose(id, status, cost, noResponse) => CloseIn(b, id, status, cost, noResponse)
    case EUnknown(id) => UnknownIn(b, id)
    case ESweep(cutoff) => SweepIn(b, cutoff)
  }

  /** `trace` is a run: every books follows from the one before by some transaction. */
  ghost predicate IsRun(trace: seq<Books>, events: seq<Event>) {
    && |trace| == |events| + 1
    && forall k :: 0 <= k < |events| ==> Possible(trace[k], events[k]) && trace[k + 1] == After(trace[k], events[k])
  }

  lemma StepKeepsSound(b: Books, e: Event)
    requires Sound(b) && Possible(b, e)
    ensures Sound(After(b, e))
  {
    hide Sound;
    match e
    case EReserve(cap, post, spec, now) => ReserveKeepsSound(b, cap, post, spec, now);
    case EClose(id, status, cost, noResponse) => CloseKeepsSound(b, id, status, cost, noResponse);
    case EUnknown(id) => UnknownKeepsSound(b, id);
    case ESweep(cutoff) => SweepKeepsSound(b, cutoff);
  }

  /** What one transaction may do to what was there: settlements are only added, a closed call stays as it
      is, caps never fall, and rows keep what they were opened with. */
  predicate Grows(b: Books, c: Books) {
    && b.history <= c.history && |b.rows| <= |c.rows|
    && (forall i :: 0 <= i < |b.rows| ==> c.rows[i].post == b.rows[i].post && c.rows[i].spec == b.rows[i].spec)
    && (forall i :: 0 <= i < |b.rows| && IsClosed(b.rows[i]) ==> c.rows[i] == b.rows[i])
    && (forall p :: p in b.budgets ==> p in c.budgets && c.budgets[p].cap >= b.budgets[p].cap)
  }

  lemma StepGrows(b: Books, e: Event)
    requires Possible(b, e)
    ensures Grows(b, After(b, e))
  {
    hide Dues, SumCharged, AmountFor, Resolve, SameKey;
  }

  /** Along every run, from any sound books: conservation always holds, every call is settled at most once and
      its settlement is final, and caps only rise. */
  lemma {:induction false} RunsConserve(trace: seq<Books>, events: seq<Event>, i: nat, j: nat)
    requires IsRun(trace, events) && Sound(trace[0]) && i <= j < |trace|
    ensures Sound(trace[j]) && Grows(trace[i], trace[j])
    decreases j
  {
    hide Sound, After, Possible;
    if j > 0 {
      RunsConserve(trace, events, 0, j - 1);
      StepIn(trace, events, j - 1);
      StepKeepsSound(trace[j - 1], events[j - 1]);
      if i < j {
        RunsConserve(trace, events, i, j - 1);
        StepGrows(trace[j - 1], events[j - 1]);
      }
    }
  }

  lemma StepIn(trace: seq<Books>, events: seq<Event>, k: nat)
    requires IsRun(trace, events) && k < |events|
    ensures Possible(trace[k], events[k]) && trace[k + 1] == After(trace[k], events[k])
  {}

  /** A settlement that arrives after the call was closed or swept changes nothing, however late. */
  lemma LateCloseChangesNothing(trace: seq<Books>, events: seq<Event>, swept: nat, late: nat)
    requires IsRun(trace, events) && Sound(trace[0]) && swept <= late < |events|
    requires (events[late].EClose? || events[late].EUnknown?) && events[late].id < |trace[swept].rows| && IsClosed(trace[swept].rows[events[late].id])
    ensures trace[late + 1] == trace[late]
  {
    RunsConserve(trace, events, swept, late);
    StepIn(trace, events, late);
    hide Sound, IsRun;
  }

  lemma {:induction false} NothingDue(rows: seq<Row>, cutoff: real)
    requires forall i :: 0 <= i < |rows| ==> !IsDue(rows[i], cutoff)
    ensures Dues(rows, cutoff) == []
  {
    if rows != [] {
      NothingDue(rows[..|rows| - 1], cutoff);
    }
  }

  /** A second sweep at the same cutoff finds nothing. */
  lemma SweepTwice(b: Books, cutoff: real)
    requires Unpriced(b.rows)
    ensures SweepIn(SweepIn(b, cutoff), cutoff) == SweepIn(b, cutoff)
  {
    var once := SweepIn(b, cutoff);
    assert MarkAll(once.rows, cutoff) == once.rows;
    NothingDue(once.rows, cutoff);
    assert SettleAll(once.rows, cutoff) == once.rows;
    assert once.history + [] == once.history;
  }

  /** Money spent on a post never exceeds its cap by more than its calls went over their estimates. */
  lemma SpendingIsCapped(b: Books, post: string)
    requires Sound(b) && post in b.budgets
    ensures b.budgets[post].spent <= b.budgets[post].cap + Overrun(b.history, post)
  {
    HeldIsNonNegative(b.rows, post);
    assert Balanced(b.budgets[post], b.rows, b.history, post);
  }

  lemma {:induction false} HeldIsNonNegative(rows: seq<Row>, post: string)
    ensures SumHeld(rows, post) >= 0
  {
    if rows != [] {
      HeldIsNonNegative(rows[..|rows| - 1], post);
    }
  }

  // ----- the ledger -----

  datatype ReserveResult = Reserved(id: nat) | BudgetExceeded | KeyConflict

  datatype CloseResult = Closed | Skipped | BadTicks

  datatype Report = Report(calls: nat, total: nat, keys: nat, reservedCalls: nat)

  class Ledger {
    const cap: nat
    var budgets: map<string, Account>
    var rows: seq<Row>
    var history: seq<Charge>

    function Contents(): Books
      reads this
    {
      Books(budgets, rows, history)
    }

    ghost predicate Valid()
      reads this
    {
      Sound(Contents())
    }

    constructor (cap: nat)
      ensures Valid() && Contents() == Books(map[], [], []) && this.cap == cap
    {
      this.cap := cap;
      budgets, rows, history := map[], [], [];
    }

    method Reserve(post: string, spec: Spec, now: real) returns (r: ReserveResult)
      requires Valid()
      modifies this
      ensures Valid() && Contents() == ReserveIn(old(Contents()), cap, post, spec, now)
      ensures r == if Exceeds(old(Contents()), cap, post, spec.est) then BudgetExceeded
                   else if KeyTaken(old(rows), spec) then KeyConflict else Reserved(|old(rows)|)
      ensures r.Reserved? ==> budgets[post].spent + budgets[post].reserved <= budgets[post].cap
      ensures r.Reserved? ==> rows == old(rows) + [Row(Some(post), spec, RESERVED, None, now)]
      ensures r.Reserved? ==> spec.generation.None? || forall i :: 0 <= i < |old(rows)| ==> !SameCall(old(rows)[i].spec, spec)
      ensures r.KeyConflict? ==> spec.generation.Some? && exists i :: 0 <= i < |old(rows)| && SameCall(old(rows)[i].spec, spec)
    {
      hide Sound;
      ReserveKeepsSound(Contents(), cap, post, spec, now);
      var a := Raised(budgets, post, cap);
      if a.spent + a.reserved + spec.est > a.cap {
        return BudgetExceeded;
      }
      if KeyTaken(rows, spec) {
        return KeyConflict;
      }
      r := Reserved(|rows|);
      budgets := budgets[post := a.(reserved := a.reserved + spec.est)];
      rows := rows + [Row(Some(post), spec, RESERVED, None, now)];
    }

    /** The transaction behind `Settle` and `Fail`. */
    method Close(id: nat, status: Status, cost: Option<Cost>, noResponse: bool) returns (r: CloseResult)
      requires Valid() && id < |rows| && (status == COMPLETE || status == FAILED)
      modifies this
      ensures Valid() && Contents() == CloseIn(old(Contents()), id, status, cost, noResponse)
      ensures r == if Resolve(cost).None? then BadTicks else if Open(old(rows)[id]) then Closed else Skipped
    {
      hide Sound;
      CloseKeepsSound(Contents(), id, status, cost, noResponse);
      var actual := Resolve(cost);
      if actual.None? {
        return BadTicks;
      }
      var row := rows[id];
      if !Open(row) {
        return Skipped;
      }
      var charge := AmountFor(actual.value, row.spec.est, noResponse);
      rows := rows[id := row.(status := status, actual := actual.value)];
      history := history + [Charge(id, row.post, row.spec.est, charge)];
      budgets := Moved(budgets, row.post, charge, row.spec.est);
      r := Closed;
    }

    method Settle(id: nat, cost: Option<Cost>) returns (r: CloseResult)
      requires Valid() && id < |rows|
      modifies this
      ensures Valid() && Contents() == CloseIn(old(Contents()), id, COMPLETE, cost, false)
      ensures r == Closed <==> Open(old(rows)[id]) && Resolve(cost).Some?
      ensures Open(old(rows)[id]) ==> forall u :: Costs(cost, u) ==> ChargedFor(old(Contents()), Contents(), id, u) && rows[id].status == COMPLETE
      ensures Open(old(rows)[id]) && UnknownCost(cost) ==> ChargedFor(old(Contents()), Contents(), id, rows[id].spec.est) && rows[id].status == COMPLETE
    {
      if Open(rows[id]) {
        ClosingCharges(Contents(), id, COMPLETE, cost, false);
      }
      hide Sound, ChargedFor, Costs;
      r := Close(id, COMPLETE, cost, false);
    }

    method Fail(id: nat, hasUsage: bool, cost: Option<Cost>) returns (r: CloseResult)
      requires Valid() && id < |rows|
      modifies this
      ensures Valid() && Contents() == CloseIn(old(Contents()), id, FAILED, cost, !hasUsage && cost.None?)
      ensures r == Closed <==> Open(old(rows)[id]) && Resolve(cost).Some?
      ensures Open(old(rows)[id]) ==> forall u :: Costs(cost, u) ==> ChargedFor(old(Contents()), Contents(), id, u) && rows[id].status == FAILED
      ensures Open(old(rows)[id]) && UnknownCost(cost) ==>
                ChargedFor(old(Contents()), Contents(), id, if !hasUsage && cost.None? then 0 else rows[id].spec.est) && rows[id].status == FAILED
    {
      if Open(rows[id]) {
        ClosingCharges(Contents(), id, FAILED, cost, !hasUsage && cost.None?);
      }
      hide Sound, ChargedFor, Costs;
      r := Close(id, FAILED, cost, !hasUsage && cost.None?);
    }

    method MarkUnknown(id: nat) returns (changed: bool)
      requires Valid() && id < |rows|
      modifies this`rows
      ensures Valid() && Contents() == UnknownIn(old(Contents()), id) && changed == Open(old(rows)[id])
    {
      hide Sound;
      UnknownKeepsSound(Contents(), id);
      changed := Open(rows[id]);
      if changed {
        rows := rows[id := rows[id].(status := UNKNOWN)];
      }
    }

    /** None stands for the error a non-positive age raises before anything is touched. */
    method SweepUnknown(now: real, olderThan: real) returns (r: Option<Report>)
      requires Valid()
      modifies this
      ensures Valid() && Contents() == if olderThan <= 0.0 then old(Contents()) else SweepIn(old(Contents()), now - olderThan)
      ensures r == if olderThan <= 0.0 then None else Some(ReportOf(old(Contents()), now - olderThan))
    {
      hide Sound, SweepIn, ReportOf;
      if olderThan <= 0.0 {
        return None;
      }
      SweepKeepsSound(Contents(), now - olderThan);
      var after, report := SweepTransaction(Contents(), now - olderThan);
      budgets, rows, history := after.budgets, after.rows, after.history;
      r := Some(report);
    }
  }

  /** The statements of the sweep, and the loops that add up and move what is due. */
  method SweepTransaction(b: Books, cutoff: real) returns (after: Books, report: Report)
    ensures after == SweepIn(b, cutoff) && report == ReportOf(b, cutoff)
  {
    var marked := MarkAll(b.rows, cutoff);
    var dues := Dues(marked, cutoff);
    DuesAreRight(marked, cutoff);
    assert forall k :: 0 <= k < |dues| ==> dues[k].amount == dues[k].est;
    hide Dues, MarkAll, SettleAll, SumCharged, SweptAll, PostsOf, Total, Stale;
    var perKey, total := PerKey(dues);
    var moved := MoveAll(b.budgets, perKey, dues);
    after := Books(moved, SettleAll(marked, cutoff), b.history + dues);
    report := Report(|dues|, total, |perKey|, Stale(b.rows, cutoff));
    assert |perKey| == |perKey.Keys|;
  }

  function PostsOf(dues: seq<Charge>): set<string> {
    set k | 0 <= k < |dues| && dues[k].post.Some? :: dues[k].post.value
  }

  /** What the sweep reports: calls and money it settled, accounts it changed, reservations found stale. */
  function ReportOf(b: Books, cutoff: real): Report {
    var dues := Dues(MarkAll(b.rows, cutoff), cutoff);
    Report(|dues|, Total(dues), |PostsOf(dues)|, Stale(b.rows, cutoff))
  }

  function Total(dues: seq<Charge>): nat {
    if dues == [] then 0 else Total(dues[..|dues| - 1]) + dues[|dues| - 1].est
  }

  /** Adds up what is due per post; rows without a post only count in the total. */
  method PerKey(dues: seq<Charge>) returns (perKey: map<string, nat>, total: nat)
    requires forall k :: 0 <= k < |dues| ==> dues[k].amount == dues[k].est
    ensures forall p :: (p in perKey ==> perKey[p] == SumCharged(dues, p)) && (p !in perKey ==> SumCharged(dues, p) == 0)
    ensures perKey.Keys == PostsOf(dues) && total == Total(dues)
  {
    perKey, total := map[], 0;
    for k := 0 to |dues|
      invariant forall p :: (p in perKey ==> perKey[p] == SumCharged(dues[..k], p)) && (p !in perKey ==> SumCharged(dues[..k], p) == 0)
      invariant perKey.Keys == PostsOf(dues[..k])
      invariant total == Total(dues[..k])
    {
      var c := dues[k];
      assert dues[..k + 1] == dues[..k] + [c];
      forall p ensures SumCharged(dues[..k + 1], p) == SumCharged(dues[..k], p) + Amount(c, p) {
        OneCharge(dues[..k], c, p);
      }
      total := total + c.est;
      if c.post.Some? {
        var p := c.post.value;
        perKey := perKey[p := (if p in perKey then perKey[p] else 0) + c.est];
      }
    }
    assert dues[..|dues|] == dues;
  }

  /** Moves what is due from reserved to spent, one account after the other, in whatever order. */
  method MoveAll(budgets: map<string, Account>, perKey: map<string, nat>, dues: seq<Charge>) returns (moved: map<string, Account>)
    requires forall p :: (p in perKey ==> perKey[p] == SumCharged(dues, p)) && (p !in perKey ==> SumCharged(dues, p) == 0)
    ensures moved == SweptAll(budgets, dues)
  {
    moved := budgets;
    var rest := perKey.Keys;
    while rest != {}
      invariant rest <= perKey.Keys && moved.Keys == budgets.Keys
      invariant forall p :: p in budgets ==> moved[p] == if p in perKey && p !in rest then Swept(budgets[p], perKey[p]) else budgets[p]
    {
      var p :| p in rest;
      if p in moved {
        moved := moved[p := Swept(moved[p], perKey[p])];
      }
      rest := rest - {p};
    }
  }
}
