/** The amount parser for jurors' reasons (`_parse_amount`): numbers with Korean units, its exact grammar,
    and the two ways of writing a number that it undoes. Fractions are reals. */
module JurorAmounts {
  import opened Drafts

  const TEN_SIGN := '\U{C2ED}'
  const HUNDRED_SIGN := '\U{BC31}'
  const THOUSAND_SIGN := '\U{CC9C}'
  const MAN_SIGN := '\U{B9CC}'
  const EOK_SIGN := '\U{C5B5}'
  const JO_SIGN := '\U{C870}'

  const MAN := 10000
  const EOK := 100000000
  const JO := 1000000000000
  const SMALL_TOP := 10000
  const LARGE_TOP := 10000000000000000

  // ----- characters and tokens -----

  predicate NumberChar(c: char) {
    IsDigit(c) || c == ',' || c == '.'
  }

  function SmallUnit(c: char): Option<nat> {
    if c == TEN_SIGN then Some(10) else if c == HUNDRED_SIGN then Some(100) else if c == THOUSAND_SIGN then Some(1000) else None
  }

  function LargeUnit(c: char): Option<nat> {
    if c == MAN_SIGN then Some(MAN) else if c == EOK_SIGN then Some(EOK) else if c == JO_SIGN then Some(JO) else None
  }

  datatype Token = Num(text: string) | Small(unit: nat) | Large(unit: nat)

  /** Length of `[0-9,.]*` at the start of `s`. */
  function RunLength(s: string): (n: nat)
    ensures n <= |s| && forall k :: 0 <= k < n ==> NumberChar(s[k])
    ensures n < |s| ==> !NumberChar(s[n])
  {
    if s == "" || !NumberChar(s[0]) then 0 else 1 + RunLength(s[1..])
  }

  /** `findall` of the token pattern: runs starting with a digit, and unit signs; anything else is passed over. */
  function Tokens(s: string): seq<Token>
    decreases |s|
  {
    if s == "" then []
    else if IsDigit(s[0]) then
      var n := RunLength(s);
      [Num(s[..n])] + Tokens(s[n..])
    else if SmallUnit(s[0]).Some? then [Small(SmallUnit(s[0]).value)] + Tokens(s[1..])
    else if LargeUnit(s[0]).Some? then [Large(LargeUnit(s[0]).value)] + Tokens(s[1..])
    else Tokens(s[1..])
  }

  // ----- numbers -----

  predicate AllDigits(s: string) {
    s != "" && forall k :: 0 <= k < |s| ==> IsDigit(s[k])
  }

  /** `[0-9]{1,3}(,[0-9]{3})+`. */
  predicate Grouped(s: string) {
    && |s| >= 5 && s[|s| - 4] == ',' && AllDigits(s[|s| - 3..])
    && var head := s[..|s| - 4];
       (|head| <= 3 && AllDigits(head)) || Grouped(head)
  }

  predicate WholeNumber(s: string) {
    AllDigits(s) || Grouped(s)
  }

  function DotAt(s: string): (d: nat)
    ensures d <= |s| && (d < |s| ==> s[d] == '.') && forall k :: 0 <= k < d ==> s[k] != '.'
  {
    if s == "" || s[0] == '.' then 0 else 1 + DotAt(s[1..])
  }

  /** The pattern of a number in full. */
  predicate WellWritten(s: string) {
    var d := DotAt(s);
    WholeNumber(s[..d]) && (d < |s| ==> AllDigits(s[d + 1..]))
  }

  function DigitValue(c: char): nat {
    if IsDigit(c) then c as nat - '0' as nat else 0
  }

  /** The value of a run of digits; separators do not count. */
  function IntValue(s: string): nat {
    if s == "" then 0
    else
      var init, last := s[..|s| - 1], s[|s| - 1];
      if last == ',' then IntValue(init) else 10 * IntValue(init) + DigitValue(last)
  }

  function Power10(n: nat): (p: nat)
    ensures p > 0
  {
    if n == 0 then 1 else 10 * Power10(n - 1)
  }

  function NumberValue(s: string): real {
    var d := DotAt(s);
    IntValue(s[..d]) as real + if d < |s| then IntValue(s[d + 1..]) as real / Power10(|s| - d - 1) as real else 0.0
  }

  // ----- the parser's loop -----

  datatype State = State(total: real, section: real, number: Option<real>, previousSmall: nat, previousLarge: nat, hasSection: bool)

  const START := State(0.0, 0.0, None, SMALL_TOP, LARGE_TOP, false)

  function Times(x: real, unit: nat): real {
    x * unit as real
  }

  function Or(number: Option<real>, other: real): real {
    if number.Some? then number.value else other
  }

  function Step(st: State, t: Token): Option<State> {
    match t
    case Small(unit) =>
      if unit >= st.previousSmall then None
      else Some(st.(section := st.section + Times(Or(st.number, 1.0), unit), number := None, previousSmall := unit, hasSection := true))
    case Large(unit) =>
      if unit >= st.previousLarge || !st.hasSection then None
      else Some(State(st.total + Times(st.section + Or(st.number, 0.0), unit), 0.0, None, SMALL_TOP, unit, false))
    case Num(text) =>
      if st.number.Some? || !WellWritten(text) then None
      else Some(st.(number := Some(NumberValue(text)), hasSection := true))
  }

  function Fold(tokens: seq<Token>): Option<State> {
    if tokens == [] then Some(START)
    else
      var before := Fold(tokens[..|tokens| - 1]);
      if before.None? then None else Step(before.value, tokens[|tokens| - 1])
  }

  function ResultOf(st: State): real {
    st.total + st.section + Or(st.number, 0.0)
  }

  /** An amount counts only when it is a whole number. */
  function Whole(value: real): Option<int> {
    if value == value.Floor as real then Some(value.Floor) else None
  }

  function NoBlanks(s: string): string {
    if s == "" then "" else (if White(s[0]) then "" else [s[0]]) + NoBlanks(s[1..])
  }

  function Unsigned(s: string): string {
    if s != "" && (s[0] == '+' || s[0] == '-') then Unsigned(s[1..]) else s
  }

  function Sign(s: string): real {
    if s != "" && s[0] == '-' then -1.0 else 1.0
  }

  function Signed(s: string, value: real): real {
    Sign(s) * value
  }

  function Parse(text: string): Option<int> {
    var s := NoBlanks(text);
    var st := Fold(Tokens(Unsigned(s)));
    if st.None? then None else Whole(Signed(s, ResultOf(st.value)))
  }

  method ParseAmount(text: string) returns (r: Option<int>)
    ensures r == Parse(text)
  {
    var s := NoBlanks(text);
    var tokens := Tokens(Unsigned(s));
    hide NumberValue, WellWritten, Tokens, NoBlanks, Times;
    var total, section, number: Option<real> := 0.0, 0.0, None;
    var previousSmall: nat, previousLarge: nat, hasSection := SMALL_TOP, LARGE_TOP, false;
    for n := 0 to |tokens|
      invariant Fold(tokens[..n]) == Some(State(total, section, number, previousSmall, previousLarge, hasSection))
    {
      assert tokens[..n + 1][..n] == tokens[..n];
      ghost var was := State(total, section, number, previousSmall, previousLarge, hasSection);
      assert Fold(tokens[..n + 1]) == Step(was, tokens[n]);
      match tokens[n] {
        case Small(unit) =>
          if unit >= previousSmall {
            RefusedForGood(tokens, n + 1);
            return None;
          }
          section := section + Times(Or(number, 1.0), unit);
          number := None;
          previousSmall := unit;
          hasSection := true;
        case Large(unit) =>
          if unit >= previousLarge || !hasSection {
            RefusedForGood(tokens, n + 1);
            return None;
          }
          total := total + Times(section + Or(number, 0.0), unit);
          section, number := 0.0, None;
          previousSmall, previousLarge := SMALL_TOP, unit;
          hasSection := false;
        case Num(written) =>
          if number.Some? || !WellWritten(written) {
            RefusedForGood(tokens, n + 1);
            return None;
          }
          number := Some(NumberValue(written));
          hasSection := true;
      }
      assert Step(was, tokens[n]) == Some(State(total, section, number, previousSmall, previousLarge, hasSection));
    }
    assert tokens[..|tokens|] == tokens;
    r := Whole(Signed(s, total + section + Or(number, 0.0)));
  }

  lemma {:induction false} RefusedForGood(tokens: seq<Token>, n: nat)
    requires n <= |tokens| && Fold(tokens[..n]).None?
    ensures Fold(tokens).None?
    decreases |tokens|
  {
    if n < |tokens| {
      assert tokens[..|tokens| - 1][..n] == tokens[..n];
      RefusedForGood(tokens[..|tokens| - 1], n);
    } else {
      assert tokens[..n] == tokens;
    }
  }

  // ----- the grammar -----

  /** `number? unit`; a missing number counts as one. */
  datatype Term = Term(number: Option<string>, unit: nat)

  /** Terms with small units, then perhaps a plain number. */
  datatype Section = Section(terms: seq<Term>, last: Option<string>)

  /** A section for each large unit, then one without. */
  datatype Part = Part(section: Section, unit: nat)
  datatype Amount = Amount(parts: seq<Part>, rest: Section)

  const EMPTY := Section([], None)

  predicate NumberOk(n: Option<string>) {
    n.Some? ==> WellWritten(n.value)
  }

  /** Small units strictly descend within a section. */
  predicate SectionOk(s: Section) {
    && NumberOk(s.last)
    && (forall k :: 0 <= k < |s.terms| ==> NumberOk(s.terms[k].number) && s.terms[k].unit < SMALL_TOP)
    && (forall j, k :: 0 <= j < k < |s.terms| ==> s.terms[k].unit < s.terms[j].unit)
  }

  /** Large units strictly descend, and none of them stands without a section. */
  predicate AmountOk(a: Amount) {
    && SectionOk(a.rest)
    && (forall k :: 0 <= k < |a.parts| ==> SectionOk(a.parts[k].section) && a.parts[k].section != EMPTY && a.parts[k].unit < LARGE_TOP)
    && (forall j, k :: 0 <= j < k < |a.parts| ==> a.parts[k].unit < a.parts[j].unit)
  }

  function NumTokens(n: Option<string>): seq<Token> {
    if n.Some? then [Num(n.value)] else []
  }

  function TermTokens(terms: seq<Term>): seq<Token> {
    if terms == [] then []
    else TermTokens(terms[..|terms| - 1]) + NumTokens(terms[|terms| - 1].number) + [Small(terms[|terms| - 1].unit)]
  }

  function SectionTokens(s: Section): seq<Token> {
    TermTokens(s.terms) + NumTokens(s.last)
  }

  function PartTokens(parts: seq<Part>): seq<Token> {
    if parts == [] then []
    else PartTokens(parts[..|parts| - 1]) + SectionTokens(parts[|parts| - 1].section) + [Large(parts[|parts| - 1].unit)]
  }

  function Flatten(a: Amount): seq<Token> {
    PartTokens(a.parts) + SectionTokens(a.rest)
  }

  function ValueOr(n: Option<string>, other: real): real {
    if n.Some? then NumberValue(n.value) else other
  }

  function TermsValue(terms: seq<Term>): real {
    if terms == [] then 0.0
    else TermsValue(terms[..|terms| - 1]) + Times(ValueOr(terms[|terms| - 1].number, 1.0), terms[|terms| - 1].unit)
  }

  function SectionValue(s: Section): real {
    TermsValue(s.terms) + ValueOr(s.last, 0.0)
  }

  function PartsValue(parts: seq<Part>): real {
    if parts == [] then 0.0
    else PartsValue(parts[..|parts| - 1]) + Times(SectionValue(parts[|parts| - 1].section), parts[|parts| - 1].unit)
  }

  /** What an amount means. */
  function Value(a: Amount): real {
    PartsValue(a.parts) + SectionValue(a.rest)
  }

  // ----- the parser accepts exactly the grammar and computes its meaning -----

  function StateOf(a: Amount): State {
    State(PartsValue(a.parts), TermsValue(a.rest.terms),
          if a.rest.last.Some? then Some(NumberValue(a.rest.last.value)) else None,
          if a.rest.terms == [] then SMALL_TOP else a.rest.terms[|a.rest.terms| - 1].unit,
          if a.parts == [] then LARGE_TOP else a.parts[|a.parts| - 1].unit,
          a.rest != EMPTY)
  }

  /** `a` followed by one more token. */
  function Extend(a: Amount, t: Token): Amount {
    match t
    case Small(unit) => a.(rest := Section(a.rest.terms + [Term(a.rest.last, unit)], None))
    case Large(unit) => Amount(a.parts + [Part(a.rest, unit)], EMPTY)
    case Num(text) => a.(rest := a.rest.(last := Some(text)))
  }

  lemma ExtendStep(a: Amount, t: Token)
    requires AmountOk(a) && (t.Num? ==> a.rest.last.None?)
    ensures Step(StateOf(a), t).Some? <==> AmountOk(Extend(a, t))
    ensures Step(StateOf(a), t).Some? ==> Step(StateOf(a), t).value == StateOf(Extend(a, t))
    ensures Flatten(Extend(a, t)) == Flatten(a) + [t]
  {
    ExtendFlattens(a, t);
    hide WellWritten, NumberValue, AmountOk, Step, StateOf, Extend, Flatten;
    match t
    case Small(unit) => SmallStep(a, unit);
    case Large(unit) => LargeStep(a, unit);
    case Num(text) => NumStep(a, text);
  }

  lemma ExtendFlattens(a: Amount, t: Token)
    requires t.Num? ==> a.rest.last.None?
    ensures Flatten(Extend(a, t)) == Flatten(a) + [t]
  {
    hide PartTokens, SectionTokens;
    match t
    case Small(unit) => TermFlattens(a.rest.terms, a.rest.last, unit);
    case Large(unit) =>
      PartFlattens(a.parts, a.rest, unit);
      EmptyFlattens();
    case Num(text) => NumFlattens(a.rest, text);
  }

  lemma EmptyFlattens()
    ensures SectionTokens(EMPTY) == []
  {}

  lemma NumFlattens(s: Section, text: string)
    requires s.last.None?
    ensures SectionTokens(s.(last := Some(text))) == SectionTokens(s) + [Num(text)]
  {
    hide TermTokens;
  }

  lemma TermFlattens(terms: seq<Term>, last: Option<string>, unit: nat)
    ensures SectionTokens(Section(terms + [Term(last, unit)], None)) == SectionTokens(Section(terms, last)) + [Small(unit)]
  {
    var more := terms + [Term(last, unit)];
    assert more[..|terms|] == terms;
    assert TermTokens(more) == TermTokens(terms) + NumTokens(last) + [Small(unit)];
  }

  lemma PartFlattens(parts: seq<Part>, section: Section, unit: nat)
    ensures PartTokens(parts + [Part(section, unit)]) == PartTokens(parts) + SectionTokens(section) + [Large(unit)]
  {
    assert (parts + [Part(section, unit)])[..|parts|] == parts;
  }

  lemma NumStep(a: Amount, text: string)
    requires AmountOk(a) && a.rest.last.None?
    ensures Step(StateOf(a), Num(text)).Some? <==> AmountOk(Extend(a, Num(text)))
    ensures Step(StateOf(a), Num(text)).Some? ==> Step(StateOf(a), Num(text)).value == StateOf(Extend(a, Num(text)))
  {
    hide WellWritten, NumberValue, PartsValue, TermsValue;
  }

  lemma SmallStep(a: Amount, unit: nat)
    requires AmountOk(a)
    ensures Step(StateOf(a), Small(unit)).Some? <==> AmountOk(Extend(a, Small(unit)))
    ensures Step(StateOf(a), Small(unit)).Some? ==> Step(StateOf(a), Small(unit)).value == StateOf(Extend(a, Small(unit)))
  {
    hide WellWritten, NumberValue, Times, TermsValue, PartsValue, SectionOk;
    TermFits(a.rest, unit);
    TermAdds(a.rest.terms, Term(a.rest.last, unit));
  }

  /** A further term keeps a section well formed exactly when its unit is below the last one. */
  lemma TermFits(s: Section, unit: nat)
    requires SectionOk(s)
    ensures var more := Section(s.terms + [Term(s.last, unit)], None);
            SectionOk(more) <==> unit < if s.terms == [] then SMALL_TOP else s.terms[|s.terms| - 1].unit
  {
    hide WellWritten;
    var n := |s.terms|;
    var terms := s.terms + [Term(s.last, unit)];
    assert terms[n] == Term(s.last, unit) && forall k :: 0 <= k < n ==> terms[k] == s.terms[k];
    if SectionOk(Section(terms, None)) {
      assert terms[n].unit < SMALL_TOP && (n > 0 ==> terms[n].unit < terms[n - 1].unit);
    }
  }

  lemma TermAdds(terms: seq<Term>, t: Term)
    ensures TermsValue(terms + [t]) == TermsValue(terms) + Times(ValueOr(t.number, 1.0), t.unit)
  {
    assert (terms + [t])[..|terms|] == terms;
  }

  lemma LargeStep(a: Amount, unit: nat)
    requires AmountOk(a)
    ensures Step(StateOf(a), Large(unit)).Some? <==> AmountOk(Extend(a, Large(unit)))
    ensures Step(StateOf(a), Large(unit)).Some? ==> Step(StateOf(a), Large(unit)).value == StateOf(Extend(a, Large(unit)))
  {
    EmptySectionOk();
    NoTerms();
    hide WellWritten, NumberValue, SectionOk, TermsValue, PartsValue, Times;
    PartFits(a, unit);
    PartAdds(a.parts, Part(a.rest, unit));
  }

  /** A further part keeps an amount well formed exactly when its section is not empty and its unit is below the last one. */
  lemma PartFits(a: Amount, unit: nat)
    requires AmountOk(a) && SectionOk(EMPTY)
    ensures AmountOk(Amount(a.parts + [Part(a.rest, unit)], EMPTY))
            <==> a.rest != EMPTY && unit < if a.parts == [] then LARGE_TOP else a.parts[|a.parts| - 1].unit
  {
    hide SectionOk;
    var n := |a.parts|;
    var parts := a.parts + [Part(a.rest, unit)];
    assert parts[n] == Part(a.rest, unit) && forall k :: 0 <= k < n ==> parts[k] == a.parts[k];
    if AmountOk(Amount(parts, EMPTY)) {
      assert parts[n].section != EMPTY && parts[n].unit < LARGE_TOP && (n > 0 ==> parts[n].unit < parts[n - 1].unit);
    }
  }

  lemma PartAdds(parts: seq<Part>, p: Part)
    ensures PartsValue(parts + [p]) == PartsValue(parts) + Times(SectionValue(p.section), p.unit)
  {
    assert (parts + [p])[..|parts|] == parts;
  }

  lemma NoTerms()
    ensures TermsValue([]) == 0.0
  {}

  lemma EmptySectionOk()
    ensures SectionOk(EMPTY)
  {}

  lemma EmptyAmount()
    ensures var a := Amount([], EMPTY); AmountOk(a) && Flatten(a) == [] && StateOf(a) == START
  {}

  lemma ValueOfState(a: Amount)
    ensures Value(a) == ResultOf(StateOf(a))
  {
    hide PartsValue, TermsValue, NumberValue;
  }

  /** Whatever the parser accepts is a well-formed amount. */
  lemma {:induction false} AcceptedIsWellFormed(tokens: seq<Token>) returns (a: Amount)
    requires Fold(tokens).Some?
    ensures AmountOk(a) && Flatten(a) == tokens && StateOf(a) == Fold(tokens).value
  {
    EmptyAmount();
    hide WellWritten, NumberValue, AmountOk, Extend, Flatten, PartsValue, TermsValue;
    if tokens == [] {
      a := Amount([], EMPTY);
    } else {
      var init, t := tokens[..|tokens| - 1], tokens[|tokens| - 1];
      var before := AcceptedIsWellFormed(init);
      ExtendStep(before, t);
      a := Extend(before, t);
      assert tokens == init + [t];
    }
  }

  /** The amount without its last token. */
  function Shorter(a: Amount): (Amount, Token)
    requires a.parts != [] || a.rest != EMPTY
  {
    if a.rest.last.Some? then (a.(rest := a.rest.(last := None)), Num(a.rest.last.value))
    else if a.rest.terms != [] then
      var last := a.rest.terms[|a.rest.terms| - 1];
      (a.(rest := Section(a.rest.terms[..|a.rest.terms| - 1], last.number)), Small(last.unit))
    else
      var last := a.parts[|a.parts| - 1];
      (Amount(a.parts[..|a.parts| - 1], last.section), Large(last.unit))
  }

  lemma ShorterExtends(a: Amount)
    requires AmountOk(a) && (a.parts != [] || a.rest != EMPTY)
    ensures var (b, t) := Shorter(a); AmountOk(b) && Extend(b, t) == a && (t.Num? ==> b.rest.last.None?)
  {
    hide WellWritten;
    if a.rest.last.None? && a.rest.terms == [] {
      assert a.parts[..|a.parts| - 1] + [a.parts[|a.parts| - 1]] == a.parts;
    } else if a.rest.last.None? {
      assert a.rest.terms[..|a.rest.terms| - 1] + [a.rest.terms[|a.rest.terms| - 1]] == a.rest.terms;
    }
  }

  /** Every well-formed amount is accepted, with its meaning as the result. */
  lemma {:induction false} WellFormedIsAccepted(a: Amount)
    requires AmountOk(a)
    ensures Fold(Flatten(a)) == Some(StateOf(a))
    decreases |Flatten(a)|
  {
    if a.parts == [] && a.rest == EMPTY {
      assert Flatten(a) == [];
    } else {
      var (b, t) := Shorter(a);
      ShorterExtends(a);
      ExtendStep(b, t);
      assert Flatten(a)[..|Flatten(a)| - 1] == Flatten(b);
      WellFormedIsAccepted(b);
    }
  }

  /** The parser accepts a list of tokens with value `v` exactly when it reads as a well-formed amount of
      that value: large units descend, and small units descend within each section. */
  lemma ParserIsTheGrammar(tokens: seq<Token>, v: real)
    ensures (exists st :: Fold(tokens) == Some(st) && ResultOf(st) == v) <==> (exists a :: AmountOk(a) && Flatten(a) == tokens && Value(a) == v)
  {
    hide WellWritten, NumberValue, AmountOk, Value, ResultOf, StateOf, Flatten, Fold;
    if st :| Fold(tokens) == Some(st) && ResultOf(st) == v {
      var a := AcceptedIsWellFormed(tokens);
      ValueOfState(a);
    }
    if a :| AmountOk(a) && Flatten(a) == tokens && Value(a) == v {
      WellFormedIsAccepted(a);
      ValueOfState(a);
    }
  }

  // ----- the comma form of a number (`f"{amount:,}"`) -----

  function DigitChar(d: nat): (c: char)
    ensures d < 10 ==> IsDigit(c) && DigitValue(c) == d
  {
    if d < 10 then ('0' as nat + d) as char else '0'
  }

  function Plain(n: nat): (s: string)
    ensures AllDigits(s) && (n < 1000 ==> |s| <= 3)
    ensures IntValue(s) == n
  {
    if n < 10 then [DigitChar(n)] else
      assert (Plain(n / 10) + [DigitChar(n % 10)])[..|Plain(n / 10)|] == Plain(n / 10);
      Plain(n / 10) + [DigitChar(n % 10)]
  }

  function Three(n: nat): string {
    var f := DigitsIn(n);
    [DigitChar(f.b), DigitChar(f.c), DigitChar(f.d)]
  }

  function Commas(n: nat): string {
    if n < 1000 then Plain(n) else Commas(n / 1000) + "," + Three(n % 1000)
  }

  function Won(n: int): string {
    if n < 0 then "-" + Commas(-n) else Commas(n)
  }

  lemma ThreeValue(head: string, n: nat)
    requires n < 1000
    ensures IntValue(head + "," + Three(n)) == 1000 * IntValue(head) + n
    ensures AllDigits(Three(n)) && |Three(n)| == 3
  {
    var s0 := head + ",";
    var f := DigitsIn(n);
    assert f.a == 0;
    assert Three(n)[0] == DigitChar(f.b) && Three(n)[1] == DigitChar(f.c) && Three(n)[2] == DigitChar(f.d);
    IntAppend(head, ',');
    IntAppend(s0, Three(n)[0]);
    IntAppend(s0 + [Three(n)[0]], Three(n)[1]);
    IntAppend(s0 + [Three(n)[0]] + [Three(n)[1]], Three(n)[2]);
    hide IntValue, DigitsIn, DigitValue, DigitChar, Three;
    assert head + "," + Three(n) == s0 + [Three(n)[0]] + [Three(n)[1]] + [Three(n)[2]];
  }

  lemma IntAppend(s: string, c: char)
    ensures IntValue(s + [c]) == if c == ',' then IntValue(s) else 10 * IntValue(s) + DigitValue(c)
  {
    assert (s + [c])[..|s|] == s;
  }

  /** The comma form is a number as the parser wants it, starts with a digit and has no other characters. */
  lemma {:induction false} CommasAreWellWritten(n: nat)
    ensures var s := Commas(n);
            s != "" && IsDigit(s[0]) && WholeNumber(s) && IntValue(s) == n
            && (forall k :: 0 <= k < |s| ==> IsDigit(s[k]) || s[k] == ',')
  {
    if n >= 1000 {
      CommasAreWellWritten(n / 1000);
      ThreeValue(Commas(n / 1000), n % 1000);
      var head, s := Commas(n / 1000), Commas(n);
      assert s[..|s| - 4] == head && s[|s| - 3..] == Three(n % 1000) && s[|s| - 4] == ',';
      if n / 1000 < 1000 {
        assert |head| <= 3;
      } else {
        assert Grouped(head) by { CommasGroup(n / 1000); }
      }
    }
  }

  lemma CommasGroup(n: nat)
    requires n >= 1000 && WholeNumber(Commas(n))
    ensures Grouped(Commas(n))
  {
    var s := Commas(n);
    assert s[|Commas(n / 1000)|] == ',';
  }

  lemma {:induction false} OneRun(s: string)
    requires forall k :: 0 <= k < |s| ==> NumberChar(s[k])
    ensures RunLength(s) == |s|
  {
    if s != "" {
      OneRun(s[1..]);
    }
  }

  lemma {:induction false} NoDot(s: string)
    requires forall k :: 0 <= k < |s| ==> s[k] != '.'
    ensures DotAt(s) == |s|
  {
    if s != "" {
      NoDot(s[1..]);
    }
  }

  lemma {:induction false} NothingBlank(s: string)
    requires forall k :: 0 <= k < |s| ==> !White(s[k])
    ensures NoBlanks(s) == s
  {
    if s != "" {
      NothingBlank(s[1..]);
    }
  }

  lemma OneNumber(s: string)
    requires s != "" && IsDigit(s[0]) && WellWritten(s) && forall k :: 0 <= k < |s| ==> NumberChar(s[k])
    ensures Tokens(s) == [Num(s)] && Fold([Num(s)]) == Some(START.(number := Some(NumberValue(s)), hasSection := true))
  {
    OneRun(s);
    assert s[..|s|] == s && s[|s|..] == "";
    assert [Num(s)][..0] == [];
  }

  lemma CommaNumber(s: string, m: nat)
    requires s != "" && IsDigit(s[0]) && WholeNumber(s) && IntValue(s) == m && forall k :: 0 <= k < |s| ==> IsDigit(s[k]) || s[k] == ','
    ensures Fold(Tokens(s)).Some? && ResultOf(Fold(Tokens(s)).value) == m as real
  {
    NoDot(s);
    assert s[..|s|] == s;
    OneNumber(s);
    hide WholeNumber, IntValue, Tokens, Fold;
  }

  /** Every whole amount printed with commas is read back, negative ones included. */
  lemma CommaFormRoundTrip(n: int)
    ensures Parse(Won(n)) == Some(n)
  {
    hide Parse, Won, Commas, Tokens, Fold, NoBlanks, Unsigned, Sign, Signed, WholeNumber, IntValue, ResultOf, Whole;
    var m: nat := if n < 0 then -n else n;
    CommasAreWellWritten(m);
    CommaNumber(Commas(m), m);
    WonIsClean(n, m);
    ParseClean(Won(n), Commas(m));
    SignedValue(n, m);
  }

  lemma ParseClean(text: string, clean: string)
    requires NoBlanks(text) == text && Unsigned(text) == clean && Fold(Tokens(clean)).Some?
    ensures Parse(text) == Whole(Signed(text, ResultOf(Fold(Tokens(clean)).value)))
  {
    hide NoBlanks, Unsigned, Fold, Tokens, ResultOf, Whole, Signed;
  }

  lemma SignedValue(n: int, m: nat)
    requires m == if n < 0 then -n else n
    ensures forall s :: Sign(s) == (if n < 0 then -1.0 else 1.0) ==> Whole(Signed(s, m as real)) == Some(n)
  {
    hide Sign;
    assert (n as real).Floor == n;
  }

  lemma WonIsClean(n: int, m: nat)
    requires m == (if n < 0 then -n else n) && Commas(m) != "" && forall k :: 0 <= k < |Commas(m)| ==> IsDigit(Commas(m)[k]) || Commas(m)[k] == ','
    requires IsDigit(Commas(m)[0])
    ensures NoBlanks(Won(n)) == Won(n) && Unsigned(Won(n)) == Commas(m) && Sign(Won(n)) == if n < 0 then -1.0 else 1.0
  {
    hide Commas;
    NothingBlank(Won(n));
    assert Unsigned(Commas(m)) == Commas(m);
    if n < 0 {
      assert Won(n)[1..] == Commas(m);
    }
  }

  // ----- the Korean unit spelling -----

  function SmallSign(unit: nat): char {
    if unit == 10 then TEN_SIGN else if unit == 100 then HUNDRED_SIGN else THOUSAND_SIGN
  }

  function LargeSign(unit: nat): char {
    if unit == MAN then MAN_SIGN else if unit == EOK then EOK_SIGN else JO_SIGN
  }

  datatype Four = Four(a: nat, b: nat, c: nat, d: nat)

  /** Thousands, hundreds, tens and ones. */
  function DigitsIn(g: nat): (f: Four)
    ensures g < 10000 ==> g == 1000 * f.a + 100 * f.b + 10 * f.c + f.d && f.a < 10 && f.b < 10 && f.c < 10 && f.d < 10
  {
    var r := g % 1000;
    Four(g / 1000, r / 100, r % 100 / 10, r % 100 % 10)
  }

  /** The groups in front of the three large units, and the rest. */
  function GroupsIn(n: nat): (f: Four)
    ensures n < LARGE_TOP ==> n == JO * f.a + EOK * f.b + MAN * f.c + f.d && f.a < 10000 && f.b < 10000 && f.c < 10000 && f.d < 10000
  {
    var r := n % JO;
    Four(n / JO, r / EOK, r % EOK / MAN, r % EOK % MAN)
  }

  /** A digit in front of a small unit; a one may be left out. */
  function Piece(d: nat, unit: nat, bare: bool): string {
    if d == 0 then "" else if d == 1 && bare then [SmallSign(unit)] else [DigitChar(d), SmallSign(unit)]
  }

  function Ones(d: nat): string {
    if d == 0 then "" else [DigitChar(d)]
  }

  /** Up to 9999: thousands, hundreds, tens and ones, zeros left out. */
  function Spelled(g: nat, bare: bool): string {
    var f := DigitsIn(g);
    Piece(f.a, 1000, bare) + (Piece(f.b, 100, bare) + (Piece(f.c, 10, bare) + Ones(f.d)))
  }

  function Group(g: nat, unit: nat, bare: bool): string {
    if g == 0 then "" else Spelled(g, bare) + [LargeSign(unit)]
  }

  /** A number below 10^16 in groups of four digits. */
  function Spell(n: nat, bare: bool): string {
    if n == 0 then "0"
    else
      var f := GroupsIn(n);
      Group(f.a, JO, bare) + (Group(f.b, EOK, bare) + (Group(f.c, MAN, bare) + Spelled(f.d, bare)))
  }

  function PieceTerms(d: nat, unit: nat, bare: bool): seq<Term> {
    if d == 0 then [] else [Term(if d == 1 && bare then None else Some([DigitChar(d)]), unit)]
  }

  /** The section a group stands for. */
  function SectionOf(g: nat, bare: bool): Section {
    var f := DigitsIn(g);
    Section(PieceTerms(f.a, 1000, bare) + (PieceTerms(f.b, 100, bare) + PieceTerms(f.c, 10, bare)),
            if f.d == 0 then None else Some([DigitChar(f.d)]))
  }

  function GroupParts(g: nat, unit: nat, bare: bool): seq<Part> {
    if g == 0 then [] else [Part(SectionOf(g, bare), unit)]
  }

  function AmountOf(n: nat, bare: bool): Amount {
    if n == 0 then Amount([], Section([], Some("0")))
    else
      var f := GroupsIn(n);
      Amount(GroupParts(f.a, JO, bare) + (GroupParts(f.b, EOK, bare) + GroupParts(f.c, MAN, bare)), SectionOf(f.d, bare))
  }

  lemma SingleDigit(d: nat)
    requires d < 10
    ensures WellWritten([DigitChar(d)]) && NumberValue([DigitChar(d)]) == d as real
  {
    var s := [DigitChar(d)];
    NoDot(s);
    assert s[..1] == s && s[..0] == "";
    assert IntValue(s) == 10 * IntValue("") + d;
  }

  lemma {:induction false} TermTokensAppend(a: seq<Term>, b: seq<Term>)
    ensures TermTokens(a + b) == TermTokens(a) + TermTokens(b)
    ensures TermsValue(a + b) == TermsValue(a) + TermsValue(b)
  {
    hide NumTokens, ValueOr, Times;
    if b == [] {
      assert a + b == a;
    } else {
      TermTokensAppend(a, b[..|b| - 1]);
      assert (a + b)[..|a + b| - 1] == a + b[..|b| - 1];
    }
  }

  lemma {:induction false} PartTokensAppend(a: seq<Part>, b: seq<Part>)
    ensures PartTokens(a + b) == PartTokens(a) + PartTokens(b)
    ensures PartsValue(a + b) == PartsValue(a) + PartsValue(b)
  {
    hide SectionTokens, SectionValue, Times;
    if b == [] {
      assert a + b == a;
    } else {
      PartTokensAppend(a, b[..|b| - 1]);
      assert (a + b)[..|a + b| - 1] == a + b[..|b| - 1];
    }
  }

  lemma PieceMeaning(d: nat, unit: nat, bare: bool)
    requires d < 10
    ensures TermsValue(PieceTerms(d, unit, bare)) == Times(d as real, unit)
  {
    SingleDigit(d);
    var terms := PieceTerms(d, unit, bare);
    if d > 0 {
      assert terms[..0] == [];
    }
  }

  lemma PieceReads(d: nat, unit: nat, bare: bool, rest: string)
    requires d < 10 && unit in {10, 100, 1000}
    ensures Tokens(Piece(d, unit, bare) + rest) == TermTokens(PieceTerms(d, unit, bare)) + Tokens(rest)
  {
    hide Tokens, TermTokens, RunLength, DigitChar, SmallSign, NumberChar, TermsValue;
    SmallSignReads(unit, rest);
    OneTerm(Term(if d == 1 && bare then None else Some([DigitChar(d)]), unit));
    NoTerm();
    var tail := [SmallSign(unit)] + rest;
    if d == 0 {
      assert Piece(d, unit, bare) + rest == rest;
    } else if !(d == 1 && bare) {
      assert Piece(d, unit, bare) + rest == [DigitChar(d)] + tail;
      OneDigitReads(d, tail);
    }
  }

  lemma NoTerm()
    ensures TermTokens([]) == []
  {}

  lemma SmallSignReads(unit: nat, rest: string)
    requires unit in {10, 100, 1000}
    ensures Tokens([SmallSign(unit)] + rest) == [Small(unit)] + Tokens(rest) && !NumberChar(SmallSign(unit))
  {
    assert ([SmallSign(unit)] + rest)[1..] == rest;
  }

  lemma OneDigitReads(d: nat, rest: string)
    requires d < 10 && (rest != "" ==> !NumberChar(rest[0]))
    ensures Tokens([DigitChar(d)] + rest) == [Num([DigitChar(d)])] + Tokens(rest)
  {
    var s := [DigitChar(d)] + rest;
    assert s[1..] == rest && RunLength(s) == 1 && s[..1] == [DigitChar(d)];
  }

  lemma OneTerm(t: Term)
    ensures TermTokens([t]) == NumTokens(t.number) + [Small(t.unit)]
  {
    assert [t][..0] == [];
  }

  lemma OnesRead(d: nat, rest: string)
    requires d < 10 && (rest != "" ==> !NumberChar(rest[0]))
    ensures Tokens(Ones(d) + rest) == NumTokens(if d == 0 then None else Some([DigitChar(d)])) + Tokens(rest)
  {
    if d > 0 {
      OneDigitReads(d, rest);
    } else {
      assert Ones(d) + rest == rest;
    }
  }

  /** Brackets moved to where the parts are read one after the other. */
  lemma Regroup<T>(a: seq<T>, b: seq<T>, c: seq<T>, d: seq<T>, rest: seq<T>)
    ensures a + (b + (c + d)) + rest == a + (b + (c + (d + rest)))
    ensures a + (b + c) + d + rest == a + (b + (c + (d + rest)))
    ensures a + (b + c) + d == a + (b + (c + d))
  {}

  lemma SpelledReads(g: nat, bare: bool, rest: string)
    requires g < 10000 && (rest != "" ==> !NumberChar(rest[0]))
    ensures Tokens(Spelled(g, bare) + rest) == SectionTokens(SectionOf(g, bare)) + Tokens(rest)
  {
    var f := DigitsIn(g);
    var p3, p2, p1, p0 := Piece(f.a, 1000, bare), Piece(f.b, 100, bare), Piece(f.c, 10, bare), Ones(f.d);
    var t3, t2, t1 := PieceTerms(f.a, 1000, bare), PieceTerms(f.b, 100, bare), PieceTerms(f.c, 10, bare);
    var r := Tokens(rest);
    Regroup(p3, p2, p1, p0, rest);
    TermTokensAppend(t3, t2 + t1);
    TermTokensAppend(t2, t1);
    Regroup(TermTokens(t3), TermTokens(t2), TermTokens(t1), NumTokens(SectionOf(g, bare).last), r);
    PieceReads(f.a, 1000, bare, p2 + (p1 + (p0 + rest)));
    PieceReads(f.b, 100, bare, p1 + (p0 + rest));
    PieceReads(f.c, 10, bare, p0 + rest);
    OnesRead(f.d, rest);
    assert SectionTokens(SectionOf(g, bare)) == TermTokens(t3 + (t2 + t1)) + NumTokens(SectionOf(g, bare).last);
    hide Piece, Ones, PieceTerms, Tokens, TermTokens, NumTokens, TermsValue, SectionTokens;
  }

  lemma SectionMeaning(g: nat, bare: bool)
    requires g < 10000
    ensures SectionValue(SectionOf(g, bare)) == g as real
    ensures SectionOk(SectionOf(g, bare)) && (SectionOf(g, bare) == EMPTY <==> g == 0)
  {
    var f := DigitsIn(g);
    var t3, t2, t1 := PieceTerms(f.a, 1000, bare), PieceTerms(f.b, 100, bare), PieceTerms(f.c, 10, bare);
    assert SectionOf(g, bare) == Section(t3 + (t2 + t1), if f.d == 0 then None else Some([DigitChar(f.d)]));
    SectionShape(g, bare);
    hide WellWritten, NumberValue, TermsValue, TermTokens, PieceTerms, DigitChar, SectionOf, DigitsIn, Times, SectionOk;
    SingleDigit(f.d);
    PieceMeaning(f.a, 1000, bare);
    PieceMeaning(f.b, 100, bare);
    PieceMeaning(f.c, 10, bare);
    TermTokensAppend(t3, t2 + t1);
    TermTokensAppend(t2, t1);
    DigitSum(g, f);
  }

  lemma SectionShape(g: nat, bare: bool)
    requires g < 10000
    ensures SectionOk(SectionOf(g, bare)) && (SectionOf(g, bare) == EMPTY <==> g == 0)
  {
    var f := DigitsIn(g);
    var t3, t2, t1 := PieceTerms(f.a, 1000, bare), PieceTerms(f.b, 100, bare), PieceTerms(f.c, 10, bare);
    assert SectionOf(g, bare) == Section(t3 + (t2 + t1), if f.d == 0 then None else Some([DigitChar(f.d)]));
    hide WellWritten, NumberValue, PieceTerms, DigitChar, SectionOf, DigitsIn;
    SingleDigit(f.d);
    PieceShape(f.a, 1000, bare);
    PieceShape(f.b, 100, bare);
    PieceShape(f.c, 10, bare);
    TermsInOrder(t3, t2, t1);
    assert |t3 + (t2 + t1)| == |t3| + |t2| + |t1|;
  }

  lemma DigitSum(g: nat, f: Four)
    requires g == 1000 * f.a + 100 * f.b + 10 * f.c + f.d
    ensures Times(f.a as real, 1000) + (Times(f.b as real, 100) + Times(f.c as real, 10)) + f.d as real == g as real
  {}

  lemma PieceShape(d: nat, unit: nat, bare: bool)
    requires d < 10
    ensures var t := PieceTerms(d, unit, bare);
            |t| == (if d == 0 then 0 else 1) && forall k :: 0 <= k < |t| ==> t[k].unit == unit && NumberOk(t[k].number)
  {
    SingleDigit(d);
  }

  lemma TermsInOrder(t3: seq<Term>, t2: seq<Term>, t1: seq<Term>)
    requires |t3| <= 1 && |t2| <= 1 && |t1| <= 1
    requires forall k :: 0 <= k < |t3| ==> t3[k].unit == 1000 && NumberOk(t3[k].number)
    requires forall k :: 0 <= k < |t2| ==> t2[k].unit == 100 && NumberOk(t2[k].number)
    requires forall k :: 0 <= k < |t1| ==> t1[k].unit == 10 && NumberOk(t1[k].number)
    ensures var terms := t3 + (t2 + t1);
            && (forall k :: 0 <= k < |terms| ==> NumberOk(terms[k].number) && terms[k].unit < SMALL_TOP)
            && (forall j, k :: 0 <= j < k < |terms| ==> terms[k].unit < terms[j].unit)
  {
    hide NumberOk;
  }

  lemma SignReads(unit: nat, rest: string)
    requires unit in {MAN, EOK, JO}
    ensures Tokens([LargeSign(unit)] + rest) == [Large(unit)] + Tokens(rest) && !NumberChar(LargeSign(unit))
  {
    assert ([LargeSign(unit)] + rest)[1..] == rest;
  }

  lemma OnePart(section: Section, unit: nat)
    ensures PartTokens([Part(section, unit)]) == SectionTokens(section) + [Large(unit)]
  {
    assert [Part(section, unit)][..0] == [];
  }

  lemma GroupReads(g: nat, unit: nat, bare: bool, rest: string)
    requires g < 10000 && unit in {MAN, EOK, JO}
    ensures Tokens(Group(g, unit, bare) + rest) == PartTokens(GroupParts(g, unit, bare)) + Tokens(rest)
  {
    hide Spelled, Tokens, SectionOf, SectionTokens, PartTokens, LargeSign, NumberChar, PartsValue;
    SignReads(unit, rest);
    OnePart(SectionOf(g, bare), unit);
    NoPart();
    var tail := [LargeSign(unit)] + rest;
    if g == 0 {
      assert Group(g, unit, bare) + rest == rest;
    } else {
      assert Group(g, unit, bare) + rest == Spelled(g, bare) + tail;
      SpelledReads(g, bare, tail);
      var x, z := SectionTokens(SectionOf(g, bare)), Tokens(rest);
      assert x + ([Large(unit)] + z) == x + [Large(unit)] + z;
    }
  }

  lemma NoPart()
    ensures PartTokens([]) == []
  {}

  lemma GroupMeaning(g: nat, unit: nat, bare: bool)
    requires g < 10000
    ensures PartsValue(GroupParts(g, unit, bare)) == Times(g as real, unit) && |GroupParts(g, unit, bare)| <= 1
    ensures forall p :: p in GroupParts(g, unit, bare) ==> SectionOk(p.section) && p.section != EMPTY && p.unit == unit
  {
    var parts := GroupParts(g, unit, bare);
    SectionMeaning(g, bare);
    if g > 0 {
      assert parts[..0] == [];
    }
  }

  lemma NoTokens()
    ensures Tokens("") == []
  {}

  lemma SpellReads(n: nat, bare: bool)
    requires 0 < n < LARGE_TOP
    ensures Tokens(Spell(n, bare)) == Flatten(AmountOf(n, bare))
  {
    var f := GroupsIn(n);
    var s0 := Spelled(f.d, bare);
    var s1 := Group(f.c, MAN, bare) + s0;
    var s2 := Group(f.b, EOK, bare) + s1;
    var p3, p2, p1, p0 := GroupParts(f.a, JO, bare), GroupParts(f.b, EOK, bare), GroupParts(f.c, MAN, bare), SectionTokens(SectionOf(f.d, bare));
    assert Spell(n, bare) == Group(f.a, JO, bare) + s2;
    assert Flatten(AmountOf(n, bare)) == PartTokens(p3 + (p2 + p1)) + p0;
    hide Group, Spelled, GroupParts, SectionOf, Tokens, PartTokens, SectionTokens, PartsValue, Spell, Flatten, AmountOf, GroupsIn;
    Regroup(PartTokens(p3), PartTokens(p2), PartTokens(p1), p0, []);
    assert p0 + [] == p0;
    GroupReads(f.a, JO, bare, s2);
    GroupReads(f.b, EOK, bare, s1);
    GroupReads(f.c, MAN, bare, s0);
    SpelledReads(f.d, bare, "");
    assert s0 + "" == s0;
    NoTokens();
    PartTokensAppend(p3, p2 + p1);
    PartTokensAppend(p2, p1);
  }

  lemma AmountOfGroups(p3: seq<Part>, p2: seq<Part>, p1: seq<Part>, rest: Section)
    requires |p3| <= 1 && |p2| <= 1 && |p1| <= 1 && SectionOk(rest)
    requires forall p :: p in p3 ==> SectionOk(p.section) && p.section != EMPTY && p.unit == JO
    requires forall p :: p in p2 ==> SectionOk(p.section) && p.section != EMPTY && p.unit == EOK
    requires forall p :: p in p1 ==> SectionOk(p.section) && p.section != EMPTY && p.unit == MAN
    ensures var a := Amount(p3 + (p2 + p1), rest);
            AmountOk(a) && Value(a) == PartsValue(p3) + (PartsValue(p2) + PartsValue(p1)) + SectionValue(rest)
  {
    hide SectionOk, PartsValue, SectionValue, PartTokens;
    PartTokensAppend(p3, p2 + p1);
    PartTokensAppend(p2, p1);
    PartsInOrder(p3, p2, p1);
  }

  lemma SpellMeaning(n: nat, bare: bool)
    requires 0 < n < LARGE_TOP
    ensures AmountOk(AmountOf(n, bare)) && Value(AmountOf(n, bare)) == n as real
  {
    var f := GroupsIn(n);
    var p3, p2, p1 := GroupParts(f.a, JO, bare), GroupParts(f.b, EOK, bare), GroupParts(f.c, MAN, bare);
    assert AmountOf(n, bare) == Amount(p3 + (p2 + p1), SectionOf(f.d, bare));
    hide SectionOk, SectionOf, GroupParts, PartsValue, SectionValue, Times, AmountOf, Value, AmountOk, GroupsIn;
    GroupMeaning(f.a, JO, bare);
    GroupMeaning(f.b, EOK, bare);
    GroupMeaning(f.c, MAN, bare);
    SectionMeaning(f.d, bare);
    AmountOfGroups(p3, p2, p1, SectionOf(f.d, bare));
    GroupSum(n, f);
  }

  lemma GroupSum(n: nat, f: Four)
    requires n == JO * f.a + EOK * f.b + MAN * f.c + f.d
    ensures Times(f.a as real, JO) + (Times(f.b as real, EOK) + Times(f.c as real, MAN)) + f.d as real == n as real
  {}

  lemma PartsInOrder(p3: seq<Part>, p2: seq<Part>, p1: seq<Part>)
    requires |p3| <= 1 && |p2| <= 1 && |p1| <= 1
    requires forall p :: p in p3 ==> SectionOk(p.section) && p.section != EMPTY && p.unit == JO
    requires forall p :: p in p2 ==> SectionOk(p.section) && p.section != EMPTY && p.unit == EOK
    requires forall p :: p in p1 ==> SectionOk(p.section) && p.section != EMPTY && p.unit == MAN
    ensures var parts := p3 + (p2 + p1);
            && (forall k :: 0 <= k < |parts| ==> SectionOk(parts[k].section) && parts[k].section != EMPTY && parts[k].unit < LARGE_TOP)
            && (forall j, k :: 0 <= j < k < |parts| ==> parts[k].unit < parts[j].unit)
  {
    hide SectionOk;
    var parts := p3 + (p2 + p1);
    forall k | 0 <= k < |parts|
      ensures parts[k] == if k < |p3| then p3[k] else if k < |p3| + |p2| then p2[k - |p3|] else p1[k - |p3| - |p2|]
    {}
  }

  predicate SpellChar(c: char) {
    IsDigit(c) || SmallUnit(c).Some? || LargeUnit(c).Some?
  }

  predicate AllSpellChars(s: string) {
    forall k :: 0 <= k < |s| ==> SpellChar(s[k])
  }

  lemma SpellCharsAppend(a: string, b: string)
    requires AllSpellChars(a) && AllSpellChars(b)
    ensures AllSpellChars(a + b)
  {
    hide SpellChar;
  }

  lemma PieceChars(d: nat, unit: nat, bare: bool)
    requires d < 10
    ensures AllSpellChars(Piece(d, unit, bare)) && AllSpellChars(Ones(d))
  {}

  lemma SpelledChars(g: nat, bare: bool)
    requires g < 10000
    ensures AllSpellChars(Spelled(g, bare))
  {
    hide Piece, Ones, AllSpellChars, DigitsIn;
    var f := DigitsIn(g);
    PieceChars(f.a, 1000, bare);
    PieceChars(f.b, 100, bare);
    PieceChars(f.c, 10, bare);
    PieceChars(f.d, 10, bare);
    SpellCharsAppend(Piece(f.c, 10, bare), Ones(f.d));
    SpellCharsAppend(Piece(f.b, 100, bare), Piece(f.c, 10, bare) + Ones(f.d));
    SpellCharsAppend(Piece(f.a, 1000, bare), Piece(f.b, 100, bare) + (Piece(f.c, 10, bare) + Ones(f.d)));
  }

  lemma SignChars(unit: nat)
    ensures AllSpellChars([LargeSign(unit)]) && AllSpellChars("") && AllSpellChars("0")
  {}

  lemma GroupChars(g: nat, unit: nat, bare: bool)
    requires g < 10000
    ensures AllSpellChars(Group(g, unit, bare))
  {
    hide Spelled, AllSpellChars;
    SignChars(unit);
    SpelledChars(g, bare);
    SpellCharsAppend(Spelled(g, bare), [LargeSign(unit)]);
  }

  lemma SpellChars(n: nat, bare: bool)
    requires n < LARGE_TOP
    ensures AllSpellChars(Spell(n, bare))
  {
    hide Spelled, Group, AllSpellChars, GroupsIn;
    SignChars(MAN);
    var f := GroupsIn(n);
    var s0 := Spelled(f.d, bare);
    var s1 := Group(f.c, MAN, bare) + s0;
    var s2 := Group(f.b, EOK, bare) + s1;
    SpelledChars(f.d, bare);
    GroupChars(f.c, MAN, bare);
    GroupChars(f.b, EOK, bare);
    GroupChars(f.a, JO, bare);
    SpellCharsAppend(Group(f.c, MAN, bare), s0);
    SpellCharsAppend(Group(f.b, EOK, bare), s1);
    SpellCharsAppend(Group(f.a, JO, bare), s2);
  }

  /** The parser's preparations leave a spelling as it is. */
  lemma SpellingIsClean(s: string)
    requires AllSpellChars(s)
    ensures NoBlanks(s) == s && Unsigned(s) == s && Sign(s) == 1.0
  {
    assert forall k :: 0 <= k < |s| ==> SpellChar(s[k]) && !White(s[k]);
    NothingBlank(s);
    assert s != "" ==> SpellChar(s[0]);
  }

  /** Every number below 10^16 in its Korean spelling is read back, with ones in front of units written or not. */
  lemma SpellingRoundTrip(n: nat, bare: bool)
    requires n < LARGE_TOP
    ensures Parse(Spell(n, bare)) == Some(n)
  {
    hide Parse, Spell, Tokens, Fold, NoBlanks, Unsigned, Sign, Signed, ResultOf, Whole, AllSpellChars, AmountOf, Value, StateOf, Flatten, AmountOk;
    var s := Spell(n, bare);
    SpellChars(n, bare);
    SpellingIsClean(s);
    if n == 0 {
      ZeroReads(bare);
    } else {
      SpellReads(n, bare);
      SpellMeaning(n, bare);
      WellFormedIsAccepted(AmountOf(n, bare));
      ValueOfState(AmountOf(n, bare));
    }
    ParseClean(s, s);
    SignedValue(n, n);
  }

  lemma ZeroReads(bare: bool)
    ensures Fold(Tokens(Spell(0, bare))).Some? && ResultOf(Fold(Tokens(Spell(0, bare))).value) == 0.0
  {
    SingleDigit(0);
    OneNumber("0");
  }

  // ----- decimal numbers -----

  lemma {:induction false} GroupedChars(w: string)
    requires WholeNumber(w)
    ensures IsDigit(w[0]) && forall k :: 0 <= k < |w| ==> IsDigit(w[k]) || w[k] == ','
    decreases |w|
  {
    if !AllDigits(w) {
      var head, tail := w[..|w| - 4], w[|w| - 3..];
      GroupedChars(head);
      assert w[0] == head[0];
      forall k | 0 <= k < |w| ensures IsDigit(w[k]) || w[k] == ',' {
        assert k < |head| ==> w[k] == head[k];
        assert k > |head| ==> w[k] == tail[k - |head| - 1];
      }
    }
  }

  lemma {:induction false} FirstDot(w: string, f: string)
    requires forall k :: 0 <= k < |w| ==> w[k] != '.'
    ensures DotAt(w + "." + f) == |w|
  {
    if w != "" {
      assert (w + "." + f)[1..] == w[1..] + "." + f;
      FirstDot(w[1..], f);
    }
  }

  lemma TenTimes(a: nat, p: nat, b: nat, d: nat)
    ensures 10 * (a * p + b) + d == a * (10 * p) + (10 * b + d)
  {}

  lemma PowerStep(n: nat)
    ensures Power10(n + 1) == 10 * Power10(n)
  {}

  /** Digits written behind others shift them by as many places. */
  lemma {:induction false} DigitsBehind(w: string, f: string)
    requires forall k :: 0 <= k < |f| ==> IsDigit(f[k])
    ensures IntValue(w + f) == IntValue(w) * Power10(|f|) + IntValue(f)
  {
    if f == "" {
      assert w + f == w;
    } else {
      hide IntValue, Power10, DigitValue;
      var init, last := f[..|f| - 1], f[|f| - 1];
      DigitsBehind(w, init);
      PowerStep(|init|);
      assert w + f == w + init + [last] && f == init + [last];
      IntAppend(w + init, last);
      IntAppend(init, last);
      TenTimes(IntValue(w), Power10(|init|), IntValue(init), DigitValue(last));
    }
  }

  lemma Scaled(x: real, a: nat, b: nat, p: nat)
    requires p > 0 && x == a as real + b as real / p as real
    ensures x * p as real == (a * p + b) as real
  {
    assert b as real / p as real * p as real == b as real;
  }

  /** A decimal number means the number without its dot, divided by ten for each digit behind the dot. */
  lemma DecimalMeans(w: string, f: string)
    requires WholeNumber(w) && AllDigits(f)
    ensures var s := w + "." + f;
            WellWritten(s) && NumberValue(s) * Power10(|f|) as real == IntValue(w + f) as real
  {
    hide WellWritten, NumberValue, WholeNumber, IntValue, Power10;
    DecimalSplits(w, f);
    DigitsBehind(w, f);
    Scaled(NumberValue(w + "." + f), IntValue(w), IntValue(f), Power10(|f|));
  }

  lemma DecimalSplits(w: string, f: string)
    requires WholeNumber(w) && AllDigits(f)
    ensures var s := w + "." + f;
            WellWritten(s) && NumberValue(s) == IntValue(w) as real + IntValue(f) as real / Power10(|f|) as real
  {
    hide IntValue, Power10, WholeNumber, AllDigits, DotAt;
    var s := w + "." + f;
    GroupedChars(w);
    FirstDot(w, f);
    assert s[..|w|] == w && s[|w| + 1..] == f;
  }

  lemma WholeMeans(w: string)
    requires WholeNumber(w)
    ensures WellWritten(w) && NumberValue(w) == IntValue(w) as real
  {
    GroupedChars(w);
    NoDot(w);
    assert w[..|w|] == w;
  }

  lemma {:induction false} RunStops(s: string, rest: string)
    requires (forall k :: 0 <= k < |s| ==> NumberChar(s[k])) && (rest != "" ==> !NumberChar(rest[0]))
    ensures RunLength(s + rest) == |s|
  {
    if s == "" {
      assert s + rest == rest;
    } else {
      assert (s + rest)[1..] == s[1..] + rest;
      RunStops(s[1..], rest);
    }
  }

  predicate IsUnit(unit: nat) {
    unit in {10, 100, 1000, MAN, EOK, JO}
  }

  function UnitSign(unit: nat): char {
    if unit < MAN then SmallSign(unit) else LargeSign(unit)
  }

  function UnitToken(unit: nat): Token {
    if unit < MAN then Small(unit) else Large(unit)
  }

  lemma NumberAndUnitRead(s: string, unit: nat)
    requires s != "" && IsDigit(s[0]) && IsUnit(unit) && forall k :: 0 <= k < |s| ==> NumberChar(s[k])
    ensures Tokens(s + [UnitSign(unit)]) == [Num(s), UnitToken(unit)]
  {
    var sign := [UnitSign(unit)];
    if unit < MAN {
      SmallSignReads(unit, "");
    } else {
      SignReads(unit, "");
    }
    assert sign + "" == sign;
    RunStops(s, sign);
    assert (s + sign)[..|s|] == s && (s + sign)[|s|..] == sign;
  }

  /** A number in front of a unit is worth that many units. */
  lemma NumberAndUnitMean(s: string, unit: nat)
    requires WellWritten(s) && IsUnit(unit)
    ensures var st := Fold([Num(s), UnitToken(unit)]);
            st.Some? && ResultOf(st.value) == Times(NumberValue(s), unit)
  {
    hide WellWritten, NumberValue;
    var tokens := [Num(s), UnitToken(unit)];
    assert tokens[..1] == [Num(s)] && tokens[..1][..0] == [];
    assert Fold(tokens[..1]) == Some(START.(number := Some(NumberValue(s)), hasSection := true));
  }

  lemma WholeQuotient(x: real, m: nat, p: nat)
    requires p > 0 && Times(x, p) == m as real
    ensures Whole(x) == if m % p == 0 then Some(m / p) else None
  {
    hide Times, Whole;
    Division(m, p);
    Products(m / p, p, m % p);
    BetweenWholes(x, m / p, m % p, p);
  }

  lemma Division(m: nat, p: nat)
    requires p > 0
    ensures m == m / p * p + m % p && m % p < p
  {}

  lemma BetweenWholes(x: real, q: nat, r: nat, p: nat)
    requires r < p && Times(x, p) == Times(q as real, p) + r as real
    ensures Whole(x) == if r == 0 then Some(q) else None
  {
    hide Times, Whole;
    Between(x, q as real, r, p);
    WholeInUnit(x, q);
  }

  lemma Between(x: real, q: real, r: nat, p: nat)
    requires r < p && Times(x, p) == Times(q, p) + r as real
    ensures q <= x < q + 1.0 && (x == q <==> r == 0)
  {
    assert Times(q + 1.0, p) == Times(q, p) + p as real;
    hide Times;
    ProductOrder(q, x, p);
    ProductOrder(x, q, p);
    ProductOrder(x, q + 1.0, p);
  }

  lemma WholeInUnit(x: real, q: nat)
    requires q as real <= x < q as real + 1.0
    ensures Whole(x) == if x == q as real then Some(q) else None
  {
    assert x.Floor == q;
  }

  lemma Products(q: nat, p: nat, r: nat)
    ensures Times(q as real, p) + r as real == (q * p + r) as real
  {}

  lemma ProductOrder(a: real, b: real, p: nat)
    requires p > 0
    ensures a < b <==> Times(a, p) < Times(b, p)
  {}

  lemma NothingToClean(s: string)
    requires s != "" && IsDigit(s[0]) && forall k :: 0 <= k < |s| ==> !White(s[k])
    ensures NoBlanks(s) == s && Unsigned(s) == s && forall x :: Signed(s, x) == x
  {
    NothingBlank(s);
  }

  /** A decimal number with a unit, such as 1.5 with the sign for ten thousand: it is read as that many units exactly
      when they come to a whole amount, and refused otherwise. */
  lemma DecimalAmount(w: string, f: string, unit: nat)
    requires WholeNumber(w) && AllDigits(f) && IsUnit(unit)
    ensures var m, p := IntValue(w + f) * unit, Power10(|f|);
            Parse(w + "." + f + [UnitSign(unit)]) == if m % p == 0 then Some(m / p) else None
  {
    hide WholeNumber, AllDigits, WellWritten, NumberValue, IntValue, Tokens, Fold, Parse, NoBlanks, Unsigned, Signed, Sign, ResultOf, Whole, Power10;
    var s := w + "." + f;
    var text := s + [UnitSign(unit)];
    DecimalChars(w, f, unit);
    DecimalMeans(w, f);
    NumberAndUnitRead(s, unit);
    NumberAndUnitMean(s, unit);
    NothingToClean(text);
    ParseClean(text, text);
    var x := Times(NumberValue(s), unit);
    UnitScales(NumberValue(s), Power10(|f|), IntValue(w + f), unit);
    WholeQuotient(x, IntValue(w + f) * unit, Power10(|f|));
  }

  lemma UnitScales(x: real, p: nat, v: nat, unit: nat)
    requires x * p as real == v as real
    ensures Times(Times(x, unit), p) == (v * unit) as real
  {
    assert x * unit as real * p as real == x * p as real * unit as real;
  }

  lemma DecimalChars(w: string, f: string, unit: nat)
    requires WholeNumber(w) && AllDigits(f) && IsUnit(unit)
    ensures var s := w + "." + f;
            s != "" && IsDigit(s[0]) && (forall k :: 0 <= k < |s| ==> NumberChar(s[k]))
            && forall k :: 0 <= k <= |s| ==> !White((s + [UnitSign(unit)])[k])
  {
    GroupedChars(w);
    var s := w + "." + f;
    forall k | 0 <= k < |s| ensures NumberChar(s[k]) {
      assert k > |w| ==> s[k] == f[k - |w| - 1];
    }
  }

  // ----- numbers written as a decimal number of units -----

  /** The last `places` digits of a number, zeros included. */
  function Padded(v: nat, places: nat): (s: string)
    ensures |s| == places && forall k :: 0 <= k < |s| ==> IsDigit(s[k])
  {
    if places == 0 then "" else Padded(v / 10, places - 1) + [DigitChar(v % 10)]
  }

  lemma {:induction false} PaddedValue(v: nat, places: nat)
    requires v < Power10(places)
    ensures IntValue(Padded(v, places)) == v
  {
    if places > 0 {
      PaddedValue(v / 10, places - 1);
      IntAppend(Padded(v / 10, places - 1), DigitChar(v % 10));
    }
  }

  /** How many zeros a unit has. */
  function Zeros(unit: nat): (z: nat)
    ensures IsUnit(unit) ==> z > 0
  {
    if unit == 10 then 1 else if unit == 100 then 2 else if unit == 1000 then 3
    else if unit == MAN then 4 else if unit == EOK then 8 else 12
  }

  lemma ZerosAreRight(unit: nat)
    requires IsUnit(unit)
    ensures Power10(Zeros(unit)) == unit
  {
    assert Power10(4) == 10000;
    assert Power10(8) == 10000 * Power10(4);
    assert Power10(12) == 10000 * Power10(8);
  }

  function InUnits(n: nat, unit: nat): string
    requires IsUnit(unit)
  {
    Commas(n / unit) + "." + Padded(n % unit, Zeros(unit)) + [UnitSign(unit)]
  }

  /** Every number written as a decimal number of any unit is read back. */
  lemma InUnitsRoundTrip(n: nat, unit: nat)
    requires IsUnit(unit)
    ensures Parse(InUnits(n, unit)) == Some(n)
  {
    hide Parse, Commas, Padded, Power10, IntValue, WholeNumber, Zeros, UnitSign;
    var w, f := Commas(n / unit), Padded(n % unit, Zeros(unit));
    ZerosAreRight(unit);
    CommasAreWellWritten(n / unit);
    PaddedValue(n % unit, Zeros(unit));
    DigitsBehind(w, f);
    DecimalAmount(w, f, unit);
    assert IntValue(w + f) == n;
    assert n * unit % unit == 0 && n * unit / unit == n;
  }

  // ----- blanks and signs -----

  lemma {:induction false} BlankIsDropped(a: string, c: char, b: string)
    requires White(c)
    ensures NoBlanks(a + [c] + b) == NoBlanks(a + b)
  {
    if a == "" {
      assert a + b == b && (a + [c] + b)[1..] == b;
    } else {
      assert (a + [c] + b)[1..] == a[1..] + [c] + b && (a + b)[1..] == a[1..] + b;
      BlankIsDropped(a[1..], c, b);
    }
  }

  /** A blank plays no part, wherever it stands. */
  lemma BlankPlaysNoPart(a: string, c: char, b: string)
    requires White(c)
    ensures Parse(a + [c] + b) == Parse(a + b)
  {
    BlankIsDropped(a, c, b);
  }

  predicate IsSign(c: char) {
    c == '+' || c == '-'
  }

  lemma {:induction false} SignsAreNoBlanks(signs: string, s: string)
    requires forall k :: 0 <= k < |signs| ==> IsSign(signs[k])
    ensures NoBlanks(signs + s) == signs + NoBlanks(s)
  {
    if signs == "" {
      assert signs + s == s && signs + NoBlanks(s) == NoBlanks(s);
    } else {
      SignsAreNoBlanks(signs[1..], s);
      assert (signs + s)[1..] == signs[1..] + s;
    }
  }

  lemma {:induction false} SignsAreStripped(signs: string, s: string)
    requires (forall k :: 0 <= k < |signs| ==> IsSign(signs[k])) && (s != "" ==> !IsSign(s[0]))
    ensures Unsigned(signs + s) == s
  {
    if signs == "" {
      assert signs + s == s;
    } else {
      SignsAreStripped(signs[1..], s);
      assert (signs + s)[1..] == signs[1..] + s;
    }
  }

  function Negated(r: Option<int>): Option<int> {
    if r.Some? then Some(-r.value) else None
  }

  /** Of the signs in front only the first one counts. */
  lemma FirstSignCounts(signs: string, s: string)
    requires signs != "" && forall k :: 0 <= k < |signs| ==> IsSign(signs[k])
    requires s != "" ==> !White(s[0]) && !IsSign(s[0])
    ensures Parse(signs + s) == if signs[0] == '-' then Negated(Parse(s)) else Parse(s)
  {
    assert NoBlanks(s) != "" ==> NoBlanks(s)[0] == s[0];
    SignsAreNoBlanks(signs, s);
    SignsAreStripped(signs, NoBlanks(s));
    assert (signs + NoBlanks(s))[0] == signs[0];
    var st := Fold(Tokens(NoBlanks(s)));
    hide Fold, Tokens, NoBlanks, Unsigned, ResultOf;
    if st.Some? {
      WholeNegated(ResultOf(st.value));
    }
  }

  lemma WholeNegated(x: real)
    ensures Whole(-1.0 * x) == Negated(Whole(x)) && Whole(1.0 * x) == Whole(x)
  {
    assert 1.0 * x == x && -1.0 * x == -x;
    NegatedIsWhole(x);
    NegatedIsWhole(-x);
    assert -(-x) == x;
  }

  lemma NegatedIsWhole(x: real)
    ensures Whole(x).Some? ==> Whole(-x) == Some(-Whole(x).value)
  {
    if Whole(x).Some? {
      var n := Whole(x).value;
      assert -x == (-n) as real;
      WholeAt(-x, -n);
    }
  }

  lemma WholeAt(x: real, n: int)
    requires x == n as real
    ensures Whole(x) == Some(n)
  {
    assert x.Floor == n;
  }

  // ----- which numbers are well written -----

  /** Digits with a comma in front of every three from the right. */
  function WithCommas(d: string): string {
    if |d| <= 3 then d else WithCommas(d[..|d| - 3]) + "," + d[|d| - 3..]
  }

  /** The digits of a grouped number. */
  function Ungrouped(s: string): string {
    if s == "" then "" else (if s[0] == ',' then "" else [s[0]]) + Ungrouped(s[1..])
  }

  lemma {:induction false} UngroupedAppend(a: string, b: string)
    ensures Ungrouped(a + b) == Ungrouped(a) + Ungrouped(b)
  {
    if a == "" {
      assert a + b == b;
    } else {
      assert (a + b)[1..] == a[1..] + b;
      UngroupedAppend(a[1..], b);
    }
  }

  lemma {:induction false} DigitsAreUngrouped(d: string)
    requires forall k :: 0 <= k < |d| ==> IsDigit(d[k])
    ensures Ungrouped(d) == d
  {
    if d != "" {
      DigitsAreUngrouped(d[1..]);
    }
  }

  /** A grouped number is its digits with commas in the right places. */
  lemma {:induction false} GroupedIsWithCommas(s: string)
    requires Grouped(s)
    ensures AllDigits(Ungrouped(s)) && |Ungrouped(s)| >= 4 && s == WithCommas(Ungrouped(s))
    decreases |s|
  {
    var head, tail := s[..|s| - 4], s[|s| - 3..];
    assert s == head + "," + tail;
    UngroupedAppend(head + ",", tail);
    UngroupedAppend(head, ",");
    DigitsAreUngrouped(tail);
    if Grouped(head) {
      GroupedIsWithCommas(head);
    } else {
      DigitsAreUngrouped(head);
    }
    hide Grouped;
    OneGroupMore(s, head, tail, Ungrouped(s), Ungrouped(head));
  }

  lemma OneGroupMore(s: string, head: string, tail: string, d: string, front: string)
    requires s == head + "," + tail && d == front + tail && AllDigits(front) && AllDigits(tail) && |tail| == 3 && head == WithCommas(front)
    ensures AllDigits(d) && |d| >= 4 && s == WithCommas(d)
  {
    assert d[..|d| - 3] == front && d[|d| - 3..] == tail;
  }

  lemma {:induction false} WithCommasIsGrouped(d: string)
    requires AllDigits(d)
    ensures if |d| <= 3 then WithCommas(d) == d else Grouped(WithCommas(d))
    decreases |d|
  {
    if |d| > 3 {
      var front, tail := d[..|d| - 3], d[|d| - 3..];
      WithCommasIsGrouped(front);
      var s := WithCommas(front) + "," + tail;
      assert WithCommas(d) == s;
      assert s[..|s| - 4] == WithCommas(front) && s[|s| - 3..] == tail && s[|s| - 4] == ',';
      assert |front| > 3 ==> |WithCommas(front)| >= 5;
    }
  }

  /** A whole number is written with digits alone, or with four and more and a comma in front of every three from the right. */
  lemma WholeNumbersAre(s: string)
    ensures WholeNumber(s) <==> AllDigits(s) || exists d :: AllDigits(d) && |d| >= 4 && s == WithCommas(d)
  {
    if Grouped(s) {
      GroupedIsWithCommas(s);
    }
    forall d | AllDigits(d) && |d| >= 4 ensures Grouped(WithCommas(d)) {
      WithCommasIsGrouped(d);
    }
  }

  predicate IsDecimal(s: string, w: string, f: string) {
    WholeNumber(w) && AllDigits(f) && s == w + "." + f
  }

  /** A number is well written exactly when it is a whole number, or one with a dot and at least one digit behind it. */
  lemma WellWrittenIff(s: string)
    ensures WellWritten(s) <==> WholeNumber(s) || exists w, f :: IsDecimal(s, w, f)
  {
    var d := DotAt(s);
    hide WholeNumber, AllDigits;
    if WellWritten(s) {
      if d < |s| {
        assert s == s[..d] + "." + s[d + 1..];
        assert IsDecimal(s, s[..d], s[d + 1..]);
      } else {
        assert s[..d] == s;
      }
    }
    if WholeNumber(s) {
      WholeMeans(s);
    }
    if w, f :| IsDecimal(s, w, f) {
      DecimalMeans(w, f);
    }
  }
}
