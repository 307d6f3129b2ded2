/** Shapes shared by the sentencing graph and its rule checkers: intensities, drafts and the
    length contracts of `contracts/writer.py`. */
module Drafts {

  datatype Option<+T> = None | Some(value: T)

  datatype Intensity = Mild | Spicy | Hell

  datatype Source = AI | TEMPLATE

  datatype Kind = Fact | Claim | Opinion

  datatype Statement = Statement(text: string, kind: Kind, labels: seq<string>)

  /** One verdict text. `angle` stands for the remaining metadata no rule here reads. */
  datatype Draft = Draft(intensity: Intensity, headline: string, statement: seq<Statement>, angle: string, source: Source)

  const HEADLINE_MAX := 30
  const STATEMENT_MIN := 1
  const STATEMENT_MAX := 4
  const STATEMENT_TOTAL_MAX := 300
  const CARD_HEADLINE_MAX := 20
  const CARD_STATEMENT_MAX := 100
  const LABELS_MAX := 16

  predicate IsDigit(c: char) {
    '0' <= c <= '9'
  }

  predicate LineBreak(c: char) {
    c in "\r\n\U{000b}\U{000c}\U{001c}\U{001d}\U{001e}\U{0085}\U{2028}\U{2029}"
  }

  /** White space as Unicode has it: what `strip` removes and what ends a word. */
  predicate White(c: char) {
    || '\t' <= c <= '\r' || '\U{001c}' <= c <= ' ' || c == '\U{0085}' || c == '\U{00a0}' || c == '\U{1680}'
    || '\U{2000}' <= c <= '\U{200a}' || c == '\U{2028}' || c == '\U{2029}' || c == '\U{202f}' || c == '\U{205f}' || c == '\U{3000}'
  }

  /** A card line: something other than white space, and no line break. */
  predicate CardLine(s: string) {
    && (exists k :: 0 <= k < |s| && !White(s[k]))
    && (forall k :: 0 <= k < |s| ==> !LineBreak(s[k]))
  }

  predicate EvidenceLabel(s: string) {
    |s| >= 2 && s[0] == 'F' && forall k :: 1 <= k < |s| ==> IsDigit(s[k])
  }

  predicate LabelsOk(labels: seq<string>) {
    |labels| <= LABELS_MAX && forall k :: 0 <= k < |labels| ==> EvidenceLabel(labels[k])
  }

  function TotalLength(statement: seq<Statement>): nat {
    if statement == [] then 0 else |statement[0].text| + TotalLength(statement[1..])
  }

  /** The stricter shape every newly written or templated text must have. */
  predicate IsCard(d: Draft) {
    && 1 <= |d.headline| <= CARD_HEADLINE_MAX && CardLine(d.headline)
    && |d.statement| == 1
    && 1 <= |d.statement[0].text| <= CARD_STATEMENT_MAX && CardLine(d.statement[0].text)
    && LabelsOk(d.statement[0].labels)
  }

  /** The stored contract of one text. */
  predicate IsTextDraft(d: Draft) {
    && |d.headline| <= HEADLINE_MAX
    && STATEMENT_MIN <= |d.statement| <= STATEMENT_MAX
    && (forall k :: 0 <= k < |d.statement| ==>
          1 <= |d.statement[k].text| <= STATEMENT_TOTAL_MAX && LabelsOk(d.statement[k].labels))
    && TotalLength(d.statement) <= STATEMENT_TOTAL_MAX
  }

  predicate Distinct<T(==)>(s: seq<T>) {
    forall i, j :: 0 <= i < j < |s| ==> s[i] != s[j]
  }

  function Intensities(texts: seq<Draft>): (r: seq<Intensity>)
    ensures |r| == |texts|
    ensures forall k :: 0 <= k < |r| ==> r[k] == texts[k].intensity
  {
    seq(|texts|, k requires 0 <= k < |texts| => texts[k].intensity)
  }

  /** The stored contract of a whole draft: one to three texts of different intensities. */
  predicate IsWriterDraft(texts: seq<Draft>) {
    && 1 <= |texts| <= 3
    && (forall k :: 0 <= k < |texts| ==> IsTextDraft(texts[k]))
    && Distinct(Intensities(texts))
  }

  /** A line of plain characters, none of them white space or a line break. */
  predicate PlainLine(s: string) {
    forall k :: 0 <= k < |s| ==> !White(s[k]) && !LineBreak(s[k])
  }

  /** Plain lines make a card exactly within its limits: 20 characters of headline, one sentence of 100, 16 labels. */
  lemma PlainCard(d: Draft, s: Statement)
    requires d.statement == [s] && PlainLine(d.headline) && PlainLine(s.text)
    requires forall k :: 0 <= k < |s.labels| ==> EvidenceLabel(s.labels[k])
    ensures IsCard(d) <==> 1 <= |d.headline| <= 20 && 1 <= |s.text| <= 100 && |s.labels| <= 16
  {
    assert d.headline != "" ==> !White(d.headline[0]);
    assert s.text != "" ==> !White(s.text[0]);
  }

  /** The headline and the sentence of a card are one line each and not blank. */
  lemma CardsAreLines(d: Draft)
    requires IsCard(d)
    ensures |d.statement| == 1
    ensures forall s :: s in [d.headline, d.statement[0].text] ==>
              (exists c :: c in s && c !in " \t\n\U{3000}") && forall c :: c in s ==> c !in "\r\n\U{0085}\U{2028}\U{2029}"
  {
    forall s | s in [d.headline, d.statement[0].text]
      ensures (exists c :: c in s && c !in " \t\n\U{3000}") && forall c :: c in s ==> c !in "\r\n\U{0085}\U{2028}\U{2029}"
    {
      var k :| 0 <= k < |s| && !White(s[k]);
      assert s[k] in s;
    }
  }

  lemma {:induction false} TotalsAddUp(a: seq<Statement>, b: seq<Statement>)
    ensures TotalLength(a + b) == TotalLength(a) + TotalLength(b)
    ensures |a| == 1 ==> TotalLength(a) == |a[0].text|
  {
    if a == [] {
      assert a + b == b;
    } else {
      assert (a + b)[1..] == a[1..] + b;
      TotalsAddUp(a[1..], b);
    }
  }

  lemma {:induction false} PartOfTotal(statement: seq<Statement>, k: nat)
    requires k < |statement|
    ensures |statement[k].text| <= TotalLength(statement)
  {
    if k > 0 {
      PartOfTotal(statement[1..], k - 1);
    }
  }

  /** The stored limits of a text: 30 characters of headline and one to four sentences, none empty, of 300 together. */
  lemma StoredLimits(d: Draft)
    requires forall k :: 0 <= k < |d.statement| ==> LabelsOk(d.statement[k].labels)
    ensures IsTextDraft(d) <==> |d.headline| <= 30 && 1 <= |d.statement| <= 4 && TotalLength(d.statement) <= 300
                                && forall k :: 0 <= k < |d.statement| ==> d.statement[k].text != ""
  {
    hide TotalLength, LabelsOk;
    forall k | 0 <= k < |d.statement| ensures |d.statement[k].text| <= TotalLength(d.statement) {
      PartOfTotal(d.statement, k);
    }
  }

  /** Passing the card check on every text already implies the stored contract, so the graph's
      "reassembled draft breaks the contract" exit cannot be taken. */
  lemma CardsMeetTheContract(texts: seq<Draft>)
    requires 1 <= |texts| <= 3 && Distinct(Intensities(texts))
    requires forall k :: 0 <= k < |texts| ==> IsCard(texts[k])
    ensures IsWriterDraft(texts)
  {
    forall k | 0 <= k < |texts| ensures IsTextDraft(texts[k]) {
      var s := texts[k].statement;
      assert s[1..] == [];
      assert TotalLength(s) == |s[0].text| + TotalLength(s[1..]);
    }
  }

  /** Three intensities exist, so a duplicate-free list has at most three members. */
  lemma DistinctBound(s: seq<Intensity>)
    requires Distinct(s)
    ensures |s| <= 3
  {
    if |s| > 3 {
      FourOfThree(s[0], s[1], s[2], s[3]);
    }
  }

  lemma FourOfThree(a: Intensity, b: Intensity, c: Intensity, d: Intensity)
    ensures a == b || a == c || a == d || b == c || b == d || c == d
  {}
}
