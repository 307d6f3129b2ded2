/** The server-side text rules (`apply_text_rules`): drop ungrounded sentences, remove leaked evidence
    ids, check lengths and vocabulary, correct the meme tag. */
module TextRules {
  import opened Drafts

  datatype RuleCode = UngroundedClaim | SchemaInvalid | DuplicateIntensity | SetMismatch | Lexical(name: string)

  /** `at` is the index of the text the issue belongs to; None is a global issue. */
  datatype Issue = Issue(code: RuleCode, at: Option<nat>)

  /** One evidence reference of a rebuilt text. */
  datatype Ref = Ref(intensity: Intensity, statement: nat, cited: string, evidence: string)

  /** The character classes and word lists the rules consult. */
  datatype Lexicon = Lexicon(word: char -> bool, space: char -> bool, hits: (Intensity, seq<string>) -> seq<RuleCode>)

  ghost predicate Sane(lx: Lexicon) {
    && (forall c :: IsDigit(c) ==> lx.word(c))
    && lx.word('F') && lx.space(' ')
    && (forall c :: lx.space(c) ==> !lx.word(c))
    && (forall i, parts, c :: c in lx.hits(i, parts) ==> c != SetMismatch && c != DuplicateIntensity)
  }

  // ----- leaked ids: `\bF\d+`, removed by one left-to-right pass -----

  predicate IdStart(t: string) {
    |t| >= 2 && t[0] == 'F' && IsDigit(t[1])
  }

  /** An id somewhere in `t`, when the character before `t` is a word character iff `prevWord`. */
  predicate HasIdAfter(lx: Lexicon, prevWord: bool, t: string)
    decreases |t|
  {
    if t == "" then false
    else (IdStart(t) && !prevWord) || HasIdAfter(lx, lx.word(t[0]), t[1..])
  }

  predicate HasId(lx: Lexicon, t: string) {
    HasIdAfter(lx, false, t)
  }

  function Spaces(lx: Lexicon, t: string): (n: nat)
    ensures n <= |t|
    ensures forall k :: 0 <= k < n ==> lx.space(t[k])
    ensures n < |t| ==> !lx.space(t[n])
  {
    if t == "" || !lx.space(t[0]) then 0 else 1 + Spaces(lx, t[1..])
  }

  function Digits(t: string): (n: nat)
    ensures n <= |t|
    ensures forall k :: 0 <= k < n ==> IsDigit(t[k])
    ensures n < |t| ==> !IsDigit(t[n])
  {
    if t == "" || !IsDigit(t[0]) then 0 else 1 + Digits(t[1..])
  }

  /** Length of `F\d+` at the start of `t`. */
  function IdLength(t: string): (n: nat)
    requires IdStart(t)
    ensures 2 <= n <= |t| && IsDigit(t[n - 1])
  {
    1 + Digits(t[1..])
  }

  /** Length of `\s*,\s*F\d+` at the start of `t`; 0 when it does not start so. */
  function ListItem(lx: Lexicon, t: string): (n: nat)
    ensures n <= |t| && (n > 0 ==> IsDigit(t[n - 1]))
  {
    var a := Spaces(lx, t);
    if a < |t| && t[a] == ',' then
      var b := a + 1 + Spaces(lx, t[a + 1..]);
      if IdStart(t[b..]) then b + IdLength(t[b..]) else 0
    else 0
  }

  /** Length of the longest `(?:\s*,\s*F\d+)*` at the start of `t`. */
  function ListLength(lx: Lexicon, t: string): (n: nat)
    ensures n <= |t| && (n > 0 ==> IsDigit(t[n - 1]))
    decreases |t|
  {
    var c := ListItem(lx, t);
    if c > 0 then c + ListLength(lx, t[c..]) else 0
  }

  /** A list of further ids as authors write it: a comma, a blank or none, an id. */
  function FurtherIds(ids: seq<string>, blank: string): string {
    if ids == [] then "" else "," + blank + "F" + ids[0] + FurtherIds(ids[1..], blank)
  }

  lemma {:induction false} DigitsStop(d: string, rest: string)
    requires (forall k :: 0 <= k < |d| ==> IsDigit(d[k])) && (rest != "" ==> !IsDigit(rest[0]))
    ensures Digits(d + rest) == |d|
  {
    if d == "" {
      assert d + rest == rest;
    } else {
      assert (d + rest)[1..] == d[1..] + rest;
      DigitsStop(d[1..], rest);
    }
  }

  lemma OneId(d: string, rest: string)
    requires d != "" && (forall k :: 0 <= k < |d| ==> IsDigit(d[k])) && (rest != "" ==> !IsDigit(rest[0]))
    ensures IdStart("F" + d + rest) && IdLength("F" + d + rest) == 1 + |d|
  {
    DigitsStop(d, rest);
    assert ("F" + d + rest)[1..] == d + rest;
  }

  /** A whole list of ids is one match: nothing of it, not even its commas, is left behind. */
  lemma {:induction false} ListIsOneMatch(lx: Lexicon, ids: seq<string>, blank: string, rest: string)
    requires Sane(lx) && !lx.space(',') && blank in ["", " "]
    requires forall k :: 0 <= k < |ids| ==> ids[k] != "" && forall j :: 0 <= j < |ids[k]| ==> IsDigit(ids[k][j])
    requires rest != "" ==> !lx.space(rest[0]) && rest[0] != ',' && !IsDigit(rest[0])
    ensures ListLength(lx, FurtherIds(ids, blank) + rest) == |FurtherIds(ids, blank)|
  {
    hide ListLength, IdLength, IdStart, Digits, FurtherIds, Spaces;
    ListText(ids, blank, rest);
    if ids == [] {
      NoListHere(lx, rest);
    } else {
      var tail := FurtherIds(ids[1..], blank) + rest;
      ListText(ids[1..], blank, rest);
      ListIsOneMatch(lx, ids[1..], blank, rest);
      OneId(ids[0], tail);
      var id := "F" + ids[0] + tail;
      CommaFront(blank, id);
      BlankBefore(lx, blank, id);
      NoSpace(lx, "," + blank + id);
      OneOfTheList(lx, "," + blank + id, 1 + |blank|, id);
      assert id[1 + |ids[0]|..] == tail;
    }
  }

  lemma ListText(ids: seq<string>, blank: string, rest: string)
    ensures var t := FurtherIds(ids, blank) + rest;
            if ids == [] then FurtherIds(ids, blank) == "" && t == rest
            else && t == "," + blank + ("F" + ids[0] + (FurtherIds(ids[1..], blank) + rest)) && t[0] == ','
                 && |FurtherIds(ids, blank)| == 2 + |blank| + |ids[0]| + |FurtherIds(ids[1..], blank)|
  {
    if ids == [] {
      assert FurtherIds(ids, blank) + rest == rest;
    } else {
      var more := FurtherIds(ids[1..], blank);
      assert FurtherIds(ids, blank) == "," + blank + "F" + ids[0] + more;
      hide FurtherIds;
      Brackets("," + blank, "F" + ids[0], more, rest);
    }
  }

  lemma Brackets(a: string, b: string, c: string, d: string)
    ensures a + b + c + d == a + (b + (c + d))
  {}

  lemma NoListHere(lx: Lexicon, rest: string)
    requires rest != "" ==> !lx.space(rest[0]) && rest[0] != ','
    ensures ListLength(lx, rest) == 0
  {}

  lemma OneOfTheList(lx: Lexicon, t: string, b: nat, id: string)
    requires t != "" && t[0] == ',' && Spaces(lx, t) == 0 && b == 1 + Spaces(lx, t[1..]) && t[b..] == id && IdStart(id)
    ensures ListLength(lx, t) == b + IdLength(id) + ListLength(lx, id[IdLength(id)..])
  {
    hide ListLength, ListItem, IdLength, IdStart, Spaces;
    FirstItem(lx, t, b);
    DropTwice(t, b, IdLength(id));
    ListStep(lx, t);
  }

  lemma FirstItem(lx: Lexicon, t: string, b: nat)
    requires t != "" && t[0] == ',' && Spaces(lx, t) == 0 && b == 1 + Spaces(lx, t[1..]) && IdStart(t[b..])
    ensures ListItem(lx, t) == b + IdLength(t[b..])
  {
    hide IdLength, IdStart, Spaces;
  }

  lemma ListStep(lx: Lexicon, t: string)
    ensures ListLength(lx, t) == if ListItem(lx, t) > 0 then ListItem(lx, t) + ListLength(lx, t[ListItem(lx, t)..]) else 0
  {
    hide ListItem;
  }

  lemma CommaFront(blank: string, id: string)
    ensures var t := "," + blank + id; t[0] == ',' && t[1..] == blank + id && t[1 + |blank|..] == id
  {}

  lemma DropTwice(t: string, b: nat, n: nat)
    requires b + n <= |t|
    ensures t[b + n..] == t[b..][n..]
  {}

  lemma NoSpace(lx: Lexicon, t: string)
    requires t != "" && !lx.space(t[0])
    ensures Spaces(lx, t) == 0
  {}

  lemma BlankBefore(lx: Lexicon, blank: string, id: string)
    requires Sane(lx) && blank in ["", " "] && IdStart(id)
    ensures Spaces(lx, blank + id) == |blank|
  {
    assert !lx.space('F');
    assert blank == " " ==> (blank + id)[1..] == id;
    assert blank == "" ==> blank + id == id;
  }

  /** Length of one match of the id pattern whose `F` is at the start of `t`, trailing blanks included. */
  function MatchLength(lx: Lexicon, t: string): (n: nat)
    requires IdStart(t)
    ensures 2 <= n <= |t|
    ensures (IsDigit(t[n - 1]) && (n < |t| ==> !lx.space(t[n]))) || lx.space(t[n - 1])
  {
    var a := IdLength(t);
    var b := a + ListLength(lx, t[a..]);
    b + Spaces(lx, t[b..])
  }

  /** Length of the match starting at `t`, leading blanks included; 0 when there is none. */
  function MatchAt(lx: Lexicon, prevWord: bool, t: string): (n: nat)
    ensures n <= |t|
    ensures n > 0 ==> n >= 2 && ((IsDigit(t[n - 1]) && (n < |t| ==> !lx.space(t[n]))) || lx.space(t[n - 1]))
  {
    var w := Spaces(lx, t);
    if IdStart(t[w..]) && (w > 0 || !prevWord) then w + MatchLength(lx, t[w..]) else 0
  }

  /** Every match replaced by one blank, in a single pass. */
  function Blanked(lx: Lexicon, prevWord: bool, t: string): string
    decreases |t|
  {
    if t == "" then ""
    else
      var n := MatchAt(lx, prevWord, t);
      if n > 0 then " " + Blanked(lx, lx.word(t[n - 1]), t[n..])
      else [t[0]] + Blanked(lx, lx.word(t[0]), t[1..])
  }

  /** Runs of two or more blanks become one. */
  function Collapsed(lx: Lexicon, t: string): string
    decreases |t|
  {
    if t == "" then ""
    else
      var w := Spaces(lx, t);
      if w >= 2 then " " + Collapsed(lx, t[w..]) else [t[0]] + Collapsed(lx, t[1..])
  }

  function TrimmedEnd(lx: Lexicon, t: string): string {
    if t != "" && lx.space(t[|t| - 1]) then TrimmedEnd(lx, t[..|t| - 1]) else t
  }

  function StripIds(lx: Lexicon, t: string): string {
    var c := Collapsed(lx, Blanked(lx, false, t));
    TrimmedEnd(lx, c[Spaces(lx, c)..])
  }

  /** Some match is followed, with nothing in between, by `F` and a digit: "F1F2". */
  predicate Glued(lx: Lexicon, prevWord: bool, t: string)
    decreases |t|
  {
    if t == "" then false
    else
      var n := MatchAt(lx, prevWord, t);
      if n > 0 then (IsDigit(t[n - 1]) && IdStart(t[n..])) || Glued(lx, lx.word(t[n - 1]), t[n..])
      else Glued(lx, lx.word(t[0]), t[1..])
  }

  lemma {:induction false} BlankedIds(lx: Lexicon, prevWord: bool, t: string)
    requires Sane(lx)
    ensures HasIdAfter(lx, prevWord, Blanked(lx, prevWord, t)) <==> Glued(lx, prevWord, t)
    decreases |t|
  {
    if t != "" {
      var n := MatchAt(lx, prevWord, t);
      if n > 0 {
        var w, r := lx.word(t[n - 1]), t[n..];
        BlankedIds(lx, w, r);
        AfterMatch(lx, prevWord, t, n, w, r);
      } else {
        BlankedIds(lx, lx.word(t[0]), t[1..]);
        AfterCopy(lx, prevWord, t);
      }
    }
  }

  lemma AfterMatch(lx: Lexicon, prevWord: bool, t: string, n: nat, w: bool, r: string)
    requires Sane(lx) && t != "" && n == MatchAt(lx, prevWord, t) && n > 0 && w == lx.word(t[n - 1]) && r == t[n..]
    ensures HasIdAfter(lx, prevWord, Blanked(lx, prevWord, t))
            <==> (IsDigit(t[n - 1]) && IdStart(r)) || HasIdAfter(lx, w, Blanked(lx, w, r))
  {
    hide Blanked, MatchAt, HasIdAfter, IdStart;
    BlankedMatch(lx, prevWord, t, n);
    MatchEnds(lx, prevWord, t, n);
    AfterBlank(lx, prevWord, Blanked(lx, w, r));
    if w {
      AfterDigit(lx, r);
    }
  }

  lemma BlankedMatch(lx: Lexicon, prevWord: bool, t: string, n: nat)
    requires t != "" && n == MatchAt(lx, prevWord, t) && n > 0
    ensures n <= |t| && Blanked(lx, prevWord, t) == " " + Blanked(lx, lx.word(t[n - 1]), t[n..])
  {
    hide MatchAt;
  }

  /** A match ends in a blank, or in a digit that no blank follows. */
  lemma MatchEnds(lx: Lexicon, prevWord: bool, t: string, n: nat)
    requires Sane(lx) && n == MatchAt(lx, prevWord, t) && n > 0
    ensures n <= |t| && (lx.word(t[n - 1]) <==> IsDigit(t[n - 1])) && (IsDigit(t[n - 1]) && n < |t| ==> !lx.space(t[n]))
  {
    hide MatchAt;
  }

  lemma AfterBlank(lx: Lexicon, prevWord: bool, x: string)
    requires Sane(lx)
    ensures HasIdAfter(lx, prevWord, " " + x) <==> HasIdAfter(lx, false, x)
  {
    assert (" " + x)[1..] == x;
  }

  lemma AfterCopy(lx: Lexicon, prevWord: bool, t: string)
    requires Sane(lx) && t != "" && MatchAt(lx, prevWord, t) == 0
    ensures HasIdAfter(lx, prevWord, Blanked(lx, prevWord, t))
            <==> HasIdAfter(lx, lx.word(t[0]), Blanked(lx, lx.word(t[0]), t[1..]))
  {
    var x := Blanked(lx, lx.word(t[0]), t[1..]);
    assert Blanked(lx, prevWord, t) == [t[0]] + x && ([t[0]] + x)[1..] == x;
    NextDigit(lx, lx.word(t[0]), t[1..]);
    if t[0] == 'F' {
      assert Spaces(lx, t) == 0 && t[0..] == t;
    }
  }

  /** The first character of a blanked text is a digit exactly when the text's own first one is. */
  lemma NextDigit(lx: Lexicon, prevWord: bool, t: string)
    requires Sane(lx)
    ensures var x := Blanked(lx, prevWord, t); (x != "" && IsDigit(x[0])) <==> (t != "" && IsDigit(t[0]))
  {
    if t != "" && IsDigit(t[0]) {
      assert !lx.space(t[0]) && t[0..] == t;
    }
  }

  /** Right after a match that ended in a digit, a fresh blank exposes an id iff one is glued there. */
  lemma AfterDigit(lx: Lexicon, r: string)
    requires Sane(lx) && (r != "" ==> !lx.space(r[0]))
    ensures var x := Blanked(lx, true, r);
            HasIdAfter(lx, false, x) <==> IdStart(r) || HasIdAfter(lx, true, x)
  {
    if r != "" {
      assert Spaces(lx, r) == 0 && r[0..] == r;
      var y := Blanked(lx, lx.word(r[0]), r[1..]);
      assert Blanked(lx, true, r) == [r[0]] + y;
      assert ([r[0]] + y)[1..] == y;
      NextDigit(lx, lx.word(r[0]), r[1..]);
    }
  }

  lemma {:induction false} SkipSpaces(lx: Lexicon, prevWord: bool, t: string, n: nat)
    requires Sane(lx) && n <= |t| && forall k :: 0 <= k < n ==> lx.space(t[k])
    ensures HasIdAfter(lx, prevWord, t) <==> HasIdAfter(lx, prevWord && n == 0, t[n..])
    decreases n
  {
    if n > 0 {
      SkipSpaces(lx, false, t[1..], n - 1);
      assert t[1..][n - 1..] == t[n..];
    } else {
      assert t[0..] == t;
    }
  }

  lemma {:induction false} CollapsedIds(lx: Lexicon, prevWord: bool, t: string)
    requires Sane(lx)
    ensures HasIdAfter(lx, prevWord, Collapsed(lx, t)) <==> HasIdAfter(lx, prevWord, t)
    ensures (t == "" <==> Collapsed(lx, t) == "") && (t != "" && !lx.space(t[0]) ==> Collapsed(lx, t)[0] == t[0])
    ensures t != "" && lx.space(t[0]) ==> lx.space(Collapsed(lx, t)[0])
    decreases |t|
  {
    if t != "" {
      var w := Spaces(lx, t);
      if w >= 2 {
        CollapsedIds(lx, false, t[w..]);
        SkipSpaces(lx, prevWord, t, w);
        assert (" " + Collapsed(lx, t[w..]))[1..] == Collapsed(lx, t[w..]);
      } else {
        CollapsedIds(lx, lx.word(t[0]), t[1..]);
        assert ([t[0]] + Collapsed(lx, t[1..]))[1..] == Collapsed(lx, t[1..]);
      }
    }
  }

  lemma {:induction false} DropLastSpace(lx: Lexicon, prevWord: bool, t: string)
    requires Sane(lx) && t != "" && lx.space(t[|t| - 1])
    ensures HasIdAfter(lx, prevWord, t) <==> HasIdAfter(lx, prevWord, t[..|t| - 1])
    decreases |t|
  {
    if |t| > 1 {
      DropLastSpace(lx, lx.word(t[0]), t[1..]);
      assert t[1..][..|t| - 2] == t[..|t| - 1][1..];
    }
  }

  lemma {:induction false} TrimmedIds(lx: Lexicon, t: string)
    requires Sane(lx)
    ensures HasId(lx, TrimmedEnd(lx, t)) <==> HasId(lx, t)
    decreases |t|
  {
    if t != "" && lx.space(t[|t| - 1]) {
      DropLastSpace(lx, false, t);
      TrimmedIds(lx, t[..|t| - 1]);
    }
  }

  /** The removal pass leaves a text free of ids exactly when no id is glued to the one before it. */
  lemma StripIdsExact(lx: Lexicon, t: string)
    requires Sane(lx)
    ensures HasId(lx, StripIds(lx, t)) <==> Glued(lx, false, t)
  {
    var b := Blanked(lx, false, t);
    var c := Collapsed(lx, b);
    BlankedIds(lx, false, t);
    CollapsedIds(lx, false, b);
    SkipSpaces(lx, false, c, Spaces(lx, c));
    TrimmedIds(lx, c[Spaces(lx, c)..]);
  }

  /** No two blanks stand next to each other. */
  predicate NoRuns(lx: Lexicon, t: string) {
    forall k :: 0 <= k < |t| - 1 ==> !(lx.space(t[k]) && lx.space(t[k + 1]))
  }

  lemma {:induction false} CollapsedHasNoRuns(lx: Lexicon, t: string)
    requires Sane(lx)
    ensures var c := Collapsed(lx, t);
            NoRuns(lx, c) && (c != "" ==> t != "" && (lx.space(c[0]) <==> lx.space(t[0])))
    decreases |t|
  {
    if t != "" {
      var w := Spaces(lx, t);
      CollapsedHasNoRuns(lx, if w >= 2 then t[w..] else t[1..]);
    }
  }

  lemma {:induction false} TrimmedEndIs(lx: Lexicon, t: string)
    ensures var e := TrimmedEnd(lx, t); e <= t && (e != "" ==> !lx.space(e[|e| - 1])) && forall k :: |e| <= k < |t| ==> lx.space(t[k])
  {
    if t != "" && lx.space(t[|t| - 1]) {
      TrimmedEndIs(lx, t[..|t| - 1]);
    }
  }

  /** A stripped text is tidy: no runs of blanks, and none at either end. */
  lemma StrippedIsTidy(lx: Lexicon, t: string)
    requires Sane(lx)
    ensures var s := StripIds(lx, t);
            NoRuns(lx, s) && (s != "" ==> !lx.space(s[0]) && !lx.space(s[|s| - 1]))
  {
    hide Blanked, Collapsed, TrimmedEnd, Spaces, NoRuns, Sane;
    var b := Blanked(lx, false, t);
    CollapsedHasNoRuns(lx, b);
    TrimmedBoth(lx, Collapsed(lx, b));
  }

  lemma TrimmedBoth(lx: Lexicon, c: string)
    requires NoRuns(lx, c)
    ensures var s := TrimmedEnd(lx, c[Spaces(lx, c)..]);
            NoRuns(lx, s) && (s != "" ==> !lx.space(s[0]) && !lx.space(s[|s| - 1]))
  {
    hide TrimmedEnd, Spaces;
    var w := Spaces(lx, c);
    var m := c[w..];
    TrimmedEndIs(lx, m);
    assert NoRuns(lx, m) by {
      forall k | 0 <= k < |m| - 1 ensures !(lx.space(m[k]) && lx.space(m[k + 1])) {
        assert m[k] == c[w + k] && m[k + 1] == c[w + k + 1];
      }
    }
  }

  /** "F1F2" comes out as "F2": the single pass can leave an id behind. */
  lemma GluedIdsSurvive(lx: Lexicon)
    requires Sane(lx)
    ensures StripIds(lx, "F1F2") == "F2" && HasId(lx, "F2")
  {
    var t := "F1F2";
    assert !lx.space('F') && !lx.space('1') && !lx.space('2');
    assert t[0..] == t && t[1..] == "1F2" && t[1..][1..] == "F2" && t[2..] == "F2";
    assert Digits("F2") == 0 && Digits("1F2") == 1;
    assert Spaces(lx, "F2") == 0 && ListLength(lx, "F2") == 0;
    assert "F2"[0..] == "F2" && "F2"[1..] == "2" && "2"[1..] == "";
    assert MatchAt(lx, false, t) == 2;
    assert Blanked(lx, true, "2") == "2" by { assert "2"[0..] == "2"; assert MatchAt(lx, true, "2") == 0; }
    assert Blanked(lx, true, "F2") == "F2" by { assert MatchAt(lx, true, "F2") == 0; }
    assert Blanked(lx, false, t) == " F2";
    assert " F2"[1..] == "F2";
    assert Collapsed(lx, "2") == "2" && Collapsed(lx, "F2") == "F2";
    assert Spaces(lx, " F2") == 1 && Collapsed(lx, " F2") == " F2";
  }

  // ----- rules 1-3 on one text (`_rebuild_text`) -----

  predicate NeedsGround(s: Statement) {
    s.kind == Fact || s.kind == Claim
  }

  predicate Grounded(s: Statement, labels: map<string, string>) {
    s.labels != [] && forall k :: 0 <= k < |s.labels| ==> s.labels[k] in labels
  }

  predicate Keeps(s: Statement, labels: map<string, string>) {
    !NeedsGround(s) || Grounded(s, labels)
  }

  function Kept(stmts: seq<Statement>, labels: map<string, string>): (r: seq<Statement>)
    ensures forall s :: s in r <==> s in stmts && Keeps(s, labels)
  {
    if stmts == [] then []
    else
      var init, last := stmts[..|stmts| - 1], stmts[|stmts| - 1];
      assert stmts == init + [last];
      Kept(init, labels) + if Keeps(last, labels) then [last] else []
  }

  function Untainted(lx: Lexicon, stmts: seq<Statement>): (r: seq<Statement>)
    ensures forall s :: s in r <==> s in stmts && !HasId(lx, s.text)
    ensures r == [] <==> forall s :: s in stmts ==> HasId(lx, s.text)
  {
    if stmts == [] then []
    else (if HasId(lx, stmts[0].text) then [] else [stmts[0]]) + Untainted(lx, stmts[1..])
  }

  function Stripped(lx: Lexicon, stmts: seq<Statement>): (r: seq<Statement>)
    ensures forall s :: s in r ==> s.text != "" && exists t :: t in stmts && s == t.(text := StripIds(lx, t.text))
  {
    if stmts == [] then []
    else
      var s := stmts[0].(text := StripIds(lx, stmts[0].text));
      (if s.text == "" then [] else [s]) + Stripped(lx, stmts[1..])
  }

  /** Drop the sentences with ids when something is left without them; otherwise strip the ids. */
  function WithoutIds(lx: Lexicon, stmts: seq<Statement>): seq<Statement> {
    var clean := Untainted(lx, stmts);
    if |clean| >= STATEMENT_MIN || stmts == [] then clean else Stripped(lx, stmts)
  }

  function Cleaned(lx: Lexicon, labels: map<string, string>, d: Draft): Draft {
    d.(headline := if HasId(lx, d.headline) then StripIds(lx, d.headline) else d.headline,
       statement := WithoutIds(lx, Kept(d.statement, labels)))
  }

  function Parts(d: Draft): seq<string> {
    [d.headline] + seq(|d.statement|, k requires 0 <= k < |d.statement| => d.statement[k].text)
  }

  function LengthIssues(d: Draft): (r: seq<RuleCode>)
    ensures r == [] <==> |d.headline| <= HEADLINE_MAX && TotalLength(d.statement) <= STATEMENT_TOTAL_MAX
                         && STATEMENT_MIN <= |d.statement| <= STATEMENT_MAX
    ensures forall c :: c in r ==> c == SchemaInvalid
  {
    (if |d.headline| > HEADLINE_MAX then [SchemaInvalid] else [])
    + (if TotalLength(d.statement) > STATEMENT_TOTAL_MAX then [SchemaInvalid] else [])
    + (if STATEMENT_MIN <= |d.statement| <= STATEMENT_MAX then [] else [SchemaInvalid])
  }

  /** Everything the rules have to say about one text, on its own. */
  function TextIssues(lx: Lexicon, labels: map<string, string>, d: Draft): seq<RuleCode> {
    (if d.statement != [] && Kept(d.statement, labels) == [] then [UngroundedClaim] else [])
    + LengthIssues(Cleaned(lx, labels, d))
    + lx.hits(d.intensity, Parts(Cleaned(lx, labels, d)))
  }

  /** Rule 1: the loop that keeps grounded sentences. */
  method KeepGrounded(stmts: seq<Statement>, labels: map<string, string>) returns (kept: seq<Statement>)
    ensures kept == Kept(stmts, labels)
  {
    kept := [];
    for n := 0 to |stmts|
      invariant kept == Kept(stmts[..n], labels)
    {
      assert stmts[..n + 1][..n] == stmts[..n];
      if Keeps(stmts[n], labels) {
        kept := kept + [stmts[n]];
      }
    }
    assert stmts[..|stmts|] == stmts;
  }

  method RebuildText(lx: Lexicon, labels: map<string, string>, d: Draft) returns (out: Draft, codes: seq<RuleCode>)
    ensures out == Cleaned(lx, labels, d)
    ensures codes + lx.hits(d.intensity, Parts(out)) == TextIssues(lx, labels, d)
  {
    hide HasId, StripIds, Kept, WithoutIds, LengthIssues, Parts;
    codes := [];
    var kept := KeepGrounded(d.statement, labels);
    if d.statement != [] && kept == [] {
      codes := codes + [UngroundedClaim];
    }
    out := d.(statement := WithoutIds(lx, kept));
    if HasId(lx, d.headline) {
      out := out.(headline := StripIds(lx, d.headline));
    }
    codes := codes + LengthIssues(out);
  }

  /** When some kept sentence carries no id, the rebuilt text has none either, and what it keeps is
      exactly the grounded, id-free sentences. */
  lemma DropBranchIsIdFree(lx: Lexicon, labels: map<string, string>, d: Draft, s: Statement)
    requires s in d.statement && Keeps(s, labels) && !HasId(lx, s.text)
    ensures forall t :: t in Cleaned(lx, labels, d).statement <==> t in d.statement && Keeps(t, labels) && !HasId(lx, t.text)
  {
    assert s in Kept(d.statement, labels);
    assert s in Untainted(lx, Kept(d.statement, labels));
  }

  /** Otherwise ids are stripped in place, and the text ends up id-free iff none of them was glued. */
  lemma StripBranchIdFree(lx: Lexicon, stmts: seq<Statement>)
    requires Sane(lx) && forall s :: s in stmts ==> HasId(lx, s.text)
    ensures (forall t :: t in WithoutIds(lx, stmts) ==> !HasId(lx, t.text)) <==> (forall s :: s in stmts ==> !Glued(lx, false, s.text))
  {
    assert WithoutIds(lx, stmts) == if stmts == [] then [] else Stripped(lx, stmts);
    forall s | s in stmts ensures HasId(lx, StripIds(lx, s.text)) <==> Glued(lx, false, s.text) {
      StripIdsExact(lx, s.text);
    }
    if s :| s in stmts && Glued(lx, false, s.text) {
      StrippedHas(lx, stmts, s);
    }
  }

  lemma {:induction false} StrippedHas(lx: Lexicon, stmts: seq<Statement>, s: Statement)
    requires s in stmts && StripIds(lx, s.text) != ""
    ensures s.(text := StripIds(lx, s.text)) in Stripped(lx, stmts)
  {
    if s != stmts[0] {
      assert s in stmts[1..];
      StrippedHas(lx, stmts[1..], s);
    }
  }

  /** Rebuilding keeps intensity and source, and there is nothing to object to exactly when a sentence is left, the
      word lists have no hit, and the rebuilt text is within the stored limits. */
  lemma NoIssuesMeansWithinLimits(lx: Lexicon, labels: map<string, string>, d: Draft)
    ensures var c := Cleaned(lx, labels, d);
            && c.intensity == d.intensity && c.source == d.source
            && (TextIssues(lx, labels, d) == [] <==>
                  && (d.statement == [] || exists s :: s in d.statement && Keeps(s, labels))
                  && lx.hits(d.intensity, Parts(c)) == []
                  && |c.headline| <= 30 && 1 <= |c.statement| <= 4 && TotalLength(c.statement) <= 300)
  {
    hide WithoutIds, Keeps, HasId, StripIds;
    var kept := Kept(d.statement, labels);
    assert kept != [] ==> kept[0] in kept;
  }

  /** Exactly a text all of whose sentences lack their ground is called ungrounded by these rules, and exactly a headline
      with an id is stripped. */
  lemma UngroundedIsNamed(lx: Lexicon, labels: map<string, string>, d: Draft)
    requires UngroundedClaim !in lx.hits(d.intensity, Parts(Cleaned(lx, labels, d)))
    ensures UngroundedClaim in TextIssues(lx, labels, d) <==> d.statement != [] && forall s :: s in d.statement ==> !Keeps(s, labels)
    ensures Cleaned(lx, labels, d).headline == (if HasId(lx, d.headline) then StripIds(lx, d.headline) else d.headline)
  {
    hide WithoutIds, Keeps, HasId, StripIds;
    var kept := Kept(d.statement, labels);
    assert kept != [] ==> kept[0] in kept;
  }

  /** Opinions always stay; a fact or a claim stays exactly when it cites something and nothing unknown. */
  lemma KeptExactly(stmts: seq<Statement>, labels: map<string, string>, s: Statement)
    ensures s in Kept(stmts, labels) <==>
            s in stmts && (s.kind.Opinion? || (|s.labels| > 0 && forall l :: l in s.labels ==> l in labels))
  {
    assert forall l :: l in s.labels <==> exists k :: 0 <= k < |s.labels| && s.labels[k] == l;
  }

  // ----- the whole draft (`apply_text_rules`) -----

  function IssuesAt(issues: seq<Issue>, k: nat): seq<RuleCode> {
    if issues == [] then []
    else IssuesAt(issues[..|issues| - 1], k)
         + if issues[|issues| - 1].at == Some(k) then [issues[|issues| - 1].code] else []
  }

  function Tagged(codes: seq<RuleCode>, n: nat): seq<Issue> {
    seq(|codes|, k requires 0 <= k < |codes| => Issue(codes[k], Some(n)))
  }

  lemma {:induction false} IssuesAtAppend(a: seq<Issue>, codes: seq<RuleCode>, n: nat, k: nat)
    ensures IssuesAt(a + Tagged(codes, n), k) == IssuesAt(a, k) + (if n == k then codes else [])
    decreases |codes|
  {
    if codes == [] {
      assert a + Tagged(codes, n) == a;
    } else {
      var init := codes[..|codes| - 1];
      var all := a + Tagged(codes, n);
      assert all[..|all| - 1] == a + Tagged(init, n);
      IssuesAtAppend(a, init, n, k);
      assert codes == init + [codes[|codes| - 1]];
    }
  }

  lemma {:induction false} NoIssuesAt(issues: seq<Issue>, k: nat)
    ensures IssuesAt(issues, k) == [] <==> forall x :: x in issues ==> x.at != Some(k)
  {
    if issues != [] {
      NoIssuesAt(issues[..|issues| - 1], k);
      assert issues == issues[..|issues| - 1] + [issues[|issues| - 1]];
    }
  }

  lemma {:induction false} NoneBeyond(issues: seq<Issue>, n: nat)
    requires forall x :: x in issues ==> x.at.None? || x.at.value < n
    ensures forall k: nat :: k >= n ==> IssuesAt(issues, k) == []
  {
    forall k: nat | k >= n ensures IssuesAt(issues, k) == [] {
      NoIssuesAt(issues, k);
    }
  }

  predicate Repeats(drafts: seq<Draft>, k: nat)
    requires k < |drafts|
  {
    exists j :: 0 <= j < k && drafts[j].intensity == drafts[k].intensity
  }

  function IssuesOf(lx: Lexicon, labels: map<string, string>, drafts: seq<Draft>, k: nat): seq<RuleCode>
    requires k < |drafts|
  {
    (if Repeats(drafts, k) then [DuplicateIntensity] else []) + TextIssues(lx, labels, drafts[k])
  }

  /** A text is called a duplicate exactly when one before it has its intensity. */
  lemma DuplicatesAreNamed(lx: Lexicon, labels: map<string, string>, drafts: seq<Draft>, k: nat)
    requires Sane(lx) && k < |drafts|
    ensures DuplicateIntensity in IssuesOf(lx, labels, drafts, k) <==> drafts[k].intensity in Intensities(drafts)[..k]
  {
    var before := Intensities(drafts)[..k];
    assert forall j :: 0 <= j < k ==> before[j] == drafts[j].intensity;
    assert DuplicateIntensity !in lx.hits(drafts[k].intensity, Parts(Cleaned(lx, labels, drafts[k])));
    hide Kept, Cleaned, LengthIssues;
  }

  predicate SameSet(a: seq<Intensity>, b: seq<Intensity>) {
    (forall i :: i in a ==> i in b) && (forall i :: i in b ==> i in a)
  }

  /** Rebuilds every text and collects the issues. Text `k` gets exactly its own issues: they depend
      on no other text beyond a repeated intensity, and the one global issue is a wrong set of
      intensities. */
  method ApplyTextRules(lx: Lexicon, labels: map<string, string>, drafts: seq<Draft>, targets: seq<Intensity>)
    returns (out: seq<Draft>, issues: seq<Issue>)
    ensures |out| == |drafts| && forall k :: 0 <= k < |out| ==> out[k] == Cleaned(lx, labels, drafts[k])
    ensures forall k :: 0 <= k < |drafts| ==> IssuesAt(issues, k) == IssuesOf(lx, labels, drafts, k)
    ensures forall x :: x in issues && x.at.Some? ==> x.at.value < |drafts|
    ensures (exists x :: x in issues && x.at.None?) <==> exists i: Intensity :: (i in Intensities(drafts)) != (i in targets)
  {
    out, issues := AllTexts(lx, labels, drafts);
    if !SameSet(Intensities(drafts), targets) {
      GlobalIssue(issues, Issue(SetMismatch, None));
      issues := issues + [Issue(SetMismatch, None)];
      assert issues[|issues| - 1].at.None?;
    }
  }

  method AllTexts(lx: Lexicon, labels: map<string, string>, drafts: seq<Draft>) returns (out: seq<Draft>, issues: seq<Issue>)
    ensures |out| == |drafts| && forall k :: 0 <= k < |out| ==> out[k] == Cleaned(lx, labels, drafts[k])
    ensures forall k :: 0 <= k < |drafts| ==> IssuesAt(issues, k) == IssuesOf(lx, labels, drafts, k)
    ensures forall x :: x in issues ==> x.at.Some? && x.at.value < |drafts|
  {
    hide IssuesAt, IssuesOf, Cleaned;
    out, issues := [], [];
    for n := 0 to |drafts|
      invariant |out| == n && forall k :: 0 <= k < n ==> out[k] == Cleaned(lx, labels, drafts[k])
      invariant forall k :: 0 <= k < n ==> IssuesAt(issues, k) == IssuesOf(lx, labels, drafts, k)
      invariant forall x :: x in issues ==> x.at.Some? && x.at.value < n
    {
      var d, codes := RulesOnOne(lx, labels, drafts, n);
      AddIssues(issues, codes, n);
      issues := issues + Tagged(codes, n);
      out := out + [d];
    }
  }

  method RulesOnOne(lx: Lexicon, labels: map<string, string>, drafts: seq<Draft>, n: nat) returns (d: Draft, codes: seq<RuleCode>)
    requires n < |drafts|
    ensures d == Cleaned(lx, labels, drafts[n]) && codes == IssuesOf(lx, labels, drafts, n)
  {
    hide Repeats, TextIssues, WithoutIds, Kept, StripIds, HasId, Parts;
    codes := if Repeats(drafts, n) then [DuplicateIntensity] else [];
    var more;
    d, more := RebuildText(lx, labels, drafts[n]);
    var hits := lx.hits(d.intensity, Parts(d));
    assert codes + more + hits == codes + (more + hits);
    codes := codes + more + hits;
  }

  lemma AddIssues(issues: seq<Issue>, codes: seq<RuleCode>, n: nat)
    requires forall x :: x in issues ==> x.at.Some? && x.at.value < n
    ensures forall k: nat :: k < n ==> IssuesAt(issues + Tagged(codes, n), k) == IssuesAt(issues, k)
    ensures IssuesAt(issues + Tagged(codes, n), n) == codes
  {
    NoneBeyond(issues, n);
    forall k: nat | k <= n
      ensures IssuesAt(issues + Tagged(codes, n), k) == IssuesAt(issues, k) + (if n == k then codes else [])
    {
      IssuesAtAppend(issues, codes, n, k);
    }
  }

  lemma GlobalIssue(issues: seq<Issue>, x: Issue)
    requires x.at.None?
    ensures forall k: nat :: IssuesAt(issues + [x], k) == IssuesAt(issues, k)
  {
    assert (issues + [x])[..|issues|] == issues;
  }

  /** The references of one rebuilt text: every known label of every sentence, and nothing else. */
  method EvidenceRefs(labels: map<string, string>, d: Draft) returns (refs: seq<Ref>)
    ensures forall j, l :: 0 <= j < |d.statement| && l in d.statement[j].labels && l in labels ==> Ref(d.intensity, j, l, labels[l]) in refs
    ensures forall r :: r in refs ==> r.intensity == d.intensity && r.statement < |d.statement| && r.cited in d.statement[r.statement].labels
                                      && r.cited in labels && r.evidence == labels[r.cited]
  {
    refs := [];
    for j := 0 to |d.statement|
      invariant forall i, l :: 0 <= i < j && l in d.statement[i].labels && l in labels ==> Ref(d.intensity, i, l, labels[l]) in refs
      invariant forall r :: r in refs ==> r.intensity == d.intensity && r.statement < j && r.cited in d.statement[r.statement].labels
                                          && r.cited in labels && r.evidence == labels[r.cited]
    {
      var ls := d.statement[j].labels;
      for k := 0 to |ls|
        invariant forall i, l :: 0 <= i < j && l in d.statement[i].labels && l in labels ==> Ref(d.intensity, i, l, labels[l]) in refs
        invariant forall m :: 0 <= m < k && ls[m] in labels ==> Ref(d.intensity, j, ls[m], labels[ls[m]]) in refs
        invariant forall r :: r in refs ==> r.intensity == d.intensity && r.statement <= j && r.cited in d.statement[r.statement].labels
                                            && r.cited in labels && r.evidence == labels[r.cited]
      {
        if ls[k] in labels {
          refs := refs + [Ref(d.intensity, j, ls[k], labels[ls[k]])];
        }
      }
    }
  }

  // ----- rule 4: the meme tag -----

  datatype Result = Guilty | NotGuilty | Agree | Disagree
  datatype MemeTag = GUILTY_HEAVY | GUILTY_LIGHT | NOT_GUILTY | APPROVED | REJECTED
  datatype Allowed = Allowed(code: string, rank: int)

  /** Position `k` is the first one that carries the sentence. */
  predicate FirstWith(allowed: seq<Allowed>, sentence: Option<string>, k: int) {
    0 <= k < |allowed| && Some(allowed[k].code) == sentence && forall j :: 0 <= j < k ==> Some(allowed[j].code) != sentence
  }

  function RankOf(allowed: seq<Allowed>, sentence: Option<string>): (r: Option<int>)
    ensures r.Some? ==> exists k :: FirstWith(allowed, sentence, k) && allowed[k].rank == r.value
    ensures r.None? ==> forall k :: 0 <= k < |allowed| ==> Some(allowed[k].code) != sentence
  {
    assert allowed != [] ==> forall k :: FirstWith(allowed[1..], sentence, k) && Some(allowed[0].code) != sentence ==> FirstWith(allowed, sentence, k + 1);
    assert allowed != [] && Some(allowed[0].code) == sentence ==> FirstWith(allowed, sentence, 0);
    if allowed == [] then None
    else if Some(allowed[0].code) == sentence then Some(allowed[0].rank)
    else RankOf(allowed[1..], sentence)
  }

  function CorrectMemeTag(result: Result, allowed: seq<Allowed>, sentence: Option<string>): MemeTag {
    match result
    case Guilty =>
      var rank := RankOf(allowed, sentence);
      if rank.Some? && forall k :: 0 <= k < |allowed| ==> allowed[k].rank <= rank.value then GUILTY_HEAVY else GUILTY_LIGHT
    case NotGuilty => NOT_GUILTY
    case Agree => APPROVED
    case Disagree => REJECTED
  }

  /** The heavy tag means a guilty verdict whose sentence is on the list, at the highest rank of all. */
  lemma HeavyMeansTopRank(result: Result, allowed: seq<Allowed>, sentence: Option<string>)
    ensures CorrectMemeTag(result, allowed, sentence) == GUILTY_HEAVY <==>
              result.Guilty? && exists k :: FirstWith(allowed, sentence, k) && forall j :: 0 <= j < |allowed| ==> allowed[j].rank <= allowed[k].rank
    ensures result.Guilty? <==> CorrectMemeTag(result, allowed, sentence) in {GUILTY_HEAVY, GUILTY_LIGHT}
    ensures result.NotGuilty? <==> CorrectMemeTag(result, allowed, sentence) == NOT_GUILTY
    ensures result.Agree? <==> CorrectMemeTag(result, allowed, sentence) == APPROVED
    ensures result.Disagree? <==> CorrectMemeTag(result, allowed, sentence) == REJECTED
  {
    var rank := RankOf(allowed, sentence);
    if k :| FirstWith(allowed, sentence, k) {
      assert rank.Some?;
      var n :| FirstWith(allowed, sentence, n) && allowed[n].rank == rank.value;
      assert n == k;
    }
  }
}
