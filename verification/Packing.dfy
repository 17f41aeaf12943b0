// A refusal's rule and reason: packed as "[rule] reason" in one column before revision f4d2e8b1a075,
// in two columns after it. Its upgrade unpacks every stored row, its downgrade packs them again, and
// the repository's own reader still understands both forms.
module Packing {
  import opened Common

  // ---------------------------------------------------------------- trimming

  // SQL's btrim takes spaces only; Python's str.strip takes every white-space character.
  datatype Trim = Sql | Python

  predicate Blank(c: char, t: Trim) {
    || c == ' '
    || (t.Python? &&
        var n := c as int;
        || 9 <= n <= 13 || 0x1c <= n <= 0x1f || n == 0x85 || n == 0xa0 || n == 0x1680
        || 0x2000 <= n <= 0x200a || n == 0x2028 || n == 0x2029 || n == 0x202f || n == 0x205f || n == 0x3000)
  }

  function LStrip(s: string, t: Trim): string {
    if s != "" && Blank(s[0], t) then LStrip(s[1..], t) else s
  }

  function RStrip(s: string, t: Trim): string {
    if s != "" && Blank(s[|s| - 1], t) then RStrip(s[..|s| - 1], t) else s
  }

  function Strip(s: string, t: Trim): string {
    RStrip(LStrip(s, t), t)
  }

  // Nothing to strip at either end.
  predicate Clean(s: string, t: Trim) {
    s == "" || (!Blank(s[0], t) && !Blank(s[|s| - 1], t))
  }

  predicate Blanks(s: string, t: Trim) {
    forall i :: 0 <= i < |s| ==> Blank(s[i], t)
  }

  lemma {:induction false} LStripParts(s: string, t: Trim) returns (a: string)
    ensures Blanks(a, t) && s == a + LStrip(s, t)
    ensures LStrip(s, t) != "" ==> !Blank(LStrip(s, t)[0], t)
  {
    a := "";
    if s != "" && Blank(s[0], t) {
      var rest := LStripParts(s[1..], t);
      a := [s[0]] + rest;
    }
  }

  lemma {:induction false} RStripParts(s: string, t: Trim) returns (b: string)
    ensures Blanks(b, t) && s == RStrip(s, t) + b
    ensures RStrip(s, t) != "" ==> !Blank(RStrip(s, t)[|RStrip(s, t)| - 1], t)
  {
    b := "";
    if s != "" && Blank(s[|s| - 1], t) {
      var rest := RStripParts(s[..|s| - 1], t);
      b := rest + [s[|s| - 1]];
    }
  }

  // What stripping leaves is clean and is the text between two runs of blanks ...
  lemma StripParts(s: string, t: Trim) returns (a: string, b: string)
    ensures Blanks(a, t) && Blanks(b, t) && s == a + Strip(s, t) + b && Clean(Strip(s, t), t)
  {
    a := LStripParts(s, t);
    b := RStripParts(LStrip(s, t), t);
  }

  // ... and it is the only such text.
  lemma StripIs(s: string, t: Trim, a: string, w: string, b: string)
    requires s == a + w + b && Blanks(a, t) && Blanks(b, t) && Clean(w, t)
    ensures Strip(s, t) == w
  {
    var c, d := StripParts(s, t);
    var u := Strip(s, t);
    assert w != "" ==> s[|a|] == w[0] && s[|a + w| - 1] == w[|w| - 1];
    assert u != "" ==> s[|c|] == u[0] && s[|c + u| - 1] == u[|u| - 1];
    assert forall i :: 0 <= i < |s| && (i < |a| || i >= |a + w|) ==> Blank(s[i], t);
    assert forall i :: 0 <= i < |s| && (i < |c| || i >= |c + u|) ==> Blank(s[i], t);
    if w != "" {
      assert |c| <= |a| && |a + w| <= |c + u|;
      assert |a| <= |c| && |c + u| <= |a + w|;
      assert w == s[|a|..|a + w|] == u;
    }
  }

  lemma StripTwice(s: string)
    ensures Strip(Strip(s, Sql), Python) == Strip(s, Python)
  {
    var a, b := StripParts(s, Sql);
    var c, d := StripParts(Strip(s, Sql), Python);
    var w := Strip(Strip(s, Sql), Python);
    assert s == (a + c) + w + (d + b);
    StripIs(s, Python, a + c, w, d + b);
  }

  // ---------------------------------------------------------------- the packed grammar

  const COLUMN_WIDTH: nat := 50

  // rejected_by and rejection_reason; before the upgrade every rule is absent.
  datatype Row = Row(rule: Option<string>, reason: Option<string>)

  datatype Overflow = TooLong(rule: string)

  function IndexOf(s: string, c: char): (i: nat)
    ensures i <= |s| && (i < |s| ==> s[i] == c)
    ensures forall k :: 0 <= k < i ==> s[k] != c
  {
    if s == "" || s[0] == c then 0 else 1 + IndexOf(s[1..], c)
  }

  // LIKE '[%]%': a leading bracket and a closing one somewhere after it.
  predicate Bracketed(s: string) {
    s != "" && s[0] == '[' && ']' in s
  }

  function Close(s: string): (k: nat)
    requires Bracketed(s)
    ensures 0 < k < |s| && s[k] == ']'
  {
    IndexOf(s, ']')
  }

  function RestOf(s: string): string
    requires Bracketed(s)
  {
    s[Close(s) + 1..]
  }

  // The regular expression wants at least one character between the brackets.
  predicate Named(s: string) {
    Bracketed(s) && Close(s) > 1
  }

  function RuleIn(s: string): string
    requires Named(s)
  {
    s[1..Close(s)]
  }

  function NullIfEmpty(s: string): Option<string> {
    if s == "" then None else Some(s)
  }

  function OrEmpty(s: Option<string>): string {
    match s case Some(v) => v case None => ""
  }

  // Storing text in a varchar(50): an excess of nothing but spaces is cut off, any other is an error.
  function Fitted(rule: string): Result<string, Overflow> {
    if |rule| <= COLUMN_WIDTH then Ok(rule)
    else if Blanks(rule[COLUMN_WIDTH..], Sql) then Ok(rule[..COLUMN_WIDTH])
    else Err(TooLong(rule))
  }

  // What the upgrade makes of one stored reason.
  function Unpack(stored: Option<string>): Result<Row, Overflow> {
    if stored.None? || !Bracketed(stored.value) then Ok(Row(None, stored))
    else if !Named(stored.value) then Ok(Row(None, NullIfEmpty(Strip(stored.value, Sql))))
    else match Fitted(RuleIn(stored.value))
      case Ok(rule) => Ok(Row(Some(rule), NullIfEmpty(Strip(RestOf(stored.value), Sql))))
      case Err(e) => Err(e)
  }

  // What the downgrade stores back.
  function Pack(row: Row): Option<string> {
    match row.rule
    case None => row.reason
    case Some(rule) => Some(Packed(rule, OrEmpty(row.reason)))
  }

  function Packed(rule: string, reason: string): string {
    Strip("[" + rule + "] " + reason, Sql)
  }

  // _split_reason, the reader of the packed form.
  function SplitReason(stored: Option<string>): Row {
    if stored.None? || !Bracketed(stored.value) then Row(None, stored)
    else Row(Some(stored.value[1..Close(stored.value)]), NullIfEmpty(Strip(RestOf(stored.value), Python)))
  }

  // What the repository reads from a row: the columns, or the packed form of a row without a rule.
  function Read(row: Row): Row {
    if row.rule.Some? then row else SplitReason(row.reason)
  }

  // ---------------------------------------------------------------- packed text

  // Packed text opens with the rule's bracket, and stripping what follows the rule gives the reason.
  lemma PackedParts(rule: string, reason: string) returns (rest: string)
    ensures Packed(rule, reason) == "[" + rule + "]" + rest
    ensures Strip(rest, Sql) == Strip(reason, Sql) && Strip(rest, Python) == Strip(reason, Python)
    ensures Clean(reason, Sql) ==> rest == if reason == "" then "" else " " + reason
  {
    var a, b := StripParts(reason, Sql);
    var w := Strip(reason, Sql);
    if w == "" {
      rest := "";
      PackedBlank(rule, reason);
    } else {
      rest := " " + a + w;
      PackedText(rule, reason, a, w, b);
    }
    StripTwice(rest);
    StripTwice(reason);
    if Clean(reason, Sql) {
      StripIs(reason, Sql, "", reason, "");
    }
  }

  lemma PackedBlank(rule: string, reason: string)
    requires Strip(reason, Sql) == ""
    ensures Packed(rule, reason) == "[" + rule + "]" + "" && Strip("", Sql) == ""
  {
    var a, b := StripParts(reason, Sql);
    var head, full := "[" + rule + "]", "[" + rule + "] " + reason;
    assert full == "" + head + (" " + reason);
    StripIs(full, Sql, "", head, " " + reason);
    StripIs("", Sql, "", "", "");
  }

  lemma PackedText(rule: string, reason: string, a: string, w: string, b: string)
    requires reason == a + w + b && Blanks(a, Sql) && Blanks(b, Sql) && w != "" && Clean(w, Sql)
    ensures Packed(rule, reason) == "[" + rule + "]" + (" " + a + w) && Strip(" " + a + w, Sql) == w
  {
    var head, full := "[" + rule + "]" + (" " + a + w), "[" + rule + "] " + reason;
    assert full == "" + head + b;
    StripIs(full, Sql, "", head, b);
    assert " " + a + w == (" " + a) + w + "";
    StripIs(" " + a + w, Sql, " " + a, w, "");
  }

  // How a text that opens with a bracketed name is read.
  lemma HeadGrammar(s: string, name: string, rest: string)
    requires s == "[" + name + "]" + rest
    ensures Bracketed(s) && Close(s) == 1 + IndexOf(name, ']')
    ensures ']' !in name ==> s[1..Close(s)] == name && RestOf(s) == rest
  {
    var i := IndexOf(name, ']');
    assert s[0] == '[' && s[1 + |name|] == ']';
    assert forall k :: 0 <= k < |name| ==> s[1 + k] == name[k];
    assert s[1 + i] == ']';
    assert forall k :: 1 <= k < 1 + i ==> s[k] == name[k - 1];
    assert IndexOf(s, ']') == 1 + i;
  }

  lemma PackedGrammar(rule: string, reason: string)
    ensures Bracketed(Packed(rule, reason))
    ensures Close(Packed(rule, reason)) == 1 + IndexOf(rule, ']')
    ensures ']' !in rule ==>
              && Packed(rule, reason)[1..Close(Packed(rule, reason))] == rule
              && Strip(RestOf(Packed(rule, reason)), Sql) == Strip(reason, Sql)
              && Strip(RestOf(Packed(rule, reason)), Python) == Strip(reason, Python)
  {
    var rest := PackedParts(rule, reason);
    HeadGrammar(Packed(rule, reason), rule, rest);
  }

  // ---------------------------------------------------------------- round trips

  // Rows that survive being packed: a rule the grammar can tell from its reason and the column can
  // hold, beside a reason without spaces around it; or no rule, beside a reason that names none.
  predicate Packable(row: Row) {
    match row.rule
    case Some(rule) =>
      && rule != "" && ']' !in rule && |rule| <= COLUMN_WIDTH
      && (row.reason.None? || (row.reason.value != "" && Clean(row.reason.value, Sql)))
    case None =>
      || row.reason.None? || !Bracketed(row.reason.value)
      || (!Named(row.reason.value) && Clean(row.reason.value, Sql))
  }

  lemma CleanIsStripped(s: string, t: Trim)
    ensures Clean(s, t) <==> Strip(s, t) == s
  {
    var a, b := StripParts(s, t);
    if Clean(s, t) {
      StripIs(s, t, "", s, "");
    }
  }

  lemma UnpackPacked(rule: string, reason: string, packed: string)
    requires packed == Packed(rule, reason)
    ensures rule != "" && ']' !in rule && |rule| <= COLUMN_WIDTH ==>
              Unpack(Some(packed)) == Ok(Row(Some(rule), NullIfEmpty(Strip(reason, Sql))))
    ensures !(rule != "" && ']' !in rule && |rule| <= COLUMN_WIDTH) ==>
              Unpack(Some(packed)).Err? || Unpack(Some(packed)).value.rule != Some(rule)
  {
    PackedGrammar(rule, reason);
  }

  // Downgrading and upgrading again restores a row exactly when it is packable.
  lemma UnpackInvertsPack(row: Row)
    ensures Unpack(Pack(row)) == Ok(row) <==> Packable(row)
  {
    var reason := OrEmpty(row.reason);
    CleanIsStripped(reason, Sql);
    if row.rule.Some? {
      UnpackPacked(row.rule.value, reason, Packed(row.rule.value, reason));
    }
  }

  // Every row the upgrade writes is packable: going back and forth afterwards loses nothing more.
  lemma UpgradedRowsArePackable(stored: Option<string>)
    requires Unpack(stored).Ok?
    ensures Packable(Unpack(stored).value)
    ensures Unpack(Pack(Unpack(stored).value)) == Unpack(stored)
  {
    if stored.Some? && Bracketed(stored.value) {
      if Named(stored.value) {
        var a, b := StripParts(RestOf(stored.value), Sql);
      } else {
        LeadingBracketStays(stored.value);
      }
    }
    UnpackInvertsPack(Unpack(stored).value);
  }

  // Stripping spaces leaves a leading bracket where it is.
  lemma OnlyTheTail(s: string) returns (b: string)
    requires s != "" && s[0] == '['
    ensures Blanks(b, Sql) && s == Strip(s, Sql) + b && Clean(Strip(s, Sql), Sql)
  {
    var a;
    a, b := StripParts(s, Sql);
    assert a == "";
  }

  lemma LeadingBracketStays(s: string)
    requires Bracketed(s)
    ensures var w := Strip(s, Sql);
            && Clean(w, Sql) && Bracketed(w) && Close(w) == Close(s)
            && w[1..Close(w)] == s[1..Close(s)]
            && Strip(RestOf(w), Python) == Strip(RestOf(s), Python)
  {
    var b := OnlyTheTail(s);
    var w, name := Strip(s, Sql), s[1..Close(s)];
    assert Close(s) < |w|;
    var rest := w[Close(s) + 1..];
    assert w == s[..|w|] == "[" + name + "]" + rest;
    assert ']' !in name;
    HeadGrammar(w, name, rest);
    HeadGrammar(s, name, rest + b);
    LooseEnd(rest, b);
  }

  lemma LooseEnd(rest: string, b: string)
    requires Blanks(b, Sql)
    ensures Strip(rest + b, Python) == Strip(rest, Python)
  {
    var c, d := StripParts(rest, Python);
    assert rest + b == c + Strip(rest, Python) + (d + b);
    StripIs(rest + b, Python, c, Strip(rest, Python), d + b);
  }

  // What follows the rule in a text the downgrade writes.
  predicate CanonicalTail(rest: string) {
    rest == "" || (|rest| > 1 && rest[0] == ' ' && Clean(rest[1..], Sql))
  }

  // Packed text the way the downgrade writes it.
  predicate Canonical(s: string)
    requires Named(s)
  {
    |RuleIn(s)| <= COLUMN_WIDTH && CanonicalTail(RestOf(s))
  }

  lemma SameParts(a: string, x: string, b: string, y: string)
    requires ']' !in a && ']' !in b
    ensures "[" + a + "]" + x == "[" + b + "]" + y <==> a == b && x == y
  {
    HeadGrammar("[" + a + "]" + x, a, x);
    HeadGrammar("[" + b + "]" + y, b, y);
  }

  lemma Repacked(name: string, rest: string, rule: string, w: string)
    requires ']' !in name && Fitted(name) == Ok(rule) && w == Strip(rest, Sql)
    ensures Packed(rule, w) == "[" + name + "]" + rest <==> |name| <= COLUMN_WIDTH && CanonicalTail(rest)
  {
    var a, b := StripParts(rest, Sql);
    var tail := PackedParts(rule, w);
    SameParts(rule, tail, name, rest);
    CanonicalRest(rest);
  }

  // Upgrading and downgrading again gives back a packed text exactly when it was canonical.
  lemma PackInvertsUnpack(s: string)
    requires Named(s) && Unpack(Some(s)).Ok?
    ensures Pack(Unpack(Some(s)).value) == Some(s) <==> Canonical(s)
  {
    var name, rest := RuleIn(s), RestOf(s);
    assert s == "[" + name + "]" + rest;
    assert ']' !in name;
    Repacked(name, rest, Fitted(name).value, Strip(rest, Sql));
  }

  lemma CanonicalRest(rest: string)
    ensures var w := Strip(rest, Sql);
            rest == (if w == "" then "" else " " + w)
            <==> CanonicalTail(rest)
  {
    var a, b := StripParts(rest, Sql);
    if |rest| > 1 && rest[0] == ' ' && Clean(rest[1..], Sql) {
      assert rest == " " + rest[1..] + "";
      StripIs(rest, Sql, " ", rest[1..], "");
    }
    if rest == " " + Strip(rest, Sql) {
      assert rest[1..] == Strip(rest, Sql);
    }
  }

  // ---------------------------------------------------------------- what readers see

  // A stored reason from which no rule is read keeps its text exactly when it is not a pair of empty
  // brackets with spaces at the end: such a text passes the WHERE clause and is trimmed all the same.
  lemma KeptWhole(s: string)
    requires !Named(s)
    ensures Unpack(Some(s)) == Ok(Row(None, Some(s))) <==> !(Bracketed(s) && s[|s| - 1] == ' ')
  {
    CleanIsStripped(s, Sql);
  }

  lemma NotAlwaysKeptWhole()
    ensures !Named("[] x ") && Unpack(Some("[] x ")) == Ok(Row(None, Some("[] x")))
  {
    var s := "[] x ";
    assert s[1] == ']';
    assert s == "" + "[] x" + " ";
    StripIs(s, Sql, "", "[] x", " ");
  }

  // The upgrade parses with the grammar of the reader it replaces, up to what counts as white space
  // and to the width of the new column: what is read from a row afterwards is what was read before
  // exactly when the rule fits and no white space but spaces surrounds the reason.
  lemma UpgradeKeepsTheReading(stored: Option<string>)
    requires Unpack(stored).Ok?
    ensures Read(Unpack(stored).value) == SplitReason(stored) <==>
            || stored.None? || !Named(stored.value)
            || (|RuleIn(stored.value)| <= COLUMN_WIDTH && Clean(Strip(RestOf(stored.value), Sql), Python))
  {
    if stored.Some? && Bracketed(stored.value) {
      var s := stored.value;
      if Named(s) {
        StripTwice(RestOf(s));
        CleanIsStripped(Strip(RestOf(s), Sql), Python);
      } else {
        LeadingBracketStays(s);
      }
    }
  }

  // A downgraded reader finds the rule and the reason of the row exactly when the rule closes no
  // bracket of its own and the reason has nothing to strip. Rows without a rule it reads as before.
  lemma DowngradeKeepsTheReading(row: Row)
    ensures SplitReason(Pack(row)) == Read(row) <==>
            || row.rule.None?
            || (']' !in row.rule.value
                && (row.reason.None? || (row.reason.value != "" && Clean(row.reason.value, Python))))
  {
    if row.rule.Some? {
      PackedGrammar(row.rule.value, OrEmpty(row.reason));
      CleanIsStripped(OrEmpty(row.reason), Python);
      var p := Packed(row.rule.value, OrEmpty(row.reason));
      assert |p[1..Close(p)]| == IndexOf(row.rule.value, ']');
    }
  }

  // The column holds fifty characters: a longer rule fits only if all beyond them are spaces, which are
  // cut off.
  lemma ColumnHoldsFifty(rule: string, rest: string)
    requires rule != "" && ']' !in rule
    ensures var unpacked := Unpack(Some("[" + rule + "]" + rest));
            && (unpacked.Ok? <==> forall i :: 50 <= i < |rule| ==> rule[i] == ' ')
            && (unpacked.Ok? ==> unpacked.value.rule == Some(rule[..Min(|rule|, 50)]))
  {
    var s := "[" + rule + "]" + rest;
    HeadGrammar(s, rule, rest);
    assert RuleIn(s) == rule;
    if |rule| > 50 {
      assert forall i :: 0 <= i < |rule| - 50 ==> rule[50..][i] == rule[50 + i];
      assert forall i :: 50 <= i < |rule| ==> rule[i] == rule[50..][i - 50];
    } else {
      assert rule[..|rule|] == rule;
    }
  }

  // What each side strips, among the ASCII characters.
  lemma WhatIsBlank(c: char)
    ensures Blank(c, Sql) <==> c == ' '
    ensures c as int < 128 ==>
              (Blank(c, Python) <==> c in " \t\n\r" || c as int == 11 || c as int == 12 || 28 <= c as int <= 31)
  {
  }

  lemma TabStrips(rest: string)
    requires rest == " \tx "
    ensures Strip(rest, Sql) == "\tx" && Strip(rest, Python) == "x"
  {
    assert rest == " " + "\tx" + " ";
    StripIs(rest, Sql, " ", "\tx", " ");
    assert rest == " \t" + "x" + " ";
    StripIs(rest, Python, " \t", "x", " ");
  }

  // A reason set off by a tab: the reader used to strip it, the migration keeps it.
  lemma TabSurvivesTheUpgrade(s: string)
    requires s == "[" + "r" + "]" + " \tx "
    ensures Unpack(Some(s)) == Ok(Row(Some("r"), Some("\tx")))
    ensures SplitReason(Some(s)) == Row(Some("r"), Some("x"))
  {
    HeadGrammar(s, "r", " \tx ");
    TabStrips(RestOf(s));
  }

  // The new column says `rule` of exactly the texts that open with it in brackets, so filtering on the
  // column is filtering on the prefix; a name of the full width also collects longer ones padded with
  // spaces.
  lemma RuleIsThePrefix(s: string, rule: string)
    ensures Unpack(Some(s)).Ok? && Unpack(Some(s)).value.rule == Some(rule) <==>
            && 0 < |rule| <= COLUMN_WIDTH && ']' !in rule
            && exists pad: string :: Pads(s, rule, pad)
  {
    if Named(s) && Unpack(Some(s)).Ok? && Unpack(Some(s)).value.rule == Some(rule) {
      var pad := RuleIn(s)[|rule|..];
      assert "[" + rule + pad + "]" == s[..Close(s) + 1];
      assert Pads(s, rule, pad);
    }
    if 0 < |rule| <= COLUMN_WIDTH && ']' !in rule && exists pad :: Pads(s, rule, pad) {
      var pad :| Pads(s, rule, pad);
      PrefixIsTheRule(s, rule, pad);
    }
  }

  lemma PrefixIsTheRule(s: string, rule: string, pad: string)
    requires 0 < |rule| <= COLUMN_WIDTH && ']' !in rule && Pads(s, rule, pad)
    ensures Unpack(Some(s)).Ok? && Unpack(Some(s)).value.rule == Some(rule)
  {
    var head := "[" + (rule + pad) + "]";
    assert s == head + s[|head|..];
    HeadGrammar(s, rule + pad, s[|head|..]);
    assert RuleIn(s) == rule + pad;
    if pad == "" {
      assert rule + pad == rule;
    } else {
      assert (rule + pad)[COLUMN_WIDTH..] == pad && (rule + pad)[..COLUMN_WIDTH] == rule;
    }
  }

  ghost predicate Pads(s: string, rule: string, pad: string) {
    "[" + rule + pad + "]" <= s && Blanks(pad, Sql) && (pad == "" || |rule| == COLUMN_WIDTH)
  }

  // ---------------------------------------------------------------- the migration

  // The table as the upgrade leaves it, if it goes through.
  ghost predicate Unpacked(rows: seq<Row>, after: seq<Row>) {
    |after| == |rows| && forall i :: 0 <= i < |rows| ==> Unpack(rows[i].reason) == Ok(after[i])
  }

  // The table as the downgrade leaves it.
  function Repack(rows: seq<Row>): seq<Row> {
    seq(|rows|, i requires 0 <= i < |rows| => Row(None, Pack(rows[i])))
  }

  // Downgrading a table and upgrading it again goes through and restores every row exactly when every
  // row is packable.
  lemma TableComesBack(rows: seq<Row>)
    ensures Unpacked(Repack(rows), rows) <==> forall i :: 0 <= i < |rows| ==> Packable(rows[i])
  {
    forall i | 0 <= i < |rows| ensures Unpack(Repack(rows)[i].reason) == Ok(rows[i]) <==> Packable(rows[i]) {
      UnpackInvertsPack(rows[i]);
    }
  }

  // So once a table has been upgraded, a downgrade and another upgrade change nothing.
  lemma UpgradedTableComesBack(rows: seq<Row>, after: seq<Row>)
    requires Unpacked(rows, after)
    ensures Unpacked(Repack(after), after)
  {
    forall i | 0 <= i < |after| ensures Packable(after[i]) {
      UpgradedRowsArePackable(rows[i].reason);
    }
    TableComesBack(after);
  }

  class Signals {
    var rows: seq<Row>
    var named: bool   // whether the rejected_by column exists

    ghost predicate Valid()
      reads this
    {
      !named ==> forall i :: 0 <= i < |rows| ==> rows[i].rule == None
    }

    constructor (reasons: seq<Option<string>>)
      ensures Valid() && !named && rows == seq(|reasons|, i requires 0 <= i < |reasons| => Row(None, reasons[i]))
    {
      named := false;
      rows := seq(|reasons|, i requires 0 <= i < |reasons| => Row(None, reasons[i]));
    }

    // One transaction: a single rule too long for the column undoes all of it.
    method Upgrade() returns (done: bool)
      requires Valid() && !named
      modifies this
      ensures Valid() && done == named
      ensures done <==> forall i :: 0 <= i < |old(rows)| ==> Unpack(old(rows)[i].reason).Ok?
      ensures done ==> Unpacked(old(rows), rows)
      ensures !done ==> rows == old(rows)
    {
      var updated: seq<Row> := [];
      for i := 0 to |rows|
        invariant |updated| == i
        invariant forall k :: 0 <= k < i ==> Unpack(rows[k].reason) == Ok(updated[k])
      {
        var row := Unpack(rows[i].reason);
        if row.Err? { return false; }
        updated := updated + [row.value];
      }
      rows, named := updated, true;
      return true;
    }

    method Downgrade()
      requires Valid() && named
      modifies this
      ensures Valid() && !named && rows == Repack(old(rows))
    {
      var updated: seq<Row> := [];
      for i := 0 to |rows|
        invariant |updated| == i
        invariant forall k :: 0 <= k < i ==> updated[k] == Row(None, Pack(rows[k]))
      {
        updated := updated + [Row(None, Pack(rows[i]))];
      }
      rows, named := updated, false;
    }
  }
}
