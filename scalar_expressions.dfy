/** The new-constant-scalar-expressions rule: an initial value that is a
    constant scalar expression (more than a plain or negated literal) in a
    constant declaration, a property declaration, a static variable
    declaration or a default function argument is an error when PHP 5.5 or
    earlier is tested. Then the test suite of that rule: its phrase table,
    its message builder, its data table, its loop over the first 120 lines,
    and the theorem that every assertion it makes holds of the rule. */
module NewConstantScalarExpressions {
  import opened Versions
  import opened Findings

  // ---------------------------------------------------------------------
  // Messages

  /** The error phrase for each declaration type key. */
  const ErrorPhrases: map<string, string> := map[
    "const"    := "when defining constants using the const keyword",
    "property" := "in property declarations",
    "static"   := "in static variable declarations",
    "default"  := "in default function arguments"
  ]

  /** The phrase of a type key; the empty snippet for a key the table lacks. */
  function Phrase(typ: string): string {
    if typ in ErrorPhrases then ErrorPhrases[typ] else ""
  }

  const MessageStart: string := "Constant scalar expressions are not allowed "
  const MessageEnd: string := " in PHP 5.5 or earlier."
  const FoundMarker: string := " Found: "

  function BaseMessage(snippet: string): string {
    MessageStart + snippet + MessageEnd
  }

  /** The error text for a declaration type, with the offending code
      appended when it is given. The base message always comes first, and
      there is more after it exactly when extra is not empty. */
  function ScalarExprMessage(typ: string, extra: string): (error: string)
    ensures BaseMessage(Phrase(typ)) <= error
    ensures error == BaseMessage(Phrase(typ)) <==> extra == ""
    ensures extra != "" ==> error[|BaseMessage(Phrase(typ))|..] == FoundMarker + extra
  {
    var error := BaseMessage(Phrase(typ));
    if extra != "" then error + FoundMarker + extra else error
  }

  /** The message builder of testNewConstantScalarExpressions, step by step. */
  method BuildErrorMessage(typ: string, extra: string) returns (error: string)
    ensures error == ScalarExprMessage(typ, extra)
  {
    var snippet := "";
    if typ in ErrorPhrases {
      snippet := ErrorPhrases[typ];
    }
    error := "Constant scalar expressions are not allowed " + snippet + " in PHP 5.5 or earlier.";
    if extra != "" {
      error := error + " Found: " + extra;
    }
  }

  lemma PhraseTable()
    ensures Phrase("const") == "when defining constants using the const keyword"
    ensures Phrase("property") == "in property declarations"
    ensures Phrase("static") == "in static variable declarations"
    ensures Phrase("default") == "in default function arguments"
    ensures forall typ :: typ !in ErrorPhrases ==> Phrase(typ) == ""
    ensures ErrorPhrases.Keys == {"const", "property", "static", "default"}
  {
  }

  /** The character at MessageStart's end + 3 is different for each phrase:
      'n' (when), 'p' (in property), 's' (in static), 'd' (in default). */
  function PhraseMark(typ: string): char {
    if typ == "const" then 'n'
    else if typ == "property" then 'p'
    else if typ == "static" then 's'
    else 'd'
  }

  lemma PhraseMarkOf(typ: string)
    requires typ in ErrorPhrases
    ensures |Phrase(typ)| > 3 && Phrase(typ)[3] == PhraseMark(typ)
  {
  }

  lemma PhraseMarkInjective(t1: string, t2: string)
    requires t1 in ErrorPhrases && t2 in ErrorPhrases
    requires PhraseMark(t1) == PhraseMark(t2)
    ensures t1 == t2
  {
  }

  lemma PhraseMarkAt(typ: string, extra: string)
    requires typ in ErrorPhrases
    ensures |ScalarExprMessage(typ, extra)| > |MessageStart| + 3
    ensures ScalarExprMessage(typ, extra)[|MessageStart| + 3] == PhraseMark(typ)
  {
    var phrase := Phrase(typ);
    var base := BaseMessage(phrase);
    PhraseMarkOf(typ);
    assert base[|MessageStart| + 3] == phrase[3];
    assert ScalarExprMessage(typ, extra)[..|base|] == base;
  }

  /** For one declaration type, the message determines the extra snippet. */
  lemma MessageDeterminesExtra(typ: string, e1: string, e2: string)
    requires ScalarExprMessage(typ, e1) == ScalarExprMessage(typ, e2)
    ensures e1 == e2
  {
    var base := BaseMessage(Phrase(typ));
    var error := ScalarExprMessage(typ, e1);
    if e1 != "" && e2 != "" {
      assert FoundMarker + e1 == error[|base|..] == FoundMarker + e2;
      assert e1 == (FoundMarker + e1)[|FoundMarker|..];
      assert e2 == (FoundMarker + e2)[|FoundMarker|..];
    }
  }

  /** Among the four known types, the full message determines both the
      declaration type and the extra snippet. */
  lemma MessageDeterminesTypeAndExtra(t1: string, e1: string, t2: string, e2: string)
    requires t1 in ErrorPhrases && t2 in ErrorPhrases
    requires ScalarExprMessage(t1, e1) == ScalarExprMessage(t2, e2)
    ensures t1 == t2 && e1 == e2
  {
    PhraseMarkAt(t1, e1);
    PhraseMarkAt(t2, e2);
    PhraseMarkInjective(t1, t2);
    MessageDeterminesExtra(t1, e1, e2);
  }

  // ---------------------------------------------------------------------
  // The rule

  /** The four declaration forms whose initial value the rule inspects. */
  datatype DeclContext = ConstantDecl | PropertyDecl | StaticVarDecl | DefaultArgument

  /** The type key of a context in the phrase table. */
  function TypeKey(c: DeclContext): (typ: string)
    ensures typ in ErrorPhrases
  {
    match c
    case ConstantDecl => "const"
    case PropertyDecl => "property"
    case StaticVarDecl => "static"
    case DefaultArgument => "default"
  }

  lemma TypeKeyInjective(c1: DeclContext, c2: DeclContext)
    requires TypeKey(c1) == TypeKey(c2)
    ensures c1 == c2
  {
  }

  /** An initial value in a declaration. isConstantExpression: it is more
      than a plain or negated literal. code: its source text, such as
      "$a = 5 * MINUTEINSECONDS", which the message quotes when needed. */
  datatype Initializer = Initializer(line: nat, context: DeclContext, isConstantExpression: bool, code: string)

  /** The newest version without constant scalar expressions. */
  const LastVersionWithout: Version := Version(5, 5)

  predicate ScalarExprApplies(r: TestRange) {
    SupportsBelow(r, LastVersionWithout)
  }

  /** How many constant scalar expressions start on a line. */
  function ExpressionsOnLine(inits: seq<Initializer>, line: nat): nat {
    if inits == [] then 0
    else (if inits[0].isConstantExpression && inits[0].line == line then 1 else 0) + ExpressionsOnLine(inits[1..], line)
  }

  /** What the message of i quotes: its own code when another constant
      scalar expression starts on its line, nothing otherwise. */
  function Quoted(inits: seq<Initializer>, i: Initializer): string {
    if ExpressionsOnLine(inits, i.line) > 1 then i.code else ""
  }

  /** The finding of one initial value of a file, if any: always an error. */
  function ScalarFinding(inits: seq<Initializer>, i: Initializer, r: TestRange): (f: Option<Finding>)
    ensures f.Some? ==> f.value.line == i.line && f.value.severity == Error
  {
    if i.isConstantExpression && ScalarExprApplies(r)
    then Some(Finding(i.line, Error, ScalarExprMessage(TypeKey(i.context), Quoted(inits, i))))
    else None
  }

  function ScalarFindings(inits: seq<Initializer>, r: TestRange): seq<Finding> {
    Collect(inits, i => ScalarFinding(inits, i, r))
  }

  // ---------------------------------------------------------------------
  // When the message quotes code

  /** No other constant scalar expression starts on the line of inits[p]. */
  predicate AloneOnLine(inits: seq<Initializer>, p: nat)
    requires p < |inits|
  {
    forall q :: 0 <= q < |inits| && q != p && inits[q].isConstantExpression ==> inits[q].line != inits[p].line
  }

  lemma {:induction false} NoneOnLine(inits: seq<Initializer>, line: nat)
    requires forall q :: 0 <= q < |inits| && inits[q].isConstantExpression ==> inits[q].line != line
    ensures ExpressionsOnLine(inits, line) == 0
  {
    if inits != [] {
      var tail := inits[1..];
      forall q | 0 <= q < |tail| && tail[q].isConstantExpression ensures tail[q].line != line {
        assert tail[q] == inits[q + 1];
      }
      NoneOnLine(tail, line);
    }
  }

  /** A constant scalar expression counts on its own line, and it is the
      only one there when it is alone on it. */
  lemma {:induction false} OneOnLine(inits: seq<Initializer>, p: nat)
    requires p < |inits| && inits[p].isConstantExpression
    ensures ExpressionsOnLine(inits, inits[p].line) >= 1
    ensures AloneOnLine(inits, p) ==> ExpressionsOnLine(inits, inits[p].line) == 1
  {
    var tail := inits[1..];
    var line := inits[p].line;
    if p == 0 {
      if AloneOnLine(inits, p) {
        forall q | 0 <= q < |tail| && tail[q].isConstantExpression ensures tail[q].line != line {
          assert tail[q] == inits[q + 1];
        }
        NoneOnLine(tail, line);
      }
    } else {
      assert tail[p - 1] == inits[p];
      if AloneOnLine(inits, p) {
        forall q | 0 <= q < |tail| && q != p - 1 && tail[q].isConstantExpression ensures tail[q].line != line {
          assert tail[q] == inits[q + 1];
        }
        assert AloneOnLine(tail, p - 1);
      }
      OneOnLine(tail, p - 1);
    }
  }

  /** Two constant scalar expressions on one line count twice. */
  lemma {:induction false} TwoOnLine(inits: seq<Initializer>, p: nat, q: nat)
    requires p < |inits| && q < |inits| && p != q
    requires inits[p].isConstantExpression && inits[q].isConstantExpression
    requires inits[p].line == inits[q].line
    ensures ExpressionsOnLine(inits, inits[p].line) >= 2
  {
    var tail := inits[1..];
    if p == 0 {
      assert tail[q - 1] == inits[q];
      OneOnLine(tail, q - 1);
    } else if q == 0 {
      assert tail[p - 1] == inits[p];
      OneOnLine(tail, p - 1);
    } else {
      assert tail[p - 1] == inits[p] && tail[q - 1] == inits[q];
      TwoOnLine(tail, p - 1, q - 1);
    }
  }

  /** A constant scalar expression alone on its line is reported with the
      base message and no quotation. */
  lemma LoneExpressionUnquoted(inits: seq<Initializer>, p: nat, r: TestRange)
    requires p < |inits| && inits[p].isConstantExpression && AloneOnLine(inits, p)
    requires ScalarExprApplies(r)
    ensures ScalarFinding(inits, inits[p], r)
         == Some(Finding(inits[p].line, Error, BaseMessage(Phrase(TypeKey(inits[p].context)))))
  {
    OneOnLine(inits, p);
  }

  /** One that shares its line with another is reported quoting its own code. */
  lemma SharedExpressionQuoted(inits: seq<Initializer>, p: nat, q: nat, r: TestRange)
    requires p < |inits| && q < |inits| && p != q
    requires inits[p].isConstantExpression && inits[q].isConstantExpression
    requires inits[p].line == inits[q].line
    requires ScalarExprApplies(r)
    ensures ScalarFinding(inits, inits[p], r)
         == Some(Finding(inits[p].line, Error, ScalarExprMessage(TypeKey(inits[p].context), inits[p].code)))
  {
    TwoOnLine(inits, p, q);
  }

  /** Constant scalar expressions sharing a line have non-empty, pairwise
      distinct code. */
  predicate DistinctCodePerLine(inits: seq<Initializer>) {
    forall p, q ::
      0 <= p < |inits| && 0 <= q < |inits| && p != q &&
      inits[p].isConstantExpression && inits[q].isConstantExpression && inits[p].line == inits[q].line
      ==> inits[p].code != "" && inits[p].code != inits[q].code
  }

  /** Then no error is reported twice: the errors on a shared line are told
      apart by the code they quote. */
  lemma FindingsDistinct(inits: seq<Initializer>, r: TestRange)
    requires DistinctCodePerLine(inits)
    ensures Distinct(ScalarFindings(inits, r))
  {
    forall p, q | 0 <= p < q < |inits| && ScalarFinding(inits, inits[p], r).Some?
      ensures ScalarFinding(inits, inits[p], r) != ScalarFinding(inits, inits[q], r)
    {
      if ScalarFinding(inits, inits[q], r).Some? && inits[p].line == inits[q].line {
        SharedExpressionQuoted(inits, p, q, r);
        SharedExpressionQuoted(inits, q, p, r);
        if ScalarFinding(inits, inits[p], r) == ScalarFinding(inits, inits[q], r) {
          MessageDeterminesTypeAndExtra(TypeKey(inits[p].context), inits[p].code, TypeKey(inits[q].context), inits[q].code);
        }
      }
    }
    CollectDistinct(inits, i => ScalarFinding(inits, i, r));
  }

  // ---------------------------------------------------------------------
  // Properties of the rule

  /** The rule applies to a single tested version exactly when it is below
      5.6: no version lies between 5.5 and 5.6. */
  lemma AppliesIffBelow56(v: Version)
    ensures ScalarExprApplies(Single(v)) <==> Lt(v, Version(5, 6))
    ensures ScalarExprApplies(Single(Version(5, 5)))
    ensures !ScalarExprApplies(Single(Version(5, 6)))
  {
  }

  /** A plain or negated literal is never reported, in any context and range. */
  lemma LiteralNeverFlagged(inits: seq<Initializer>, i: Initializer, r: TestRange)
    requires !i.isConstantExpression
    ensures ScalarFinding(inits, i, r) == None
  {
  }

  /** A constant scalar expression is reported, with the message naming its
      context, exactly when 5.5 or earlier is tested. */
  lemma ExpressionFlaggedIffOld(inits: seq<Initializer>, i: Initializer, v: Version)
    requires i.isConstantExpression
    ensures ScalarFinding(inits, i, Single(v)).Some? <==> Lt(v, Version(5, 6))
    ensures Lt(v, Version(5, 6)) ==>
      ScalarFinding(inits, i, Single(v)) == Some(Finding(i.line, Error, ScalarExprMessage(TypeKey(i.context), Quoted(inits, i))))
  {
    AppliesIffBelow56(v);
  }

  /** When the lowest tested version is 5.6 or later nothing is reported. */
  lemma NothingFrom56(inits: seq<Initializer>, r: TestRange)
    requires Le(Version(5, 6), r.lo)
    ensures ScalarFindings(inits, r) == []
  {
    CollectNothing(inits, i => ScalarFinding(inits, i, r));
  }

  // ---------------------------------------------------------------------
  // The test suite's data

  /** One row of the data provider: the fixture line, the declaration type,
      and the code the message is expected to quote ("" when the line
      carries one error). */
  datatype ScalarCase = ScalarCase(line: nat, context: DeclContext, extra: string)

  /** The rows in the data provider's order, written as six runs of
      consecutive rows. */
  const ScalarCases: seq<ScalarCase> := Rows122To150 + Rows153To210 + Rows216To220 + Rows224 + Rows227To238 + Rows241To265

  const Rows122To150: seq<ScalarCase> := [
    ScalarCase(122, ConstantDecl, ""),
    ScalarCase(123, ConstantDecl, ""),
    ScalarCase(124, ConstantDecl, ""),
    ScalarCase(125, ConstantDecl, ""),
    ScalarCase(126, ConstantDecl, ""),
    ScalarCase(127, ConstantDecl, ""),
    ScalarCase(128, ConstantDecl, ""),
    ScalarCase(129, ConstantDecl, ""),
    ScalarCase(130, ConstantDecl, ""),
    ScalarCase(131, ConstantDecl, ""),
    ScalarCase(132, ConstantDecl, ""),
    ScalarCase(133, ConstantDecl, ""),
    ScalarCase(134, ConstantDecl, ""),
    ScalarCase(135, ConstantDecl, ""),
    ScalarCase(136, ConstantDecl, ""),
    ScalarCase(137, ConstantDecl, ""),
    ScalarCase(138, ConstantDecl, ""),
    ScalarCase(139, ConstantDecl, ""),
    ScalarCase(140, ConstantDecl, ""),
    ScalarCase(141, ConstantDecl, ""),
    ScalarCase(142, ConstantDecl, ""),
    ScalarCase(143, ConstantDecl, ""),
    ScalarCase(144, ConstantDecl, ""),
    ScalarCase(145, ConstantDecl, ""),
    ScalarCase(146, ConstantDecl, ""),
    ScalarCase(147, ConstantDecl, ""),
    ScalarCase(148, ConstantDecl, ""),
    ScalarCase(149, ConstantDecl, ""),
    ScalarCase(150, ConstantDecl, "")
  ]

  const Rows153To210: seq<ScalarCase> := [
    ScalarCase(153, ConstantDecl, ""),

    ScalarCase(156, ConstantDecl, ""),
    ScalarCase(157, ConstantDecl, ""),

    ScalarCase(161, ConstantDecl, ""),
    ScalarCase(162, ConstantDecl, ""),
    ScalarCase(163, ConstantDecl, ""),
    ScalarCase(165, PropertyDecl, ""),
    ScalarCase(166, PropertyDecl, ""),
    ScalarCase(171, PropertyDecl, ""),
    ScalarCase(173, DefaultArgument, ""),

    ScalarCase(180, ConstantDecl, ""),
    ScalarCase(181, ConstantDecl, ""),
    ScalarCase(182, ConstantDecl, ""),
    ScalarCase(184, PropertyDecl, ""),
    ScalarCase(185, PropertyDecl, ""),
    ScalarCase(193, PropertyDecl, ""),
    ScalarCase(195, DefaultArgument, ""),

    ScalarCase(202, PropertyDecl, ""),
    ScalarCase(203, PropertyDecl, ""),
    ScalarCase(208, PropertyDecl, ""),
    ScalarCase(210, DefaultArgument, "")
  ]

  const Rows216To220: seq<ScalarCase> := [
    ScalarCase(216, DefaultArgument, "$a = 5 * MINUTEINSECONDS"),
    ScalarCase(216, DefaultArgument, "$b = [ 'a', 1 + 2 ]"),
    ScalarCase(220, DefaultArgument, "$a = 30 / HALF"),
    ScalarCase(220, DefaultArgument, "$b = array( 1, THREE, 'string'.'concat')")
  ]

  const Rows224: seq<ScalarCase> := [
    ScalarCase(224, DefaultArgument, "$a = (1 + 1)"),
    ScalarCase(224, DefaultArgument, "$b = 2 << 3"),
    ScalarCase(224, DefaultArgument, "$c = ((BAR)?10:100)"),
    ScalarCase(224, DefaultArgument, "$f = 10 * 5")
  ]

  const Rows227To238: seq<ScalarCase> := [
    ScalarCase(227, DefaultArgument, ""),
    ScalarCase(228, DefaultArgument, ""),
    ScalarCase(229, DefaultArgument, ""),

    ScalarCase(233, StaticVarDecl, ""),
    ScalarCase(234, StaticVarDecl, ""),
    ScalarCase(235, StaticVarDecl, ""),
    ScalarCase(236, StaticVarDecl, "$h = (24 and 2)"),
    ScalarCase(236, StaticVarDecl, "$i = ONE * 2"),
    ScalarCase(236, StaticVarDecl, "$j = 'a' . 'b'"),
    ScalarCase(238, StaticVarDecl, "")
  ]

  const Rows241To265: seq<ScalarCase> := [
    ScalarCase(241, StaticVarDecl, ""),
    ScalarCase(242, ConstantDecl, ""),
    ScalarCase(244, PropertyDecl, ""),
    ScalarCase(246, ConstantDecl, ""),
    ScalarCase(247, ConstantDecl, ""),
    ScalarCase(250, PropertyDecl, ""),

    ScalarCase(258, ConstantDecl, ""),
    ScalarCase(259, ConstantDecl, ""),

    ScalarCase(262, StaticVarDecl, ""),
    ScalarCase(263, StaticVarDecl, ""),
    ScalarCase(264, StaticVarDecl, ""),
    ScalarCase(265, StaticVarDecl, "")
  ]

  /** A proof device, not a promise of the data provider: an order the rows
      happen to follow (by line, and rows sharing a line by the variable
      their snippet assigns, "$a = ..." before "$b = ..."), from which
      SameLineMessagesDistinct follows. */
  predicate RowBefore(a: ScalarCase, b: ScalarCase) {
    a.line < b.line ||
    (a.line == b.line && |a.extra| > 1 && |b.extra| > 1 && a.extra[1] < b.extra[1])
  }

  predicate Ascends(rows: seq<ScalarCase>) {
    forall k :: 0 <= k < |rows| - 1 ==> RowBefore(rows[k], rows[k + 1])
  }

  lemma Rows122To150Ascend()
    ensures Ascends(Rows122To150)
  {
    forall k | 0 <= k < |Rows122To150| - 1 ensures RowBefore(Rows122To150[k], Rows122To150[k + 1]) { }
  }
  lemma Rows153To210Ascend()
    ensures Ascends(Rows153To210)
  {
    forall k | 0 <= k < |Rows153To210| - 1 ensures RowBefore(Rows153To210[k], Rows153To210[k + 1]) { }
  }
  lemma Rows216To220Ascend()
    ensures Ascends(Rows216To220)
  {
    forall k | 0 <= k < |Rows216To220| - 1 ensures RowBefore(Rows216To220[k], Rows216To220[k + 1]) { }
  }

  lemma Rows224Ascend()
    ensures Ascends(Rows224)
  {
    forall k | 0 <= k < |Rows224| - 1 ensures RowBefore(Rows224[k], Rows224[k + 1]) { }
  }

  lemma Rows227To238Ascend()
    ensures Ascends(Rows227To238)
  {
    forall k | 0 <= k < |Rows227To238| - 1 ensures RowBefore(Rows227To238[k], Rows227To238[k + 1]) { }
  }

  lemma Rows241To265Ascend()
    ensures Ascends(Rows241To265)
  {
    forall k | 0 <= k < |Rows241To265| - 1 ensures RowBefore(Rows241To265[k], Rows241To265[k + 1]) { }
  }

  /** Two ascending runs joined in order form one ascending run. */
  lemma AppendAscends(a: seq<ScalarCase>, b: seq<ScalarCase>)
    requires Ascends(a) && Ascends(b)
    requires a != [] && b != [] ==> RowBefore(a[|a| - 1], b[0])
    ensures Ascends(a + b)
  {
    forall k | 0 <= k < |a + b| - 1 ensures RowBefore((a + b)[k], (a + b)[k + 1]) {
      if k + 1 < |a| {
        assert (a + b)[k] == a[k] && (a + b)[k + 1] == a[k + 1];
      } else if k + 1 == |a| {
        assert (a + b)[k] == a[|a| - 1] && (a + b)[k + 1] == b[0];
      } else {
        assert (a + b)[k] == b[k - |a|] && (a + b)[k + 1] == b[k - |a| + 1];
      }
    }
  }

  lemma TableAscends()
    ensures Ascends(ScalarCases)
  {
    Rows122To150Ascend();
    Rows153To210Ascend();
    Rows216To220Ascend();
    Rows224Ascend();
    Rows227To238Ascend();
    Rows241To265Ascend();
    AppendAscends(Rows122To150, Rows153To210);
    var run := Rows122To150 + Rows153To210;
    AppendAscends(run, Rows216To220);
    run := run + Rows216To220;
    AppendAscends(run, Rows224);
    run := run + Rows224;
    AppendAscends(run, Rows227To238);
    run := run + Rows227To238;
    AppendAscends(run, Rows241To265);
  }

  lemma {:induction false} RowsStrictlyOrdered(j: nat, k: nat)
    requires j < k < |ScalarCases|
    ensures RowBefore(ScalarCases[j], ScalarCases[k])
    decreases k - j
  {
    TableAscends();
    if j + 1 < k {
      RowsStrictlyOrdered(j, k - 1);
    }
  }

  /** Every expected error lies after line 120, the end of the region the
      no-false-positives test keeps clean. */
  lemma RowsAfterLine120(k: nat)
    requires k < |ScalarCases|
    ensures ScalarCases[k].line > 120
  {
    if k > 0 {
      RowsStrictlyOrdered(0, k);
    }
  }

  /** Errors expected on one line carry pairwise distinct snippets, hence
      pairwise distinct messages. */
  lemma SameLineMessagesDistinct(j: nat, k: nat)
    requires j < |ScalarCases| && k < |ScalarCases| && j != k
    requires ScalarCases[j].line == ScalarCases[k].line
    ensures ScalarCases[j].extra != "" && ScalarCases[k].extra != ""
    ensures ScalarCases[j].extra != ScalarCases[k].extra
    ensures ScalarExprMessage(TypeKey(ScalarCases[j].context), ScalarCases[j].extra)
         != ScalarExprMessage(TypeKey(ScalarCases[k].context), ScalarCases[k].extra)
  {
    var a, b := ScalarCases[j], ScalarCases[k];
    if j < k {
      RowsStrictlyOrdered(j, k);
    } else {
      RowsStrictlyOrdered(k, j);
    }
    if ScalarExprMessage(TypeKey(a.context), a.extra) == ScalarExprMessage(TypeKey(b.context), b.extra) {
      MessageDeterminesTypeAndExtra(TypeKey(a.context), a.extra, TypeKey(b.context), b.extra);
    }
  }

  // ---------------------------------------------------------------------
  // The tests, as predicates over a fixture's initial values

  /** testNewConstantScalarExpressions for one row. */
  predicate ScalarCasePasses(inits: seq<Initializer>, c: ScalarCase) {
    HasError(ScalarFindings(inits, Single(Version(5, 5))), c.line, ScalarExprMessage(TypeKey(c.context), c.extra))
  }

  /** testNoFalsePositives */
  predicate NoFalsePositivesPasses(inits: seq<Initializer>) {
    forall line: nat :: 1 <= line <= 120 ==> NoViolationAt(ScalarFindings(inits, Single(Version(5, 5))), line)
  }

  /** testNewConstantScalarExpressions: sniff at 5.5, build the message,
      assert the error. */
  method TestNewConstantScalarExpressions(inits: seq<Initializer>, line: nat, typ: string, extra: string)
    returns (passed: bool)
    ensures passed <==> HasError(ScalarFindings(inits, Single(Version(5, 5))), line, ScalarExprMessage(typ, extra))
  {
    var file := ScalarFindings(inits, Single(Version(5, 5)));
    var error := BuildErrorMessage(typ, extra);
    passed := HasError(file, line, error);
  }

  /** testNoFalsePositives: sniff at 5.5 and check lines 1 to 120 one by one. */
  method TestNoFalsePositives(inits: seq<Initializer>) returns (passed: bool)
    ensures passed <==> NoFalsePositivesPasses(inits)
  {
    var file := ScalarFindings(inits, Single(Version(5, 5)));
    passed := true;
    for line := 1 to 121
      invariant passed <==> forall l: nat :: 1 <= l < line ==> NoViolationAt(file, l)
    {
      if !NoViolationAt(file, line) {
        passed := false;
      }
    }
  }

  // ---------------------------------------------------------------------
  // The fixture, described only as far as the tests describe it

  /** Some constant scalar expression in the row's context starts on the
      row's line: alone on it when the row quotes nothing, and otherwise
      with the row's code and another expression beside it. */
  predicate Declares(inits: seq<Initializer>, c: ScalarCase) {
    exists p ::
      0 <= p < |inits| && inits[p].line == c.line && inits[p].context == c.context &&
      inits[p].isConstantExpression &&
      if c.extra == "" then AloneOnLine(inits, p) else inits[p].code == c.extra && !AloneOnLine(inits, p)
  }

  /** What the test suite takes for granted about its fixture file. */
  predicate ScalarFixture(inits: seq<Initializer>) {
    (forall k :: 0 <= k < |ScalarCases| ==> Declares(inits, ScalarCases[k])) &&
    (forall i :: i in inits && 1 <= i.line <= 120 ==> !i.isConstantExpression)
  }

  /** A row whose expression the file declares passes. */
  lemma DeclaredRowPasses(inits: seq<Initializer>, c: ScalarCase)
    requires Declares(inits, c)
    ensures ScalarCasePasses(inits, c)
  {
    var r := Single(Version(5, 5));
    var p :|
      0 <= p < |inits| && inits[p].line == c.line && inits[p].context == c.context &&
      inits[p].isConstantExpression &&
      if c.extra == "" then AloneOnLine(inits, p) else inits[p].code == c.extra && !AloneOnLine(inits, p);
    AppliesIffBelow56(Version(5, 5));
    if c.extra == "" {
      LoneExpressionUnquoted(inits, p, r);
    } else {
      var q :| 0 <= q < |inits| && q != p && inits[q].isConstantExpression && inits[q].line == inits[p].line;
      SharedExpressionQuoted(inits, p, q, r);
    }
    assert inits[p] in inits;
  }

  lemma ScalarCaseRowPasses(inits: seq<Initializer>, k: nat)
    requires ScalarFixture(inits) && k < |ScalarCases|
    ensures ScalarCasePasses(inits, ScalarCases[k])
  {
    DeclaredRowPasses(inits, ScalarCases[k]);
  }

  /** Every assertion of the test suite holds of the rule, on any fixture
      that matches the suite's description of it. */
  lemma ScalarTestsPass(inits: seq<Initializer>)
    requires ScalarFixture(inits)
    ensures forall k :: 0 <= k < |ScalarCases| ==> ScalarCasePasses(inits, ScalarCases[k])
    ensures NoFalsePositivesPasses(inits)
    ensures NoViolation(ScalarFindings(inits, Single(Version(5, 6))))
  {
    forall k | 0 <= k < |ScalarCases| ensures ScalarCasePasses(inits, ScalarCases[k]) {
      ScalarCaseRowPasses(inits, k);
    }
    forall line: nat | 1 <= line <= 120
      ensures NoViolationAt(ScalarFindings(inits, Single(Version(5, 5))), line)
    {
      CleanWhereNothingReported(inits, i => ScalarFinding(inits, i, Single(Version(5, 5))), line);
    }
    NothingFrom56(inits, Single(Version(5, 6)));
  }
}
