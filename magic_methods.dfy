/** The new-magic-methods rule: a method declared in a class, trait or
    interface whose name only became magic in a later PHP version is
    reported with a warning when the tested range reaches back to a version
    in which the name was not (or not fully) magic. Then the test suite of
    that rule: its data tables, its loops over fixture lines, and the
    theorem that every assertion it makes holds of the rule. */
module NewMagicMethods {
  import opened Versions
  import opened Findings

  // ---------------------------------------------------------------------
  // The rule

  /** What a function declaration sits directly in. */
  datatype Enclosing = TopLevel | ClassBody | TraitBody | InterfaceBody

  datatype FunctionDecl = FunctionDecl(line: nat, name: string, enclosing: Enclosing)

  /** A method is a function declared in a class, trait or interface;
      anything else is a free function. */
  predicate IsMethod(d: FunctionDecl) {
    d.enclosing != TopLevel
  }

  /** The method names the rule knows. */
  datatype MagicName =
    | Construct | Destruct | Get | Isset | Unset | SetState
    | CallStatic | Invoke | DebugInfo | Serialize | Unserialize | ToString

  function NameText(m: MagicName): string {
    match m
    case Construct => "__construct"
    case Destruct => "__destruct"
    case Get => "__get"
    case Isset => "__isset"
    case Unset => "__unset"
    case SetState => "__set_state"
    case CallStatic => "__callStatic"
    case Invoke => "__invoke"
    case DebugInfo => "__debugInfo"
    case Serialize => "__serialize"
    case Unserialize => "__unserialize"
    case ToString => "__toString"
  }

  /** The tabled name a declared name spells, if any. */
  function NameOf(name: string): (m: Option<MagicName>)
    ensures m.Some? ==> NameText(m.value) == name
  {
    if name == "__construct" then Some(Construct)
    else if name == "__destruct" then Some(Destruct)
    else if name == "__get" then Some(Get)
    else if name == "__isset" then Some(Isset)
    else if name == "__unset" then Some(Unset)
    else if name == "__set_state" then Some(SetState)
    else if name == "__callStatic" then Some(CallStatic)
    else if name == "__invoke" then Some(Invoke)
    else if name == "__debugInfo" then Some(DebugInfo)
    else if name == "__serialize" then Some(Serialize)
    else if name == "__unserialize" then Some(Unserialize)
    else if name == "__toString" then Some(ToString)
    else None
  }

  /** NameOf recognises every tabled name: the two are inverse. */
  lemma NameOfNameText(m: MagicName)
    ensures NameOf(NameText(m)) == Some(m)
  {
  }

  /** BecameMagic: the name had no magic meaning before okVersion.
      BecameFullyMagic: it had, but only in a narrower form. */
  datatype Change = BecameMagic | BecameFullyMagic

  /** lastVersionBefore: the newest version in which the name was not
      (fully) magic; okVersion: the first one in which it is. */
  datatype Intro = Intro(change: Change, lastVersionBefore: Version, okVersion: Version)

  function MagicIntro(m: MagicName): Intro {
    match m
    case Construct   => Intro(BecameMagic, Version(4, 4), Version(5, 0))
    case Destruct    => Intro(BecameMagic, Version(4, 4), Version(5, 0))
    case Get         => Intro(BecameMagic, Version(4, 4), Version(5, 0))
    case Isset       => Intro(BecameMagic, Version(5, 0), Version(5, 1))
    case Unset       => Intro(BecameMagic, Version(5, 0), Version(5, 1))
    case SetState    => Intro(BecameMagic, Version(5, 0), Version(5, 1))
    case CallStatic  => Intro(BecameMagic, Version(5, 2), Version(5, 3))
    case Invoke      => Intro(BecameMagic, Version(5, 2), Version(5, 3))
    case DebugInfo   => Intro(BecameMagic, Version(5, 5), Version(5, 6))
    case Serialize   => Intro(BecameMagic, Version(7, 3), Version(7, 4))
    case Unserialize => Intro(BecameMagic, Version(7, 3), Version(7, 4))
    case ToString    => Intro(BecameFullyMagic, Version(5, 1), Version(5, 2))
  }

  function NotMagicalMessage(name: string, v: Version): string {
    "The method " + name + "() was not magical in PHP version " + VersionText(v)
    + " and earlier. The associated magic functionality will not be invoked."
  }

  /** The warning for __toString, the one name whose magic was widened
      rather than introduced: before 5.2 it ran only when the object was
      directly combined with echo or print. */
  const ToStringWarning: string :=
    "The method __toString() was not truly magical in PHP version 5.1 and earlier. The associated magic functionality will only be called when directly combined with echo or print."

  function WarningMessage(name: string, i: Intro): string {
    match i.change
    case BecameMagic => NotMagicalMessage(name, i.lastVersionBefore)
    case BecameFullyMagic => ToStringWarning
  }

  /** The finding of one declaration, if any. */
  function MagicFinding(d: FunctionDecl, r: TestRange): (f: Option<Finding>)
    ensures f.Some? ==> f.value.line == d.line && f.value.severity == Warning
  {
    match NameOf(d.name)
    case None => None
    case Some(m) =>
      if IsMethod(d) && SupportsBelow(r, MagicIntro(m).lastVersionBefore)
      then Some(Finding(d.line, Warning, WarningMessage(d.name, MagicIntro(m))))
      else None
  }

  /** The findings of a file's function declarations, in declaration order. */
  function MagicFindings(decls: seq<FunctionDecl>, r: TestRange): seq<Finding> {
    Collect(decls, d => MagicFinding(d, r))
  }

  // ---------------------------------------------------------------------
  // Properties of the rule

  /** Every table entry moves from one PHP release to the very next one:
      okVersion is the first release in which the name is magic. */
  lemma OkVersionIsNextRelease(m: MagicName)
    ensures IsNextRelease(MagicIntro(m).lastVersionBefore, MagicIntro(m).okVersion)
  {
  }

  /** A method with a tabled name is warned about when the lowest tested
      version is its lastVersionBefore, and not when it is its okVersion. */
  lemma WarnsExactlyBeforeOkVersion(d: FunctionDecl, m: MagicName)
    requires IsMethod(d) && d.name == NameText(m)
    ensures MagicFinding(d, Single(MagicIntro(m).lastVersionBefore))
            == Some(Finding(d.line, Warning, WarningMessage(d.name, MagicIntro(m))))
    ensures MagicFinding(d, Single(MagicIntro(m).okVersion)) == None
  {
    NameOfNameText(m);
    OkVersionIsNextRelease(m);
  }

  /** For every PHP release v, a method with a tabled name is warned about
      at v if and only if v comes before the name's okVersion. */
  lemma WarnedIffBeforeOkVersion(d: FunctionDecl, m: MagicName, v: Version)
    requires IsMethod(d) && d.name == NameText(m) && IsRelease(v)
    ensures MagicFinding(d, Single(v)).Some? <==> Lt(v, MagicIntro(m).okVersion)
  {
    var i := MagicIntro(m);
    NameOfNameText(m);
    OkVersionIsNextRelease(m);
    LeIsTotalOrder(v, i.lastVersionBefore, i.okVersion);
    LeIsTotalOrder(i.lastVersionBefore, v, i.okVersion);
  }

  /** Whatever range is tested, a tabled name gets nothing once the lowest
      tested version is at or after its okVersion, release or not. */
  lemma NothingFromOkVersion(d: FunctionDecl, m: MagicName, r: TestRange)
    requires d.name == NameText(m) && Le(MagicIntro(m).okVersion, r.lo)
    ensures MagicFinding(d, r) == None
  {
    NameOfNameText(m);
  }

  /** Whatever range is tested, a method with a tabled name is warned about,
      with its message, while the lowest tested version is at or before its
      lastVersionBefore. */
  lemma WarnedFromLastVersionBefore(d: FunctionDecl, m: MagicName, r: TestRange)
    requires IsMethod(d) && d.name == NameText(m) && Le(r.lo, MagicIntro(m).lastVersionBefore)
    ensures MagicFinding(d, r) == Some(Finding(d.line, Warning, WarningMessage(d.name, MagicIntro(m))))
  {
    NameOfNameText(m);
  }

  /** A free function is never reported, whatever its name and the tested range. */
  lemma FreeFunctionNeverFlagged(d: FunctionDecl, r: TestRange)
    requires !IsMethod(d)
    ensures MagicFinding(d, r) == None
  {
  }

  /** Names outside the table are never reported. */
  lemma UntabledNameNeverFlagged(d: FunctionDecl, r: TestRange)
    requires NameOf(d.name) == None
    ensures MagicFinding(d, r) == None
  {
  }

  /** No line carries a finding unless some declaration on it has one. */
  lemma NoViolationWhereNoDeclFires(decls: seq<FunctionDecl>, r: TestRange, line: nat)
    requires forall d :: d in decls && d.line == line ==> MagicFinding(d, r) == None
    ensures NoViolationAt(MagicFindings(decls, r), line)
  {
    CleanWhereNothingReported(decls, d => MagicFinding(d, r), line);
  }

  /** 7.3 is the newest lastVersionBefore in the table. */
  lemma NewestIntroduction(m: MagicName)
    ensures Le(MagicIntro(m).lastVersionBefore, Version(7, 3))
  {
  }

  /** Once the lowest tested version is past 7.3, nothing in a file is reported. */
  lemma NothingAboveNewestIntroduction(decls: seq<FunctionDecl>, r: TestRange)
    requires Lt(Version(7, 3), r.lo)
    ensures MagicFindings(decls, r) == []
  {
    forall d | d in decls ensures MagicFinding(d, r) == None {
      match NameOf(d.name)
      case None =>
      case Some(m) =>
        NewestIntroduction(m);
        LeIsTotalOrder(r.lo, Version(7, 3), MagicIntro(m).lastVersionBefore);
    }
    CollectNothing(decls, d => MagicFinding(d, r));
  }

  /** In a message the first '(' closes the method name, when the name has none. */
  lemma ParenEndsName(name: string, v: Version)
    requires '(' !in name
    ensures |"The method " + name| < |NotMagicalMessage(name, v)|
    ensures NotMagicalMessage(name, v)[|"The method " + name|] == '('
    ensures forall i :: |"The method "| <= i < |"The method " + name| ==> NotMagicalMessage(name, v)[i] != '('
  {
    var m := NotMagicalMessage(name, v);
    forall i | |"The method "| <= i < |"The method " + name| ensures m[i] != '(' {
      assert m[i] == name[i - |"The method "|];
    }
  }

  /** The warning text determines the method name and the version it cites,
      for any name that contains no parenthesis (as no PHP identifier does). */
  lemma NotMagicalMessageInjective(n1: string, v1: Version, n2: string, v2: Version)
    requires '(' !in n1 && '(' !in n2
    requires NotMagicalMessage(n1, v1) == NotMagicalMessage(n2, v2)
    ensures n1 == n2 && v1 == v2
  {
    var m := NotMagicalMessage(n1, v1);
    var p := "The method ";
    var tail := " and earlier. The associated magic functionality will not be invoked.";
    var mid := "() was not magical in PHP version ";
    ParenEndsName(n1, v1);
    ParenEndsName(n2, v2);
    assert m == p + n1 + mid + VersionText(v1) + tail;
    assert m == p + n2 + mid + VersionText(v2) + tail;
    assert n1 == m[|p|..|p| + |n1|] == n2;
    assert VersionText(v1) == m[|p| + |n1| + |mid|..|m| - |tail|] == VersionText(v2);
    VersionTextInjective(v1, v2);
  }

  // ---------------------------------------------------------------------
  // The test suite's data

  /** One row of the data provider: the method, the version just before it
      became magic, the fixture lines declaring it, a version where it is magic. */
  datatype MagicCase = MagicCase(name: MagicName, lastVersionBefore: Version, lines: seq<nat>, okVersion: Version)

  const NewMagicMethodCases: seq<MagicCase> := [
    MagicCase(Construct, Version(4, 4), [20], Version(5, 0)),
    MagicCase(Destruct, Version(4, 4), [21], Version(5, 0)),
    MagicCase(Get, Version(4, 4), [22, 34, 61], Version(5, 0)),
    MagicCase(Isset, Version(5, 0), [23, 35, 62], Version(5, 1)),
    MagicCase(Unset, Version(5, 0), [24, 36, 63], Version(5, 1)),
    MagicCase(SetState, Version(5, 0), [25, 37, 64], Version(5, 1)),
    MagicCase(CallStatic, Version(5, 2), [27, 39, 66], Version(5, 3)),
    MagicCase(Invoke, Version(5, 2), [28, 40, 67], Version(5, 3)),
    MagicCase(DebugInfo, Version(5, 5), [29, 41, 68], Version(5, 6)),
    MagicCase(Serialize, Version(7, 3), [78], Version(7, 4)),
    MagicCase(Unserialize, Version(7, 3), [79], Version(7, 4)),

    // Traits.
    MagicCase(Get, Version(4, 4), [87], Version(5, 0)),
    MagicCase(Isset, Version(5, 0), [88], Version(5, 1)),
    MagicCase(Unset, Version(5, 0), [89], Version(5, 1)),
    MagicCase(SetState, Version(5, 0), [90], Version(5, 1)),
    MagicCase(CallStatic, Version(5, 2), [92], Version(5, 3)),
    MagicCase(Invoke, Version(5, 2), [93], Version(5, 3)),
    MagicCase(DebugInfo, Version(5, 5), [94], Version(5, 6)),
    MagicCase(Serialize, Version(7, 3), [95], Version(7, 4)),
    MagicCase(Unserialize, Version(7, 3), [96], Version(7, 4)),
    MagicCase(Construct, Version(4, 4), [97], Version(5, 0)),
    MagicCase(Destruct, Version(4, 4), [98], Version(5, 0))
  ]

  /** Fixture lines declaring __toString as a method. */
  const ChangedToStringLines: seq<nat> := [26, 38, 65, 91]

  /** Fixture lines declaring magic methods this rule does not know. */
  const UnflaggedMagicLines: seq<nat> := [8, 9, 10, 11, 12]

  /** Fixture lines declaring free functions with magic names. */
  const FreeFunctionLines: seq<nat> := [47, 48, 49, 50, 51, 52, 53, 54, 74, 75]

  /** Every row of the data provider is what the rule's table says for its
      method, as a method that plainly became magic. */
  lemma CasesAgreeWithTable(c: MagicCase)
    requires c in NewMagicMethodCases
    ensures MagicIntro(c.name) == Intro(BecameMagic, c.lastVersionBefore, c.okVersion)
  {
    var i :| 0 <= i < |NewMagicMethodCases| && NewMagicMethodCases[i] == c;
    RowAgreesWithTable(i);
  }

  lemma RowAgreesWithTable(i: nat)
    requires i < |NewMagicMethodCases|
    ensures var c := NewMagicMethodCases[i];
            MagicIntro(c.name) == Intro(BecameMagic, c.lastVersionBefore, c.okVersion)
  {
  }

  /** Rows naming the same method (a class row and a trait row) carry the
      same pair of versions: the pair is a function of the name. */
  lemma CaseVersionsDependOnlyOnName(i: nat, j: nat)
    requires i < |NewMagicMethodCases| && j < |NewMagicMethodCases|
    requires NewMagicMethodCases[i].name == NewMagicMethodCases[j].name
    ensures NewMagicMethodCases[i].lastVersionBefore == NewMagicMethodCases[j].lastVersionBefore
    ensures NewMagicMethodCases[i].okVersion == NewMagicMethodCases[j].okVersion
  {
    RowAgreesWithTable(i);
    RowAgreesWithTable(j);
  }

  /** In every row lastVersionBefore is below okVersion with no release in between. */
  lemma CaseVersionsAreConsecutiveReleases(c: MagicCase)
    requires c in NewMagicMethodCases
    ensures Lt(c.lastVersionBefore, c.okVersion)
    ensures IsNextRelease(c.lastVersionBefore, c.okVersion)
  {
    CasesAgreeWithTable(c);
    OkVersionIsNextRelease(c.name);
  }

  /** __toString is tabled as becoming fully magic in 5.2, so the rule
      reports it with the text the __toString test expects. */
  lemma ToStringWarningIsRuleMessage()
    ensures MagicIntro(ToString) == Intro(BecameFullyMagic, Version(5, 1), Version(5, 2))
    ensures WarningMessage(NameText(ToString), MagicIntro(ToString)) == ToStringWarning
  {
  }

  /** 4.4, the version the no-flag tests use, is at or below every
      lastVersionBefore: it would trigger every tabled method. */
  lemma LowTestVersionBelowEveryIntroduction(m: MagicName)
    ensures Le(Version(4, 4), MagicIntro(m).lastVersionBefore)
  {
  }

  // ---------------------------------------------------------------------
  // The tests, as predicates over a fixture's declarations

  /** testNewMagicMethod: warning at lastVersionBefore and no violation at
      okVersion on every listed line. */
  predicate NewMagicMethodPasses(decls: seq<FunctionDecl>, c: MagicCase) {
    var error := NotMagicalMessage(NameText(c.name), c.lastVersionBefore);
    WarnedOnAll(MagicFindings(decls, Single(c.lastVersionBefore)), c.lines, error) &&
    CleanOnAll(MagicFindings(decls, Single(c.okVersion)), c.lines)
  }

  /** testChangedToStringMethod */
  predicate ChangedToStringPasses(decls: seq<FunctionDecl>, line: nat) {
    HasWarning(MagicFindings(decls, Single(Version(5, 1))), line, ToStringWarning) &&
    NoViolationAt(MagicFindings(decls, Single(Version(5, 2))), line)
  }

  /** testMagicMethodsThatShouldntBeFlagged and testNoFalsePositives */
  predicate NoViolationAtLowVersion(decls: seq<FunctionDecl>, line: nat) {
    NoViolationAt(MagicFindings(decls, Single(Version(4, 4))), line)
  }

  /** The first loop of testNewMagicMethod: assertWarning on every line. */
  method AssertWarningOnLines(file: seq<Finding>, lines: seq<nat>, error: string) returns (passed: bool)
    ensures passed <==> WarnedOnAll(file, lines, error)
  {
    passed := true;
    for k := 0 to |lines|
      invariant passed <==> forall j :: 0 <= j < k ==> HasWarning(file, lines[j], error)
    {
      if !HasWarning(file, lines[k], error) {
        passed := false;
      }
    }
  }

  /** The second loop of testNewMagicMethod: assertNoViolation on every line. */
  method AssertNoViolationOnLines(file: seq<Finding>, lines: seq<nat>) returns (passed: bool)
    ensures passed <==> CleanOnAll(file, lines)
  {
    passed := true;
    for k := 0 to |lines|
      invariant passed <==> forall j :: 0 <= j < k ==> NoViolationAt(file, lines[j])
    {
      if !NoViolationAt(file, lines[k]) {
        passed := false;
      }
    }
  }

  /** testNewMagicMethod: sniff at lastVersionBefore and check the warnings,
      then sniff at okVersion and check that the lines are clean. */
  method TestNewMagicMethod(decls: seq<FunctionDecl>, c: MagicCase) returns (passed: bool)
    ensures passed <==> NewMagicMethodPasses(decls, c)
  {
    var file := MagicFindings(decls, Single(c.lastVersionBefore));
    var error := NotMagicalMessage(NameText(c.name), c.lastVersionBefore);
    var warned := AssertWarningOnLines(file, c.lines, error);
    file := MagicFindings(decls, Single(c.okVersion));
    var clean := AssertNoViolationOnLines(file, c.lines);
    passed := warned && clean;
  }

  // ---------------------------------------------------------------------
  // The fixture, described only as far as the tests describe it

  /** The declarations on a line exist, and all are methods named name. */
  predicate DeclaresOnlyMethod(decls: seq<FunctionDecl>, line: nat, name: string) {
    (exists d :: d in decls && d.line == line) &&
    forall d :: d in decls && d.line == line ==> d.name == name && IsMethod(d)
  }

  /** What the test suite takes for granted about its fixture file. */
  predicate MagicFixture(decls: seq<FunctionDecl>) {
    (forall c, k :: c in NewMagicMethodCases && 0 <= k < |c.lines| ==>
       DeclaresOnlyMethod(decls, c.lines[k], NameText(c.name))) &&
    (forall k :: 0 <= k < |ChangedToStringLines| ==>
       DeclaresOnlyMethod(decls, ChangedToStringLines[k], NameText(ToString))) &&
    (forall d :: d in decls && d.line in UnflaggedMagicLines ==> NameOf(d.name) == None) &&
    (forall d :: d in decls && d.line in FreeFunctionLines ==> !IsMethod(d))
  }

  lemma NewMagicMethodCasePasses(decls: seq<FunctionDecl>, c: MagicCase)
    requires MagicFixture(decls) && c in NewMagicMethodCases
    ensures NewMagicMethodPasses(decls, c)
  {
    CasesAgreeWithTable(c);
    var warnAt := Single(c.lastVersionBefore);
    var okAt := Single(c.okVersion);
    var error := NotMagicalMessage(NameText(c.name), c.lastVersionBefore);
    forall k | 0 <= k < |c.lines|
      ensures HasWarning(MagicFindings(decls, warnAt), c.lines[k], error)
      ensures NoViolationAt(MagicFindings(decls, okAt), c.lines[k])
    {
      assert DeclaresOnlyMethod(decls, c.lines[k], NameText(c.name));
      var d :| d in decls && d.line == c.lines[k];
      WarnsExactlyBeforeOkVersion(d, c.name);
      forall d' | d' in decls && d'.line == c.lines[k] ensures MagicFinding(d', okAt) == None {
        WarnsExactlyBeforeOkVersion(d', c.name);
      }
      NoViolationWhereNoDeclFires(decls, okAt, c.lines[k]);
    }
  }

  lemma ChangedToStringLinePasses(decls: seq<FunctionDecl>, line: nat)
    requires MagicFixture(decls) && line in ChangedToStringLines
    ensures ChangedToStringPasses(decls, line)
  {
    ToStringWarningIsRuleMessage();
    var k :| 0 <= k < |ChangedToStringLines| && ChangedToStringLines[k] == line;
    assert DeclaresOnlyMethod(decls, line, NameText(ToString));
    var d :| d in decls && d.line == line;
    WarnsExactlyBeforeOkVersion(d, ToString);
    forall d' | d' in decls && d'.line == line ensures MagicFinding(d', Single(Version(5, 2))) == None {
      WarnsExactlyBeforeOkVersion(d', ToString);
    }
    NoViolationWhereNoDeclFires(decls, Single(Version(5, 2)), line);
  }

  /** Every assertion of the test suite holds of the rule, on any fixture
      that matches the suite's description of it. */
  lemma MagicTestsPass(decls: seq<FunctionDecl>)
    requires MagicFixture(decls)
    ensures forall c :: c in NewMagicMethodCases ==> NewMagicMethodPasses(decls, c)
    ensures forall line :: line in ChangedToStringLines ==> ChangedToStringPasses(decls, line)
    ensures forall line :: line in UnflaggedMagicLines ==> NoViolationAtLowVersion(decls, line)
    ensures forall line :: line in FreeFunctionLines ==> NoViolationAtLowVersion(decls, line)
    ensures NoViolation(MagicFindings(decls, Single(Version(99, 0))))
  {
    forall c | c in NewMagicMethodCases ensures NewMagicMethodPasses(decls, c) {
      NewMagicMethodCasePasses(decls, c);
    }
    forall line | line in ChangedToStringLines ensures ChangedToStringPasses(decls, line) {
      ChangedToStringLinePasses(decls, line);
    }
    forall line | line in UnflaggedMagicLines || line in FreeFunctionLines
      ensures NoViolationAtLowVersion(decls, line)
    {
      NoViolationWhereNoDeclFires(decls, Single(Version(4, 4)), line);
    }
    NothingAboveNewestIntroduction(decls, Single(Version(99, 0)));
  }
}
