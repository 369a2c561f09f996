# PHPCompatibility: new magic methods and constant scalar expressions

This project models two PHPCompatibility sniffs as far as their unit tests pin them
down. It also models the tests themselves: their data tables, their message builders
and their loops over fixture lines.

- **New magic methods.** A method declared in a class, trait or interface is reported
  with a *warning* when its name only became magic in a later PHP version and the
  tested range reaches back to a version where it was not magic. `__toString` is a
  special case: it became *fully* magic in 5.2 and has its own message. A free
  function with a magic name is never reported. A magic name the rule does not know
  is never reported either.
- **Constant scalar expressions.** An initial value that is more than a plain
  literal is an *error* when 5.5 or earlier is tested. This covers constant
  declarations, property declarations, static variables and default arguments. The
  message names the declaration context through a four-entry phrase table. When
  another constant scalar expression starts on the same line, the message ends in
  " Found: " and the value's own code. When those codes differ, no two errors of a
  file are the same. When the value is alone on its line, the model leaves its code
  out of the message. The tests imply this only under the exact-text reading of
  `assertError`.

How the model is built:
- Versions are `(major, minor)` pairs in lexicographic order.
- Messages are built from the decimal rendering of a version ("5.0", "7.3"). That
  rendering is proved injective, so a message names exactly one version.
- A sniff run is a function from a file's declarations and a tested range to a list
  of findings.
- BaseSniffTest's `assertWarning`, `assertError` and `assertNoViolation` are
  predicates over that list. `assertWarning` and `assertError` are read as "a
  finding with exactly this text is on the line".
- The fixtures' PHP source is not modelled. For each suite, a predicate
  (`MagicFixture`, `ScalarFixture`) states what the suite assumes about the
  declarations on its lines. The theorems `MagicTestsPass` and `ScalarTestsPass`
  prove that every assertion of the suite holds for any fixture meeting that
  predicate.

Modules:
- `versions.dfy`: `Versions`, covering versions, their rendering, the PHP releases
  and the tested range.
- `findings.dfy`: `Findings`, covering findings, collecting them over a file, and
  the assertions.
- `magic_methods.dfy`: `NewMagicMethods`.
- `scalar_expressions.dfy`: `NewConstantScalarExpressions`.

## Model

Rows whose third column starts with "definition" name members without a contract:
they are the model's definitions of the cited code, and the lemmas below them state
what is proved about them.

| member | source | states |
|---|---|---|
| Versions.VersionTextInjective | PHPCompatibility/Tests/FunctionNameRestrictions/NewMagicMethodsUnitTest.php:42 | distinct versions render as distinct "major.minor" texts, so the version inside a message is determined by it |
| Versions.NatTextRoundTrip | PHPCompatibility/Tests/FunctionNameRestrictions/NewMagicMethodsUnitTest.php:42 | reading back the decimal digits of a version component gives the component |
| Versions.Single | PHPCompatibility/Tests/FunctionNameRestrictions/NewMagicMethodsUnitTest.php:41 | definition: the tested range of a run configured with one version, as every sniffFile call of both suites is |
| Versions.Le | PHPCompatibility/Tests/FunctionNameRestrictions/NewMagicMethodsUnitTest.php:33-35 | definition: the lexicographic order on (major, minor) versions |
| Versions.Lt | PHPCompatibility/Tests/FunctionNameRestrictions/NewMagicMethodsUnitTest.php:33-35 | definition: the strict form of that order |
| Versions.VersionText | PHPCompatibility/Tests/FunctionNameRestrictions/NewMagicMethodsUnitTest.php:42 | definition: the "major.minor" text interpolated for lastVersionBefore |
| Versions.SupportsBelow | PHPCompatibility/Tests/FunctionNameRestrictions/NewMagicMethodsUnitTest.php:41 | definition: a tested range reaches back to a version when its lowest version is at or before it |
| Findings.Collect | PHPCompatibility/Tests/FunctionNameRestrictions/NewMagicMethodsUnitTest.php:41 | a sniffed file's findings are exactly the findings of its individual declarations, and there are no more of them than declarations |
| Findings.CollectDistinct | PHPCompatibility/Tests/InitialValue/NewConstantScalarExpressionsUnitTest.php:46-47 | when no two elements of a file report the same finding, the file's findings contain no duplicate |
| Findings.HasWarning | PHPCompatibility/Tests/FunctionNameRestrictions/NewMagicMethodsUnitTest.php:44 | definition of assertWarning: a warning with exactly this text is reported on the line |
| Findings.HasError | PHPCompatibility/Tests/InitialValue/NewConstantScalarExpressionsUnitTest.php:64 | definition of assertError: an error with exactly this text is reported on the line |
| Findings.NoViolationAt | PHPCompatibility/Tests/FunctionNameRestrictions/NewMagicMethodsUnitTest.php:49 | definition of assertNoViolation on one line: nothing at all is reported on it |
| Findings.NoViolation | PHPCompatibility/Tests/FunctionNameRestrictions/NewMagicMethodsUnitTest.php:209 | definition of assertNoViolation on a whole file: nothing is reported anywhere |
| NewMagicMethods.MagicIntro | PHPCompatibility/Tests/FunctionNameRestrictions/NewMagicMethodsUnitTest.php:63-86 | definition: the rule's table, giving for each magic name the kind of change, lastVersionBefore and okVersion, with __toString as the one fully-magic entry |
| NewMagicMethods.NotMagicalMessage | PHPCompatibility/Tests/FunctionNameRestrictions/NewMagicMethodsUnitTest.php:42 | definition: the warning text for a method name and a lastVersionBefore |
| NewMagicMethods.ToStringWarning | PHPCompatibility/Tests/FunctionNameRestrictions/NewMagicMethodsUnitTest.php:103 | definition: the warning text for __toString |
| NewMagicMethods.WarningMessage | PHPCompatibility/Tests/FunctionNameRestrictions/NewMagicMethodsUnitTest.php:42 | definition: a tabled entry's warning, the line-42 text for names that became magic and the line-103 text for __toString |
| NewMagicMethods.MagicFindings | PHPCompatibility/Tests/FunctionNameRestrictions/NewMagicMethodsUnitTest.php:41 | definition: the warnings of a sniffed file at a tested range, one per reported declaration in declaration order |
| NewMagicMethods.IsMethod | PHPCompatibility/Tests/FunctionNameRestrictions/NewMagicMethodsUnitTest.php:186 | definition: a declaration is a method when a class, trait or interface encloses it |
| NewMagicMethods.NewMagicMethodCases | PHPCompatibility/Tests/FunctionNameRestrictions/NewMagicMethodsUnitTest.php:62-87 | definition: the 22 rows of dataNewMagicMethod |
| NewMagicMethods.ChangedToStringLines | PHPCompatibility/Tests/FunctionNameRestrictions/NewMagicMethodsUnitTest.php:118-123 | definition: the rows of dataChangedToStringMethod |
| NewMagicMethods.UnflaggedMagicLines | PHPCompatibility/Tests/FunctionNameRestrictions/NewMagicMethodsUnitTest.php:151-157 | definition: the rows of dataMagicMethodsThatShouldntBeFlagged |
| NewMagicMethods.FreeFunctionLines | PHPCompatibility/Tests/FunctionNameRestrictions/NewMagicMethodsUnitTest.php:185-197 | definition: the rows of dataNoFalsePositives |
| NewMagicMethods.NewMagicMethodPasses | PHPCompatibility/Tests/FunctionNameRestrictions/NewMagicMethodsUnitTest.php:39-51 | definition: testNewMagicMethod passes for a row, with every line warned at lastVersionBefore and clean at okVersion |
| NewMagicMethods.ChangedToStringPasses | PHPCompatibility/Tests/FunctionNameRestrictions/NewMagicMethodsUnitTest.php:100-107 | definition: testChangedToStringMethod passes for a line, with the __toString warning at 5.1 and no violation at 5.2 |
| NewMagicMethods.NoViolationAtLowVersion | PHPCompatibility/Tests/FunctionNameRestrictions/NewMagicMethodsUnitTest.php:136-174 | definition: testMagicMethodsThatShouldntBeFlagged and testNoFalsePositives pass for a line, which is clean at 4.4 |
| NewMagicMethods.MagicFixture | PHPCompatibility/Tests/FunctionNameRestrictions/NewMagicMethodsUnitTest.php:60-198 | definition: what the suite takes for granted about its fixture, namely which lines declare which methods, that lines 8-12 hold untabled magic names, and that lines 47-54, 74 and 75 hold free functions |
| NewMagicMethods.NameOf | PHPCompatibility/Tests/FunctionNameRestrictions/NewMagicMethodsUnitTest.php:63-86 | a declaration name is recognised only as the exact name of a tabled magic method |
| NewMagicMethods.NameOfNameText | PHPCompatibility/Tests/FunctionNameRestrictions/NewMagicMethodsUnitTest.php:63-86 | every tabled magic name is recognised as itself |
| NewMagicMethods.MagicFinding | PHPCompatibility/Tests/FunctionNameRestrictions/NewMagicMethodsUnitTest.php:41-44 | whatever the rule reports for a declaration is a warning on the declaration's own line |
| NewMagicMethods.OkVersionIsNextRelease | PHPCompatibility/Tests/FunctionNameRestrictions/NewMagicMethodsUnitTest.php:63-86 | for every magic name, okVersion is the release directly after lastVersionBefore |
| NewMagicMethods.WarnsExactlyBeforeOkVersion | PHPCompatibility/Tests/FunctionNameRestrictions/NewMagicMethodsUnitTest.php:41-50 | a method with a tabled name is warned with its message when lastVersionBefore is tested, and gets nothing when okVersion is tested |
| NewMagicMethods.WarnedIffBeforeOkVersion | PHPCompatibility/Tests/FunctionNameRestrictions/NewMagicMethodsUnitTest.php:41-50 | for every PHP release v, a tabled method is reported at v if and only if v is below its okVersion |
| NewMagicMethods.NothingFromOkVersion | PHPCompatibility/Tests/FunctionNameRestrictions/NewMagicMethodsUnitTest.php:47-50 | for any tested range whose lowest version is at or after a tabled name's okVersion, release or not, a declaration with that name is not reported |
| NewMagicMethods.WarnedFromLastVersionBefore | PHPCompatibility/Tests/FunctionNameRestrictions/NewMagicMethodsUnitTest.php:41-45 | for any tested range whose lowest version is at or before a tabled name's lastVersionBefore, a method with that name is warned with its message |
| NewMagicMethods.FreeFunctionNeverFlagged | PHPCompatibility/Tests/FunctionNameRestrictions/NewMagicMethodsUnitTest.php:170-197 | a function declared outside any class, trait or interface is never reported, whatever its name and the tested range |
| NewMagicMethods.UntabledNameNeverFlagged | PHPCompatibility/Tests/FunctionNameRestrictions/NewMagicMethodsUnitTest.php:136-157 | a method whose name is not tabled is never reported |
| NewMagicMethods.NoViolationWhereNoDeclFires | PHPCompatibility/Tests/FunctionNameRestrictions/NewMagicMethodsUnitTest.php:47-50 | a line is clean when none of the declarations on it is reported |
| NewMagicMethods.NewestIntroduction | PHPCompatibility/Tests/FunctionNameRestrictions/NewMagicMethodsUnitTest.php:72-73 | no magic name has a lastVersionBefore above 7.3 |
| NewMagicMethods.NothingAboveNewestIntroduction | PHPCompatibility/Tests/FunctionNameRestrictions/NewMagicMethodsUnitTest.php:206-210 | when every tested version is above 7.3 (such as 99.0), the file has no finding at all |
| NewMagicMethods.NotMagicalMessageInjective | PHPCompatibility/Tests/FunctionNameRestrictions/NewMagicMethodsUnitTest.php:42 | the not-magical message determines both the method name and the version it names |
| NewMagicMethods.RowAgreesWithTable | PHPCompatibility/Tests/FunctionNameRestrictions/NewMagicMethodsUnitTest.php:63-86 | each data-provider row, by index, carries the versions the rule's table gives its name |
| NewMagicMethods.CasesAgreeWithTable | PHPCompatibility/Tests/FunctionNameRestrictions/NewMagicMethodsUnitTest.php:60-88 | every data-provider row is the rule's table entry for its method, as a name that plainly became magic |
| NewMagicMethods.CaseVersionsDependOnlyOnName | PHPCompatibility/Tests/FunctionNameRestrictions/NewMagicMethodsUnitTest.php:63-86 | two rows naming the same method, such as a class row and its trait row, carry the same version pair |
| NewMagicMethods.CaseVersionsAreConsecutiveReleases | PHPCompatibility/Tests/FunctionNameRestrictions/NewMagicMethodsUnitTest.php:33-35 | in every row lastVersionBefore is strictly below okVersion, with no PHP release between them |
| NewMagicMethods.ToStringWarningIsRuleMessage | PHPCompatibility/Tests/FunctionNameRestrictions/NewMagicMethodsUnitTest.php:100-107 | __toString became fully magic between 5.1 and 5.2, and the rule reports it with the "not truly magical" text |
| NewMagicMethods.LowTestVersionBelowEveryIntroduction | PHPCompatibility/Tests/FunctionNameRestrictions/NewMagicMethodsUnitTest.php:138 | 4.4 is at or below every lastVersionBefore, so it would trigger every tabled method |
| NewMagicMethods.AssertWarningOnLines | PHPCompatibility/Tests/FunctionNameRestrictions/NewMagicMethodsUnitTest.php:43-45 | the loop passes exactly when the warning is reported on every listed line |
| NewMagicMethods.AssertNoViolationOnLines | PHPCompatibility/Tests/FunctionNameRestrictions/NewMagicMethodsUnitTest.php:48-50 | the loop passes exactly when every listed line is clean |
| NewMagicMethods.TestNewMagicMethod | PHPCompatibility/Tests/FunctionNameRestrictions/NewMagicMethodsUnitTest.php:39-51 | the test passes exactly when every line is warned at lastVersionBefore and every line is clean at okVersion |
| NewMagicMethods.NewMagicMethodCasePasses | PHPCompatibility/Tests/FunctionNameRestrictions/NewMagicMethodsUnitTest.php:39-88 | on a fixture as the suite describes it, testNewMagicMethod passes for every data-provider row |
| NewMagicMethods.ChangedToStringLinePasses | PHPCompatibility/Tests/FunctionNameRestrictions/NewMagicMethodsUnitTest.php:100-124 | on such a fixture, each __toString line is warned at 5.1 with its own text and is clean at 5.2 |
| NewMagicMethods.MagicTestsPass | PHPCompatibility/Tests/FunctionNameRestrictions/NewMagicMethodsUnitTest.php:39-210 | on such a fixture every test of the suite passes, including the unflagged magic lines, the free functions at 4.4 and the whole file at 99.0 |
| NewConstantScalarExpressions.ErrorPhrases | PHPCompatibility/Tests/InitialValue/NewConstantScalarExpressionsUnitTest.php:31-36 | definition: the four-entry phrase table |
| NewConstantScalarExpressions.Phrase | PHPCompatibility/Tests/InitialValue/NewConstantScalarExpressionsUnitTest.php:54-57 | definition: the snippet lookup, empty for a key the table lacks |
| NewConstantScalarExpressions.BaseMessage | PHPCompatibility/Tests/InitialValue/NewConstantScalarExpressionsUnitTest.php:59 | definition: the error template around a snippet |
| NewConstantScalarExpressions.ScalarExprApplies | PHPCompatibility/Tests/InitialValue/NewConstantScalarExpressionsUnitTest.php:53 | definition: the rule applies when the lowest tested version is 5.5 or earlier |
| NewConstantScalarExpressions.Quoted | PHPCompatibility/Tests/InitialValue/NewConstantScalarExpressionsUnitTest.php:46-47 | definition: the code an error quotes, which is the value's own code when another constant scalar expression starts on its line, and nothing otherwise |
| NewConstantScalarExpressions.ExpressionsOnLine | PHPCompatibility/Tests/InitialValue/NewConstantScalarExpressionsUnitTest.php:46-47 | definition: the number of constant scalar expressions that start on a line |
| NewConstantScalarExpressions.ScalarFindings | PHPCompatibility/Tests/InitialValue/NewConstantScalarExpressionsUnitTest.php:53 | definition: the errors of a sniffed file at a tested range, one per reported initial value in order |
| NewConstantScalarExpressions.ScalarCases | PHPCompatibility/Tests/InitialValue/NewConstantScalarExpressionsUnitTest.php:74-169 | definition: the 80 rows of dataNewConstantScalarExpressions, in order and with their escapes resolved |
| NewConstantScalarExpressions.ScalarCasePasses | PHPCompatibility/Tests/InitialValue/NewConstantScalarExpressionsUnitTest.php:51-65 | definition: testNewConstantScalarExpressions passes for a row, with the built message reported as an error on its line at 5.5 |
| NewConstantScalarExpressions.NoFalsePositivesPasses | PHPCompatibility/Tests/InitialValue/NewConstantScalarExpressionsUnitTest.php:177-185 | definition: testNoFalsePositives passes, with lines 1 to 120 clean at 5.5 |
| NewConstantScalarExpressions.ScalarFixture | PHPCompatibility/Tests/InitialValue/NewConstantScalarExpressionsUnitTest.php:74-185 | definition: what the suite takes for granted about its fixture, namely each row's expression on its line, alone there unless the row quotes code, and no constant scalar expression on lines 1 to 120 |
| NewConstantScalarExpressions.PhraseTable | PHPCompatibility/Tests/InitialValue/NewConstantScalarExpressionsUnitTest.php:31-36 | the four type keys map to their phrases, and any other key gives the empty snippet |
| NewConstantScalarExpressions.ScalarExprMessage | PHPCompatibility/Tests/InitialValue/NewConstantScalarExpressionsUnitTest.php:59-62 | the base message always comes first; the message is longer than it exactly when extra is non-empty, and then the rest is " Found: " followed by extra |
| NewConstantScalarExpressions.BuildErrorMessage | PHPCompatibility/Tests/InitialValue/NewConstantScalarExpressionsUnitTest.php:54-62 | the stepwise snippet lookup and appending produce ScalarExprMessage |
| NewConstantScalarExpressions.MessageDeterminesExtra | PHPCompatibility/Tests/InitialValue/NewConstantScalarExpressionsUnitTest.php:60-62 | for one declaration type, equal messages come from the same extra, the empty one included |
| NewConstantScalarExpressions.MessageDeterminesTypeAndExtra | PHPCompatibility/Tests/InitialValue/NewConstantScalarExpressionsUnitTest.php:31-62 | for the four known types, equal messages come from the same type and the same extra |
| NewConstantScalarExpressions.TypeKey | PHPCompatibility/Tests/InitialValue/NewConstantScalarExpressionsUnitTest.php:31-36 | every declaration context has a key in the phrase table |
| NewConstantScalarExpressions.TypeKeyInjective | PHPCompatibility/Tests/InitialValue/NewConstantScalarExpressionsUnitTest.php:31-36 | distinct declaration contexts have distinct keys |
| NewConstantScalarExpressions.ScalarFinding | PHPCompatibility/Tests/InitialValue/NewConstantScalarExpressionsUnitTest.php:64 | whatever the rule reports for an initial value is an error on that value's line |
| NewConstantScalarExpressions.LoneExpressionUnquoted | PHPCompatibility/Tests/InitialValue/NewConstantScalarExpressionsUnitTest.php:46-47 | under the model's quoting rule, a constant scalar expression alone on its line is reported with the base message and no " Found: " part; the tests' rows without extra imply this only when assertError compares the whole text |
| NewConstantScalarExpressions.SharedExpressionQuoted | PHPCompatibility/Tests/InitialValue/NewConstantScalarExpressionsUnitTest.php:46-47 | one that shares its line with another is reported with " Found: " and its own code |
| NewConstantScalarExpressions.FindingsDistinct | PHPCompatibility/Tests/InitialValue/NewConstantScalarExpressionsUnitTest.php:133-151 | when the expressions sharing a line have non-empty, pairwise distinct code, the file reports no error twice |
| NewConstantScalarExpressions.AppliesIffBelow56 | PHPCompatibility/Tests/InitialValue/NewConstantScalarExpressionsUnitTest.php:53 | the rule applies to a single tested version exactly when it is below 5.6; it applies at 5.5 and not at 5.6 |
| NewConstantScalarExpressions.LiteralNeverFlagged | PHPCompatibility/Tests/InitialValue/NewConstantScalarExpressionsUnitTest.php:177-185 | a plain literal initial value is never reported |
| NewConstantScalarExpressions.ExpressionFlaggedIffOld | PHPCompatibility/Tests/InitialValue/NewConstantScalarExpressionsUnitTest.php:51-65 | a constant scalar expression is reported if and only if the tested version is below 5.6, and then with the message for its context and what it quotes |
| NewConstantScalarExpressions.NothingFrom56 | PHPCompatibility/Tests/InitialValue/NewConstantScalarExpressionsUnitTest.php:193-197 | when the lowest tested version is 5.6 or later, the file has no finding at all |
| NewConstantScalarExpressions.TableAscends | PHPCompatibility/Tests/InitialValue/NewConstantScalarExpressionsUnitTest.php:74-169 | helper for SameLineMessagesDistinct: each row precedes the next in an order the rows happen to follow (by line, then by the variable the quoted code assigns); the data provider itself promises no order |
| NewConstantScalarExpressions.RowsStrictlyOrdered | PHPCompatibility/Tests/InitialValue/NewConstantScalarExpressionsUnitTest.php:74-169 | helper for SameLineMessagesDistinct: every earlier row precedes every later row in that order |
| NewConstantScalarExpressions.RowsAfterLine120 | PHPCompatibility/Tests/InitialValue/NewConstantScalarExpressionsUnitTest.php:182 | every expected error lies after line 120, outside the range the no-false-positives test keeps clean |
| NewConstantScalarExpressions.SameLineMessagesDistinct | PHPCompatibility/Tests/InitialValue/NewConstantScalarExpressionsUnitTest.php:133-151 | rows sharing a line all carry non-empty, pairwise distinct extras, so their full messages are pairwise distinct |
| NewConstantScalarExpressions.TestNewConstantScalarExpressions | PHPCompatibility/Tests/InitialValue/NewConstantScalarExpressionsUnitTest.php:51-65 | the test passes exactly when the file sniffed at 5.5 has an error with the built message on the line |
| NewConstantScalarExpressions.TestNoFalsePositives | PHPCompatibility/Tests/InitialValue/NewConstantScalarExpressionsUnitTest.php:177-185 | the loop passes exactly when lines 1 to 120 of the file sniffed at 5.5 are all clean |
| NewConstantScalarExpressions.DeclaredRowPasses | PHPCompatibility/Tests/InitialValue/NewConstantScalarExpressionsUnitTest.php:51-65 | a row whose expression the file declares, alone on its line or beside another with the row's code, passes |
| NewConstantScalarExpressions.ScalarCaseRowPasses | PHPCompatibility/Tests/InitialValue/NewConstantScalarExpressionsUnitTest.php:51-169 | on a fixture as the suite describes it, the test passes for every data-provider row |
| NewConstantScalarExpressions.ScalarTestsPass | PHPCompatibility/Tests/InitialValue/NewConstantScalarExpressionsUnitTest.php:51-197 | on such a fixture every row's error is reported at 5.5, lines 1 to 120 are clean at 5.5, and the file is clean at 5.6 |

## Left out

- The sniffs themselves (NewMagicMethodsSniff, NewConstantScalarExpressionsSniff) are not part of this model. Their rules are stated as far as the tests constrain them.
- Tokenising, scope resolution and deciding what counts as an expression: a declaration's enclosing scope is a field of `FunctionDecl`, and "more than a literal" is the boolean `isConstantExpression` of `Initializer`.
- `sniffFile`, `BaseSniffTest` and PHP_CodeSniffer: running the sniffer is file I/O and foreign code. A run is a function of the declarations and the tested range, and the three assertions are predicates over its findings.
- Parsing version strings and the testVersion configuration: versions are `Version` values. 99.0 is `Version(99, 0)`.
- The upper bound of a tested range: both rules look only at its lowest version, and every test uses a single version.
- NewMagicMethods.NameOf: PHP method names are case-insensitive; the model matches names exactly, as every name in the tests is written in its canonical case.
- NewMagicMethods.MagicIntro: okVersion is taken to be the first release after lastVersionBefore, from the releases 4.0-4.4, 5.0-5.6 and 7.0-7.4. The tests pin down only the two versions of each row.
- NewMagicMethods.ToStringWarning: the __toString message is kept as fixed text, because it is the only message of its kind.
- NewConstantScalarExpressions.Quoted: when a value's code is quoted is inferred from the tests, which quote it exactly on lines carrying several errors. Leaving a lone value unquoted is the model's choice: the tests imply it only when assertError compares the whole message, and a containment check would also accept a lone value whose code is quoted. How the sniff groups values (per line or per statement) and how it extracts the code text are not modelled; the code is a field of `Initializer`.
- Findings.HasWarning / Findings.HasError: assertWarning and assertError are modelled as membership of a finding with exactly the expected text. That is an assumption about BaseSniffTest, which is not part of this model. If it checks containment instead, exact membership still implies it, so MagicTestsPass and ScalarTestsPass still hold.
- NewConstantScalarExpressions.ScalarExprMessage: the exact text is given by the constants `MessageStart`, `MessageEnd` and `FoundMarker`. No lemma compares a whole message with a string literal.
- PHPUnit's data-provider, `@group` and `@covers` machinery: each test is a method or predicate over one row, and the suite theorems quantify over all rows.
