# ASP.NET Core URL Rewrite: rule-list builder and parsed-rule equivalence

This project models two small pieces of the ASP.NET Core URL rewriting middleware in Dafny.

- **The rule-list builder** (`RewriteOptionsExtensions`). These are the fluent extension methods that add rules to a `RewriteOptions` object: `Add` (a rule, or a callback), `Rewrite`, `Redirect`, `RedirectToHttps` and `RedirectToHttpsPermanent`.
  - Each method is a pure function from the old rule list to the new one.
  - The options object is represented by its rule list, so "returns the same options object" becomes "returns the updated list".
  - C# overloading has no Dafny equivalent, so each overload gets its own name. The three-argument `Rewrite` is `RewriteWithStop`, the four-argument `Redirect` is `RedirectWithStatus`, and `RedirectToHttps(code)` and `RedirectToHttps(code, port)` are `RedirectToHttpsWithStatus` and `RedirectToHttpsWithPort`.
  - A fluent chain of calls is a sequence of `Call` values, run by `ApplyAll`.
- **The equivalence check the file-parser tests use** (`FileParserTests`). This covers:
  - the `CreateTestRule` fixture;
  - the structural comparison `AssertUrlRewriteRuleEquality`;
  - the expected lists of the three parse tests.

  The comparison appears twice:
  - `Equivalent`, a declarative predicate;
  - a method that follows the helper's assertion order and returns a `Verdict` (`Pass`, `AssertionFailed` or `NullDereference`) instead of throwing.

  The lemmas say exactly which fields of a rule the comparison observes: the name, each condition input's segment count, and the runtime types of the action and initial match. Null condition lists are treated as empty.

Files:
- `wrappers.dfy`: `Option`, the stand-in for a nullable reference.
- `rules.dfy`: the builder's `Rule` values and a 32-bit `int32`.
- `rewrite_options_extensions.dfy`: the builder.
- `url_rewrite_model.dfy`: the parsed-rule record the tests inspect.
- `file_parser_tests.dfy`: the fixture, the comparison and the lemmas.

## Model

| member | source | states |
|---|---|---|
| RewriteOptionsExtensions.Add | src/Microsoft.AspNetCore.Rewrite/RewriteOptionsExtensions.cs:22-26 | Adds exactly one rule: the result is one longer, keeps every earlier rule at its position, and ends with the given rule. |
| RewriteOptionsExtensions.AddDelegate | src/Microsoft.AspNetCore.Rewrite/RewriteOptionsExtensions.cs:34-38 | Adds exactly one `DelegateRule` that wraps the given callback, and changes nothing else. |
| RewriteOptionsExtensions.Rewrite | src/Microsoft.AspNetCore.Rewrite/RewriteOptionsExtensions.cs:47-50 | Adds one `RewriteRule` with `stopProcessing` false. |
| RewriteOptionsExtensions.RewriteWithStop | src/Microsoft.AspNetCore.Rewrite/RewriteOptionsExtensions.cs:60-64 | Adds one `RewriteRule` that carries exactly the given regex, replacement and stop flag. |
| RewriteOptionsExtensions.Redirect | src/Microsoft.AspNetCore.Rewrite/RewriteOptionsExtensions.cs:73-76 | Adds one `RedirectRule` with status 302. |
| RewriteOptionsExtensions.RedirectWithStatus | src/Microsoft.AspNetCore.Rewrite/RewriteOptionsExtensions.cs:86-90 | Adds one `RedirectRule` with the given status. Every `int` status is stored unchanged, because the source makes no range check. |
| RewriteOptionsExtensions.RedirectToHttpsPermanent | src/Microsoft.AspNetCore.Rewrite/RewriteOptionsExtensions.cs:92-95 | Adds one `RedirectToHttpsRule` with status 301 and no SSL port. |
| RewriteOptionsExtensions.RedirectToHttps | src/Microsoft.AspNetCore.Rewrite/RewriteOptionsExtensions.cs:101-104 | Adds one `RedirectToHttpsRule` with status 302 and no SSL port. |
| RewriteOptionsExtensions.RedirectToHttpsWithStatus | src/Microsoft.AspNetCore.Rewrite/RewriteOptionsExtensions.cs:111-114 | Adds one `RedirectToHttpsRule` with the given status and no SSL port. |
| RewriteOptionsExtensions.RedirectToHttpsWithPort | src/Microsoft.AspNetCore.Rewrite/RewriteOptionsExtensions.cs:122-126 | Adds one `RedirectToHttpsRule` whose `StatusCode` and `SSLPort` are the arguments. |
| RewriteOptionsExtensions.ConvenienceOverloadsUseDefaults | src/Microsoft.AspNetCore.Rewrite/RewriteOptionsExtensions.cs:47-114 | Each convenience overload equals its full overload called with the documented default: `stopProcessing: false`, status 302, status 301, or a null port. |
| RewriteOptionsExtensions.ApplyAddsRuleOf | src/Microsoft.AspNetCore.Rewrite/RewriteOptionsExtensions.cs:22-126 | Every overload, with any arguments, equals `Add` of the rule that the independent table of defaults (`RuleOf`) names. |
| RewriteOptionsExtensions.ApplyAll | src/Microsoft.AspNetCore.Rewrite/RewriteOptionsExtensions.cs:22-126 | A chain of n calls gives a list n longer. The old rules keep their positions, and the k-th new rule is the one the k-th call adds. |
| RewriteOptionsExtensions.ApplyAllAppendsInCallOrder | src/Microsoft.AspNetCore.Rewrite/RewriteOptionsExtensions.cs:22-126 | A chain of calls yields exactly the old list followed by the new rules in call order. No call removes, replaces or reorders a rule. |
| RewriteOptionsExtensions.ApplyAllSplit | src/Microsoft.AspNetCore.Rewrite/RewriteOptionsExtensions.cs:22-126 | Splitting a chain into two stages gives the same list as running it in one. |
| FileParserTests.CreateTestRule | test/Microsoft.AspNetCore.Rewrite.Tests/UrlRewrite/FileParserTests.cs:132-151 | The fixture always builds the same shape: a `RegexMatch` on `^OFF$` that is not negated, and a `RewriteAction` with `Continue`, no query-string append, and the parsed `url`. It uses the given name and conditions. |
| FileParserTests.CreateTestRuleIgnoresParameters | test/Microsoft.AspNetCore.Rewrite.Tests/UrlRewrite/FileParserTests.cs:132-151 | The fixture ignores the action type, pattern, grouping, tracking, enabled, syntax, stop, ignore-case, negate, append, rewritten-URL and redirect-type parameters. |
| FileParserTests.AssertUrlRewriteRuleEquality | test/Microsoft.AspNetCore.Rewrite.Tests/UrlRewrite/FileParserTests.cs:154-186 | The helper passes iff the lists have equal lengths and every position is equivalent. Among the nulls the model can represent (null condition lists), it dereferences null iff, at the first position where every earlier check passed, the names are equal and both condition lists are null. |
| FileParserTests.RuleEquivalentIffSameShape | test/Microsoft.AspNetCore.Rewrite.Tests/UrlRewrite/FileParserTests.cs:162-184 | Two rules are equivalent iff their names are equal, their condition inputs' segment counts are equal in order (null counts as empty), and the runtime types of their actions and of their initial matches are equal. |
| FileParserTests.EquivalentIffSameShapes | test/Microsoft.AspNetCore.Rewrite.Tests/UrlRewrite/FileParserTests.cs:156-185 | Two lists are equivalent iff they have the same length and their rules have equal shapes position by position. |
| FileParserTests.UnobservedFieldsIgnored | test/Microsoft.AspNetCore.Rewrite.Tests/UrlRewrite/FileParserTests.cs:183-184 | The match pattern text, negate flag, action template, termination and query-string flag are never compared. |
| FileParserTests.ConditionContentsIgnored | test/Microsoft.AspNetCore.Rewrite.Tests/UrlRewrite/FileParserTests.cs:174-180 | Of each condition, only its input's segment count is compared: not the segments' content and not its matcher. |
| FileParserTests.NullConditionsCountAsEmpty | test/Microsoft.AspNetCore.Rewrite.Tests/UrlRewrite/FileParserTests.cs:164-171 | A null condition list matches exactly what an empty list matches. |
| FileParserTests.RuleEquivalentReflexive | test/Microsoft.AspNetCore.Rewrite.Tests/UrlRewrite/FileParserTests.cs:162-184 | A rule whose conditions are not null is equivalent to itself. |
| FileParserTests.RuleEquivalentSymmetric | test/Microsoft.AspNetCore.Rewrite.Tests/UrlRewrite/FileParserTests.cs:162-184 | The order of the two rules does not matter. |
| FileParserTests.RuleEquivalentTransitive | test/Microsoft.AspNetCore.Rewrite.Tests/UrlRewrite/FileParserTests.cs:162-184 | Equivalence is transitive wherever it is defined. |
| FileParserTests.ExpectedListsFollowDocuments | test/Microsoft.AspNetCore.Rewrite.Tests/UrlRewrite/FileParserTests.cs:18-129 | Each expected list has one rule per `<rule>` element, in document order, with that element's name. A rule with a one-entry `<conditions>` block has exactly one condition. |
| FileParserTests.ExpectedListsAreNullSafe | test/Microsoft.AspNetCore.Rewrite.Tests/UrlRewrite/FileParserTests.cs:31-122 | The three expected lists' conditions are never null, so comparing any list against them never reaches the both-null dereference. |
| FileParserTests.NullConditionsPassTypicalRule | test/Microsoft.AspNetCore.Rewrite.Tests/UrlRewrite/FileParserTests.cs:164-171 | A parsed rule with null conditions passes the typical-rule test whatever its patterns, as long as its name and runtime types agree. |
| FileParserTests.ConditionCountDistinguishesFixtures | test/Microsoft.AspNetCore.Rewrite.Tests/UrlRewrite/FileParserTests.cs:174 | The comparison tells the zero-condition fixture from the one-condition fixture. |
| FileParserTests.MultipleRulesOrderMatters | test/Microsoft.AspNetCore.Rewrite.Tests/UrlRewrite/FileParserTests.cs:156-162 | Rules are compared by position, so the two-rule list in the other order does not pass. |

## Left out

- Runtime behaviour of the rule classes (`RewriteRule`, `RedirectRule`, `RedirectToHttpsRule`, `DelegateRule`): their source is not part of this model, so they are opaque constructors that record their arguments.
- `UrlRewriteFileParser`, `InputParser`, `RegexMatch` and `RewriteAction`: their source is not part of this model. The parsed rule is an opaque record. `InputParser.ParseInputString` is the `parse` function parameter of the fixtures, and a pattern segment's content is opaque.
- Regex compilation and matching: pattern strings stay opaque.
- The `Action<RewriteContext>` callback: an uninterpreted type parameter `Cb`.
- Object identity and mutation of `RewriteOptions`: the rule list is passed and returned by value.
- A null `options` argument, for which every builder overload throws `NullReferenceException` when it reads `options.Rules`: the rule list is a value here and cannot be null.
- A null `rule` argument to `Add`, which the source appends as is: `Rule` is a closed datatype with no null value.
- XML reading through `StringReader`, and running the parser on the test documents. A test document is represented only by its `<rule>` names and condition counts (`RuleElement`), so whether the parser's output passes the comparison is not modelled.
- xUnit's `Assert`: a failing assertion is the `AssertionFailed` verdict, not an exception.
- FileParserTests.AssertUrlRewriteRuleEquality: only null condition lists are represented. The helper also dereferences null on a null `actual` or `expected` list, a null rule in either list, a null `Condition`, `Input` or `PatternSegments`, and a null `Action` or `InitialMatch`. Two null names pass its name assertion. The model's lists, records and strings cannot be null, so none of these cases is modelled.
- `RuleTermination`, `LogicalGrouping`, `PatternSyntax`, `ActionType` and `RedirectType`: only the members the tests name appear (`Continue`, `MatchAll`, `ECMAScript`, `None`, `Rewrite`, `Permanent`). Any other member is an opaque `Other…` value.
- The request pipeline, AND/OR condition evaluation and back-reference substitution: they do not appear in these two files.
- FileParserTests.Equivalent: the predicate requires that no position has null conditions on both sides (`NullSafe`). The helper itself dereferences null only when it reaches such a position with equal names. `AssertUrlRewriteRuleEquality` states that exact case.
