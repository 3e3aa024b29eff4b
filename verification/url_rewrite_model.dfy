/** The parsed XML-dialect rule as the file-parser tests see it.

    Only what the tests construct or inspect is represented. The matching,
    parsing and evaluation logic behind these values (`RegexMatch`,
    `RewriteAction`, `InputParser`) is not part of this model; they are
    opaque records of the values they were built from. */
module UrlRewriteModel {

  import opened Wrappers

  /** The identity of a runtime type, as `GetType()` returns it. */
  datatype TypeTag = TypeTag(fullName: string)

  const RegexMatchType: TypeTag := TypeTag("RegexMatch")
  const RewriteActionType: TypeTag := TypeTag("RewriteAction")

  /** One segment of a parsed input template (a literal, a server variable
      or a back-reference); its content is opaque here. */
  datatype PatternSegment = PatternSegment(text: string)

  /** The result of `InputParser.ParseInputString`: its `PatternSegments`. */
  datatype Pattern = Pattern(segments: seq<PatternSegment>)

  /** A matcher: its runtime type, the pattern it was built from and its
      negate flag. */
  datatype UrlMatch = UrlMatch(runtimeType: TypeTag, regex: string, negate: bool)

  /** Continuation after a rule's action. Only `Continue` is used by the
      tests; the other members of the enum are not part of this model. */
  datatype RuleTermination = Continue | OtherTermination(memberName: string)

  /** An action: its runtime type, its parsed URL template and its flags. */
  datatype UrlAction = UrlAction(runtimeType: TypeTag, url: Pattern, termination: RuleTermination,
                                 queryStringAppend: bool)

  /** A condition: the input template it evaluates and the matcher it
      applies to that input. */
  datatype Condition = Condition(input: Pattern, urlMatch: UrlMatch)

  /** `new UrlRewriteRule(name, initialMatch, conditions, action)`.
      `conditions` is `None` when the C# list reference is null. */
  datatype UrlRewriteRule = UrlRewriteRule(name: string, initialMatch: UrlMatch,
                                           conditions: Option<seq<Condition>>, action: UrlAction)

  /** `new RegexMatch(new Regex(regex), negate)`. */
  function RegexMatch(regex: string, negate: bool): UrlMatch
  {
    UrlMatch(RegexMatchType, regex, negate)
  }

  /** `new RewriteAction(termination, url, queryStringAppend)`. */
  function RewriteAction(termination: RuleTermination, url: Pattern, queryStringAppend: bool): UrlAction
  {
    UrlAction(RewriteActionType, url, termination, queryStringAppend)
  }

  // The enums that appear as parameter types of the test fixture. Only the
  // members the tests name are listed; any other member is an opaque
  // `Other…` value. `ActionType`'s members carry an `Action` prefix so that
  // `ActionType.None` does not clash with `Option`.
  datatype LogicalGrouping = MatchAll | OtherGrouping(memberName: string)
  datatype PatternSyntax = ECMAScript | OtherSyntax(memberName: string)
  datatype ActionType = ActionNone | ActionRewrite | OtherActionType(memberName: string)
  datatype RedirectType = Permanent | OtherRedirectType(memberName: string)
}
