/** The fluent builder that fills the rule list of a `RewriteOptions`
    object.

    Every extension method appends exactly one rule to the options' rule
    list and returns the same options object. Here the options object is
    represented by its rule list, and "returns the same options object"
    becomes "returns the updated list". The convenience overloads delegate
    to a full overload with a fixed default, exactly as the C# source does. */
module RewriteOptionsExtensions {

  import opened Wrappers
  import opened Rules

  /** `after` is `before` with `rule` appended: one more element, the old
      rules unchanged at their old positions, and `rule` last. */
  ghost predicate AppendsOne<Cb>(before: seq<Rule<Cb>>, after: seq<Rule<Cb>>, rule: Rule<Cb>)
  {
    && |after| == |before| + 1
    && after[..|before|] == before
    && after[|before|] == rule
  }

  /** `Add(options, rule)`: adds an arbitrary rule. */
  function Add<Cb>(rules: seq<Rule<Cb>>, rule: Rule<Cb>): (r: seq<Rule<Cb>>)
    ensures AppendsOne(rules, r, rule)
  {
    rules + [rule]
  }

  /** `Add(options, applyRule)`: wraps the callback in a `DelegateRule`. */
  function AddDelegate<Cb>(rules: seq<Rule<Cb>>, applyRule: Cb): (r: seq<Rule<Cb>>)
    ensures AppendsOne(rules, r, DelegateRule(applyRule))
  {
    Add(rules, DelegateRule(applyRule))
  }

  /** `Rewrite(options, regex, replacement)`: delegates with
      `stopProcessing: false`. */
  function Rewrite<Cb>(rules: seq<Rule<Cb>>, regex: string, replacement: string): (r: seq<Rule<Cb>>)
    ensures AppendsOne(rules, r, RewriteRule(regex, replacement, false))
  {
    RewriteWithStop(rules, regex, replacement, false)
  }

  /** `Rewrite(options, regex, replacement, stopProcessing)`. */
  function RewriteWithStop<Cb>(rules: seq<Rule<Cb>>, regex: string, replacement: string,
                                   stopProcessing: bool): (r: seq<Rule<Cb>>)
    ensures AppendsOne(rules, r, RewriteRule(regex, replacement, stopProcessing))
  {
    Add(rules, RewriteRule(regex, replacement, stopProcessing))
  }

  /** `Redirect(options, regex, replacement)`: delegates with
      `statusCode: 302`. */
  function Redirect<Cb>(rules: seq<Rule<Cb>>, regex: string, replacement: string): (r: seq<Rule<Cb>>)
    ensures AppendsOne(rules, r, RedirectRule(regex, replacement, 302))
  {
    RedirectWithStatus(rules, regex, replacement, 302)
  }

  /** `Redirect(options, regex, replacement, statusCode)`. No range check is
      made on the status code: any `int` is stored as given. */
  function RedirectWithStatus<Cb>(rules: seq<Rule<Cb>>, regex: string, replacement: string,
                                      statusCode: int32): (r: seq<Rule<Cb>>)
    ensures AppendsOne(rules, r, RedirectRule(regex, replacement, statusCode))
  {
    Add(rules, RedirectRule(regex, replacement, statusCode))
  }

  /** `RedirectToHttpsPermanent(options)`: status 301, no port. */
  function RedirectToHttpsPermanent<Cb>(rules: seq<Rule<Cb>>): (r: seq<Rule<Cb>>)
    ensures AppendsOne(rules, r, RedirectToHttpsRule(301, None))
  {
    RedirectToHttpsWithPort(rules, 301, None)
  }

  /** `RedirectToHttps(options)`: status 302, no port. */
  function RedirectToHttps<Cb>(rules: seq<Rule<Cb>>): (r: seq<Rule<Cb>>)
    ensures AppendsOne(rules, r, RedirectToHttpsRule(302, None))
  {
    RedirectToHttpsWithPort(rules, 302, None)
  }

  /** `RedirectToHttps(options, statusCode)`: no port. */
  function RedirectToHttpsWithStatus<Cb>(rules: seq<Rule<Cb>>, statusCode: int32): (r: seq<Rule<Cb>>)
    ensures AppendsOne(rules, r, RedirectToHttpsRule(statusCode, None))
  {
    RedirectToHttpsWithPort(rules, statusCode, None)
  }

  /** `RedirectToHttps(options, statusCode, sslPort)`: the rule's
      `StatusCode` and `SSLPort` are set to the arguments. */
  function RedirectToHttpsWithPort<Cb>(rules: seq<Rule<Cb>>, statusCode: int32,
                                           sslPort: Option<int32>): (r: seq<Rule<Cb>>)
    ensures AppendsOne(rules, r, RedirectToHttpsRule(statusCode, sslPort))
  {
    Add(rules, RedirectToHttpsRule(statusCode, sslPort))
  }

  /** Each convenience overload has the same effect as its full overload
      called with the documented default. */
  lemma ConvenienceOverloadsUseDefaults<Cb>(rules: seq<Rule<Cb>>, regex: string, replacement: string,
                                               statusCode: int32)
    ensures Rewrite(rules, regex, replacement) == RewriteWithStop(rules, regex, replacement, false)
    ensures Redirect(rules, regex, replacement) == RedirectWithStatus(rules, regex, replacement, 302)
    ensures RedirectToHttpsPermanent(rules) == RedirectToHttpsWithPort(rules, 301, None)
    ensures RedirectToHttps(rules) == RedirectToHttpsWithPort(rules, 302, None)
    ensures RedirectToHttpsWithStatus(rules, statusCode) == RedirectToHttpsWithPort(rules, statusCode, None)
  {
  }

  // ---------------------------------------------------------------------
  // Fluent chains: `options.Add(...).Rewrite(...).RedirectToHttps()`
  // ---------------------------------------------------------------------

  /** One call of the fluent builder: which overload, with which arguments. */
  datatype Call<Cb> =
    | AddCall(rule: Rule<Cb>)
    | AddDelegateCall(applyRule: Cb)
    | RewriteCall(regex: string, replacement: string)
    | RewriteWithStopCall(regex: string, replacement: string, stopProcessing: bool)
    | RedirectCall(regex: string, replacement: string)
    | RedirectWithStatusCall(regex: string, replacement: string, statusCode: int32)
    | RedirectToHttpsPermanentCall
    | RedirectToHttpsCall
    | RedirectToHttpsWithStatusCall(statusCode: int32)
    | RedirectToHttpsWithPortCall(statusCode: int32, sslPort: Option<int32>)

  /** Performs one call on the rule list. */
  function Apply<Cb>(rules: seq<Rule<Cb>>, call: Call<Cb>): seq<Rule<Cb>>
  {
    match call
    case AddCall(rule) => Add(rules, rule)
    case AddDelegateCall(applyRule) => AddDelegate(rules, applyRule)
    case RewriteCall(regex, replacement) => Rewrite(rules, regex, replacement)
    case RewriteWithStopCall(regex, replacement, stop) => RewriteWithStop(rules, regex, replacement, stop)
    case RedirectCall(regex, replacement) => Redirect(rules, regex, replacement)
    case RedirectWithStatusCall(regex, replacement, code) => RedirectWithStatus(rules, regex, replacement, code)
    case RedirectToHttpsPermanentCall => RedirectToHttpsPermanent(rules)
    case RedirectToHttpsCall => RedirectToHttps(rules)
    case RedirectToHttpsWithStatusCall(code) => RedirectToHttpsWithStatus(rules, code)
    case RedirectToHttpsWithPortCall(code, port) => RedirectToHttpsWithPort(rules, code, port)
  }

  /** The table of documented defaults: the rule each overload is meant to
      add, written independently of the builder functions. */
  function RuleOf<Cb>(call: Call<Cb>): Rule<Cb>
  {
    match call
    case AddCall(rule) => rule
    case AddDelegateCall(applyRule) => DelegateRule(applyRule)
    case RewriteCall(regex, replacement) => RewriteRule(regex, replacement, false)
    case RewriteWithStopCall(regex, replacement, stop) => RewriteRule(regex, replacement, stop)
    case RedirectCall(regex, replacement) => RedirectRule(regex, replacement, 302)
    case RedirectWithStatusCall(regex, replacement, code) => RedirectRule(regex, replacement, code)
    case RedirectToHttpsPermanentCall => RedirectToHttpsRule(301, None)
    case RedirectToHttpsCall => RedirectToHttpsRule(302, None)
    case RedirectToHttpsWithStatusCall(code) => RedirectToHttpsRule(code, None)
    case RedirectToHttpsWithPortCall(code, port) => RedirectToHttpsRule(code, port)
  }

  /** Every overload, whatever its arguments, is `Add` of the rule the
      table of defaults names. */
  lemma ApplyAddsRuleOf<Cb>(rules: seq<Rule<Cb>>, call: Call<Cb>)
    ensures Apply(rules, call) == Add(rules, RuleOf(call))
  {
  }

  /** The rules a chain of calls is meant to add, in call order. */
  function RulesOf<Cb>(calls: seq<Call<Cb>>): (r: seq<Rule<Cb>>)
    ensures |r| == |calls|
    ensures forall k :: 0 <= k < |calls| ==> r[k] == RuleOf(calls[k])
  {
    seq(|calls|, k requires 0 <= k < |calls| => RuleOf(calls[k]))
  }

  lemma RulesOfConcat<Cb>(first: seq<Call<Cb>>, second: seq<Call<Cb>>)
    ensures RulesOf(first + second) == RulesOf(first) + RulesOf(second)
  {
  }

  /** Performs a fluent chain of calls, left to right, each on the list the
      previous call returned. */
  function ApplyAll<Cb>(rules: seq<Rule<Cb>>, calls: seq<Call<Cb>>): (r: seq<Rule<Cb>>)
    ensures |r| == |rules| + |calls|
    ensures r[..|rules|] == rules
    ensures forall k :: 0 <= k < |calls| ==> r[|rules| + k] == RuleOf(calls[k])
    decreases |calls|
  {
    if |calls| == 0 then rules
    else
      ApplyAddsRuleOf(rules, calls[0]);
      ApplyAll(Apply(rules, calls[0]), calls[1..])
  }

  /** A chain of n calls yields the old list followed by the n new rules in
      call order: no call removes, replaces or reorders a rule. */
  lemma ApplyAllAppendsInCallOrder<Cb>(rules: seq<Rule<Cb>>, calls: seq<Call<Cb>>)
    ensures ApplyAll(rules, calls) == rules + RulesOf(calls)
  {
  }

  /** Splitting a chain anywhere does not change its result: building the
      list in two stages is the same as building it in one. */
  lemma {:induction false} ApplyAllSplit<Cb>(rules: seq<Rule<Cb>>, first: seq<Call<Cb>>, second: seq<Call<Cb>>)
    ensures ApplyAll(rules, first + second) == ApplyAll(ApplyAll(rules, first), second)
  {
    var middle := ApplyAll(rules, first);
    ApplyAllAppendsInCallOrder(rules, first + second);
    ApplyAllAppendsInCallOrder(rules, first);
    ApplyAllAppendsInCallOrder(middle, second);
    RulesOfConcat(first, second);
    assert rules + (RulesOf(first) + RulesOf(second)) == (rules + RulesOf(first)) + RulesOf(second);
  }
}
