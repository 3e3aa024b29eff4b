/** The rule values the programmatic builder creates.

    The runtime behaviour of these rules (matching the request path,
    rewriting, redirecting, calling the callback) is not part of this
    model: each rule class is an opaque constructor that only records the
    arguments it was built from. */
module Rules {

  import opened Wrappers

  /** A C# `int`: a signed 32-bit integer. */
  newtype int32 = x: int | -0x8000_0000 <= x < 0x8000_0000

  /** A rule in the ordered list of a `RewriteOptions` object.
      `Cb` is the type of the opaque `Action<RewriteContext>` callback. */
  datatype Rule<Cb> =
    | CustomRule(id: nat)                                                  // any other user-supplied `Rule`
    | DelegateRule(applyRule: Cb)                                          // `new DelegateRule(applyRule)`
    | RewriteRule(regex: string, replacement: string, stopProcessing: bool) // `new RewriteRule(regex, replacement, stopProcessing)`
    | RedirectRule(regex: string, replacement: string, statusCode: int32)  // `new RedirectRule(regex, replacement, statusCode)`
    | RedirectToHttpsRule(statusCode: int32, sslPort: Option<int32>)       // `new RedirectToHttpsRule { StatusCode, SSLPort }`
}
