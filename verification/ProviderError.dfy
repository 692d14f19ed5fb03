/** The failure classes that decide whether a provider is called again, and how a thrown error falls into one. */
module ProviderError {
  import opened Basics

  datatype FailureClass = Retryable | NonRetryable | OutputFailure

  /** What is read off a thrown value; `mentionsAuth` says whether its message contains "auth" in any case. */
  datatype ErrorShape = ErrorShape(name: string, status: Option<int>, mentionsAuth: bool)

  const NON_RETRYABLE_NAMES: set<string> :=
    {"AuthenticationError", "InvalidApiKey", "InvalidRequestError", "BadRequestError", "PermissionDeniedError",
     "NotFoundError", "ConfigurationError", "UnsupportedProtocolError"}

  predicate Contains(s: string, part: string) {
    part <= s || (s != "" && Contains(s[1..], part))
  }

  lemma {:induction false} ContainsExactlyWhen(s: string, part: string)
    ensures Contains(s, part) <==> exists i :: 0 <= i <= |s| && part <= s[i..]
  {
    if part <= s {
      assert s[0..] == s;
    } else if s != "" {
      ContainsExactlyWhen(s[1..], part);
      if i :| 0 <= i <= |s| && part <= s[i..] {
        assert i > 0 by {
          assert s[0..] == s;
        }
        assert s[1..][i - 1..] == s[i..];
      }
      if i :| 0 <= i <= |s[1..]| && part <= s[1..][i..] {
        assert s[1..][i..] == s[i + 1..];
      }
    }
  }

  /** The response arrived but could not be read. */
  predicate IsUnreadable(e: ErrorShape) {
    e.name == "ZodError" || e.name == "SyntaxError" || Contains(e.name, "parse")
  }

  /** The operator must fix something first. */
  predicate IsPermanent(e: ErrorShape) {
    e.status in {Some(400), Some(401), Some(403), Some(404), Some(409)} || e.name in NON_RETRYABLE_NAMES
  }

  /** Unreadable output wins over a permanent status; everything else is taken to be transient. */
  function ClassifyProviderFailure(e: ErrorShape): (c: FailureClass)
    ensures c.OutputFailure? <==> IsUnreadable(e)
    ensures c.Retryable? <==> !IsUnreadable(e) && !IsPermanent(e)
    ensures c.OutputFailure? <==> e.name == "ZodError" || e.name == "SyntaxError" || Contains(e.name, "parse")
    ensures c.NonRetryable? <==>
              && !c.OutputFailure?
              && (e.status in {Some(400), Some(401), Some(403), Some(404), Some(409)}
                  || e.name in {"AuthenticationError", "InvalidApiKey", "InvalidRequestError", "BadRequestError",
                                "PermissionDeniedError", "NotFoundError", "ConfigurationError", "UnsupportedProtocolError"})
  {
    if e.name == "ZodError" || e.name == "SyntaxError" || Contains(e.name, "parse") then OutputFailure
    else if e.status == Some(400) || e.status == Some(401) || e.status == Some(403) || e.status == Some(404) || e.status == Some(409)
    then NonRetryable
    else if e.name in NON_RETRYABLE_NAMES then NonRetryable
    else Retryable
  }
}
