/** The table-driven test of `GetAPIKey`: each row is a header set with the
    key and error it must produce, and every row is proved to pass. */
module AuthTest {
  import opened Strings
  import opened Auth

  datatype TestCase = TestCase(name: string, headers: Header, expectedKey: string, expectedError: Option<AuthError>)

  /** One header set holding a single `Authorization` value. */
  function Single(value: string): Header
  {
    map[AuthorizationName := [value]]
  }

  // The rows of `TestGetAPIKey`, one constant each.
  const NoAuthorizationHeaderCase := TestCase("No Authorization Header", map[], "", Some(ErrNoAuthHeaderIncluded))
  const EmptyAuthorizationHeaderCase := TestCase("Empty Authorization Header", Single(""), "", Some(ErrNoAuthHeaderIncluded))
  const MalformedNoSpaceCase := TestCase("Malformed Authorization Header - No Space", Single("ApiKeysomekey"), "", Some(ErrMalformedAuthHeader))
  const IncorrectSchemeCase := TestCase("Incorrect Authorization Scheme", Single("Bearer somekey"), "", Some(ErrMalformedAuthHeader))
  const ValidHeaderCase := TestCase("Valid Authorization Header", Single("ApiKey somekey"), "somekey", None)
  const ExtraPartsCase := TestCase("Authorization Header with Extra Parts", Single("ApiKey somekey extra"), "somekey", None)
  const EmptyKeyCase := TestCase("API Key is Empty String", Single("ApiKey "), "", None)
  const LowercaseSchemeCase := TestCase("Authorization Header with Lowercase Scheme", Single("apikey somekey"), "", Some(ErrMalformedAuthHeader))
  const LeadingAndTrailingSpacesCase := TestCase("Authorization Header with Leading and Trailing Spaces", Single("  ApiKey somekey  "), "", Some(ErrMalformedAuthHeader))

  /** The nine rows of `TestGetAPIKey`, in order. */
  const Tests: seq<TestCase> := [
    NoAuthorizationHeaderCase,
    EmptyAuthorizationHeaderCase,
    MalformedNoSpaceCase,
    IncorrectSchemeCase,
    ValidHeaderCase,
    ExtraPartsCase,
    EmptyKeyCase,
    LowercaseSchemeCase,
    LeadingAndTrailingSpacesCase
  ]

  /** The table has nine rows, and every row that expects an error expects
      the empty key alongside it, as `GetAPIKey` promises for every header set.
      It documents the shape of the table; it proves nothing about `GetAPIKey`. */
  lemma {:induction false} TableShape()
    ensures |Tests| == 9
    ensures forall i :: 0 <= i < |Tests| && Tests[i].expectedError.Some? ==> Tests[i].expectedKey == ""
  {
  }

  /** The check a row applies to the result `got` of `GetAPIKey`: the key
      is the expected one and the errors agree, by message when both are
      present and otherwise by both being absent. Since messages identify
      error kinds, that is the same as `got` being exactly the expected key
      and error. */
  predicate Passes(got: Outcome, tc: TestCase)
    ensures Passes(got, tc) <==> got == Outcome(tc.expectedKey, tc.expectedError)
  {
    && got.apiKey == tc.expectedKey
    && if tc.expectedError.Some? && got.err.Some?
       then Message(got.err.value) == Message(tc.expectedError.value)
       else got.err == tc.expectedError
  }

  /** Row "No Authorization Header". */
  lemma {:induction false} NoAuthorizationHeader()
    ensures GetAPIKey(map[]) == Outcome("", Some(ErrNoAuthHeaderIncluded))
    ensures Passes(GetAPIKey(NoAuthorizationHeaderCase.headers), NoAuthorizationHeaderCase)
  {
  }

  /** Row "Empty Authorization Header". */
  lemma {:induction false} EmptyAuthorizationHeader()
    ensures GetAPIKey(Single("")) == Outcome("", Some(ErrNoAuthHeaderIncluded))
    ensures Passes(GetAPIKey(EmptyAuthorizationHeaderCase.headers), EmptyAuthorizationHeaderCase)
  {
  }

  /** Row "Malformed Authorization Header - No Space". */
  lemma {:induction false} MalformedNoSpace()
    ensures GetAPIKey(Single("ApiKeysomekey")) == Outcome("", Some(ErrMalformedAuthHeader))
    ensures Passes(GetAPIKey(MalformedNoSpaceCase.headers), MalformedNoSpaceCase)
  {
    PrefixMismatch("ApiKeysomekey", 6);
  }

  /** Row "Incorrect Authorization Scheme". */
  lemma {:induction false} IncorrectScheme()
    ensures GetAPIKey(Single("Bearer somekey")) == Outcome("", Some(ErrMalformedAuthHeader))
    ensures Passes(GetAPIKey(IncorrectSchemeCase.headers), IncorrectSchemeCase)
  {
    PrefixMismatch("Bearer somekey", 0);
  }

  /** Row "Valid Authorization Header". */
  lemma {:induction false} ValidHeader()
    ensures GetAPIKey(Single("ApiKey somekey")) == Outcome("somekey", None)
    ensures Passes(GetAPIKey(ValidHeaderCase.headers), ValidHeaderCase)
  {
    assert "ApiKey somekey" == Prefix + "somekey" + "";
    AcceptsKey("somekey", "");
  }

  /** Row "Authorization Header with Extra Parts". */
  lemma {:induction false} ExtraParts()
    ensures GetAPIKey(Single("ApiKey somekey extra")) == Outcome("somekey", None)
    ensures Passes(GetAPIKey(ExtraPartsCase.headers), ExtraPartsCase)
  {
    assert "ApiKey somekey extra" == Prefix + "somekey" + " extra";
    AcceptsKey("somekey", " extra");
  }

  /** Row "API Key is Empty String". */
  lemma {:induction false} EmptyKey()
    ensures GetAPIKey(Single("ApiKey ")) == Outcome("", None)
    ensures Passes(GetAPIKey(EmptyKeyCase.headers), EmptyKeyCase)
  {
    assert "ApiKey " == Prefix + "" + "";
    AcceptsKey("", "");
  }

  /** Row "Authorization Header with Lowercase Scheme". */
  lemma {:induction false} LowercaseScheme()
    ensures GetAPIKey(Single("apikey somekey")) == Outcome("", Some(ErrMalformedAuthHeader))
    ensures Passes(GetAPIKey(LowercaseSchemeCase.headers), LowercaseSchemeCase)
  {
    PrefixMismatch("apikey somekey", 0);
  }

  /** Row "Authorization Header with Leading and Trailing Spaces". */
  lemma {:induction false} LeadingAndTrailingSpaces()
    ensures GetAPIKey(Single("  ApiKey somekey  ")) == Outcome("", Some(ErrMalformedAuthHeader))
    ensures Passes(GetAPIKey(LeadingAndTrailingSpacesCase.headers), LeadingAndTrailingSpacesCase)
  {
    PrefixMismatch("  ApiKey somekey  ", 0);
  }

  /** Row `i` of the table passes. */
  lemma {:induction false} RowPasses(i: nat)
    requires i < |Tests|
    ensures Passes(GetAPIKey(Tests[i].headers), Tests[i])
  {
    if i == 0 {
      assert Tests[0] == NoAuthorizationHeaderCase;
      NoAuthorizationHeader();
    } else if i == 1 {
      assert Tests[1] == EmptyAuthorizationHeaderCase;
      EmptyAuthorizationHeader();
    } else if i == 2 {
      assert Tests[2] == MalformedNoSpaceCase;
      MalformedNoSpace();
    } else if i == 3 {
      assert Tests[3] == IncorrectSchemeCase;
      IncorrectScheme();
    } else if i == 4 {
      assert Tests[4] == ValidHeaderCase;
      ValidHeader();
    } else if i == 5 {
      assert Tests[5] == ExtraPartsCase;
      ExtraParts();
    } else if i == 6 {
      assert Tests[6] == EmptyKeyCase;
      EmptyKey();
    } else if i == 7 {
      assert Tests[7] == LowercaseSchemeCase;
      LowercaseScheme();
    } else {
      assert Tests[8] == LeadingAndTrailingSpacesCase;
      LeadingAndTrailingSpaces();
    }
  }

  /** Every row of the table passes. */
  lemma {:induction false} AllTestsPass()
    ensures forall i :: 0 <= i < |Tests| ==> Passes(GetAPIKey(Tests[i].headers), Tests[i])
  {
    forall i | 0 <= i < |Tests|
      ensures Passes(GetAPIKey(Tests[i].headers), Tests[i])
    {
      RowPasses(i);
    }
  }
}
