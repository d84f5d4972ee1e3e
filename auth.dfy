/** The `auth` package: extracting an API key from a request's
    `Authorization` header, which must read `ApiKey <key>`. */
module Auth {
  import opened Strings

  datatype Option<T> = None | Some(value: T)

  /** HTTP request headers: each header name maps to its list of values. */
  type Header = map<string, seq<string>>

  const AuthorizationName: string := "Authorization"

  /** The only accepted scheme, compared exactly and case-sensitively. */
  const Scheme: string := "ApiKey"

  /** The scheme and the single space that must follow it. */
  const Prefix: string := Scheme + [Space]

  /** The two failures `GetAPIKey` reports. */
  datatype AuthError = ErrNoAuthHeaderIncluded | ErrMalformedAuthHeader

  /** The text each error carries; the test compares errors by this text. */
  function Message(e: AuthError): (m: string)
    ensures m != ""
    ensures m == "malformed authorization header" <==> e == ErrMalformedAuthHeader
  {
    match e
    case ErrNoAuthHeaderIncluded => "no authorization header included"
    case ErrMalformedAuthHeader => "malformed authorization header"
  }

  /** Comparing messages tells the two error kinds apart exactly. */
  lemma {:induction false} MessageIdentifies(e1: AuthError, e2: AuthError)
    ensures Message(e1) == Message(e2) <==> e1 == e2
  {
    if e1 != e2 {
      assert Message(e1)[0] != Message(e2)[0];
    }
  }

  /** The pair `GetAPIKey` returns: the key and an error, `None` standing for nil. */
  datatype Outcome = Outcome(apiKey: string, err: Option<AuthError>)

  /** `headers.Get(name)`: the first value under `name`, or "" when there is none. */
  function Get(headers: Header, name: string): (v: string)
    ensures v == "" <==> (name !in headers || headers[name] == [] || headers[name][0] == "")
    ensures v != "" ==> v == headers[name][0]
  {
    if name in headers && |headers[name]| > 0 then headers[name][0] else ""
  }

  /** Parsing one `Authorization` value: "" is a missing header; otherwise the
      value is split on single spaces and must have at least two fields, the
      first being exactly the scheme; the key is the second field. */
  function ParseAuthorization(value: string): (r: Outcome)
    ensures r.err.Some? ==> r.apiKey == ""
    ensures r.err == Some(ErrNoAuthHeaderIncluded) <==> value == ""
    ensures r.err == None ==> Space !in r.apiKey
  {
    if value == "" then Outcome("", Some(ErrNoAuthHeaderIncluded))
    else
      var parts := Split(value);
      SplitFields(value);
      if |parts| < 2 || parts[0] != Scheme then Outcome("", Some(ErrMalformedAuthHeader))
      else Outcome(parts[1], None)
  }

  /** `GetAPIKey(headers)`: parses the first `Authorization` value. */
  function GetAPIKey(headers: Header): (r: Outcome)
    ensures r.err.Some? ==> r.apiKey == ""
    ensures r.err == Some(ErrNoAuthHeaderIncluded) <==>
      (AuthorizationName !in headers || headers[AuthorizationName] == [] || headers[AuthorizationName][0] == "")
  {
    ParseAuthorization(Get(headers, AuthorizationName))
  }

  /** A reference reading of the header format that does not split: a value
      accepted exactly when it starts with "ApiKey ", and the key is the text
      after that prefix up to the next space. */
  function ReferenceParse(value: string): Outcome
  {
    if value == "" then Outcome("", Some(ErrNoAuthHeaderIncluded))
    else if Prefix <= value then Outcome(FirstField(value[|Prefix|..]), None)
    else Outcome("", Some(ErrMalformedAuthHeader))
  }

  /** A split whose first field is the scheme and that has a second field
      comes from a value starting with the prefix. */
  lemma {:induction false} AcceptedHasPrefix(value: string)
    ensures |Split(value)| >= 2 && Split(value)[0] == Scheme ==> Prefix <= value
  {
    var parts := Split(value);
    if |parts| >= 2 && parts[0] == Scheme {
      JoinSplit(value);
      assert value == Scheme + [Space] + Join(parts[1..]);
    }
  }

  /** The split-based parser agrees with the reference reading on every value. */
  lemma {:induction false} ParseMatchesReference(value: string)
    ensures ParseAuthorization(value) == ReferenceParse(value)
  {
    if value != "" {
      if Prefix <= value {
        var tail := value[|Prefix|..];
        assert Space !in Scheme;
        assert value == Scheme + [Space] + tail;
        SplitAtSpace(Scheme, tail);
        SplitHead(tail);
      } else {
        AcceptedHasPrefix(value);
      }
    }
  }

  /** The first field of a space-free text followed by a space or nothing is that text. */
  lemma {:induction false} FirstFieldOf(key: string, tail: string)
    requires Space !in key
    requires tail == "" || tail[0] == Space
    ensures FirstField(key + tail) == key
  {
    if key != [] {
      assert (key + tail)[1..] == key[1..] + tail;
      FirstFieldOf(key[1..], tail);
    } else {
      assert key + tail == tail;
    }
  }

  /** Completeness: "ApiKey " followed by a space-free key, then nothing or a
      space and anything at all, yields that key and no error. */
  lemma {:induction false} AcceptsKey(key: string, tail: string)
    requires Space !in key
    requires tail == "" || tail[0] == Space
    ensures ParseAuthorization(Prefix + key + tail) == Outcome(key, None)
  {
    var value := Prefix + key + tail;
    assert value == Prefix + (key + tail);
    assert value[|Prefix|..] == key + tail;
    FirstFieldOf(key, tail);
    assert ReferenceParse(value) == Outcome(key, None);
    ParseMatchesReference(value);
  }

  /** Soundness: an accepted value starts with "ApiKey " and the key, and the
      key ends the value or is followed by a space. */
  lemma {:induction false} AcceptedShape(value: string)
    ensures ParseAuthorization(value).err == None ==>
      var key := ParseAuthorization(value).apiKey;
      && Prefix + key <= value
      && (|value| == |Prefix + key| || value[|Prefix + key|] == Space)
  {
    ParseMatchesReference(value);
  }

  /** A non-empty value is malformed exactly when it does not start with
      "ApiKey ": a missing space, another scheme, another letter case or a
      leading space all fail alike. */
  lemma {:induction false} MalformedIff(value: string)
    ensures ParseAuthorization(value).err == Some(ErrMalformedAuthHeader) <==>
      value != "" && !(Prefix <= value)
  {
    ParseMatchesReference(value);
  }

  /** A value that differs from "ApiKey " at any of its first seven
      characters is malformed: one wrong letter, letter case or position
      of the space is enough. */
  lemma {:induction false} PrefixMismatch(value: string, i: nat)
    requires i < |Prefix| && i < |value| && value[i] != Prefix[i]
    ensures ParseAuthorization(value) == Outcome("", Some(ErrMalformedAuthHeader))
  {
    MalformedIff(value);
  }

  /** A run of spaces after the scheme gives an empty key and no error:
      the value is split on every single space, so the key is the empty
      field between the first two spaces. */
  lemma {:induction false} InnerSpaceRun()
    ensures ParseAuthorization("ApiKey  somekey") == Outcome("", None)
  {
    assert "ApiKey  somekey" == Prefix + "" + " somekey";
    AcceptsKey("", " somekey");
  }

  /** A non-empty value without any space is malformed. */
  lemma {:induction false} NoSpaceMalformed(value: string)
    requires value != "" && Space !in value
    ensures ParseAuthorization(value) == Outcome("", Some(ErrMalformedAuthHeader))
  {
    MalformedIff(value);
    if |value| >= |Prefix| {
      assert value[|Scheme|] in value;
    }
  }

  /** A value with a leading space is malformed: its first field is empty,
      so it is never the scheme. This is `PrefixMismatch` at position 0,
      stated on its own to record that leading spaces are not trimmed. */
  lemma {:induction false} LeadingSpaceMalformed(value: string)
    requires value != "" && value[0] == Space
    ensures ParseAuthorization(value) == Outcome("", Some(ErrMalformedAuthHeader))
  {
    MalformedIff(value);
  }

  /** Only the first `Authorization` value is consulted. */
  lemma {:induction false} FirstValueOnly(headers: Header, value: string, more: seq<string>)
    ensures GetAPIKey(headers[AuthorizationName := [value] + more]) == ParseAuthorization(value)
  {
  }

  /** Headers other than `Authorization` do not affect the result. */
  lemma {:induction false} OtherHeadersIgnored(headers: Header, name: string, values: seq<string>)
    requires name != AuthorizationName
    ensures GetAPIKey(headers[name := values]) == GetAPIKey(headers)
  {
    assert Get(headers[name := values], AuthorizationName) == Get(headers, AuthorizationName);
  }
}
