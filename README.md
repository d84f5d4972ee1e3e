# GetAPIKey: API key extraction from the Authorization header

This project models the `auth` package's `GetAPIKey(headers http.Header) (string, error)`.
The function reads the first value of a request's `Authorization` header and expects
the form `ApiKey <key>`. It returns the key, or one of two errors:

- `ErrNoAuthHeaderIncluded`: the header is absent or empty.
- `malformed authorization header`: the value does not parse as `ApiKey <key>`.

`GetAPIKey` is rebuilt from the table-driven test `TestGetAPIKey`, which fixes its
behaviour, and every row of that table is proved to pass.

Files:

- `strings.dfy` (module `Strings`): splitting on the single space character, as Go's
  `strings.Split(v, " ")` does. Each space separates two fields, so runs of spaces give
  empty fields and nothing is trimmed. `Join` is its inverse, and both round trips are proved.
- `auth.dfy` (module `Auth`):
  - the header map and the error kinds with their messages;
  - the Go `(string, error)` pair as `Outcome`, with `None` for a nil error;
  - `ParseAuthorization` (the parsing of one value) and `GetAPIKey`;
  - `ReferenceParse`, a reference reading that does not split: a value is accepted
    exactly when it starts with `"ApiKey "`, and the key runs up to the next space.
    It is proved equal to the split-based parser on every input.
- `auth_test.dfy` (module `AuthTest`):
  - the test table as data, one named constant per row;
  - the pass condition of the test loop;
  - one lemma per row, and a lemma that every row passes.

The test table rules out a split that trims the value (as `strings.Fields` does):

- `"  ApiKey somekey  "` is malformed: leading spaces are not trimmed, so the scheme
  field is empty.
- `"ApiKey "` gives an empty key and no error: the space after the scheme is not dropped.
- Only the text up to the next space is the key: `"ApiKey somekey extra"` gives `somekey`.

The table does not say what happens to a run of spaces inside the value, such as
`"ApiKey  somekey"`. The model assumes the value is split with `strings.Split(v, " ")`,
so that value gives an empty key and no error (`Auth.InnerSpaceRun`).
Splitting on the first run of whitespace, or shrinking each run of spaces to one space
before splitting, would give `somekey` there instead, and either agrees with the model on
every row of the table.

## Model

| member | source | states |
|---|---|---|
| `Strings.Split` | internal/auth/auth_test.go:54-85 | there is always at least one field; what the fields are is stated by `Strings.SplitFields`, `Strings.JoinSplit` and `Strings.SplitJoin` |
| `Strings.SplitFields` | internal/auth/auth_test.go:62-85 | splitting on single spaces gives one field more than there are spaces, and no field contains a space |
| `Strings.JoinSplit` | internal/auth/auth_test.go:62-85 | joining the fields of a split with single spaces gives back the original value, so no character (leading or trailing spaces included) is dropped |
| `Strings.SplitJoin` | internal/auth/auth_test.go:54-61 | splitting the join of space-free fields gives back exactly those fields |
| `Auth.Message` | internal/auth/auth_test.go:36 | every error carries a non-empty text, and the text is "malformed authorization header" exactly for the malformed error |
| `Auth.MessageIdentifies` | internal/auth/auth_test.go:96-102 | two errors have the same message exactly when they are the same error kind, so comparing by message is comparing by kind |
| `Auth.Get` | internal/auth/auth_test.go:16-29 | the lookup yields `""` exactly when the name is absent, has no values, or its first value is `""`; otherwise it yields the first value |
| `Auth.ParseAuthorization` | internal/auth/auth_test.go:16-85 | an error always comes with an empty key; the missing-header error occurs exactly when the value is empty; an accepted key contains no space |
| `Auth.GetAPIKey` | internal/auth/auth_test.go:16-29 | an error always comes with an empty key; the missing-header error occurs exactly when `Authorization` is absent, has no values, or its first value is empty |
| `Auth.ParseMatchesReference` | internal/auth/auth_test.go:30-85 | the split-based parser equals the reference reading on every value: empty is missing; a value starting with `"ApiKey "` yields the text after it up to the next space; anything else is malformed |
| `Auth.AcceptsKey` | internal/auth/auth_test.go:46-69 | for any space-free key (the empty key included), `"ApiKey " + key` followed by nothing, or by a space and anything, yields that key and no error |
| `Auth.AcceptedShape` | internal/auth/auth_test.go:46-69 | whenever no error is returned, the value starts with `"ApiKey "` followed by the key, and the key is followed by the end of the value or by a space |
| `Auth.MalformedIff` | internal/auth/auth_test.go:30-85 | the malformed error occurs exactly when the value is non-empty and does not start with `"ApiKey "` (case-sensitive, no trimming) |
| `Auth.PrefixMismatch` | internal/auth/auth_test.go:30-45 | a value that differs from `"ApiKey "` at any of its first seven characters is malformed, with an empty key |
| `Auth.InnerSpaceRun` | internal/auth/auth_test.go:62-69 | `"ApiKey  somekey"`, with two spaces after the scheme, gives an empty key and no error; this follows from the `strings.Split(v, " ")` assumption recorded under "## Left out", not from the cited row, which only shows that the space after the scheme is kept |
| `Auth.NoSpaceMalformed` | internal/auth/auth_test.go:30-37 | a non-empty value without any space is malformed, with an empty key |
| `Auth.LeadingSpaceMalformed` | internal/auth/auth_test.go:78-85 | a value beginning with a space is malformed, with an empty key |
| `Auth.FirstValueOnly` | internal/auth/auth_test.go:22-29 | only the first value listed under `Authorization` decides the result |
| `Auth.OtherHeadersIgnored` | internal/auth/auth_test.go:16-29 | changing any header other than `Authorization` does not change the result, since `Header.Get` looks up that one name only |
| `AuthTest.TableShape` | internal/auth/auth_test.go:16-85 | the table has nine rows, and every row that expects an error expects the empty key with it |
| `AuthTest.Passes` | internal/auth/auth_test.go:92-102 | the loop's check (same key; errors compared by message when both are present, otherwise both absent) holds exactly when the result is the expected key and error |
| `AuthTest.NoAuthorizationHeader` | internal/auth/auth_test.go:16-21 | an empty header set yields `""` and `ErrNoAuthHeaderIncluded`, and that row passes |
| `AuthTest.EmptyAuthorizationHeader` | internal/auth/auth_test.go:22-29 | an `Authorization` value of `""` yields `""` and `ErrNoAuthHeaderIncluded`, and that row passes |
| `AuthTest.MalformedNoSpace` | internal/auth/auth_test.go:30-37 | `"ApiKeysomekey"` yields `""` and the malformed error, and that row passes |
| `AuthTest.IncorrectScheme` | internal/auth/auth_test.go:38-45 | `"Bearer somekey"` yields `""` and the malformed error, and that row passes |
| `AuthTest.ValidHeader` | internal/auth/auth_test.go:46-53 | `"ApiKey somekey"` yields `"somekey"` and no error, and that row passes |
| `AuthTest.ExtraParts` | internal/auth/auth_test.go:54-61 | `"ApiKey somekey extra"` yields `"somekey"` and no error, and that row passes |
| `AuthTest.EmptyKey` | internal/auth/auth_test.go:62-69 | `"ApiKey "` yields `""` and no error, and that row passes |
| `AuthTest.LowercaseScheme` | internal/auth/auth_test.go:70-77 | `"apikey somekey"` yields `""` and the malformed error, and that row passes |
| `AuthTest.LeadingAndTrailingSpaces` | internal/auth/auth_test.go:78-85 | `"  ApiKey somekey  "` yields `""` and the malformed error, and that row passes |
| `AuthTest.RowPasses` | internal/auth/auth_test.go:88-104 | any single row of the table passes |
| `AuthTest.AllTestsPass` | internal/auth/auth_test.go:88-104 | every row of the table passes |

## Left out

- Header-name canonicalisation of incoming requests: net/http canonicalises the names of a request's headers before this function sees them, and that step is outside the model. `http.Header.Get` canonicalises only the name it is given, and `Authorization` is already in canonical form, so `Auth.Get` looks up the same key as `Header.Get` on every map.
- The text of `ErrNoAuthHeaderIncluded`: the test never spells out its text. The model uses "no authorization header included". It relies only on that text differing from "malformed authorization header".
- Go error values: the test compares errors by message when both are non-nil, and otherwise requires both to be nil. The model represents errors as datatype constructors. `Auth.MessageIdentifies` shows that comparing by message is comparing by kind.
- The test runner's reporting (`t.Run`, `t.Errorf`): the loop becomes the `Passes` predicate and `AuthTest.AllTestsPass`.
- Runs of spaces inside the value: the table does not fix them. The model assumes `strings.Split(v, " ")`, under which `"ApiKey  somekey"` yields an empty key and no error.
- Byte strings: Go strings are sequences of bytes, while the model's `string` is a sequence of Unicode characters. For valid UTF-8 values, splitting on the space character (byte 0x20) and comparing with `"ApiKey"` give the same result either way; a value that is not valid UTF-8 has no counterpart in the model.
- Whitespace other than the space character, such as tabs: nothing in the table fixes how it splits. The model treats it as an ordinary character, as `strings.Split(v, " ")` does.
