# listwise-manager: decoding and classifying deep-clean replies

listwise-manager is a thin Java client for the ListWise "deep clean"
email-validation service. Given an email address it sends one HTTP GET to
`https://api.listwisehq.com/clean/deep.php?email=<email>&api_key=<key>`,
parses the JSON reply and hands back an email-address record: the
(possibly corrected) address, its status, whether the provider is free,
and whether typos were fixed.

This Dafny project models the part of the client that holds logic:

- `email_status.dfy` (module `Status`): the closed `EmailStatus` enum with
  its ten variants and fixed integer ranks, and their declaration order.
- `status_values.dfy` (module `StatusValues`): the ten wire strings of the
  status vocabulary, and `ValueOf`, which pairs each variant with the
  constant of the same name.
- `email_address.dfy` (module `Address`): the status switch
  (`DecodeStatus`), the case-insensitive "yes" test of the two flags
  (`IsYes`), the value `DecodeRecord` that a build from a parsed reply
  produces, and the classes `EmailAddress` (four mutable fields and their
  getters) and `Builder` (explicit setters, the private JSON-driven
  setters, `Build`). `Build` is proved against `DecodeRecord`.
- `listwise_manager.dfy` (module `Manager`): `String.format` restricted to
  `%s` and the request URL, the classification `Classify` of a parsed
  reply into a record, a synthesised INVALID record or an exception, and
  the class `ListWiseManager`, which holds the registered API key and
  runs `DeepCleanInternal` and `DeepClean`. `DeepClean` follows the Java
  code step by step and calls the `Builder`; its postcondition ties it to
  `Classify`.
- Support: `wrappers.dfy` (`Option` for a nullable reference, `Result`
  for a call that may throw), `exceptions.dfy` (the Java exceptions as
  values; a `ContextedException` carries its message and labelled context
  values), `json.dfy` (the parsed JSON object as two maps, with `optString`,
  `optInt` and `getString`).

A Java `null` is `None`. Exceptions are values: `Result.Failure` inside the
builder, `Outcome.Threw` for `deepClean`. The network is a parameter
`server: string -> Response` that says what a connection to a URL yields;
`DeepClean` also returns the list of URLs it connected to, so that "no
connection without a key" is part of its contract.

## Model

| member | source | states |
|---|---|---|
| Status.StatusInt | listwise-manager/src/com/rodaxsoft/mail/EmailStatus.java:33-89 | `getStatusInt` is the rank given at declaration, always within [1, 15], read from the table 1, 2, 3, 5, 7, 9, 11, 12, 13, 15 at the variant's declaration position |
| Status.Ordinal | listwise-manager/src/com/rodaxsoft/mail/EmailStatus.java:28-70 | a variant's declaration position is where it stands in the list of all variants |
| Status.DeclaredEnumerates | listwise-manager/src/com/rodaxsoft/mail/EmailStatus.java:28-70 | the enum has exactly ten variants, each listed once |
| Status.RanksIncrease | listwise-manager/src/com/rodaxsoft/mail/EmailStatus.java:33-70 | ranks strictly increase in declaration order, in both directions of the iff |
| Status.StatusIntInjective | listwise-manager/src/com/rodaxsoft/mail/EmailStatus.java:33-70 | no two variants share a rank |
| Status.RanksInOrder | listwise-manager/src/com/rodaxsoft/mail/EmailStatus.java:33-70 | in declaration order the ranks are exactly 1, 2, 3, 5, 7, 9, 11, 12, 13, 15 |
| StatusValues.ValueOf | listwise-manager/src/com/rodaxsoft/listwise/IEmailStatusValues.java:28-70 | every variant's same-named constant is one of the ten wire strings |
| StatusValues.ValuesDistinct | listwise-manager/src/com/rodaxsoft/listwise/IEmailStatusValues.java:32-70 | the ten wire strings are pairwise distinct, so the status switch is well defined |
| StatusValues.ValuesWellFormed | listwise-manager/src/com/rodaxsoft/listwise/IEmailStatusValues.java:32-70 | every wire string is non-empty and uses only lower-case ASCII letters and hyphens |
| StatusValues.ValueOfBijective | listwise-manager/src/com/rodaxsoft/listwise/IEmailStatusValues.java:32-70 | variants and wire strings correspond one to one (injective and onto the ten constants) |
| Address.DecodeStatus | listwise-manager/src/com/rodaxsoft/listwise/EmailAddress.java:141-194 | a decoded status has the input as its wire string; any other input throws IllegalArgumentException("Unknown email status string") and is none of the ten constants |
| Address.DecodeStatusRoundTrip | listwise-manager/src/com/rodaxsoft/listwise/EmailAddress.java:145-185 | decoding a variant's wire constant gives back that variant |
| Address.DecodeStatusExact | listwise-manager/src/com/rodaxsoft/listwise/EmailAddress.java:145-189 | a string decodes iff it is one of the ten constants, and decodes to v iff it is v's constant; otherwise the exception is IllegalArgument |
| Address.DecodeStatusExamples | listwise-manager/src/com/rodaxsoft/listwise/EmailAddress.java:145-189 | "bad-mx" decodes to BAD_MX; "Clean", "quarantined" and "" are rejected (the match is exact and case-sensitive) |
| Address.IsYesSpellings | listwise-manager/src/com/rodaxsoft/listwise/EmailAddress.java:99-104 | the flag test accepts exactly the eight case variants of "yes" |
| Address.DecodeRecord | listwise-manager/src/com/rodaxsoft/listwise/EmailAddress.java:209-213 | a JSON build succeeds iff email_status is present and one of the ten constants; then the status is the one with that wire string, the email is the JSON email verbatim ("" when absent), and each flag is set iff its member is present and a spelling of "yes"; otherwise it throws IllegalArgument |
| Address.EmptyStatusRejected | listwise-manager/src/com/rodaxsoft/listwise/EmailAddress.java:142-189 | an absent or empty email_status reads as "", passes the null guard and makes the build throw |
| Address.EmailAddress.constructor | listwise-manager/src/com/rodaxsoft/listwise/EmailAddress.java:223-224 | a new address has the Java defaults null, null, false, false |
| Address.Builder.constructor | listwise-manager/src/com/rodaxsoft/listwise/EmailAddress.java:62-65 | a builder without a response owns a fresh address with default fields |
| Address.Builder.FromJson | listwise-manager/src/com/rodaxsoft/listwise/EmailAddress.java:71-74 | a builder keeps the response it is given and owns a fresh address with default fields |
| Address.Builder.SetEmailFromJson | listwise-manager/src/com/rodaxsoft/listwise/EmailAddress.java:80-83 | the email becomes the response's email member ("" when absent); nothing else changes |
| Address.Builder.SetEmail | listwise-manager/src/com/rodaxsoft/listwise/EmailAddress.java:90-93 | the email becomes the given value; nothing else changes |
| Address.Builder.SetFreeEmailFromJson | listwise-manager/src/com/rodaxsoft/listwise/EmailAddress.java:99-104 | the free flag becomes the "yes" test of free_mail; nothing else changes |
| Address.Builder.SetFreeEmail | listwise-manager/src/com/rodaxsoft/listwise/EmailAddress.java:111-114 | the free flag becomes the given value; nothing else changes |
| Address.Builder.SetTyposFixedFromJson | listwise-manager/src/com/rodaxsoft/listwise/EmailAddress.java:120-125 | the typos flag becomes the "yes" test of typo_fixed; nothing else changes |
| Address.Builder.SetTyposFixed | listwise-manager/src/com/rodaxsoft/listwise/EmailAddress.java:132-135 | the typos flag becomes the given value; nothing else changes |
| Address.Builder.SetStatusFromJson | listwise-manager/src/com/rodaxsoft/listwise/EmailAddress.java:141-194 | a known email_status sets the status and nothing else; an unknown one throws and changes nothing |
| Address.Builder.SetEmailStatus | listwise-manager/src/com/rodaxsoft/listwise/EmailAddress.java:200-203 | the status becomes the given value; nothing else changes |
| Address.Builder.Build | listwise-manager/src/com/rodaxsoft/listwise/EmailAddress.java:209-216 | without a response it returns its own address unchanged; with one the address ends equal to DecodeRecord of the response, or, when the status is unknown, it throws after email and both flags were already overwritten |
| Address.BuildFromJson | listwise-manager/src/com/rodaxsoft/listwise/EmailAddress.java:209-213 | a JSON build yields DecodeRecord of the response whatever explicit setters ran before it |
| Address.BuildExplicit | listwise-manager/src/com/rodaxsoft/listwise/EmailAddress.java:200-216 | without a response build() returns exactly the explicitly set values |
| Address.BuildPartly | listwise-manager/src/com/rodaxsoft/listwise/EmailAddress.java:38-50 | the last setter call wins, and fields no setter touched keep their defaults (null status, false typos flag) |
| Address.SetAfterBuild | listwise-manager/src/com/rodaxsoft/listwise/EmailAddress.java:209-216 | build() hands out the builder's own object, so a setter called afterwards changes the address already returned |
| Json.OptInt | listwise-manager/src/com/rodaxsoft/listwise/ListWiseManager.java:84 | an absent member reads as 0; a present one is converted to a 32-bit int, congruent to the member's value modulo 2^32 and equal to it when it fits |
| Manager.MakeInvalidEmailAddress | listwise-manager/src/com/rodaxsoft/listwise/ListWiseManager.java:165-189 | the synthesised address reports the given email, status INVALID, a free provider and no typos fixed |
| Manager.Respond | listwise-manager/src/com/rodaxsoft/listwise/ListWiseManager.java:82 | an I/O failure and an unparsable body propagate as exceptions; a parsed body's outcome, returned or thrown, is Classify's, and a return comes only from that classification |
| Manager.ErrorCodeWrapsToOne | listwise-manager/src/com/rodaxsoft/listwise/ListWiseManager.java:84-116 | an error code of 2^32 + 1 reads as 1, so with an empty status and an error_msg the INVALID record is returned |
| Manager.ApiUrlVerbatim | listwise-manager/src/com/rodaxsoft/listwise/ListWiseManager.java:50 | formatting the template with email and key yields the fixed prefix, the email, "&api_key=" and the key, substituted verbatim without escaping |
| Manager.ApiUrl | listwise-manager/src/com/rodaxsoft/listwise/ListWiseManager.java:140 | the request URL is the fixed endpoint with the email and the key inserted as they are |
| Manager.Classify | listwise-manager/src/com/rodaxsoft/listwise/ListWiseManager.java:80-119 | every path of deepClean that does not throw returns a non-null address (the null test of the boxed error code never fails) |
| Manager.NonEmptyStatusBuilds | listwise-manager/src/com/rodaxsoft/listwise/ListWiseManager.java:87-89 | a non-empty email_status makes the outcome exactly that of Builder(obj).build(): its record, or its IllegalArgumentException |
| Manager.ProcessingIsReturned | listwise-manager/src/com/rodaxsoft/listwise/ListWiseManager.java:92-94 | a PROCESSING status is returned as a record, never thrown |
| Manager.ErrorCodeOneIsInvalid | listwise-manager/src/com/rodaxsoft/listwise/ListWiseManager.java:112-116 | empty status, error code 1 and an error_msg give the record {input email, INVALID, free, no typos fixed} |
| Manager.OtherErrorCodeThrows | listwise-manager/src/com/rodaxsoft/listwise/ListWiseManager.java:100-109 | empty status and any other error code throw ContextedException("ListWise API Error") whose context holds error_code, error_msg and the input email |
| Manager.AbsentErrorCodeThrows | listwise-manager/src/com/rodaxsoft/listwise/ListWiseManager.java:84-109 | an absent error_code reads as 0, so an empty status without a code throws the API error with code 0 |
| Manager.MissingErrorMessageThrows | listwise-manager/src/com/rodaxsoft/listwise/ListWiseManager.java:97-98 | on the error-code path a missing error_msg makes getString throw, even for code 1 |
| Manager.ReturnsExactly | listwise-manager/src/com/rodaxsoft/listwise/ListWiseManager.java:80-119 | deepClean returns iff the status is a known wire string, or it is empty, error_msg is present and the code is 1 |
| Manager.ListWiseManager.constructor | listwise-manager/src/com/rodaxsoft/listwise/ListWiseManager.java:61 | no key is registered at first |
| Manager.ListWiseManager.RegisterApiKey | listwise-manager/src/com/rodaxsoft/listwise/ListWiseManager.java:192-194 | the registered key becomes the given one; null unregisters it |
| Manager.ListWiseManager.DeepCleanInternal | listwise-manager/src/com/rodaxsoft/listwise/ListWiseManager.java:131-157 | without a key it throws ContextedException and opens no connection; with one it opens exactly one connection, to the URL built from the email and the current key, and passes on its body or its I/O failure |
| Manager.ListWiseManager.DeepClean | listwise-manager/src/com/rodaxsoft/listwise/ListWiseManager.java:77-121 | without a key it throws before connecting; with one it connects once to the request URL and its outcome is the I/O failure, the parse failure, or Classify of the parsed reply |
| Manager.KeyLifecycle | listwise-manager/src/com/rodaxsoft/listwise/ListWiseManager.java:192-194 | the most recently registered key is the one used, and registering null returns to the state in which deepClean throws without connecting |

The getters `EmailAddress.getEmail`, `getStatus`, `isFree` and
`hasHadTyposFixed` (EmailAddress.java:231-260) are plain field reads:
`GetEmail`, `GetStatus`, `IsFree`, `HasHadTyposFixed`, and `View` for all
four together.

## Notes on the code

The model follows the code as written in each of these points.

- The email and the key are substituted into the request URL without
  percent-encoding (ListWiseManager.java:140).
- An unknown status string throws the unchecked IllegalArgumentException
  (EmailAddress.java:188).
- `optInt` reads an absent `error_code` as 0, so an empty status with no
  code throws the API error with code 0 (ListWiseManager.java:84-109).
  `getString("error_msg")` throws when the message is missing, even for
  code 1 (ListWiseManager.java:97).
- `optInt` converts the number to a Java `int`, keeping its low 32 bits:
  an `error_code` of 4294967297 reads as 1, and the call returns the
  INVALID record (ListWiseManager.java:84).
- The code does not compile as written. EmailAddress.java:147 names
  `EmailStatusValues` where the interface is `IEmailStatusValues`
  (IEmailStatusValues.java:28). `EmailStatus` is not imported
  (EmailAddress.java:22). `EmailAddress` does not declare
  `implements IEmailAddress` (EmailAddress.java:33), yet
  ListWiseManager.java:89 uses it as one. The model takes the evident
  intent: the switch matches the `IEmailStatusValues` constants, and a
  built address is read through the four getters.

## Left out

- Network I/O: opening the connection and the read-line loop that joins
  the body's lines (ListWiseManager.java:142-157). The reply is the
  parameter `server`, already parsed; how the lines are joined is not
  modelled.
- JSON parsing by org.json: a body that is not a JSON object is the
  abstract `Body(None)`. A parsed object keeps its string members and its
  integral number members (with their full values) in two maps; a JSON
  object names each member once, so in one that org.json produces the two
  key sets are disjoint (`Json.WellFormed`), and the model's functions are
  also defined on pairs of maps that share a key. `optString` on any
  non-string member (number, boolean, array, object), `optInt` on a
  numeric string, and fractional numbers (which `optInt` truncates) are
  not modelled.
- Logging (`LOG.debug/info/error/fatal`) and `EmailAddress.toString`: they
  only format diagnostic text.
- ContextedException beyond its message and its list of labelled values
  (no cause, no stack trace).
- Thread safety of the static key: the key is a field of one
  `ListWiseManager` object, used sequentially.
- A null `email` argument to `deepClean` (String.format would insert
  "null"): the email is always a string.
- `Manager.Format` models String.format for `%s` conversions only, which
  is all the request template uses.
- `Address.IsYesSpellings`: `equalsIgnoreCase` is modelled with ASCII case
  folding only. Java also folds non-ASCII letters, so it accepts "yeſ"
  (with U+017F, whose upper case is 'S'), which the model rejects.
- The builder setters return the builder for chaining. Here they return
  nothing, and a chain is a sequence of calls.
- `new URL(...)` failing with MalformedURLException is not modelled; the
  fixed `https` template makes it a well-formed URL.
- IEmailAddress.java, a getter-only interface, is not modelled as a file.
  Its four getters are the fields of `EmailRecord`.
