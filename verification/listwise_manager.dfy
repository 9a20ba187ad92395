/** The API client (com.rodaxsoft.listwise.ListWiseManager): a registered
    key, the request URL, and the classification of the service's reply
    into a record, a synthesised INVALID record, or an exception. */
module Manager {

  import opened Wrappers
  import opened Exceptions
  import opened Json
  import opened Status
  import opened Address
  import StatusValues

  /** The template's text before the first %s. */
  const UrlPrefix: string := "https://" + "api.listwisehq.com" + "/clean/deep.php" + "?email="

  /** The template's text between the two %s. */
  const KeyParameter: string := "&api_key="

  /** The request template, "https://api.listwisehq.com/clean/deep.php?email=%s&api_key=%s";
      each %s takes one argument, in order. */
  const UrlFormat: string := UrlPrefix + "%s" + KeyParameter + "%s"

  /** String.format restricted to %s conversions: each %s is replaced by the
      next argument, unchanged; None (MissingFormatArgumentException) when
      the arguments run out. Surplus arguments are ignored. */
  function Format(template: string, args: seq<string>): Option<string>
    decreases |template|
  {
    if |template| == 0 then Some("")
    else if |template| >= 2 && template[0] == '%' && template[1] == 's' then
      if |args| == 0 then None
      else match Format(template[2..], args[1..])
        case None => None
        case Some(rest) => Some(args[0] + rest)
    else match Format(template[1..], args)
      case None => None
      case Some(rest) => Some([template[0]] + rest)
  }

  /** Text without a % is copied through unchanged. */
  lemma {:induction false} FormatLiteralPrefix(p: string, rest: string, args: seq<string>)
    requires '%' !in p
    ensures Format(p + rest, args).Some? == Format(rest, args).Some?
    ensures Format(rest, args).Some? ==> Format(p + rest, args).value == p + Format(rest, args).value
  {
    if |p| > 0 {
      assert (p + rest)[1..] == p[1..] + rest;
      FormatLiteralPrefix(p[1..], rest, args);
    } else {
      assert p + rest == rest;
    }
  }

  /** The template splits at its two %s, and the text around them holds no %. */
  lemma UrlLiterals()
    ensures UrlFormat == UrlPrefix + ("%s" + (KeyParameter + ("%s" + "")))
    ensures '%' !in UrlPrefix && '%' !in KeyParameter
  {
  }

  /** A %s takes the next argument as it is. */
  lemma FormatConversion(rest: string, arg: string, args: seq<string>)
    ensures Format("%s" + rest, [arg] + args).Some? == Format(rest, args).Some?
    ensures Format(rest, args).Some? ==> Format("%s" + rest, [arg] + args).value == arg + Format(rest, args).value
  {
  }

  /** Formatting the request template substitutes the email and the key
      verbatim, without any escaping. */
  lemma ApiUrlVerbatim(email: string, key: string)
    ensures Format(UrlFormat, [email, key]) == Some(UrlPrefix + email + KeyParameter + key)
  {
    var afterKey := "%s" + "";
    assert Format("", []) == Some("");
    FormatConversion("", key, []);
    assert [key] + [] == [key] && key + "" == key;
    assert Format(afterKey, [key]) == Some(key);
    FormatLiteralPrefix(KeyParameter, afterKey, [key]);
    var afterEmail := "%s" + (KeyParameter + afterKey);
    FormatConversion(KeyParameter + afterKey, email, [key]);
    assert Format(afterEmail, [email, key]) == Some(email + (KeyParameter + key));
    UrlLiterals();
    FormatLiteralPrefix(UrlPrefix, afterEmail, [email, key]);
    assert UrlPrefix + (email + (KeyParameter + key)) == UrlPrefix + email + KeyParameter + key;
  }

  /** The URL of the deep-clean request for `email` under `key`. */
  function ApiUrl(email: string, key: string): (url: string)
    ensures url == UrlPrefix + email + KeyParameter + key
  {
    ApiUrlVerbatim(email, key);
    Format(UrlFormat, [email, key]).value
  }

  /** What the connection yields: an I/O failure, or a body as org.json
      parses it (None when it is not a JSON object). */
  datatype Response = IoFailure | Body(parsed: Option<JsonObject>)

  /** How deepClean ends: it returns an address (None is a null reference)
      or it throws. */
  datatype Outcome = Returned(address: Option<EmailRecord>) | Threw(error: Exception)

  const NoApiKeyMessage: string := "No API key, must call registerAPIKey(String) first"
  const ApiErrorMessage: string := "ListWise API Error"

  /** The exception thrown when no key is registered. */
  const MissingApiKey: Exception := Contexted(NoApiKeyMessage, [("apiKey", NullValue)])

  /** The exception thrown for an error code other than 1. */
  function ApiError(errorCode: int, errorMsg: string, email: string): Exception {
    Contexted(ApiErrorMessage, [("error_code", IntValue(errorCode)),
                                ("error_msg", StringValue(errorMsg)),
                                ("email", StringValue(email))])
  }

  /** The address reported for an input the service calls invalid (error
      code 1): the input itself, INVALID, free, no typos fixed. */
  function MakeInvalidEmailAddress(email: string): (r: EmailRecord)
    ensures r.email == Some(email) && r.status == Some(Invalid)
    ensures r.isFree && !r.typosFixed
  {
    EmailRecord(Some(email), Some(Invalid), true, false)
  }

  /** The decision deepClean takes on a parsed reply. */
  function Classify(email: string, obj: JsonObject): (r: Outcome)
    ensures r.Returned? ==> r.address.Some?
  {
    var emailStatus := OptString(obj, "email_status");
    // optInt returns a primitive int, so the boxed code is never null
    var errorCode: Option<int> := Some(OptInt(obj, "error_code"));
    if emailStatus != "" then
      match DecodeRecord(obj)
      case Success(address) => Returned(Some(address))
      case Failure(e) => Threw(e)
    else if errorCode.Some? then
      match GetString(obj, "error_msg")
      case Failure(e) => Threw(e)
      case Success(errorMsg) =>
        if errorCode.value != 1 then Threw(ApiError(errorCode.value, errorMsg, email))
        else Returned(Some(MakeInvalidEmailAddress(email)))
    else
      Returned(None)
  }

  /** The outcome of deepClean once the request has been sent: an I/O
      failure and a body that does not parse propagate as exceptions, and
      only a parsed body reaches the classification. */
  function Respond(email: string, response: Response): (r: Outcome)
    ensures response.IoFailure? ==> r == Threw(IOError)
    ensures response == Body(None) ==> r == Threw(JsonSyntax)
    ensures response.Body? && response.parsed.Some? ==> r == Classify(email, response.parsed.value)
    ensures r.Returned? ==> response.Body? && response.parsed.Some? && r == Classify(email, response.parsed.value)
  {
    match response
    case IoFailure => Threw(IOError)
    case Body(None) => Threw(JsonSyntax)
    case Body(Some(obj)) => Classify(email, obj)
  }

  /** A non-empty status makes the outcome exactly that of Builder(obj).build(). */
  lemma NonEmptyStatusBuilds(email: string, obj: JsonObject)
    requires OptString(obj, "email_status") != ""
    ensures DecodeRecord(obj).Success? ==> Classify(email, obj) == Returned(Some(DecodeRecord(obj).value))
    ensures DecodeRecord(obj).Failure? ==> Classify(email, obj) == Threw(IllegalArgument(UnknownStatusMessage))
  {
  }

  /** A PROCESSING status is an ordinary result, never an exception. */
  lemma ProcessingIsReturned(email: string, obj: JsonObject)
    requires OptString(obj, "email_status") == StatusValues.Processing
    ensures Classify(email, obj).Returned?
    ensures Classify(email, obj).address.value.status == Some(Processing)
  {
  }

  /** Error code 1 with an empty status yields the synthesised INVALID record. */
  lemma ErrorCodeOneIsInvalid(email: string, obj: JsonObject)
    requires OptString(obj, "email_status") == ""
    requires OptInt(obj, "error_code") == 1
    requires "error_msg" in obj.strings
    ensures Classify(email, obj) == Returned(Some(EmailRecord(Some(email), Some(Invalid), true, false)))
  {
  }

  /** Any other error code with an empty status throws a ContextedException
      whose context carries the code, the service's message and the input. */
  lemma OtherErrorCodeThrows(email: string, obj: JsonObject)
    requires OptString(obj, "email_status") == ""
    requires OptInt(obj, "error_code") != 1
    requires "error_msg" in obj.strings
    ensures Classify(email, obj).Threw?
    ensures Classify(email, obj).error.Contexted?
    ensures Classify(email, obj).error.message == ApiErrorMessage
    ensures ContextLookup(Classify(email, obj).error.context, "error_code") == Some(IntValue(OptInt(obj, "error_code")))
    ensures ContextLookup(Classify(email, obj).error.context, "error_msg") == Some(StringValue(obj.strings["error_msg"]))
    ensures ContextLookup(Classify(email, obj).error.context, "email") == Some(StringValue(email))
  {
    var ctx := Classify(email, obj).error.context;
    assert ctx[0].0 == "error_code";
    assert ctx[1].0 == "error_msg" && ctx[1..][0].0 == "error_msg";
    assert ctx[2].0 == "email" && ctx[1..][1..][0].0 == "email";
    assert "error_code" != "error_msg" && "error_code" != "email" && "error_msg" != "email";
  }

  /** With no status and no error code the code reads as 0, so the call throws. */
  lemma AbsentErrorCodeThrows(email: string, obj: JsonObject)
    requires OptString(obj, "email_status") == ""
    requires "error_code" !in obj.numbers
    requires "error_msg" in obj.strings
    ensures Classify(email, obj) == Threw(ApiError(0, obj.strings["error_msg"], email))
  {
  }

  /** optInt keeps only the low 32 bits: an error code of 2^32 + 1 reads as
      1, so the call returns the INVALID record instead of throwing. */
  lemma ErrorCodeWrapsToOne(email: string, errorMsg: string)
    ensures Classify(email, JsonObject(map["error_msg" := errorMsg], map["error_code" := TwoTo32 + 1])) ==
            Returned(Some(MakeInvalidEmailAddress(email)))
  {
    var obj := JsonObject(map["error_msg" := errorMsg], map["error_code" := TwoTo32 + 1]);
    assert OptString(obj, "email_status") == "";
    assert OptInt(obj, "error_code") == 1;
  }

  /** On the error-code path error_msg must be present: without it getString
      throws, even for error code 1. */
  lemma MissingErrorMessageThrows(email: string, obj: JsonObject)
    requires OptString(obj, "email_status") == ""
    requires "error_msg" !in obj.strings
    ensures Classify(email, obj) == Threw(JsonNotString("error_msg"))
  {
  }

  /** deepClean returns (and then always a record) exactly when the status
      is a known wire string, or the status is empty, error_msg is present
      and the error code is 1. */
  lemma ReturnsExactly(email: string, obj: JsonObject)
    ensures Classify(email, obj).Returned? <==>
              ("email_status" in obj.strings && obj.strings["email_status"] in StatusValues.Values) ||
              (OptString(obj, "email_status") == "" && "error_msg" in obj.strings && OptInt(obj, "error_code") == 1)
  {
  }

  /** The client, holding the process-wide API key (null until registered). */
  class ListWiseManager {
    var apiKey: Option<string>

    constructor ()
      ensures apiKey == None
    {
      apiKey := None;
    }

    /** Replaces the key; None unregisters it. */
    method RegisterApiKey(key: Option<string>)
      modifies this
      ensures apiKey == key
    {
      apiKey := key;
    }

    /** Checks the key, then opens one connection to the request URL.
        `server` stands for the network: what a connection to a URL yields.
        `connected` lists the URLs a connection was opened to. */
    method DeepCleanInternal(email: string, server: string -> Response)
      returns (body: Result<Option<JsonObject>, Exception>, connected: seq<string>)
      ensures apiKey.None? ==> body == Failure(MissingApiKey) && connected == []
      ensures apiKey.Some? ==> connected == [ApiUrl(email, apiKey.value)]
      ensures apiKey.Some? && server(ApiUrl(email, apiKey.value)).IoFailure? ==> body == Failure(IOError)
      ensures apiKey.Some? && server(ApiUrl(email, apiKey.value)).Body? ==>
                body == Success(server(ApiUrl(email, apiKey.value)).parsed)
    {
      if apiKey.None? {
        return Failure(MissingApiKey), [];
      }
      var apiUrl := ApiUrl(email, apiKey.value);
      connected := [apiUrl];
      match server(apiUrl)
      case IoFailure =>
        body := Failure(IOError);
      case Body(parsed) =>
        body := Success(parsed);
    }

    /** Calls the service for `email` and classifies its reply. */
    method DeepClean(email: string, server: string -> Response) returns (r: Outcome, connected: seq<string>)
      ensures apiKey.None? ==> r == Threw(MissingApiKey) && connected == []
      ensures apiKey.Some? ==> connected == [ApiUrl(email, apiKey.value)] &&
                               r == Respond(email, server(ApiUrl(email, apiKey.value)))
    {
      var address: Option<EmailRecord> := None;
      var body;
      body, connected := DeepCleanInternal(email, server);
      if body.Failure? {
        return Threw(body.error), connected;
      }
      if body.value.None? {
        return Threw(JsonSyntax), connected;
      }
      var obj := body.value.value;
      var emailStatus := OptString(obj, "email_status");
      var errorCode: Option<int> := Some(OptInt(obj, "error_code"));
      if emailStatus != "" {
        var builder := new Builder.FromJson(Some(obj));
        var built := builder.Build();
        if built.Failure? {
          return Threw(built.error), connected;
        }
        // a PROCESSING status is only logged: the caller polls again later
        address := Some(built.value.View());
      } else if errorCode.Some? {
        var errorMsg := GetString(obj, "error_msg");
        if errorMsg.Failure? {
          return Threw(errorMsg.error), connected;
        }
        if errorCode.value != 1 {
          return Threw(ApiError(errorCode.value, errorMsg.value, email)), connected;
        }
        address := Some(MakeInvalidEmailAddress(email));
      }
      r := Returned(address);
    }
  }

  /** Registering again replaces the key; registering None brings back the
      state in which deepClean throws before opening any connection. */
  method KeyLifecycle(manager: ListWiseManager, first: string, second: string, email: string, server: string -> Response)
    returns (withKey: Outcome, withKeyConnected: seq<string>, withoutKey: Outcome, withoutKeyConnected: seq<string>)
    modifies manager
    ensures manager.apiKey == None
    ensures withKeyConnected == [UrlPrefix + email + KeyParameter + second]
    ensures withKey == Respond(email, server(UrlPrefix + email + KeyParameter + second))
    ensures withoutKey == Threw(MissingApiKey) && withoutKeyConnected == []
  {
    manager.RegisterApiKey(Some(first));
    manager.RegisterApiKey(Some(second));
    withKey, withKeyConnected := manager.DeepClean(email, server);
    manager.RegisterApiKey(None);
    withoutKey, withoutKeyConnected := manager.DeepClean(email, server);
  }
}
