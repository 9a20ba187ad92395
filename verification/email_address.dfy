/** The result record of one deep-clean call and its builder
    (com.rodaxsoft.listwise.EmailAddress and its nested Builder). The
    builder either takes explicit values or decodes a parsed response. */
module Address {

  import opened Wrappers
  import opened Exceptions
  import opened Json
  import opened Status
  import StatusValues

  /** What the four getters of an address report; None is Java's null. */
  datatype EmailRecord = EmailRecord(email: Option<string>, status: Option<EmailStatus>, isFree: bool, typosFixed: bool)

  /** The fields of a freshly created address: null, null, false, false. */
  const Unset: EmailRecord := EmailRecord(None, None, false, false)

  const UnknownStatusMessage: string := "Unknown email status string"

  /** The status switch: an exact, case-sensitive match of the wire string
      against the ten constants; anything else is an IllegalArgumentException. */
  function DecodeStatus(s: string): (r: Result<EmailStatus, Exception>)
    ensures r.Success? ==> StatusValues.ValueOf(r.value) == s
    ensures r.Failure? ==> r.error == IllegalArgument(UnknownStatusMessage) && s !in StatusValues.Values
  {
    if s == StatusValues.BadMx then Success(BadMx)
    else if s == StatusValues.Bounced then Success(Bounced)
    else if s == StatusValues.CatchAll then Success(CatchAll)
    else if s == StatusValues.Clean then Success(Clean)
    else if s == StatusValues.Invalid then Success(Invalid)
    else if s == StatusValues.NoReply then Success(NoReply)
    else if s == StatusValues.Processing then Success(Processing)
    else if s == StatusValues.SpamTrap then Success(SpamTrap)
    else if s == StatusValues.Suspicious then Success(Suspicious)
    else if s == StatusValues.Unknown then Success(Unknown)
    else Failure(IllegalArgument(UnknownStatusMessage))
  }

  /** Decoding a variant's wire constant gives back that variant. */
  lemma DecodeStatusRoundTrip(v: EmailStatus)
    ensures DecodeStatus(StatusValues.ValueOf(v)) == Success(v)
  {
  }

  /** A string decodes exactly when it is one of the ten constants, and then
      to the variant whose constant it is. */
  lemma DecodeStatusExact(s: string)
    ensures DecodeStatus(s).Success? <==> s in StatusValues.Values
    ensures DecodeStatus(s).Failure? ==> DecodeStatus(s).error == IllegalArgument(UnknownStatusMessage)
    ensures forall v: EmailStatus :: DecodeStatus(s) == Success(v) <==> StatusValues.ValueOf(v) == s
  {
  }

  /** The match is case-sensitive and the empty string matches nothing. */
  lemma DecodeStatusExamples()
    ensures DecodeStatus("bad-mx") == Success(BadMx)
    ensures DecodeStatus("Clean").Failure?
    ensures DecodeStatus("quarantined").Failure?
    ensures DecodeStatus("").Failure?
  {
  }

  /** Character folding of equalsIgnoreCase, restricted to ASCII. */
  function ToLowerAscii(c: char): char {
    if 'A' <= c <= 'Z' then (c as int + 32) as char else c
  }

  /** String.equalsIgnoreCase on ASCII text. */
  predicate EqualsIgnoreCase(a: string, b: string) {
    |a| == |b| && forall i :: 0 <= i < |a| ==> ToLowerAscii(a[i]) == ToLowerAscii(b[i])
  }

  /** The flag test of the builder: the value is "yes" in any case. */
  predicate IsYes(v: string) {
    EqualsIgnoreCase(v, "yes")
  }

  /** The eight spellings of "yes". */
  const YesSpellings: set<string> := {"yes", "yeS", "yEs", "yES", "Yes", "YeS", "YEs", "YES"}

  lemma LowerIs(c: char, lower: char)
    requires 'a' <= lower <= 'z'
    ensures ToLowerAscii(c) == lower <==> c == lower || c == (lower as int - 32) as char
  {
  }

  /** A flag is set exactly for the eight case variants of "yes". */
  lemma {:induction false} IsYesSpellings(v: string)
    ensures IsYes(v) <==> v in YesSpellings
  {
    if IsYes(v) {
      LowerIs(v[0], 'y');
      LowerIs(v[1], 'e');
      LowerIs(v[2], 's');
      assert v == [v[0], v[1], v[2]];
    }
    if v in YesSpellings {
      forall i | 0 <= i < 3 ensures ToLowerAscii(v[i]) == ToLowerAscii("yes"[i]) {
        LowerIs(v[i], "yes"[i]);
      }
    }
  }

  /** What Builder(obj).build() produces, as a value: the email verbatim,
      the two flags by the "yes" test, and the status by the switch. */
  function DecodeRecord(obj: JsonObject): (r: Result<EmailRecord, Exception>)
    ensures r.Success? <==> "email_status" in obj.strings && obj.strings["email_status"] in StatusValues.Values
    ensures r.Failure? ==> r.error == IllegalArgument(UnknownStatusMessage)
    ensures r.Success? ==> r.value.status.Some? &&
                           StatusValues.ValueOf(r.value.status.value) == obj.strings["email_status"]
    ensures r.Success? ==> r.value.email == Some(if "email" in obj.strings then obj.strings["email"] else "")
    ensures r.Success? ==> (r.value.isFree <==> "free_mail" in obj.strings && obj.strings["free_mail"] in YesSpellings)
    ensures r.Success? ==> (r.value.typosFixed <==> "typo_fixed" in obj.strings && obj.strings["typo_fixed"] in YesSpellings)
  {
    IsYesSpellings(OptString(obj, "free_mail"));
    IsYesSpellings(OptString(obj, "typo_fixed"));
    StatusValues.ValuesWellFormed();
    DecodeStatusExact(OptString(obj, "email_status"));
    match DecodeStatus(OptString(obj, "email_status"))
    case Failure(e) => Failure(e)
    case Success(status) =>
      Success(EmailRecord(Some(OptString(obj, "email")), Some(status),
                          IsYes(OptString(obj, "free_mail")), IsYes(OptString(obj, "typo_fixed"))))
  }

  /** An absent or empty email_status never decodes. */
  lemma EmptyStatusRejected(obj: JsonObject)
    requires OptString(obj, "email_status") == ""
    ensures DecodeRecord(obj) == Failure(IllegalArgument(UnknownStatusMessage))
  {
  }

  /** An email address object; the builder writes its fields in place. */
  class EmailAddress {
    var email: Option<string>
    var status: Option<EmailStatus>
    var freeEmail: bool
    var typosFixed: bool

    constructor ()
      ensures View() == Unset
    {
      email, status, freeEmail, typosFixed := None, None, false, false;
    }

    /** The four getters together. */
    function View(): EmailRecord
      reads this
    {
      EmailRecord(email, status, freeEmail, typosFixed)
    }

    function GetEmail(): Option<string>
      reads this
    {
      email
    }

    function GetStatus(): Option<EmailStatus>
      reads this
    {
      status
    }

    function IsFree(): bool
      reads this
    {
      freeEmail
    }

    function HasHadTyposFixed(): bool
      reads this
    {
      typosFixed
    }
  }

  /** Collects the fields of one address, from explicit setters or, at
      build time, from a parsed response. */
  class Builder {
    /** The parsed response; None when the builder takes explicit values. */
    const json: Option<JsonObject>
    /** The address being filled in; build() hands out this very object. */
    const emailAddress: EmailAddress

    constructor ()
      ensures json == None && fresh(emailAddress) && emailAddress.View() == Unset
    {
      json := None;
      emailAddress := new EmailAddress();
    }

    constructor FromJson(obj: Option<JsonObject>)
      ensures json == obj && fresh(emailAddress) && emailAddress.View() == Unset
    {
      json := obj;
      emailAddress := new EmailAddress();
    }

    method SetEmailFromJson()
      requires json.Some?
      modifies emailAddress
      ensures emailAddress.View() == old(emailAddress.View()).(email := Some(OptString(json.value, "email")))
    {
      emailAddress.email := Some(OptString(json.value, "email"));
    }

    method SetEmail(email: Option<string>)
      modifies emailAddress
      ensures emailAddress.View() == old(emailAddress.View()).(email := email)
    {
      emailAddress.email := email;
    }

    method SetFreeEmailFromJson()
      requires json.Some?
      modifies emailAddress
      ensures emailAddress.View() == old(emailAddress.View()).(isFree := IsYes(OptString(json.value, "free_mail")))
    {
      var value := OptString(json.value, "free_mail");
      emailAddress.freeEmail := EqualsIgnoreCase(value, "yes");
    }

    method SetFreeEmail(freeEmail: bool)
      modifies emailAddress
      ensures emailAddress.View() == old(emailAddress.View()).(isFree := freeEmail)
    {
      emailAddress.freeEmail := freeEmail;
    }

    method SetTyposFixedFromJson()
      requires json.Some?
      modifies emailAddress
      ensures emailAddress.View() == old(emailAddress.View()).(typosFixed := IsYes(OptString(json.value, "typo_fixed")))
    {
      var value := OptString(json.value, "typo_fixed");
      emailAddress.typosFixed := EqualsIgnoreCase(value, "yes");
    }

    method SetTyposFixed(typosFixed: bool)
      modifies emailAddress
      ensures emailAddress.View() == old(emailAddress.View()).(typosFixed := typosFixed)
    {
      emailAddress.typosFixed := typosFixed;
    }

    /** Sets the status from the response's email_status; an unknown value
        throws and leaves the status as it was. */
    method SetStatusFromJson() returns (thrown: Option<Exception>)
      requires json.Some?
      modifies emailAddress
      ensures DecodeStatus(OptString(json.value, "email_status")).Success? ==>
                thrown == None &&
                emailAddress.View() == old(emailAddress.View()).(status := Some(DecodeStatus(OptString(json.value, "email_status")).value))
      ensures DecodeStatus(OptString(json.value, "email_status")).Failure? ==>
                thrown == Some(IllegalArgument(UnknownStatusMessage)) &&
                emailAddress.View() == old(emailAddress.View())
    {
      // optString never yields null, so Java's `stringStatus != null` test always passes
      var stringStatus: Option<string> := Some(OptString(json.value, "email_status"));
      thrown := None;
      if stringStatus.Some? {
        match DecodeStatus(stringStatus.value)
        case Success(status) =>
          emailAddress.status := Some(status);
        case Failure(e) =>
          thrown := Some(e);
      }
    }

    method SetEmailStatus(status: Option<EmailStatus>)
      modifies emailAddress
      ensures emailAddress.View() == old(emailAddress.View()).(status := status)
    {
      emailAddress.status := status;
    }

    /** Without a response, hands out the address as the setters left it.
        With one, first overwrites email and both flags from the response,
        then the status; an unknown status throws after the other three
        fields have been written. */
    method Build() returns (r: Result<EmailAddress, Exception>)
      modifies emailAddress
      ensures json.None? ==> r == Success(emailAddress) && emailAddress.View() == old(emailAddress.View())
      ensures json.Some? && DecodeRecord(json.value).Success? ==>
                r == Success(emailAddress) && emailAddress.View() == DecodeRecord(json.value).value
      ensures json.Some? && DecodeRecord(json.value).Failure? ==>
                r == Failure(DecodeRecord(json.value).error) &&
                emailAddress.View() == old(emailAddress.View()).(email := Some(OptString(json.value, "email")),
                                                                 isFree := IsYes(OptString(json.value, "free_mail")),
                                                                 typosFixed := IsYes(OptString(json.value, "typo_fixed")))
    {
      if json.Some? {
        SetEmailFromJson();
        SetFreeEmailFromJson();
        SetTyposFixedFromJson();
        var thrown := SetStatusFromJson();
        if thrown.Some? {
          return Failure(thrown.value);
        }
      }
      r := Success(emailAddress);
    }
  }

  /** Builder(obj).build(), read through the getters: every field comes from
      the response, whatever explicit setters ran before. */
  method BuildFromJson(obj: JsonObject, email: Option<string>, status: Option<EmailStatus>, isFree: bool, typosFixed: bool)
    returns (r: Result<EmailRecord, Exception>)
    ensures r == DecodeRecord(obj)
  {
    var builder := new Builder.FromJson(Some(obj));
    builder.SetEmail(email);
    builder.SetEmailStatus(status);
    builder.SetFreeEmail(isFree);
    builder.SetTyposFixed(typosFixed);
    var built := builder.Build();
    match built
    case Failure(e) =>
      r := Failure(e);
    case Success(address) =>
      r := Success(address.View());
  }

  /** Without a response, build() gives back exactly the explicit values. */
  method BuildExplicit(email: Option<string>, status: Option<EmailStatus>, isFree: bool, typosFixed: bool)
    returns (r: EmailRecord)
    ensures r.email == email && r.status == status && r.isFree == isFree && r.typosFixed == typosFixed
  {
    var builder := new Builder();
    builder.SetEmail(email);
    builder.SetEmailStatus(status);
    builder.SetFreeEmail(isFree);
    builder.SetTyposFixed(typosFixed);
    var built := builder.Build();
    r := built.value.View();
  }

  /** Fields no setter touched keep their defaults; the last call to a
      setter wins. */
  method BuildPartly(first: Option<string>, last: Option<string>, isFree: bool)
    returns (r: EmailRecord)
    ensures r.email == last && r.isFree == isFree
    ensures r.status == None && !r.typosFixed
  {
    var builder := new Builder();
    builder.SetEmail(first);
    builder.SetFreeEmail(isFree);
    builder.SetEmail(last);
    var built := builder.Build();
    r := built.value.View();
  }

  /** build() returns the builder's own object, so a setter called after
      build() changes the address already handed out. */
  method SetAfterBuild(before: Option<string>, after: Option<string>)
    returns (seen: Option<string>, built: Option<string>)
    ensures seen == before && built == after
  {
    var builder := new Builder();
    builder.SetEmail(before);
    var r := builder.Build();
    var address := r.value;
    seen := address.GetEmail();
    builder.SetEmail(after);
    built := address.GetEmail();
  }
}
