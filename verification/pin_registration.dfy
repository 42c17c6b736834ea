/** The result-building logic of the PIN-registration server actions: how
    each action turns the upstream service's loosely typed reply (or the
    error it threw) into the result handed back to the screens, and when the
    session cookie is set. The HTTP calls themselves are inputs. */
module PinRegistration {
  import opened Wrappers
  import opened Js
  import opened Text

  /** What one outbound call produced: the parsed body of a successful
      response, or a thrown error together with the body of the error
      response, if there was one (`error.response?.data`). */
  datatype Reply = Response(data: Record) | Thrown(body: Option<Record>)

  datatype OtpResult = OtpResult(success: bool, message: JsValue, code: JsValue)

  /** The session cookie `validateOTP` sets. */
  datatype Cookie = Cookie(name: string, value: JsValue, httpOnly: bool, secure: bool, maxAge: nat, path: string)

  datatype IdLookupResult = IdLookupResult(
    success: bool, code: JsValue, message: JsValue,
    name: JsValue, pin: JsValue, idNumber: JsValue)

  datatype PinRegistrationResult = PinRegistrationResult(
    success: bool, code: JsValue, message: JsValue, pin: JsValue, receiptNumber: JsValue)

  datatype SessionResult = SessionResult(success: bool, message: JsValue, sessionId: JsValue)

  const AuthCookieName: string := "etims_auth_token"
  const AuthCookieMaxAge: nat := 600

  /** The message of a failed call: the upstream error body's `message`
      when it is truthy, otherwise the call's own fallback text. */
  function FailureMessage(body: Option<Record>, fallback: string): JsValue {
    Or(GetIn(body, "message"), Str(fallback))
  }

  /** `generateOTP`: any response counts as success; a thrown call is a
      failure carrying the upstream message or "Failed to send OTP". */
  function GenerateOtp(reply: Reply): (r: OtpResult)
    ensures r.success <==> reply.Response?
    ensures reply.Response? && Truthy(Get(reply.data, "message")) ==> r.message == Get(reply.data, "message")
    ensures reply.Response? && !Truthy(Get(reply.data, "message")) ==> r.message == Str("OTP sent successfully")
    ensures reply.Response? ==> r.code == Get(reply.data, "code")
    ensures reply.Thrown? ==> r.code == Undefined
    ensures reply.Thrown? && Truthy(GetIn(reply.body, "message")) ==> r.message == GetIn(reply.body, "message")
    ensures reply.Thrown? && !Truthy(GetIn(reply.body, "message")) ==> r.message == Str("Failed to send OTP")
  {
    match reply
    case Response(data) => OtpResult(true, Or(Get(data, "message"), Str("OTP sent successfully")), Get(data, "code"))
    case Thrown(body) => OtpResult(false, FailureMessage(body, "Failed to send OTP"), Undefined)
  }

  /** `validateOTP`: the result and the cookie it sets, if any. `production`
      stands for the deployment environment, which decides the cookie's
      `secure` flag. */
  function ValidateOtp(reply: Reply, production: bool): (r: (OtpResult, Option<Cookie>))
    ensures r.0.success <==> reply.Response? && Get(reply.data, "success") != Bool(false)
    ensures r.1.Some? <==> reply.Response? && r.0.success && Truthy(Get(reply.data, "token"))
    ensures r.1.Some? ==> r.1.value == Cookie(AuthCookieName, Get(reply.data, "token"), true, production, AuthCookieMaxAge, "/")
    ensures reply.Response? && Truthy(Get(reply.data, "message")) ==> r.0.message == Get(reply.data, "message")
    ensures reply.Response? && !Truthy(Get(reply.data, "message")) ==> r.0.message == Str("OTP validated successfully")
    ensures reply.Response? ==> r.0.code == Get(reply.data, "code")
    ensures reply.Thrown? && Truthy(GetIn(reply.body, "message")) ==> r.0.message == GetIn(reply.body, "message")
    ensures reply.Thrown? && !Truthy(GetIn(reply.body, "message")) ==> r.0.message == Str("Invalid OTP")
    ensures reply.Thrown? ==> r.0.code == Undefined
  {
    match reply
    case Response(data) =>
      var success := Get(data, "success") != Bool(false);
      var token := Get(data, "token");
      var cookie :=
        if success && Truthy(token) then Some(Cookie(AuthCookieName, token, true, production, AuthCookieMaxAge, "/"))
        else None;
      (OtpResult(success, Or(Get(data, "message"), Str("OTP validated successfully")), Get(data, "code")), cookie)
    case Thrown(body) => (OtpResult(false, FailureMessage(body, "Invalid OTP"), Undefined), None)
  }

  /** Only a literal `false` in the upstream `success` field makes the
      validation fail: a missing, null, zero or empty field still counts as
      success, and a success without a token sets no cookie. */
  lemma ValidateOtpLenientSuccess(data: Record, production: bool)
    requires Get(data, "success") in {Undefined, Null, Num(0.0), Str("")}
    requires !Truthy(Get(data, "token"))
    ensures ValidateOtp(Response(data), production).0.success
    ensures ValidateOtp(Response(data), production).1 == None
  {
  }

  /** `if (msisdn)` on the optional phone argument of `lookupById`. */
  predicate MsisdnSupplied(msisdn: Option<string>) {
    Filled(msisdn)
  }

  /** The primary id-lookup reply is accepted when it is a response whose
      `name` or `success` is truthy. */
  predicate PrimaryAccepts(primary: Reply) {
    primary.Response? && (Truthy(Get(primary.data, "name")) || Truthy(Get(primary.data, "success")))
  }

  /** The GUI lookup's success test: any one of three loose markers. */
  predicate GuiValid(data: Record) {
    Get(data, "Status") == Str("OK") || Get(data, "ResponseCode") == Str("30000") || Get(data, "Message") == Str("Valid ID")
  }

  /** The fallback GUI lookup. Its code is the parsed `ResponseCode`, or 200
      on success and 400 on failure when that parse is NaN or 0. */
  function GuiLookup(idNumber: string, gui: Reply): (r: IdLookupResult)
    ensures gui.Response? ==> (r.success <==> GuiValid(gui.data))
    ensures gui.Response? && r.success ==>
      r.code == Num(ParsedCodeOr(Get(gui.data, "ResponseCode"), 200) as real)
      && r.name == Get(gui.data, "TaxpayerName") && r.pin == Get(gui.data, "PIN") && r.idNumber == Str(idNumber)
    ensures gui.Response? && !r.success ==>
      r.code == Num(ParsedCodeOr(Get(gui.data, "ResponseCode"), 400) as real)
      && r.name == Undefined && r.pin == Undefined && r.idNumber == Undefined
    ensures gui.Response? && Truthy(Get(gui.data, "Message")) ==> r.message == Get(gui.data, "Message")
    ensures gui.Response? && !Truthy(Get(gui.data, "Message")) ==>
      r.message == (if r.success then Str("Valid ID") else Str("Invalid ID number"))
    ensures gui.Thrown? ==>
      && !r.success && r.code == Undefined && r.message == FailureMessage(gui.body, "Failed to lookup ID")
      && r.name == Undefined && r.pin == Undefined && r.idNumber == Undefined
  {
    match gui
    case Response(data) =>
      if GuiValid(data) then
        IdLookupResult(true, Num(ParsedCodeOr(Get(data, "ResponseCode"), 200) as real),
                       Or(Get(data, "Message"), Str("Valid ID")),
                       Get(data, "TaxpayerName"), Get(data, "PIN"), Str(idNumber))
      else
        IdLookupResult(false, Num(ParsedCodeOr(Get(data, "ResponseCode"), 400) as real),
                       Or(Get(data, "Message"), Str("Invalid ID number")),
                       Undefined, Undefined, Undefined)
    case Thrown(body) =>
      IdLookupResult(false, Undefined, FailureMessage(body, "Failed to lookup ID"), Undefined, Undefined, Undefined)
  }

  /** `lookupById`: the id-lookup reply decides when a phone number was
      supplied and the reply names the person or reports success; otherwise
      (no phone, an unhelpful reply, or an error) the GUI lookup decides. */
  function LookupById(idNumber: string, msisdn: Option<string>, primary: Reply, gui: Reply): (r: IdLookupResult)
    ensures MsisdnSupplied(msisdn) && PrimaryAccepts(primary) ==>
      && r.success && r.code == Undefined
      && r.name == Get(primary.data, "name") && r.pin == Get(primary.data, "pin") && r.idNumber == Str(idNumber)
      && r.message == Or(Get(primary.data, "message"), Str("Valid ID"))
    ensures !(MsisdnSupplied(msisdn) && PrimaryAccepts(primary)) ==> r == GuiLookup(idNumber, gui)
  {
    if MsisdnSupplied(msisdn) && PrimaryAccepts(primary) then
      var data := primary.data;
      IdLookupResult(true, Undefined, Or(Get(data, "message"), Str("Valid ID")), Get(data, "name"), Get(data, "pin"), Str(idNumber))
    else GuiLookup(idNumber, gui)
  }

  /** Without a phone number the primary lookup is never consulted: its
      reply cannot influence the result. */
  lemma LookupIgnoresPrimaryWithoutMsisdn(idNumber: string, msisdn: Option<string>, p1: Reply, p2: Reply, gui: Reply)
    requires !MsisdnSupplied(msisdn)
    ensures LookupById(idNumber, msisdn, p1, gui) == LookupById(idNumber, msisdn, p2, gui)
  {
  }

  /** A successful lookup always names the id number that was asked for. */
  lemma LookupSuccessCarriesIdNumber(idNumber: string, msisdn: Option<string>, primary: Reply, gui: Reply)
    ensures LookupById(idNumber, msisdn, primary, gui).success ==>
      LookupById(idNumber, msisdn, primary, gui).idNumber == Str(idNumber)
  {
  }

  lemma ParseResponseCode30000()
    ensures ParseInt(Str("30000")) == Some(30000)
  {
    assert NatToString(3) == "3";
    assert NatToString(30) == "30";
    assert NatToString(300) == "300";
    assert NatToString(3000) == "3000";
    assert NatToString(30000) == "30000";
    ParseIntOfRendered(30000);
  }

  /** The GUI marker compares strings strictly: a numeric `ResponseCode` of
      30000 is not the marker "30000", while the string form is accepted and
      also becomes the result's code. */
  lemma GuiResponseCodeIsStrict(idNumber: string)
    ensures !GuiLookup(idNumber, Response(map["ResponseCode" := Num(30000.0)])).success
    ensures GuiLookup(idNumber, Response(map["ResponseCode" := Str("30000")])).success
    ensures GuiLookup(idNumber, Response(map["ResponseCode" := Str("30000")])).code == Num(30000.0)
  {
    var numeric: Record := map["ResponseCode" := Num(30000.0)];
    var textual: Record := map["ResponseCode" := Str("30000")];
    assert Get(numeric, "Status") == Undefined && Get(numeric, "Message") == Undefined;
    assert Get(textual, "ResponseCode") == Str("30000");
    ParseResponseCode30000();
  }

  /** `submitPinRegistration`. `now` stands for `Date.now()`, used only to
      make up a receipt number when the reply carries none. */
  function SubmitPinRegistration(reply: Reply, now: nat): (r: PinRegistrationResult)
    ensures reply.Response? ==>
      (r.success <==> Get(reply.data, "success") != Bool(false) && !Truthy(Get(reply.data, "error")))
    ensures reply.Response? ==> r.code == Get(reply.data, "code")
    ensures reply.Response? && Truthy(Get(reply.data, "message")) ==> r.message == Get(reply.data, "message")
    ensures reply.Response? && !Truthy(Get(reply.data, "message")) ==> r.message == Str("PIN Registration submitted successfully")
    ensures reply.Response? && Truthy(Get(reply.data, "pin")) ==> r.pin == Get(reply.data, "pin")
    ensures reply.Response? && !Truthy(Get(reply.data, "pin")) ==> r.pin == Get(reply.data, "kra_pin")
    ensures reply.Response? && Truthy(Get(reply.data, "receipt_number")) ==> r.receiptNumber == Get(reply.data, "receipt_number")
    ensures reply.Response? && !Truthy(Get(reply.data, "receipt_number")) && Truthy(Get(reply.data, "receiptNumber")) ==>
      r.receiptNumber == Get(reply.data, "receiptNumber")
    ensures reply.Response? && !Truthy(Get(reply.data, "receipt_number")) && !Truthy(Get(reply.data, "receiptNumber")) ==>
      r.receiptNumber == Str("REG-" + NatToString(now))
    ensures reply.Thrown? ==> !r.success && r.code == Undefined && r.pin == Undefined && r.receiptNumber == Undefined
    ensures reply.Thrown? && Truthy(GetIn(reply.body, "message")) ==> r.message == GetIn(reply.body, "message")
    ensures reply.Thrown? && !Truthy(GetIn(reply.body, "message")) && Truthy(GetIn(reply.body, "error")) ==>
      r.message == GetIn(reply.body, "error")
    ensures reply.Thrown? && !Truthy(GetIn(reply.body, "message")) && !Truthy(GetIn(reply.body, "error")) ==>
      r.message == Str("Failed to submit PIN registration")
  {
    match reply
    case Response(data) =>
      PinRegistrationResult(
        Get(data, "success") != Bool(false) && !Truthy(Get(data, "error")),
        Get(data, "code"),
        Or(Get(data, "message"), Str("PIN Registration submitted successfully")),
        Or(Get(data, "pin"), Get(data, "kra_pin")),
        Or(Get(data, "receipt_number"), Or(Get(data, "receiptNumber"), Str("REG-" + NatToString(now)))))
    case Thrown(body) =>
      PinRegistrationResult(
        false, Undefined,
        Or(GetIn(body, "message"), Or(GetIn(body, "error"), Str("Failed to submit PIN registration"))),
        Undefined, Undefined)
  }

  /** A response that carries an `error` is a failed registration even when
      it also says `success: true`. */
  lemma RegistrationErrorOverridesSuccess(data: Record, now: nat)
    requires Get(data, "success") == Bool(true) && Truthy(Get(data, "error"))
    ensures !SubmitPinRegistration(Response(data), now).success
  {
  }

  /** `initiateSession`: any response counts as success. */
  function InitiateSession(reply: Reply): (r: SessionResult)
    ensures r.success <==> reply.Response?
    ensures reply.Response? ==> r.sessionId == Get(reply.data, "session_id")
    ensures reply.Response? && Truthy(Get(reply.data, "message")) ==> r.message == Get(reply.data, "message")
    ensures reply.Response? && !Truthy(Get(reply.data, "message")) ==> r.message == Str("Session initiated")
    ensures reply.Thrown? ==> r.sessionId == Undefined
    ensures reply.Thrown? && Truthy(GetIn(reply.body, "message")) ==> r.message == GetIn(reply.body, "message")
    ensures reply.Thrown? && !Truthy(GetIn(reply.body, "message")) ==> r.message == Str("Failed to initiate session")
  {
    match reply
    case Response(data) => SessionResult(true, Or(Get(data, "message"), Str("Session initiated")), Get(data, "session_id"))
    case Thrown(body) => SessionResult(false, FailureMessage(body, "Failed to initiate session"), Undefined)
  }

  /** Every action turns a thrown call into the same shape: a failure whose
      message is truthy (non-empty), never an escaping error. */
  lemma FailuresAreUniform(body: Option<Record>, idNumber: string, msisdn: Option<string>, primary: Reply, now: nat, production: bool)
    ensures !GenerateOtp(Thrown(body)).success && Truthy(GenerateOtp(Thrown(body)).message)
    ensures !ValidateOtp(Thrown(body), production).0.success && Truthy(ValidateOtp(Thrown(body), production).0.message)
    ensures ValidateOtp(Thrown(body), production).1 == None
    ensures !LookupById(idNumber, msisdn, primary, Thrown(body)).success ==>
      Truthy(LookupById(idNumber, msisdn, primary, Thrown(body)).message)
    ensures !SubmitPinRegistration(Thrown(body), now).success && Truthy(SubmitPinRegistration(Thrown(body), now).message)
    ensures !InitiateSession(Thrown(body)).success && Truthy(InitiateSession(Thrown(body)).message)
  {
  }
}
