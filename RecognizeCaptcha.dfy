/** The acceptance policy of `recognizeCaptcha` (src/utils/recognizeCaptcha.ts): the reply
    of the OCR service is checked in a fixed order and an accepted text is uppercased.
    The HTTP exchange itself is an input. */
module RecognizeCaptcha {
  import opened Wrappers
  import opened Decimal
  import opened Text

  /** The JSON body the OCR service answers with. */
  datatype OcrResponse = OcrResponse(ocrText: string, minConfidence: real, skipped: bool)

  /** What the HTTP exchange produced: a reply with a status and a body that did or did
      not parse as JSON, or a transport error raised by the request. */
  datatype Reply =
    | Reply(status: int, body: Option<OcrResponse>)
    | TransportError(message: string)

  /** Why a reply was refused. */
  datatype Rejection =
    | HttpStatus(status: int)
    | BadFormat
    | Transport(message: string)
    | Skipped
    | LowConfidence(confidence: real, threshold: real)
    | WrongLength(length: nat)

  const DefaultThreshold: real := 0.7
  const ExpectedLength := 4
  const FailurePrefix: string := "驗證碼辨識失敗: "

  /** `parseFloat(process.env.OCR_MIN_CONFIDENCE || '0.7')`: `env` is the parsed value of
      the variable when it is set to a non-empty string. */
  function Threshold(env: Option<real>): (t: real)
    ensures env.None? ==> t == DefaultThreshold
    ensures env.Some? ==> t == env.value
  {
    if env.Some? then env.value else DefaultThreshold
  }

  predicate HasLowercase(s: string) {
    exists i :: 0 <= i < |s| && 'a' <= s[i] <= 'z'
  }

  /** The three checks on a parsed reply, in the order the code makes them, and the
      uppercasing of an accepted text. */
  function Check(data: OcrResponse, threshold: real): (r: Result<string, Rejection>)
    ensures r.Success? <==>
      !data.skipped && data.minConfidence >= threshold && |data.ocrText| == ExpectedLength
    ensures r.Success? ==> |r.value| == ExpectedLength && !HasLowercase(r.value)
    ensures r.Success? ==> forall i :: 0 <= i < |r.value| ==> r.value[i] == ToUpperChar(data.ocrText[i])
    ensures data.skipped ==> r == Failure(Skipped)
    ensures !data.skipped && data.minConfidence < threshold ==>
      r == Failure(LowConfidence(data.minConfidence, threshold))
    ensures !data.skipped && data.minConfidence >= threshold && |data.ocrText| != ExpectedLength ==>
      r == Failure(WrongLength(|data.ocrText|))
  {
    if data.skipped then Failure(Skipped)
    else if data.minConfidence < threshold then Failure(LowConfidence(data.minConfidence, threshold))
    else if |data.ocrText| != ExpectedLength then Failure(WrongLength(|data.ocrText|))
    else Success(ToUpper(data.ocrText))
  }

  /** The whole policy over a reply: a non-200 status or an unparseable body is refused
      before the checks run. */
  function Recognize(reply: Reply, threshold: real): (r: Result<string, Rejection>)
    ensures reply.TransportError? ==> r == Failure(Transport(reply.message))
    ensures reply.Reply? && reply.status != 200 ==> r == Failure(HttpStatus(reply.status))
    ensures reply.Reply? && reply.status == 200 && reply.body.None? ==> r == Failure(BadFormat)
    ensures reply.Reply? && reply.status == 200 && reply.body.Some? ==> r == Check(reply.body.value, threshold)
    ensures r.Success? <==>
      reply.Reply? && reply.status == 200 && reply.body.Some? && Check(reply.body.value, threshold).Success?
  {
    match reply
    case TransportError(message) => Failure(Transport(message))
    case Reply(status, body) =>
      if status != 200 then Failure(HttpStatus(status))
      else if body.None? then Failure(BadFormat)
      else Check(body.value, threshold)
  }

  /** The message of the error each check throws. Numbers that are not integers are
      rendered by `showReal`, which stands for JavaScript's number formatting. */
  function Detail(r: Rejection, showReal: real -> string): string {
    match r
    case HttpStatus(status) => "OCR API 錯誤: HTTP " + IntToString(status)
    case BadFormat => "OCR API 回應格式錯誤"
    case Transport(message) => message
    case Skipped => "OCR 結果不可信 (skipped=true)"
    case LowConfidence(c, t) => "OCR 信心分數過低: " + showReal(c) + " < " + showReal(t)
    case WrongLength(n) => "OCR 結果長度錯誤: " + NatToString(n) + " ≠ " + NatToString(ExpectedLength)
  }

  /** The catch block: every failure leaves `recognizeCaptcha` as an error whose message
      is the prefix followed by the original message. */
  function RecognizeCaptcha(reply: Reply, threshold: real, showReal: real -> string): (r: Result<string, string>)
    ensures r.Success? <==> Recognize(reply, threshold).Success?
    ensures r.Success? ==> r.value == Recognize(reply, threshold).value
    ensures r.Failure? ==>
      |r.error| >= |FailurePrefix| && r.error[..|FailurePrefix|] == FailurePrefix
      && r.error[|FailurePrefix|..] == Detail(Recognize(reply, threshold).error, showReal)
  {
    match Recognize(reply, threshold)
    case Success(text) => Success(text)
    case Failure(why) =>
      var msg := FailurePrefix + Detail(why, showReal);
      assert msg[|FailurePrefix|..] == Detail(why, showReal);
      Failure(msg)
  }

  /** A skipped reply is refused whatever its confidence and text. */
  lemma SkippedComesFirst(text: string, confidence: real, threshold: real)
    ensures Check(OcrResponse(text, confidence, true), threshold) == Failure(Skipped)
  {
  }

  /** A confidence equal to the threshold passes the confidence check. */
  lemma ThresholdIsInclusive(text: string, threshold: real)
    requires |text| == ExpectedLength
    ensures Check(OcrResponse(text, threshold, false), threshold).Success?
  {
  }

  /** With the variable unset, a confidence of 0.69 is refused and 0.7 accepted. */
  lemma DefaultThresholdExample(text: string)
    requires |text| == ExpectedLength
    ensures Check(OcrResponse(text, 0.69, false), Threshold(None)) == Failure(LowConfidence(0.69, 0.7))
    ensures Check(OcrResponse(text, 0.7, false), Threshold(None)).Success?
  {
  }

  /** Uppercasing is idempotent, so an accepted text passes through the policy a second
      time unchanged. */
  lemma AcceptedIsNormal(data: OcrResponse, threshold: real)
    requires Check(data, threshold).Success?
    ensures Check(OcrResponse(Check(data, threshold).value, data.minConfidence, false), threshold)
      == Check(data, threshold)
  {
    var up := Check(data, threshold).value;
    assert ToUpper(up) == up;
  }
}
