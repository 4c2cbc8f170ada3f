/** Smsc\Response\Response: classifies a gateway reply as an error or a
    success and resolves the message shown for it. The reply arrives as its
    raw text together with what json_decode made of that text. */
module SmscResponse {
  import opened PhpStrings
  import opened PhpValues

  /** The messages of method send for codes 1 to 9, in order. */
  const SendMessages: seq<string> := [
    "Ошибка в параметрах",
    "Неверный логин или пароль",
    "Недостаточно средств на счете Клиента",
    "IP-адрес временно заблокирован из-за частых ошибок в запросах",
    "Неверный формат даты",
    "Сообщение запрещено (по тексту или по имени отправителя)",
    "Неверный формат номера телефона",
    "Сообщение на указанный номер не может быть доставлено",
    "Отправка более одного одинакового запроса на передачу SMS-сообщения либо более пяти одинаковых запросов на получение стоимости сообщения в течение минуты"
  ]

  /** responseErrorCodes: API method => error code => message. */
  const ResponseErrorCodes: Entries<string, Entries<int, string>> := [
    ("send", [(1, SendMessages[0]), (2, SendMessages[1]), (3, SendMessages[2]),
              (4, SendMessages[3]), (5, SendMessages[4]), (6, SendMessages[5]),
              (7, SendMessages[6]), (8, SendMessages[7]), (9, SendMessages[8])])
  ]

  lemma {:induction false} LookupCodes(codes: Entries<int, string>, first: int, k: int)
    requires forall j :: 0 <= j < |codes| ==> codes[j].0 == first + j
    ensures Lookup(codes, k) == if first <= k < first + |codes| then Some(codes[k - first].1) else None
  {
    if codes != [] {
      LookupCodes(codes[1..], first + 1, k);
    }
  }

  /** The codes getErrorMessage handles for methodName without an engine
      error. An object cannot be interpolated. The isset on
      `$responseCodes[$method][$errorCode]` only inspects the code when the
      table has the method, and then the code must be a valid array key; for
      any other method an array code reaches the interpolation. */
  predicate UsableCodeFor(methodName: string, code: Json) {
    !code.JObj? && (Lookup(ResponseErrorCodes, methodName).Some? ==> IsScalar(code))
  }

  /** `$responseCodes[$method][$errorCode]` when it is set. */
  function TableMessage(methodName: string, code: Json): (r: Option<string>)
    requires UsableCodeFor(methodName, code)
    ensures r.Some? <==> methodName == "send" && IsScalar(code) && ArrayKey(code).IntKey? && 1 <= ArrayKey(code).i <= 9
    ensures r.Some? ==> r.value == SendMessages[ArrayKey(code).i - 1]
  {
    LookupCodes(ResponseErrorCodes[0].1, 1, if IsScalar(code) && ArrayKey(code).IntKey? then ArrayKey(code).i else 0);
    match Lookup(ResponseErrorCodes, methodName)
    case None => None
    case Some(codes) =>
      match ArrayKey(code)
      case IntKey(i) => Lookup(codes, i)
      case StringKey(_) => None
  }

  function UnknownErrorMessage(methodName: string, code: Json, origin: string): string
    requires !code.JObj?
  {
    "Unknown error: \"" + methodName + "\":\"" + Interpolate(code) + "\". See full response: " + origin
  }

  /** getErrorMessage: the table's message for (method, code), or else a
      message that quotes the method, the code and the whole raw reply. */
  function ErrorMessage(methodName: string, code: Json, origin: string): (m: string)
    requires UsableCodeFor(methodName, code)
    ensures m != ""
    ensures TableMessage(methodName, code).Some? ==> m == TableMessage(methodName, code).value
    ensures TableMessage(methodName, code).None? ==> m == UnknownErrorMessage(methodName, code, origin)
  {
    match TableMessage(methodName, code)
    case Some(message) => message
    case None => UnknownErrorMessage(methodName, code, origin)
  }

  /** The unknown-error message holds the method, the code's text and the raw
      reply, each at a fixed place. */
  lemma UnknownErrorEmbeds(methodName: string, code: Json, origin: string)
    requires !code.JObj?
    ensures var m, c := UnknownErrorMessage(methodName, code, origin), Interpolate(code);
      && m[..16] == "Unknown error: \""
      && m[16..16 + |methodName|] == methodName
      && m[19 + |methodName|..19 + |methodName| + |c|] == c
      && m[|m| - |origin|..] == origin
  {
  }

  /** What the constructor decides: the error flag, the gateway's code and
      text, and the message. */
  datatype Verdict = Verdict(hasError: bool, code: Json, originMessage: Json, message: string)

  /** The decoded error_code, which may be absent, is one getErrorMessage
      handles for methodName. */
  predicate UsableCode(decoded: Json, methodName: string) {
    UsableCodeFor(methodName, Property(decoded, "error_code"))
  }

  /** The classification the Response constructor performs. */
  function Classify(origin: string, decoded: Json, methodName: string): (v: Verdict)
    requires UsableCode(decoded, methodName)
    ensures v.hasError <==> Truthy(Property(decoded, "error_code"))
    ensures !IsSet(decoded, "error") && !IsSet(decoded, "error_code") ==>
              v == Verdict(false, JNull, JNull, "Success")
    ensures IsSet(decoded, "error") || IsSet(decoded, "error_code") ==>
              && v.code == Property(decoded, "error_code")
              && v.originMessage == Property(decoded, "error")
              && v.message == ErrorMessage(methodName, v.code, origin)
  {
    if IsSet(decoded, "error") || IsSet(decoded, "error_code") then
      var code := Property(decoded, "error_code");
      Verdict(Truthy(code), code, Property(decoded, "error"), ErrorMessage(methodName, code, origin))
    else
      Verdict(false, JNull, JNull, "Success")
  }

  class Response {
    const origin: string
    const response: Json
    const hasError: bool
    const errorOriginCode: Json
    const errorOriginMessage: Json
    var message: string

    /** Stores the raw text and its decoding, and classifies them for
        methodName (send unless given). */
    constructor (json: string, decoded: Json, methodName: string := "send")
      requires UsableCode(decoded, methodName)
      ensures origin == json && response == decoded
      ensures State() == Classify(json, decoded, methodName)
    {
      origin := json;
      response := decoded;
      if IsSet(decoded, "error") || IsSet(decoded, "error_code") {
        hasError := Truthy(Property(decoded, "error_code"));
        errorOriginCode := Property(decoded, "error_code");
        errorOriginMessage := Property(decoded, "error");
        message := ErrorMessage(methodName, Property(decoded, "error_code"), json);
      } else {
        message := "Success";
        hasError := false;
        errorOriginCode := JNull;
        errorOriginMessage := JNull;
      }
    }

    function State(): Verdict
      reads this
    {
      Verdict(hasError, errorOriginCode, errorOriginMessage, message)
    }

    /** setMessage takes a bool; getMessage then returns it as PHP's string
        for it, "1" or "". */
    method SetMessage(b: bool)
      modifies this`message
      ensures message == if b then "1" else ""
    {
      message := if b then "1" else "";
    }
  }

  /** A wrong password reported by send is an error whose message is the table's second entry. */
  lemma WrongPasswordReply(raw: string)
    ensures var decoded := JObj([("error", JStr("Неверный логин или пароль")), ("error_code", JInt(2))]);
      Classify(raw, decoded, "send") ==
        Verdict(true, JInt(2), JStr("Неверный логин или пароль"), "Неверный логин или пароль")
  {
  }

  /** A code the table lacks yields the synthesised message, here for method balance. */
  lemma UnknownBalanceCode(raw: string)
    ensures var decoded := JObj([("error", JStr("X")), ("error_code", JInt(42))]);
      Classify(raw, decoded, "balance") ==
        Verdict(true, JInt(42), JStr("X"), "Unknown error: \"" + "balance" + "\":\"" + "42" + "\". See full response: " + raw)
  {
  }

  /** An array code under a method the table lacks is written "Array" into the
      unknown-error message; the reply is an error, since a non-empty array is
      truthy. */
  lemma ArrayCodeForBalance(raw: string)
    ensures var decoded := JObj([("error", JStr("x")), ("error_code", JArr([JInt(1)]))]);
      && UsableCode(decoded, "balance")
      && Classify(raw, decoded, "balance") ==
           Verdict(true, JArr([JInt(1)]), JStr("x"), "Unknown error: \"" + "balance" + "\":\"" + "Array" + "\". See full response: " + raw)
  {
  }

  /** An empty array code under balance still selects the error branch, since
      it is set, but is not an error: `(bool) []` is false. */
  lemma EmptyArrayCodeForBalance(raw: string)
    ensures var decoded := JObj([("error", JStr("x")), ("error_code", JArr([]))]);
      && UsableCode(decoded, "balance")
      && Classify(raw, decoded, "balance") ==
           Verdict(false, JArr([]), JStr("x"), "Unknown error: \"" + "balance" + "\":\"" + "Array" + "\". See full response: " + raw)
  {
  }

  /** Under send an array code is not usable, and an object code is usable
      under no method. */
  lemma UnusableCodes(methodName: string)
    ensures !UsableCodeFor("send", JArr([JInt(1)]))
    ensures !UsableCodeFor(methodName, JObj([]))
  {
  }

  /** An error text without a code is not an error, but its message is still
      the unknown-error text, with an empty code. */
  lemma ErrorTextWithoutCode(raw: string)
    ensures Classify(raw, JObj([("error", JStr("X"))]), "send") ==
              Verdict(false, JNull, JStr("X"), "Unknown error: \"" + "send" + "\":\"" + "" + "\". See full response: " + raw)
  {
  }

  /** Code 0 with an error text is not an error either. */
  lemma ZeroCodeIsNotAnError(raw: string)
    ensures !Classify(raw, JObj([("error", JStr("X")), ("error_code", JInt(0))]), "send").hasError
  {
  }

  /** A body json_decode cannot parse decodes to null and reads as a success. */
  lemma UndecodableReplyIsSuccess(raw: string)
    ensures Classify(raw, JNull, "send") == Verdict(false, JNull, JNull, "Success")
  {
  }

  /** A code sent as the string "2" finds the same table entry as 2; "02" is not an integer key. */
  lemma StringCodes(raw: string)
    ensures ErrorMessage("send", JStr("2"), raw) == SendMessages[1]
    ensures ErrorMessage("send", JStr("02"), raw) == UnknownErrorMessage("send", JStr("02"), raw)
  {
    DecimalStringKey(2);
    assert IntToDecimal(2) == "2";
    assert !IsIntegerString("02");
  }

  /** A code written as the decimal string of a PHP int n resolves to the same
      message as n. */
  lemma DecimalCodeSameMessage(methodName: string, n: int, origin: string)
    requires InLongRange(n)
    ensures ErrorMessage(methodName, JStr(IntToDecimal(n)), origin) == ErrorMessage(methodName, JInt(n), origin)
  {
    DecimalStringKey(n);
  }
}
