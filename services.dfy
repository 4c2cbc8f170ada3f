/** Smsc\Services: AbstractSmscService and its three variants SmscMessage,
    SmscBalance and SmscSenders. One class stands for the hierarchy; which
    variant an instance is, and the state only that variant has, is a tagged
    value in its `variant` field. */
module SmscServices {
  import opened PhpValues
  import opened SmscSettings
  import opened SmscResponse

  /** The concrete service class and the fields it adds to the base class. */
  datatype Variant =
    | Message(phones: string, message: string, options: Option<Params>)
    | Balance
    | Senders(added: seq<Params>)

  /** The tag each variant's setApiMethod writes. */
  function ApiMethodOf(v: Variant): (m: string)
    ensures m in MethodNames
    ensures v.Message? <==> m == "send"
    ensures v.Balance? <==> m == "balance"
    ensures v.Senders? <==> m == "senders"
  {
    match v
    case Message(_, _, _) => "send"
    case Balance => "balance"
    case Senders(_) => "senders"
  }

  /** SmscMessage::getParams: `parent + ['phones' => phones, 'mes' => mes]`. */
  function MessageParams(parent: Params, phones: string, mes: string): (r: Params)
    ensures |r| >= |parent| && r[..|parent|] == parent
    ensures Keys(r) == Keys(parent) + {"phones", "mes"}
    ensures forall k :: k in Keys(parent) ==> Lookup(r, k) == Lookup(parent, k)
    ensures "phones" !in Keys(parent) ==> Lookup(r, "phones") == Some(JStr(phones))
    ensures "mes" !in Keys(parent) ==> Lookup(r, "mes") == Some(JStr(mes))
  {
    var own := [("phones", JStr(phones)), ("mes", JStr(mes))];
    UnionLookup(parent, own);
    UnionKeys(parent, own);
    assert Keys(own[1..]) == {"mes"} by { assert own[1..][1..] == []; }
    assert Keys(own) == {"phones", "mes"};
    ArrayUnion(parent, own)
  }

  /** SmscBalance::getParams: `parent + ['cur' => true]`. */
  function BalanceParams(parent: Params): (r: Params)
    ensures |r| >= |parent| && r[..|parent|] == parent
    ensures Keys(r) == Keys(parent) + {"cur"}
    ensures forall k :: k in Keys(parent) ==> Lookup(r, k) == Lookup(parent, k)
    ensures "cur" !in Keys(parent) ==> Lookup(r, "cur") == Some(JBool(true))
  {
    var own := [("cur", JBool(true))];
    UnionLookup(parent, own);
    UnionKeys(parent, own);
    assert Keys(own) == {"cur"};
    ArrayUnion(parent, own)
  }

  /** When the parent parameters already carry `cur`, SmscBalance adds nothing. */
  lemma BalanceCollisionKeepsParent(parent: Params)
    requires "cur" in Keys(parent)
    ensures BalanceParams(parent) == parent
  {
    var own := [("cur", JBool(true))];
    assert Keys(own) == {"cur"};
    NewEntriesOfSubsumed(parent, own);
  }

  /** When the parent parameters already carry phones and mes, SmscMessage adds nothing. */
  lemma MessageCollisionKeepsParent(parent: Params, phones: string, mes: string)
    requires "phones" in Keys(parent) && "mes" in Keys(parent)
    ensures MessageParams(parent, phones, mes) == parent
  {
    var own := [("phones", JStr(phones)), ("mes", JStr(mes))];
    assert Keys(own[1..]) == {"mes"} by { assert own[1..][1..] == []; }
    assert Keys(own) == {"phones", "mes"};
    NewEntriesOfSubsumed(parent, own);
  }

  /** The values of `(array) $v`, in order: null gives none, an array its
      items, an object its property values, any other scalar itself. */
  function ArrayCast(v: Json): (r: seq<Json>)
    ensures v.JObj? ==> |r| == |v.fields| && forall i :: 0 <= i < |r| ==> r[i] == v.fields[i].1
  {
    match v
    case JNull => []
    case JArr(items) => items
    case JObj(fields) => PropertyValues(fields)
    case _ => [v]
  }

  function PropertyValues(fields: seq<(string, Json)>): (r: seq<Json>)
    ensures |r| == |fields| && forall i :: 0 <= i < |r| ==> r[i] == fields[i].1
  {
    if fields == [] then [] else [fields[0].1] + PropertyValues(fields[1..])
  }

  /** The array_map of SmscSenders::results: each item's `sender` property,
      null for an item that is not an object or has none. */
  function SenderNames(items: seq<Json>): (r: seq<Json>)
    ensures |r| == |items|
    ensures forall i :: 0 <= i < |items| ==> r[i] == Property(items[i], "sender")
  {
    if items == [] then [] else [Property(items[0], "sender")] + SenderNames(items[1..])
  }

  /** getRequestDriver: a supplied driver is returned as it is; without one,
      the driver the environment provides. */
  function GetRequestDriver<D>(driver: Option<D>, installed: D): (r: D)
    ensures driver.Some? ==> r == driver.value
    ensures driver.None? ==> r == installed
  {
    if driver.Some? then driver.value else installed
  }

  class Service {
    const settings: Settings
    var variant: Variant
    var apiMethod: string
    var data: Response?

    /** Every constructor leaves the tag its variant's setApiMethod writes, and
        no other method writes a different one. */
    predicate Valid()
      reads this
    {
      apiMethod == ApiMethodOf(variant)
    }

    /** SmscMessage::__construct: the base constructor, then phones and message. */
    constructor SmscMessage(settings: Settings, phones: string := "", message: string := "")
      ensures this.settings == settings && data == null
      ensures variant == Message(phones, message, None)
      ensures apiMethod == "send" && Valid()
    {
      this.settings := settings;
      variant := Message(phones, message, None);
      apiMethod := "";
      data := null;
      new;
      SetApiMethod();
    }

    /** SmscBalance: the base constructor alone. */
    constructor SmscBalance(settings: Settings)
      ensures this.settings == settings && data == null
      ensures variant == Balance
      ensures apiMethod == "balance" && Valid()
    {
      this.settings := settings;
      variant := Balance;
      apiMethod := "";
      data := null;
      new;
      SetApiMethod();
    }

    /** SmscSenders: the base constructor alone. */
    constructor SmscSenders(settings: Settings)
      ensures this.settings == settings && data == null
      ensures variant == Senders([])
      ensures apiMethod == "senders" && Valid()
    {
      this.settings := settings;
      variant := Senders([]);
      apiMethod := "";
      data := null;
      new;
      SetApiMethod();
    }

    /** setApiMethod of the variant this service is. */
    method SetApiMethod()
      modifies this`apiMethod
      ensures apiMethod == ApiMethodOf(variant) && Valid()
    {
      match variant
      case Message(_, _, _) => apiMethod := "send";
      case Balance => apiMethod := "balance";
      case Senders(_) => apiMethod := "senders";
    }

    /** getApiMethod: the tag when it is non-empty and allow-listed; "No API
        method!" when it is empty; validApiMethod's exception otherwise. */
    function GetApiMethod(): (r: Result<string>)
      reads this
      ensures r.Ok? <==> apiMethod in MethodNames
      ensures r.Ok? ==> r.value == apiMethod
      ensures IsEmpty(Some(apiMethod)) ==> r == Err(Exception("No API method!"))
      ensures !IsEmpty(Some(apiMethod)) && apiMethod !in MethodNames ==>
                r == Err(Exception("Method \"" + apiMethod + "\" not supported!"))
    {
      if IsEmpty(Some(apiMethod)) then
        assert apiMethod !in MethodNames;
        Err(Exception("No API method!"))
      else
        match ValidApiMethod(apiMethod)
        case Ok(_) => Ok(apiMethod)
        case Err(e) => Err(e)
    }

    /** getApiUrl: the settings' URL for the current tag, or getApiMethod's exception. */
    function GetApiUrl(): (r: Result<string>)
      reads this, settings
      ensures r.Ok? <==> apiMethod in MethodNames
      ensures r.Ok? ==> r.value == "https://" + Text(settings.host) + "/sys/" + apiMethod + ".php"
      ensures r.Err? ==> r == Err(GetApiMethod().error)
    {
      match GetApiMethod()
      case Err(e) => Err(e)
      case Ok(m) => settings.GetApiUrl(m)
    }

    method SetData(response: Response)
      modifies this`data
      ensures data == response
    {
      data := response;
    }

    /** AbstractSmscService::send, for the variants that do not override it:
        the raw reply of the transport and its decoding are stored as a
        Response tagged with getApiMethod; when that throws, nothing changes. */
    method Send(raw: string, decoded: Json) returns (r: Outcome)
      requires !variant.Message?
      requires GetApiMethod().Ok? ==> UsableCode(decoded, apiMethod)
      modifies this`data
      ensures GetApiMethod().Err? ==> r == Fail(GetApiMethod().error) && data == old(data)
      ensures GetApiMethod().Ok? ==>
                && r == Pass && data != null && fresh(data)
                && data.origin == raw && data.response == decoded
                && data.State() == Classify(raw, decoded, apiMethod)
    {
      var m := GetApiMethod();
      if m.Err? {
        return Fail(m.error);
      }
      var response := new Response(raw, decoded, m.value);
      SetData(response);
      r := Pass;
    }

    /** SmscMessage::send: sets the tag to send and returns, without storing
        it, the Response on the transport's raw reply. */
    method SendMessage(raw: string, decoded: Json) returns (r: Response)
      requires variant.Message?
      requires UsableCode(decoded, "send")
      modifies this`apiMethod
      ensures apiMethod == "send" && Valid()
      ensures fresh(r) && r.origin == raw && r.response == decoded
      ensures r.State() == Classify(raw, decoded, "send")
    {
      SetApiMethod();
      var m := GetApiMethod();
      assert m == Ok("send");
      r := new Response(raw, decoded, m.value);
    }

    /** addPhones: appends a comma and the given phones. */
    method AddPhones(phones: string)
      requires variant.Message?
      modifies this`variant
      ensures variant == old(variant).(phones := old(variant).phones + "," + phones)
      ensures Valid() <==> old(Valid())
    {
      variant := variant.(phones := variant.phones + "," + phones);
    }

    method SetPhones(phones: string)
      requires variant.Message?
      modifies this`variant
      ensures variant == old(variant).(phones := phones)
      ensures Valid() <==> old(Valid())
    {
      variant := variant.(phones := phones);
    }

    method SetMessage(message: string)
      requires variant.Message?
      modifies this`variant
      ensures variant == old(variant).(message := message)
      ensures Valid() <==> old(Valid())
    {
      variant := variant.(message := message);
    }

    /** setOptions; until it is called getOptions reads an undeclared property, null. */
    method SetOptions(options: Params)
      requires variant.Message?
      modifies this`variant
      ensures variant == old(variant).(options := Some(options))
      ensures Valid() <==> old(Valid())
    {
      variant := variant.(options := Some(options));
    }

    /** getSenders: one addParams call with `['get' => true]`, recorded. */
    method GetSenders()
      requires variant.Senders?
      modifies this`variant
      ensures variant == Senders(old(variant).added + [[("get", JBool(true))]])
      ensures Valid() <==> old(Valid())
    {
      variant := Senders(variant.added + [[("get", JBool(true))]]);
    }

    /** getParams: the variant's parameters on top of the parent's. The parent
        keys keep their values and order; SmscSenders adds none of its own. */
    function GetParams(parent: Params): (r: Params)
      reads this
      ensures |r| >= |parent| && r[..|parent|] == parent
      ensures forall k :: k in Keys(parent) ==> Lookup(r, k) == Lookup(parent, k)
      ensures variant.Message? ==> r == MessageParams(parent, variant.phones, variant.message)
      ensures variant.Balance? ==> r == BalanceParams(parent)
      ensures variant.Senders? ==> r == parent
    {
      match variant
      case Message(phones, message, _) => MessageParams(parent, phones, message)
      case Balance => BalanceParams(parent)
      case Senders(_) => parent
    }

    /** results of SmscBalance and SmscSenders: the decoded reply unchanged, or
        the senders listed in it. Calling it before any send is an engine error. */
    function Results(): (r: Result<Json>)
      requires !variant.Message?
      reads this
      ensures data == null ==> r == Err(Fatal("Call to a member function getResponse() on null"))
      ensures data != null && variant.Balance? ==> r == Ok(data.response)
      ensures data != null && variant.Senders? ==>
                r.Ok? && r.value.JArr? && r.value.items == SenderNames(ArrayCast(data.response))
    {
      if data == null then Err(Fatal("Call to a member function getResponse() on null"))
      else if variant.Balance? then Ok(data.response)
      else Ok(JArr(SenderNames(ArrayCast(data.response))))
    }
  }

  /** A service in its constructed state asks for an allow-listed method, so
      getApiMethod succeeds and getApiUrl is the settings' URL for it. */
  lemma ValidServiceApiUrl(s: Service)
    requires s.Valid()
    ensures s.GetApiMethod() == Ok(s.apiMethod)
    ensures s.GetApiUrl() == Ok("https://" + Text(s.settings.host) + "/sys/" + ApiMethodOf(s.variant) + ".php")
  {
  }

  /** An empty tag is refused with "No API method!", whatever the variant. */
  lemma EmptyTagRefused(s: Service)
    requires s.apiMethod == ""
    ensures s.GetApiMethod() == Err(Exception("No API method!")) && !s.Valid()
  {
  }

  /** The parameters stay a PHP array: when the parent's keys are distinct, so
      are the keys of getParams. */
  lemma ParamsUnique(s: Service, parent: Params)
    requires UniqueKeys(parent)
    ensures UniqueKeys(s.GetParams(parent))
  {
    match s.variant
    case Message(phones, message, _) =>
      UnionUnique(parent, [("phones", JStr(phones)), ("mes", JStr(message))]);
    case Balance =>
      UnionUnique(parent, [("cur", JBool(true))]);
    case Senders(_) =>
  }

  /** Senders of an empty or null reply: an empty list. */
  lemma NoSenders(s: Service)
    requires s.variant.Senders? && s.data != null
    requires s.data.response == JNull || s.data.response == JArr([])
    ensures s.Results() == Ok(JArr([]))
  {
  }

  /** The senders of a list of objects, one per object, in the list's order. */
  lemma SendersInOrder(a: string, b: string)
    ensures SenderNames(ArrayCast(JArr([JObj([("sender", JStr(a))]), JObj([("sender", JStr(b))])]))) ==
              [JStr(a), JStr(b)]
  {
    var items := [JObj([("sender", JStr(a))]), JObj([("sender", JStr(b))])];
    assert Property(items[0], "sender") == JStr(a);
    assert Property(items[1], "sender") == JStr(b);
  }
}
