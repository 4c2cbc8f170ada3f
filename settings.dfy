/** Smsc\Settings\Settings: account credentials, the selected API host, the
    sender ID, and the allow-lists of hosts and API methods. */
module SmscSettings {
  import opened PhpValues

  /** The class constants of Settings, name and value, in declaration order. */
  const Constants: seq<(string, string)> := [
    ("SMSC_HOST_UA", "smsc.ua"),
    ("SMSC_HOST_RU", "smsc.ru"),
    ("SMSC_HOST_KZ", "smsc.kz"),
    ("SMSC_HOST_TJ", "smsc.tj"),
    ("SMSC_HOST_CY", "smscentre.com"),
    ("SMSC_METHOD_SEND", "send"),
    ("SMSC_METHOD_TEMPLATES", "templates"),
    ("SMSC_METHOD_JOBS", "jobs"),
    ("SMSC_METHOD_STATUS", "status"),
    ("SMSC_METHOD_BALANCE", "balance"),
    ("SMSC_METHOD_PHONES", "phones"),
    ("SMSC_METHOD_USERS", "users"),
    ("SMSC_METHOD_SENDERS", "senders"),
    ("SMSC_METHOD_GET", "get"),
    ("SMSC_METHOD_INFO", "info"),
    ("SMSC_METHOD_GET_MNP", "get_mnp"),
    ("SMSC_METHOD_RECEIVE_PHONES", "receive_phones")
  ]

  const HostPrefix := "SMSC_HOST_"
  const MethodPrefix := "SMSC_METHOD_"


  /** The constants whose name starts with needle, in their order. */
  function WithPrefix(cs: seq<(string, string)>, needle: string): (r: seq<(string, string)>)
    ensures forall e :: e in r <==> e in cs && needle <= e.0
    ensures |r| <= |cs|
  {
    if cs == [] then []
    else WithPrefix(cs[..|cs| - 1], needle) + (if needle <= cs[|cs| - 1].0 then [cs[|cs| - 1]] else [])
  }

  function Values(cs: seq<(string, string)>): (r: seq<string>)
    ensures |r| == |cs| && forall i :: 0 <= i < |cs| ==> r[i] == cs[i].1
  {
    if cs == [] then [] else [cs[0].1] + Values(cs[1..])
  }

  /** getConstants: the foreach over the class constants that keeps those
      whose name starts with needle. */
  method GetConstants(needle: string) returns (constants: seq<(string, string)>)
    ensures constants == WithPrefix(Constants, needle)
  {
    constants := [];
    var i := 0;
    while i < |Constants|
      invariant 0 <= i <= |Constants|
      invariant constants == WithPrefix(Constants[..i], needle)
    {
      var (name, constant) := Constants[i];
      assert Constants[..i + 1][..i] == Constants[..i];
      if needle <= name {
        constants := constants + [(name, constant)];
      }
      i := i + 1;
    }
    assert Constants[..i] == Constants;
  }

  lemma NotPrefixAt(a: string, b: string, i: nat)
    requires i < |a| && i < |b| && a[i] != b[i]
    ensures !(a <= b)
  {
    if |a| <= |b| {
      assert b[..|a|][i] != a[i];
    }
  }

  /** Each constant's name starts with exactly one of the two prefixes: the
      first five with SMSC_HOST_, the other twelve with SMSC_METHOD_. */
  lemma ConstantPrefix(k: nat)
    requires k < |Constants|
    ensures HostPrefix <= Constants[k].0 <==> k < 5
    ensures MethodPrefix <= Constants[k].0 <==> k >= 5
  {
    var name := Constants[k].0;
    if k < 5 {
      assert name[..10] == HostPrefix;
      NotPrefixAt(MethodPrefix, name, 5);
    } else {
      assert name[..12] == MethodPrefix;
      NotPrefixAt(HostPrefix, name, 5);
    }
  }

  lemma {:induction false} WithPrefixAppend(a: seq<(string, string)>, b: seq<(string, string)>, needle: string)
    ensures WithPrefix(a + b, needle) == WithPrefix(a, needle) + WithPrefix(b, needle)
  {
    if b == [] {
      assert a + b == a;
    } else {
      var init := b[..|b| - 1];
      assert (a + b)[..|a + b| - 1] == a + init;
      WithPrefixAppend(a, init, needle);
    }
  }

  lemma {:induction false} WithPrefixKeepsAll(cs: seq<(string, string)>, needle: string)
    requires forall i :: 0 <= i < |cs| ==> needle <= cs[i].0
    ensures WithPrefix(cs, needle) == cs
  {
    if cs != [] {
      WithPrefixKeepsAll(cs[..|cs| - 1], needle);
    }
  }

  lemma {:induction false} WithPrefixDropsAll(cs: seq<(string, string)>, needle: string)
    requires forall i :: 0 <= i < |cs| ==> !(needle <= cs[i].0)
    ensures WithPrefix(cs, needle) == []
  {
    if cs != [] {
      WithPrefixDropsAll(cs[..|cs| - 1], needle);
    }
  }

  /** getConstants('SMSC_HOST_') finds the five hosts, in declaration order. */
  lemma HostConstants()
    ensures WithPrefix(Constants, HostPrefix) == Constants[..5]
  {
    var hosts, methods := Constants[..5], Constants[5..];
    assert Constants == hosts + methods;
    forall i | 0 <= i < |hosts| ensures HostPrefix <= hosts[i].0 {
      ConstantPrefix(i);
    }
    forall i | 0 <= i < |methods| ensures !(HostPrefix <= methods[i].0) {
      ConstantPrefix(i + 5);
    }
    WithPrefixAppend(hosts, methods, HostPrefix);
    WithPrefixKeepsAll(hosts, HostPrefix);
    WithPrefixDropsAll(methods, HostPrefix);
  }

  /** getConstants('SMSC_METHOD_') finds the twelve methods, in declaration order. */
  lemma MethodConstants()
    ensures WithPrefix(Constants, MethodPrefix) == Constants[5..]
  {
    var hosts, methods := Constants[..5], Constants[5..];
    assert Constants == hosts + methods;
    forall i | 0 <= i < |hosts| ensures !(MethodPrefix <= hosts[i].0) {
      ConstantPrefix(i);
    }
    forall i | 0 <= i < |methods| ensures MethodPrefix <= methods[i].0 {
      ConstantPrefix(i + 5);
    }
    WithPrefixAppend(hosts, methods, MethodPrefix);
    WithPrefixDropsAll(hosts, MethodPrefix);
    WithPrefixKeepsAll(methods, MethodPrefix);
  }

  /** getApiHosts: the values of the SMSC_HOST_ constants. */
  function ApiHosts(): (r: seq<string>)
    ensures r == HostNames
  {
    HostConstants();
    HostValues();
    Values(WithPrefix(Constants, HostPrefix))
  }

  lemma HostValues()
    ensures Values(Constants[..5]) == HostNames
  {
    var v := Values(Constants[..5]);
    forall i | 0 <= i < |HostNames| ensures v[i] == HostNames[i] {
      assert v[i] == Constants[i].1;
    }
  }

  /** getApiMethods: the values of the SMSC_METHOD_ constants. */
  function ApiMethods(): (r: seq<string>)
    ensures r == MethodNames
  {
    MethodConstants();
    MethodValues();
    Values(WithPrefix(Constants, MethodPrefix))
  }

  const MethodNames: seq<string> := ["send", "templates", "jobs", "status", "balance", "phones",
                                     "users", "senders", "get", "info", "get_mnp", "receive_phones"]

  lemma MethodValues()
    ensures Values(Constants[5..]) == MethodNames
  {
    var v := Values(Constants[5..]);
    forall i | 0 <= i < |MethodNames| ensures v[i] == MethodNames[i] {
      assert v[i] == Constants[i + 5].1;
    }
  }

  const HostNames: seq<string> := ["smsc.ua", "smsc.ru", "smsc.kz", "smsc.tj", "smscentre.com"]

  /** The two allow-lists do not share a value, and have five and twelve entries. */
  lemma AllowListsDisjoint()
    ensures |ApiHosts()| == 5 && |ApiMethods()| == 12
    ensures forall h :: h in ApiHosts() ==> h !in ApiMethods()
  {
    // every host has 'm' as its second character, no method does
    forall h | h in HostNames ensures h !in MethodNames {
      HostsSecondM(h);
      if h in MethodNames {
        MethodsSecondNotM(h);
      }
    }
  }

  lemma HostsSecondM(h: string)
    requires h in HostNames
    ensures |h| > 1 && h[1] == 'm'
  {
    var i :| 0 <= i < |HostNames| && HostNames[i] == h;
  }

  lemma MethodsSecondNotM(m: string)
    requires m in MethodNames
    ensures |m| > 1 && m[1] != 'm'
  {
    var j :| 0 <= j < |MethodNames| && MethodNames[j] == m;
  }

  /** getDefaultHost: the value of SMSC_HOST_UA, the first host constant. */
  function GetDefaultHost(): (h: string)
    ensures h == "smsc.ua"
    ensures h == ApiHosts()[0] && ValidHost(h)
  {
    Constants[0].1
  }

  /** validHost: in_array against the host allow-list. */
  function ValidHost(host: string): (b: bool)
    ensures b <==> host in {"smsc.ua", "smsc.ru", "smsc.kz", "smsc.tj", "smscentre.com"}
  {
    host in ApiHosts()
  }

  /** validApiMethod: true for an allow-listed method, an exception otherwise. */
  function ValidApiMethod(methodName: string): (r: Result<bool>)
    ensures r.Ok? <==> methodName in MethodNames
    ensures r.Ok? ==> r.value
    ensures r.Err? ==> r.error == Exception("Method \"" + methodName + "\" not supported!")
  {
    if methodName in ApiMethods() then Ok(true)
    else Err(Exception("Method \"" + methodName + "\" not supported!"))
  }

  /** The host setHost stores, or the exception it throws: an empty argument
      means the default host, an allow-listed one is kept, any other is refused. */
  function ResolveHost(host: Option<string>): (r: Result<string>)
    ensures r.Ok? ==> ValidHost(r.value)
    ensures IsEmpty(host) ==> r == Ok(GetDefaultHost())
    ensures !IsEmpty(host) && ValidHost(host.value) ==> r == Ok(host.value)
    ensures !IsEmpty(host) && !ValidHost(host.value) ==>
              r == Err(Exception("Host \"" + host.value + "\" not supported!"))
  {
    if IsEmpty(host) then Ok(GetDefaultHost())
    else if host.value in ApiHosts() then Ok(host.value)
    else Err(Exception("Host \"" + host.value + "\" not supported!"))
  }

  class Settings {
    var login: Option<string>
    var psw: Option<string>
    var host: Option<string>
    var sender: Option<string>

    /** The constructor followed by setDefaults: a null host becomes the
        default host; every other argument is stored as given. */
    constructor (login: Option<string> := None, psw: Option<string> := None,
                 host: Option<string> := None, sender: Option<string> := None)
      ensures this.login == login && this.psw == psw && this.sender == sender
      ensures this.host == if host.None? then Some(GetDefaultHost()) else host
    {
      this.login := login;
      this.psw := psw;
      this.host := host;
      this.sender := sender;
      new;
      SetDefaults();
    }

    /** setDefaults: a null host becomes the default host. */
    method SetDefaults()
      modifies this`host
      ensures host == if old(host).None? then Some(GetDefaultHost()) else old(host)
    {
      if host.None? {
        host := Some(GetDefaultHost());
      }
    }

    /** valid: login, password and host are all set, and none of them is ""
        or "0" (PHP's `empty`). */
    function IsValid(): (b: bool)
      reads this
      ensures b <==> && login.Some? && login.value != "" && login.value != "0"
                     && psw.Some? && psw.value != "" && psw.value != "0"
                     && host.Some? && host.value != "" && host.value != "0"
    {
      !IsEmpty(login) && !IsEmpty(psw) && !IsEmpty(host)
    }

    method SetLogin(login: string)
      modifies this`login
      ensures this.login == Some(login)
    {
      this.login := Some(login);
    }

    method SetPsw(psw: string)
      modifies this`psw
      ensures this.psw == Some(psw)
    {
      this.psw := Some(psw);
    }

    method SetSender(sender: string)
      modifies this`sender
      ensures this.sender == Some(sender)
    {
      this.sender := Some(sender);
    }

    /** setHost: the host ResolveHost chooses, or the exception with the host unchanged. */
    method SetHost(host: Option<string> := None) returns (r: Outcome)
      modifies this`host
      ensures ResolveHost(host).Ok? ==> r == Pass && this.host == Some(ResolveHost(host).value)
      ensures ResolveHost(host).Err? ==> r == Fail(ResolveHost(host).error) && this.host == old(this.host)
    {
      var chosen := ResolveHost(host);
      if chosen.Ok? {
        this.host := Some(chosen.value);
        r := Pass;
      } else {
        r := Fail(chosen.error);
      }
    }

    /** getApiUrl: https://{host}/sys/{method}.php for an allow-listed method,
        validApiMethod's exception otherwise. */
    function GetApiUrl(methodName: string): (r: Result<string>)
      reads this
      ensures r.Ok? <==> methodName in MethodNames
      ensures r.Ok? ==> r.value == "https://" + Text(host) + "/sys/" + methodName + ".php"
      ensures r.Err? ==> r == Err(Exception("Method \"" + methodName + "\" not supported!"))
    {
      // validApiMethod never returns false, so the exception getApiUrl throws
      // on false ('API URL cant be generated!') cannot occur and is not modelled.
      var valid := ValidApiMethod(methodName);
      if valid.Ok? then Ok("https://" + Text(host) + "/sys/" + methodName + ".php") else Err(valid.error)
    }
  }

  /** valid() does not consult the host allow-list: any non-empty host passes. */
  lemma ValidIgnoresAllowList(s: Settings)
    requires s.login == Some("user") && s.psw == Some("secret") && s.host == Some("example.org")
    ensures s.IsValid() && !ValidHost(s.host.value)
  {
  }

  /** Credentials that are set and not empty, with the default host, are valid;
      the sender plays no part. */
  lemma CredentialsAndDefaultHost(s: Settings, login: string, psw: string)
    requires s.login == Some(login) && s.psw == Some(psw) && s.host == Some(GetDefaultHost())
    ensures s.IsValid() <==> login !in {"", "0"} && psw !in {"", "0"}
  {
  }

  /** "0" is empty to PHP, so it is neither a usable login nor a host setHost keeps. */
  lemma ZeroIsEmpty(s: Settings)
    requires s.login == Some("0")
    ensures !s.IsValid() && ResolveHost(Some("0")) == Ok(GetDefaultHost())
  {
  }
}
