# smsc gateway client — a Dafny model

This project models the core of the `awd-studio/smsc` PHP client for the SMSC
SMS gateway. That core is the part that composes requests and reads replies:

- **Settings** holds the account's login, password, API host and sender ID.
  It has two fixed allow-lists: five gateway hosts and twelve API methods.
  Both lists are read off the class constants by a name-prefix filter.
  Settings decides whether its credentials are usable, picks the host, and
  builds `https://{host}/sys/{method}.php`.
- **Response** classifies a gateway reply as an error or a success. Its
  message is one of two things:
  - a fixed entry from the `(method, code)` table, which knows method `send`
    with codes 1 to 9;
  - a synthesised `Unknown error: "<method>":"<code>". See full response: <raw>`
    for any pair the table lacks.
- **Services** are `AbstractSmscService` and its variants `SmscMessage`,
  `SmscBalance` and `SmscSenders`.
  - Each variant fixes an API-method tag.
  - Each variant adds its own request parameters on top of the parent's, with
    PHP's left-biased array union `+`.
  - Each variant post-processes the decoded reply.
  - The base class refuses a tag that is empty or not allow-listed. It stores
    the Response built from the transport's raw reply.

Modules:

- `PhpStrings`: how PHP writes an `int` into a string, and which strings PHP
  turns into integer array keys: canonical decimal text of a value that fits
  PHP's 64-bit int. Both directions of that correspondence are proved for
  ints in that range.
- `PhpValues`: the PHP semantics the core relies on:
  - the values `json_decode` returns;
  - `empty`, the `(bool)` cast and `isset($obj->k)`;
  - array-key conversion;
  - ordered arrays and their union `+`.

  For `+`, the model proves lookup, key set, unique keys and idempotence.
- `SmscSettings`: the constants table and the `getConstants` loop, proved
  against a prefix-filter function. It also holds the allow-lists, `setHost`,
  `validApiMethod`, `getApiUrl`, and class `Settings`.
- `SmscResponse`: the error-code table and `getErrorMessage`. It holds the
  classification `Classify`, which the `Response` constructor is proved to
  perform, with worked replies.
- `SmscServices`: class `Service`, the whole hierarchy. Its `variant` field
  says which concrete class an instance is and holds that class's own fields.

How the model treats things outside the core:

- **Transport and JSON decoding** are not modelled. Operations that receive a
  reply take two parameters: the raw text, and the value `json_decode` made of
  it.
- **Helpers the source calls but does not define** are not invented.
  `final class Settings` declares neither `mergeOptions` (called at
  `AbstractSmscService.php:64`) nor `getDriver` (called at
  `AbstractSmscService.php:152`). None of the modelled classes declares
  `addParams`, `buildParams` or a base `getParams`.
  - The parent parameters are a parameter of `GetParams`.
  - The `addParams` calls are recorded in the variant's state.

## Behaviour of the code worth knowing

- `valid()` does not consult the host allow-list. Any non-empty host passes
  (`SmscSettings.ValidIgnoresAllowList`).
- A body that `json_decode` cannot parse becomes `null`. It is then read as a
  plain "Success"; no parse error is raised
  (`SmscResponse.UndecodableReplyIsSuccess`).
- A reply with an `error` text but a missing or zero `error_code` is not an
  error. It still gets the unknown-error message, because that branch runs
  whenever either property is set (`SmscResponse.ErrorTextWithoutCode`).
- A non-empty array `error_code` is an error under a method the table lacks,
  and an empty one is not; either way the message quotes it as "Array"
  (`SmscResponse.ArrayCodeForBalance`, `SmscResponse.EmptyArrayCodeForBalance`).
- On success the constructor never assigns the origin code or the origin
  text, so both stay `null` (`Response.php:77-81`).
- The parameter union is left-biased: the parent's keys win over the
  variant's own keys (`SmscServices.BalanceCollisionKeepsParent`).

## Model

| member | source | states |
|---|---|---|
| SmscSettings.Settings.constructor | src/Smsc/Settings/Settings.php:83-91 | login, password and sender are stored as given; a null host becomes `smsc.ua`; any other host is stored verbatim, even one outside the allow-list |
| SmscSettings.Settings.SetDefaults | src/Smsc/Settings/Settings.php:96-101 | the host becomes the default host exactly when it was null; otherwise it is unchanged; no other field is touched |
| SmscSettings.GetDefaultHost | src/Smsc/Settings/Settings.php:158-162 | the value of `SMSC_HOST_UA`, `smsc.ua`, which is the first allow-listed host and passes validHost |
| SmscSettings.Settings.IsValid | src/Smsc/Settings/Settings.php:108-111 | true exactly when login, password and host are all set and none is "" or "0"; the sender and the host allow-list play no part |
| SmscSettings.CredentialsAndDefaultHost | src/Smsc/Settings/Settings.php:108-111 | with the default host, valid() holds exactly when login and password are both non-empty |
| SmscSettings.Settings.SetLogin | src/Smsc/Settings/Settings.php:124-127 | afterwards the login (getLogin) is the argument; no other field changes |
| SmscSettings.Settings.SetPsw | src/Smsc/Settings/Settings.php:140-143 | afterwards the password (getPsw) is the argument; no other field changes |
| SmscSettings.Settings.SetSender | src/Smsc/Settings/Settings.php:203-206 | afterwards the sender (getSender) is the argument; no other field changes |
| SmscSettings.ResolveHost | src/Smsc/Settings/Settings.php:169-178 | an empty argument (null, "" or "0") selects `smsc.ua`; an allow-listed host is kept; any other host gives `Host "<h>" not supported!`; every accepted host is allow-listed |
| SmscSettings.Settings.SetHost | src/Smsc/Settings/Settings.php:169-178 | stores the host ResolveHost accepts; on the exception it leaves the host unchanged |
| SmscSettings.ValidHost | src/Smsc/Settings/Settings.php:187-190 | true exactly for `smsc.ua`, `smsc.ru`, `smsc.kz`, `smsc.tj` and `smscentre.com` |
| SmscSettings.ValidApiMethod | src/Smsc/Settings/Settings.php:216-223 | true for each of the twelve methods; `Method "<m>" not supported!` for every other string; never false |
| SmscSettings.Settings.GetApiUrl | src/Smsc/Settings/Settings.php:233-240 | for an allow-listed method, exactly `https://` + host + `/sys/` + method + `.php`; for any other method, validApiMethod's exception |
| SmscSettings.WithPrefix | src/Smsc/Settings/Settings.php:272-276 | keeps exactly the constants whose name starts with the needle, and no more than there were |
| SmscSettings.GetConstants | src/Smsc/Settings/Settings.php:265-279 | the foreach loop returns exactly WithPrefix of the constants table, in declaration order |
| SmscSettings.HostConstants | src/Smsc/Settings/Settings.php:245-248 | the `SMSC_HOST_` filter finds the first five constants, in order |
| SmscSettings.MethodConstants | src/Smsc/Settings/Settings.php:253-256 | the `SMSC_METHOD_` filter finds the other twelve constants, in order |
| SmscSettings.ConstantPrefix | src/Smsc/Settings/Settings.php:25-45 | every constant's name starts with exactly one of the two prefixes |
| SmscSettings.ApiHosts | src/Smsc/Settings/Settings.php:245-248 | getApiHosts is the five host names in declaration order |
| SmscSettings.ApiMethods | src/Smsc/Settings/Settings.php:253-256 | getApiMethods is the twelve method names in declaration order |
| SmscSettings.AllowListsDisjoint | src/Smsc/Settings/Settings.php:25-45 | the host list has five entries and the method list twelve; no value appears in both |
| SmscSettings.ValidIgnoresAllowList | src/Smsc/Settings/Settings.php:108-111 | settings with a host outside the allow-list can still be valid (IsValid) |
| SmscSettings.ZeroIsEmpty | src/Smsc/Settings/Settings.php:108-111 | a login of "0" is empty, so the settings are not valid; setHost("0") selects the default host |
| SmscResponse.TableMessage | src/Smsc/Response/Response.php:168-183 | the table has an entry exactly for method `send` and codes whose array key is an int from 1 to 9; the entry for code i is the i-th message |
| SmscResponse.ErrorMessage | src/Smsc/Response/Response.php:94-106 | the table's entry when there is one, otherwise the unknown-error text; never empty; an array code under a method the table lacks is written "Array" |
| SmscResponse.UnknownErrorEmbeds | src/Smsc/Response/Response.php:100-103 | the unknown-error text starts with `Unknown error: "`, then holds the method, then the code's text, at fixed offsets; it ends with the raw reply |
| SmscResponse.Classify | src/Smsc/Response/Response.php:70-82 | the error flag is the truthiness of error_code. With neither property set, the result is "Success" with no code or text. Otherwise the code and text are the payload's properties and the message is ErrorMessage |
| SmscResponse.Response.constructor | src/Smsc/Response/Response.php:65-83 | getOrigin is the raw text and getResponse the decoded payload, unchanged; the flag, code, text and message are Classify's; the method defaults to send |
| SmscResponse.Response.SetMessage | src/Smsc/Response/Response.php:127-130 | the message becomes PHP's string for the bool: "1" or "" |
| SmscResponse.WrongPasswordReply | src/Smsc/Response/Response.php:98-99 | send with code 2 is an error whose message is the table's wrong-login text |
| SmscResponse.UnknownBalanceCode | src/Smsc/Response/Response.php:100-103 | balance with code 42 is an error whose message quotes "balance", "42" and the raw reply |
| SmscResponse.ArrayCodeForBalance | src/Smsc/Response/Response.php:98-102 | an array code under balance passes the isset unexamined and is written "Array": the reply is an error whose message quotes "balance", "Array" and the raw reply |
| SmscResponse.EmptyArrayCodeForBalance | src/Smsc/Response/Response.php:70-75 | an empty array code under balance is set, so the error branch runs and quotes "Array", but `(bool) []` is false, so the reply is not an error |
| SmscResponse.UnusableCodes | src/Smsc/Response/Response.php:98-101 | an array code under send, and an object code under any method, are the codes getErrorMessage cannot handle |
| SmscResponse.ErrorTextWithoutCode | src/Smsc/Response/Response.php:70-75 | an error text without a code is not an error, yet its message is the unknown-error text with an empty code |
| SmscResponse.ZeroCodeIsNotAnError | src/Smsc/Response/Response.php:72 | code 0 with an error text is not an error |
| SmscResponse.UndecodableReplyIsSuccess | src/Smsc/Response/Response.php:68-81 | a null decoding is a success with message "Success" |
| SmscResponse.StringCodes | src/Smsc/Response/Response.php:98 | the code string "2" finds the same entry as 2; "02" is not an integer key and gives the unknown-error text |
| SmscResponse.DecimalCodeSameMessage | src/Smsc/Response/Response.php:98-103 | a code sent as the decimal string of n yields the same message as n itself, for every 64-bit n |
| PhpValues.StringKeyIsInt | src/Smsc/Response/Response.php:98 | a string code becomes the int key n exactly when it is the decimal text of n and n fits a 64-bit int |
| PhpValues.UnionLookup | src/Smsc/Services/SmscMessage.php:145-148 | in `l + r` a key finds l's value when l has the key, and r's value otherwise |
| PhpValues.UnionIdempotent | src/Smsc/Services/SmscMessage.php:145-148 | adding the same array twice is the same as adding it once |
| SmscServices.ApiMethodOf | src/Smsc/Services/SmscBalance.php:37-40 | the tag each variant sets: send, balance or senders; each is allow-listed, and each variant has a different tag |
| SmscServices.Service.SmscMessage | src/Smsc/Services/SmscMessage.php:54-60 | stores the settings, phones and message (both default to ""), with no data and no options; the tag is send |
| SmscServices.Service.SmscBalance | src/Smsc/Services/AbstractSmscService.php:60-67 | stores the settings, then setApiMethod sets the tag to balance; no data yet |
| SmscServices.Service.SmscSenders | src/Smsc/Services/AbstractSmscService.php:60-67 | stores the settings, then setApiMethod sets the tag to senders; no data yet |
| SmscServices.Service.SetApiMethod | src/Smsc/Services/SmscSenders.php:35-38 | the tag becomes the variant's own: balance (SmscBalance.php:37-40), senders, or send for SmscMessage |
| SmscServices.Service.GetApiMethod | src/Smsc/Services/AbstractSmscService.php:87-94 | the tag exactly when it is allow-listed; `No API method!` when it is empty; the not-supported exception for any other non-empty tag |
| SmscServices.Service.GetApiUrl | src/Smsc/Services/AbstractSmscService.php:102-105 | the settings' URL for the tag when the tag is allow-listed; getApiMethod's exception otherwise |
| SmscServices.ValidServiceApiUrl | src/Smsc/Services/AbstractSmscService.php:87-105 | a service holding its variant's tag always gets its method and its URL |
| SmscServices.EmptyTagRefused | src/Smsc/Services/AbstractSmscService.php:89-93 | an empty tag is refused with `No API method!` |
| SmscServices.Service.SetData | src/Smsc/Services/AbstractSmscService.php:120-123 | getData afterwards returns the given Response |
| SmscServices.GetRequestDriver | src/Smsc/Services/AbstractSmscService.php:133-144 | a supplied driver is returned unchanged |
| SmscServices.Service.Send | src/Smsc/Services/AbstractSmscService.php:150-154 | when the tag is accepted, stores a new Response on the raw reply, classified for that tag; otherwise fails with getApiMethod's exception and keeps the data |
| SmscServices.Service.SendMessage | src/Smsc/Services/SmscMessage.php:159-170 | sets the tag to send and returns a new Response on the raw reply, classified for send; it does not store that Response |
| SmscServices.Service.AddPhones | src/Smsc/Services/SmscMessage.php:68-71 | phones `s` becomes `s + "," + p`; from empty phones that gives a leading comma; nothing else changes |
| SmscServices.Service.SetPhones | src/Smsc/Services/SmscMessage.php:90-93 | the phones (getPhones) become the argument; nothing else changes |
| SmscServices.Service.SetMessage | src/Smsc/Services/SmscMessage.php:112-115 | the message (getMessage) becomes the argument; nothing else changes |
| SmscServices.Service.SetOptions | src/Smsc/Services/SmscMessage.php:134-137 | the options (getOptions) become the argument; before any call they are null |
| SmscServices.Service.GetSenders | src/Smsc/Services/SmscSenders.php:26-29 | records one more `addParams(['get' => true])` |
| SmscServices.MessageParams | src/Smsc/Services/SmscMessage.php:143-149 | the parent parameters come first and unchanged; the keys are the parent's plus phones and mes; phones and mes carry the current values unless the parent has those keys |
| SmscServices.MessageCollisionKeepsParent | src/Smsc/Services/SmscMessage.php:145-148 | when the parent has phones and mes, the result is the parent parameters themselves |
| SmscServices.BalanceParams | src/Smsc/Services/SmscBalance.php:26-31 | the parent parameters come first and unchanged; `cur => true` is added unless the parent has `cur` |
| SmscServices.BalanceCollisionKeepsParent | src/Smsc/Services/SmscBalance.php:26-31 | when the parent has `cur`, the parent's value is kept and nothing is added |
| SmscServices.Service.GetParams | src/Smsc/Services/SmscMessage.php:143-149 | each variant's parameters; every parent key keeps its value and place; SmscSenders adds none |
| SmscServices.ParamsUnique | src/Smsc/Services/SmscBalance.php:26-31 | the parameters stay an array with distinct keys whenever the parent's are |
| SmscServices.ArrayCast | src/Smsc/Services/SmscSenders.php:48-50 | `(array)` of an object yields its property values in order, one per property |
| SmscServices.SenderNames | src/Smsc/Services/SmscSenders.php:46-51 | one `sender` property per item, in the same order (null where an item has none) |
| SmscServices.Service.Results | src/Smsc/Services/SmscBalance.php:48-51 | SmscBalance gives the stored decoded reply unchanged; SmscSenders (SmscSenders.php:46-51) gives the SenderNames of the reply; without stored data, an engine error |
| SmscServices.NoSenders | src/Smsc/Services/SmscSenders.php:46-51 | a null or empty reply yields an empty list of senders |
| SmscServices.SendersInOrder | src/Smsc/Services/SmscSenders.php:46-51 | two sender objects yield their two names in order |

## Left out

- Transports (`CurlRequest`, `SmscCurlRequest`, `GuzzleRequest`) and `getDriver()->execute`. These are network I/O, and cURL's function-static keep-alive handle is hidden process state. The raw reply is a parameter of `Send` and `SendMessage`.
- `json_decode`: a foreign library call. Its result is the second parameter beside the raw text. Decoded numbers are integers, so floats are not modelled; a balance amount passes through `results()` untouched anyway.
- `mergeOptions` is called by the base constructor with its `$options` argument (`AbstractSmscService.php:64`), but `final class Settings` does not declare it. The constructors therefore take no options.
- `parent::getParams`: `AbstractSmscService` declares no `getParams`. The parent parameters are the `parent` argument of `GetParams`.
- `addParams` is called by `getSenders` (`SmscSenders.php:28`), but none of the modelled classes declares it. `GetSenders` records each call's argument in the variant's state.
- `buildParams` is called by the transports, and none of the modelled classes declares it. It is left out with the transports.
- SmscServices.GetRequestDriver: the Guzzle-or-cURL choice through `class_exists` is environment wiring. It is the `installed` argument.
- SmscServices.Service.SetApiMethod: `SmscMessage.php` implements neither `setApiMethod` nor `results`, so PHP would refuse to instantiate it, and its `send` calls `setApiMethod('send')`. The model gives SmscMessage the tag `send`, the one its `send` passes. `Results` is not defined for it.
- SmscServices.Service.SendMessage: the default `new CurlRequest` for a missing driver is transport selection, left out with the transports.
- SmscResponse.TableMessage, SmscResponse.ErrorMessage, SmscResponse.Classify, SmscResponse.Response.constructor and SmscServices.Service.Send: each requires an `error_code` that `getErrorMessage` can handle for the method (`UsableCodeFor`). Under `send`, the one method the table has, an array or object code is excluded, because the `isset` at `Response.php:98` rejects it as an offset with a TypeError. Under any other method that `isset` never reaches the code; an object code is excluded there because the interpolation at `Response.php:101` cannot write a stdClass and PHP raises an engine error. Under any other method an array code is modelled: it is written "Array" (`SmscResponse.ArrayCodeForBalance`). The engine errors themselves are not modelled.
- SmscServices.Service.SendMessage: its method is always `send`, so it requires an absent or scalar `error_code`. An array or object there makes PHP raise an engine error, which is not modelled.
- SmscResponse.Response.constructor: the declared return types of `getErrorOriginCode(): int` and `getErrorOriginMessage(): string` coerce or reject the stored value on the way out. The model keeps the decoded value in the fields and does not model that coercion.
- SmscServices.Service.Results: for an object reply, `array_map` keeps the object's property names as keys. The model returns the mapped values in order without the keys.
- The getters (`getLogin`, `getPsw`, `getHost`, `getSender`, `getSettings`, `getData`, `getPhones`, `getMessage`, `getOptions`, and the Response accessors) are field reads in the model.
- SmscSettings.Settings.GetApiUrl: the exception `API URL cant be generated!` is unreachable, because `validApiMethod` never returns false. It is not modelled.
- `getConstants`' `ReflectionClass` lookup is the ordered constant table `SmscSettings.Constants`.
- PHP ints are 64-bit, while the model's `JInt` values are unbounded. A decimal string becomes an int key only within the 64-bit range (`PhpStrings.IsIntegerString`). SmscResponse.DecimalCodeSameMessage and PhpValues.DecimalStringKey are stated for 64-bit ints only. A number json_decode cannot fit in a 64-bit int decodes as a float, which is not modelled. No result of the core depends on the width: the table's codes are 1 to 9.
- `JObj` does not itself rule out a repeated property name. json_decode never returns one, because a later duplicate replaces the earlier value, so `Property` reading the first entry with a name reads that name's only entry. The model does not state this distinctness as a precondition.
