/** The mobile client's HTTP layer (phishguard/src/api.ts): a one-key secure store holding
    the bearer token, the axios instance's default `Authorization` header, and the helpers
    that send requests through it. Server responses are parameters; the requests sent are
    recorded in a ghost log. */
module Api {
  import opened Wrappers
  import Text

  const TokenKey: string := "phishguard_token"
  const BearerPrefix: string := "Bearer "
  const PurchasePrefix: string := "/purchase/"
  const ProviderModulesPrefix: string := "/provider/modules/"
  const ScenariosSuffix: string := "/scenarios"

  /** A JSON value as axios sends and parses it (numbers restricted to integers). */
  datatype Json =
    | JNull
    | JBool(b: bool)
    | JNum(n: int)
    | JStr(s: string)
    | JArr(items: seq<Json>)
    | JObj(fields: seq<(string, Json)>)

  datatype Role = Customer | Provider {
    function Name(): string {
      match this
      case Customer => "CUSTOMER"
      case Provider => "PROVIDER"
    }
  }

  datatype Channel = Email | Sms | Web {
    function Name(): string {
      match this
      case Email => "EMAIL"
      case Sms => "SMS"
      case Web => "WEB"
    }
  }

  /** `correct_choice: 0|1`. */
  type Choice = c: int | 0 <= c <= 1

  datatype Verb = Get | Post

  /** One request as it leaves the client: method, path, the `Authorization` header it
      carried (absent or a value) and its JSON body, if any. */
  datatype Request = Request(verb: Verb, path: string, authorization: Option<string>, body: Option<Json>)

  /** Why an awaited call threw: a non-2xx status, a transport failure (timeout,
      unreachable host), or the secure store refusing a value that is not a string. */
  datatype Failure = HttpStatus(code: int) | Network | StoreRejected

  /** What an awaited call delivered: the response's `data`, or the error it threw. */
  datatype Response = Ok(data: Json) | Thrown(failure: Failure)

  /** JavaScript truthiness of a JSON value. */
  predicate Truthy(j: Json) {
    match j
    case JNull => false
    case JBool(b) => b
    case JNum(n) => n != 0
    case JStr(s) => s != ""
    case JArr(_) => true
    case JObj(_) => true
  }

  /** The value stored under `key` in an object's fields; a key given twice keeps its
      last value, as `JSON.parse` does (LastFieldIsLast). */
  function LastField(fields: seq<(string, Json)>, key: string): (v: Option<Json>)
    ensures v.None? <==> forall i :: 0 <= i < |fields| ==> fields[i].0 != key
    ensures v.Some? ==> (key, v.value) in fields
  {
    if fields == [] then None
    else if fields[|fields| - 1].0 == key then Some(fields[|fields| - 1].1)
    else
      var v := LastField(fields[..|fields| - 1], key);
      assert v.Some? ==> (key, v.value) in fields[..|fields| - 1];
      v
  }

  /** The value found is that of the last field with the key. */
  lemma {:induction false} LastFieldIsLast(fields: seq<(string, Json)>, key: string)
    ensures LastField(fields, key).Some? ==>
              exists i :: 0 <= i < |fields| && fields[i] == (key, LastField(fields, key).value)
                          && forall j :: i < j < |fields| ==> fields[j].0 != key
  {
    if fields != [] && fields[|fields| - 1].0 != key {
      var init := fields[..|fields| - 1];
      LastFieldIsLast(init, key);
      if LastField(init, key).Some? {
        var i :| 0 <= i < |init| && init[i] == (key, LastField(init, key).value)
                 && forall j :: i < j < |init| ==> init[j].0 != key;
        assert fields[i] == init[i];
        forall j | i < j < |fields| ensures fields[j].0 != key {
          if j < |init| { assert fields[j] == init[j]; }
        }
      }
    } else if fields != [] {
      assert fields[|fields| - 1] == (key, LastField(fields, key).value);
    }
  }

  /** `data?.[key]`: a member of an object, absent for anything else. */
  function Member(data: Json, key: string): (v: Option<Json>)
    ensures !data.JObj? ==> v.None?
    ensures data.JObj? ==> (v.None? <==> forall i :: 0 <= i < |data.fields| ==> data.fields[i].0 != key)
    ensures v.Some? ==> (key, v.value) in data.fields
  {
    match data
    case JObj(fields) => LastField(fields, key)
    case _ => None
  }

  /** The header derived from a stored token: `Bearer <t>` for a truthy `t`, otherwise
      none, so an empty stored string counts as no token. */
  function BearerHeader(token: Option<string>): (h: Option<string>)
    ensures h.Some? <==> token.Some? && token.value != ""
    ensures h.Some? ==> Text.HasPrefix(h.value, BearerPrefix) && BearerCredential(h.value) == token.value
  {
    if token.Some? && token.value != "" then Some(BearerPrefix + token.value) else None
  }

  /** The credential a `Bearer` header carries. */
  function BearerCredential(header: string): string
    requires Text.HasPrefix(header, BearerPrefix)
  {
    header[|BearerPrefix|..]
  }

  /** `/purchase/${moduleId}`. */
  function PurchasePath(moduleId: int): (p: string)
    ensures ParsePurchasePath(p) == Some(moduleId)
  {
    var p := PurchasePrefix + Text.IntString(moduleId);
    assert p[|PurchasePrefix|..] == Text.IntString(moduleId);
    Text.IntRoundTrip(moduleId);
    p
  }

  /** The module id read back from a purchase path. */
  function ParsePurchasePath(p: string): Option<int> {
    if Text.HasPrefix(p, PurchasePrefix) then Text.ParseInt(p[|PurchasePrefix|..]) else None
  }

  /** `/provider/modules/${moduleId}/scenarios`. */
  function ScenariosPath(moduleId: int): (p: string)
    ensures ParseScenariosPath(p) == Some(moduleId)
  {
    var digits := Text.IntString(moduleId);
    var p := ProviderModulesPrefix + digits + ScenariosSuffix;
    assert p[..|ProviderModulesPrefix|] == ProviderModulesPrefix;
    assert p[|p| - |ScenariosSuffix|..] == ScenariosSuffix;
    assert p[|ProviderModulesPrefix|..|p| - |ScenariosSuffix|] == digits;
    Text.IntRoundTrip(moduleId);
    p
  }

  /** The module id read back from a scenarios path. */
  function ParseScenariosPath(p: string): Option<int> {
    if |ProviderModulesPrefix| + |ScenariosSuffix| <= |p|
       && Text.HasPrefix(p, ProviderModulesPrefix) && Text.HasSuffix(p, ScenariosSuffix)
    then Text.ParseInt(p[|ProviderModulesPrefix|..|p| - |ScenariosSuffix|])
    else None
  }

  /** Distinct modules are purchased and extended through distinct paths. */
  lemma ModulePathsInjective(a: int, b: int)
    ensures PurchasePath(a) == PurchasePath(b) ==> a == b
    ensures ScenariosPath(a) == ScenariosPath(b) ==> a == b
  {
  }

  /** The request bodies, with the keys the helpers write. */
  function CredentialsBody(email: string, password: string): Json {
    JObj([("email", JStr(email)), ("password", JStr(password))])
  }

  function RegisterBody(email: string, password: string, role: Role): Json {
    JObj([("email", JStr(email)), ("password", JStr(password)), ("role", JStr(role.Name()))])
  }

  function AmountBody(amount: int): Json {
    JObj([("amount", JNum(amount))])
  }

  function ModuleBody(title: string, description: string, price: int): Json {
    JObj([("title", JStr(title)), ("description", JStr(description)), ("price", JNum(price))])
  }

  function ScenarioBody(channel: Channel, prompt: string, correctChoice: Choice): (body: Json)
    ensures Member(body, "channel") == Some(JStr(channel.Name()))
    ensures Member(body, "prompt") == Some(JStr(prompt))
    ensures Member(body, "correct_choice") == Some(JNum(correctChoice))
  {
    var fields := [("channel", JStr(channel.Name())), ("prompt", JStr(prompt)), ("correct_choice", JNum(correctChoice))];
    assert "correct_choice"[0] != "prompt"[0] && |"correct_choice"| != |"channel"| && "prompt"[0] != "channel"[0];
    assert fields[..2][..1] == [fields[0]];
    assert LastField(fields, "prompt") == LastField(fields[..2], "prompt");
    assert LastField(fields, "channel") == LastField(fields[..2], "channel") == LastField([fields[0]], "channel");
    JObj(fields)
  }

  function QuestionBody(question: string): Json {
    JObj([("question", JStr(question))])
  }

  /** The truthy `token` of a login response, if it has one. */
  function LoginToken(response: Response): (t: Option<Json>)
    ensures t.Some? ==> Truthy(t.value) && response.Ok? && Member(response.data, "token") == t
    ensures t.None? ==> response.Thrown? || Member(response.data, "token").None?
                        || !Truthy(Member(response.data, "token").value)
  {
    match response
    case Ok(data) =>
      (match Member(data, "token")
       case Some(v) => if Truthy(v) then Some(v) else None
       case None => None)
    case Thrown(_) => None
  }

  class Client {
    /** The device's secure store, a key-value map. */
    var store: map<string, string>
    /** `api.defaults.headers.common["Authorization"]`. */
    var authorization: Option<string>
    /** Every request sent so far, in order. */
    ghost var sent: seq<Request>

    /** A fresh module instance over whatever the store already holds: no default header. */
    constructor (initialStore: map<string, string>)
      ensures store == initialStore && authorization == None && sent == []
    {
      store := initialStore;
      authorization := None;
      sent := [];
    }

    /** `loadToken()`: what the store holds under the token key, or null. */
    function LoadToken(): (t: Option<string>)
      reads this
      ensures t.Some? <==> TokenKey in store
      ensures t.Some? ==> t.value == store[TokenKey]
    {
      if TokenKey in store then Some(store[TokenKey]) else None
    }

    /** `saveToken(t)`: only the token key changes, and `loadToken` then yields `t`. */
    method SaveToken(t: string)
      modifies this`store
      ensures store == old(store)[TokenKey := t]
      ensures LoadToken() == Some(t)
    {
      store := store[TokenKey := t];
    }

    /** `removeToken()`: only the token key goes, and `loadToken` then yields null. */
    method RemoveToken()
      modifies this`store
      ensures store == old(store) - {TokenKey}
      ensures LoadToken() == None
    {
      store := store - {TokenKey};
    }

    /** `setAuthHeaderFromStorage()`: the header is re-derived from the stored token. */
    method SetAuthHeaderFromStorage()
      modifies this`authorization
      ensures authorization == BearerHeader(LoadToken())
    {
      var t := LoadToken();
      if t.Some? && t.value != "" {
        authorization := Some(BearerPrefix + t.value);
      } else {
        authorization := None;
      }
    }

    /** One axios call: the request goes out with whatever header is set at that moment,
        and its outcome is handed back unmodified. */
    method Send(verb: Verb, path: string, body: Option<Json>, response: Response) returns (r: Response)
      modifies this`sent
      ensures sent == old(sent) + [Request(verb, path, authorization, body)]
      ensures r == response
    {
      sent := sent + [Request(verb, path, authorization, body)];
      r := response;
    }

    /** The pattern of the authenticated helpers: refresh the header from the store, then
        send, so the header sent is the one the stored token gives at that moment. */
    method SendWithStoredToken(verb: Verb, path: string, body: Option<Json>, response: Response)
      returns (r: Response)
      modifies this`authorization, this`sent
      ensures authorization == BearerHeader(LoadToken())
      ensures sent == old(sent) + [Request(verb, path, BearerHeader(LoadToken()), body)]
      ensures r == response
    {
      SetAuthHeaderFromStorage();
      r := Send(verb, path, body, response);
    }

    /** `register(email, password, role)`: sent with the current header, no refresh. */
    method Register(email: string, password: string, role: Role, response: Response) returns (r: Response)
      modifies this`sent
      ensures sent == old(sent) + [Request(Post, "/auth/register", authorization, Some(RegisterBody(email, password, role)))]
      ensures r == response
    {
      r := Send(Post, "/auth/register", Some(RegisterBody(email, password, role)), response);
    }

    /** `login(email, password)`: a truthy string token is stored and becomes the header;
        a truthy token of another type is refused by the store, which throws before the
        header is touched; otherwise store and header stay as they were. The response
        data is handed back unmodified. */
    method Login(email: string, password: string, response: Response) returns (r: Response)
      modifies this`store, this`authorization, this`sent
      ensures sent == old(sent) + [Request(Post, "/auth/login", old(authorization), Some(CredentialsBody(email, password)))]
      ensures match LoginToken(response)
              case Some(JStr(t)) =>
                && store == old(store)[TokenKey := t] && LoadToken() == Some(t)
                && authorization == Some(BearerPrefix + t) && authorization == BearerHeader(LoadToken())
                && r == response
              case Some(_) =>
                store == old(store) && authorization == old(authorization) && r == Thrown(StoreRejected)
              case None =>
                store == old(store) && authorization == old(authorization) && r == response
    {
      r := Send(Post, "/auth/login", Some(CredentialsBody(email, password)), response);
      var token := LoginToken(response);
      if token.Some? {
        if !token.value.JStr? {
          r := Thrown(StoreRejected);
          return;
        }
        SaveToken(token.value.s);
        authorization := Some(BearerPrefix + token.value.s);
      }
    }

    /** `logout()`: whatever the state before, no token is stored and no header is set,
        so a second logout changes nothing. */
    method Logout()
      modifies this`store, this`authorization
      ensures store == old(store) - {TokenKey}
      ensures LoadToken() == None && authorization == None
    {
      RemoveToken();
      authorization := None;
    }

    /** `listModules()`: `GET /modules` with the current header. */
    method ListModules(response: Response) returns (r: Response)
      modifies this`sent
      ensures sent == old(sent) + [Request(Get, "/modules", authorization, None)]
      ensures r == response
    {
      r := Send(Get, "/modules", None, response);
    }

    /** `topup(amount)`: `POST /wallet/topup` with the current header. */
    method Topup(amount: int, response: Response) returns (r: Response)
      modifies this`sent
      ensures sent == old(sent) + [Request(Post, "/wallet/topup", authorization, Some(AmountBody(amount)))]
      ensures r == response
    {
      r := Send(Post, "/wallet/topup", Some(AmountBody(amount)), response);
    }

    /** `listCatalog()`: `GET /catalog/modules` with the current header. */
    method ListCatalog(response: Response) returns (r: Response)
      modifies this`sent
      ensures sent == old(sent) + [Request(Get, "/catalog/modules", authorization, None)]
      ensures r == response
    {
      r := Send(Get, "/catalog/modules", None, response);
    }

    /** `walletBalance()`. */
    method WalletBalance(response: Response) returns (r: Response)
      modifies this`authorization, this`sent
      ensures authorization == BearerHeader(LoadToken())
      ensures sent == old(sent) + [Request(Get, "/wallet/balance", BearerHeader(LoadToken()), None)]
      ensures r == response
    {
      r := SendWithStoredToken(Get, "/wallet/balance", None, response);
    }

    /** `walletTopup(amount)`. */
    method WalletTopup(amount: int, response: Response) returns (r: Response)
      modifies this`authorization, this`sent
      ensures authorization == BearerHeader(LoadToken())
      ensures sent == old(sent) + [Request(Post, "/wallet/topup", BearerHeader(LoadToken()), Some(AmountBody(amount)))]
      ensures r == response
    {
      r := SendWithStoredToken(Post, "/wallet/topup", Some(AmountBody(amount)), response);
    }

    /** `purchase(moduleId)`: a body-less `POST /purchase/{moduleId}`. */
    method Purchase(moduleId: int, response: Response) returns (r: Response)
      modifies this`authorization, this`sent
      ensures authorization == BearerHeader(LoadToken())
      ensures sent == old(sent) + [Request(Post, PurchasePath(moduleId), BearerHeader(LoadToken()), None)]
      ensures r == response
    {
      r := SendWithStoredToken(Post, PurchasePath(moduleId), None, response);
    }

    /** `providerListModules()`. */
    method ProviderListModules(response: Response) returns (r: Response)
      modifies this`authorization, this`sent
      ensures authorization == BearerHeader(LoadToken())
      ensures sent == old(sent) + [Request(Get, "/provider/modules", BearerHeader(LoadToken()), None)]
      ensures r == response
    {
      r := SendWithStoredToken(Get, "/provider/modules", None, response);
    }

    /** `providerCreateModule(title, description, price)`. */
    method ProviderCreateModule(title: string, description: string, price: int, response: Response)
      returns (r: Response)
      modifies this`authorization, this`sent
      ensures authorization == BearerHeader(LoadToken())
      ensures sent == old(sent) + [Request(Post, "/provider/modules", BearerHeader(LoadToken()),
                                           Some(ModuleBody(title, description, price)))]
      ensures r == response
    {
      r := SendWithStoredToken(Post, "/provider/modules", Some(ModuleBody(title, description, price)), response);
    }

    /** `providerCreateScenario(moduleId, channel, prompt, correct_choice)`. */
    method ProviderCreateScenario(moduleId: int, channel: Channel, prompt: string, correctChoice: Choice,
                                  response: Response) returns (r: Response)
      modifies this`authorization, this`sent
      ensures authorization == BearerHeader(LoadToken())
      ensures sent == old(sent) + [Request(Post, ScenariosPath(moduleId), BearerHeader(LoadToken()),
                                           Some(ScenarioBody(channel, prompt, correctChoice)))]
      ensures r == response
    {
      r := SendWithStoredToken(Post, ScenariosPath(moduleId), Some(ScenarioBody(channel, prompt, correctChoice)), response);
    }

    /** `askAI(question)`. */
    method AskAI(question: string, response: Response) returns (r: Response)
      modifies this`authorization, this`sent
      ensures authorization == BearerHeader(LoadToken())
      ensures sent == old(sent) + [Request(Post, "/ai/ask", BearerHeader(LoadToken()), Some(QuestionBody(question)))]
      ensures r == response
    {
      r := SendWithStoredToken(Post, "/ai/ask", Some(QuestionBody(question)), response);
    }
  }
}
