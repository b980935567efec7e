/** The HTTP layer: the two request handlers with their validation, the
    config merge, and the hand-over of a trade to the bot. Routing, JSON
    serialisation and reading or writing the config file are outside the
    model; the file's content and the outcome of writing it are inputs. */
module App {
  import opened Results
  import opened Json
  import opened BinanceHelper

  datatype Status = Success | Error

  /** A response body: a status with a message, or the bot's result as is. */
  datatype Body = Message(status: Status, message: string) | Trade(result: TradeResult)

  datatype Response = Response(code: int, body: Body)

  /** A caught exception: status 500 with its message. */
  function ServerError(message: string): Response {
    Response(500, Message(Error, message))
  }

  // ------------------------------------------------------------ /update-config

  const CredentialsRequired: string := "API key and secret are required"
  const ConfigUpdated: string := "Config updated successfully"

  const KeyPath: seq<string> := ["EXCHANGES", "BINANCE-FUTURES", "API_KEY"]
  const SecretPath: seq<string> := ["EXCHANGES", "BINANCE-FUTURES", "API_SECRET"]
  const TestnetPath: seq<string> := ["EXCHANGES", "BINANCE-FUTURES", "TESTNET"]

  /** The entry reached from v by following a path of dict keys, if any. */
  function At(v: Value, path: seq<string>): Option<Value>
    decreases |path|
  {
    if path == [] then Some(v)
    else match v
      case Obj(m) => if path[0] in m then At(m[path[0]], path[1..]) else None
      case _ => None
  }

  /** Neither path is a prefix of the other: they lead to unrelated entries. */
  predicate Unrelated(p: seq<string>, q: seq<string>) {
    !(p <= q) && !(q <= p)
  }

  /** An entry of the config that the merge must not touch. */
  predicate OtherEntry(p: seq<string>) {
    Unrelated(p, KeyPath) && Unrelated(p, SecretPath) && Unrelated(p, TestnetPath)
  }

  /** The config has the section the credentials go into. */
  predicate HasSection(config: Value) {
    && config.Obj? && "EXCHANGES" in config.fields
    && config.fields["EXCHANGES"].Obj? && "BINANCE-FUTURES" in config.fields["EXCHANGES"].fields
    && config.fields["EXCHANGES"].fields["BINANCE-FUTURES"].Obj?
  }

  /** The config with the three credential fields set, in the order the
      handler sets them; a missing or mistyped section raises. */
  function SetCredentials(config: Value, apiKey: Value, apiSecret: Value, testnet: Value): (r: Result<Value>)
    ensures r.Ok? <==> HasSection(config)
  {
    match Subscript(config, "EXCHANGES")
    case Err(m) => Err(m)
    case Ok(exchanges) =>
      match Subscript(exchanges, "BINANCE-FUTURES")
      case Err(m) => Err(m)
      case Ok(section) =>
        match SetItem(section, "API_KEY", apiKey)
        case Err(m) => Err(m)
        case Ok(s1) =>
          match SetItem(s1, "API_SECRET", apiSecret)
          case Err(m) => Err(m)
          case Ok(s2) =>
            match SetItem(s2, "TESTNET", testnet)
            case Err(m) => Err(m)
            case Ok(s3) =>
              Ok(Obj(config.fields["EXCHANGES" := Obj(exchanges.fields["BINANCE-FUTURES" := s3])]))
  }

  /** The merge stores the three values where the bot reads them. */
  lemma SetCredentialsStores(config: Value, apiKey: Value, apiSecret: Value, testnet: Value)
    requires HasSection(config)
    ensures var r := SetCredentials(config, apiKey, apiSecret, testnet).value;
            At(r, KeyPath) == Some(apiKey) && At(r, SecretPath) == Some(apiSecret) && At(r, TestnetPath) == Some(testnet)
  {
    var r := SetCredentials(config, apiKey, apiSecret, testnet).value;
    var section := r.fields["EXCHANGES"].fields["BINANCE-FUTURES"];
    assert At(r, KeyPath) == At(section, KeyPath[2..]);
    assert At(r, SecretPath) == At(section, SecretPath[2..]);
    assert At(r, TestnetPath) == At(section, TestnetPath[2..]);
  }

  /** Every other entry of the config, however deep, is left as it was. */
  lemma SetCredentialsKeepsOtherEntries(config: Value, apiKey: Value, apiSecret: Value, testnet: Value, p: seq<string>)
    requires HasSection(config) && OtherEntry(p)
    ensures At(SetCredentials(config, apiKey, apiSecret, testnet).value, p) == At(config, p)
  {
    var r := SetCredentials(config, apiKey, apiSecret, testnet).value;
    assert p != [] by { assert [] <= KeyPath; }
    var m, m' := config.fields, r.fields;
    if p[0] != "EXCHANGES" {
      assert At(r, p) == (if p[0] in m' then At(m'[p[0]], p[1..]) else None);
      assert At(config, p) == (if p[0] in m then At(m[p[0]], p[1..]) else None);
    } else {
      assert [p[0]] <= KeyPath;
      assert |p| >= 2;
      var e, e' := m["EXCHANGES"].fields, m'["EXCHANGES"].fields;
      assert At(r, p) == At(m'["EXCHANGES"], p[1..]);
      assert At(config, p) == At(m["EXCHANGES"], p[1..]);
      if p[1] != "BINANCE-FUTURES" {
        assert At(m'["EXCHANGES"], p[1..]) == (if p[1] in e' then At(e'[p[1]], p[2..]) else None);
        assert At(m["EXCHANGES"], p[1..]) == (if p[1] in e then At(e[p[1]], p[2..]) else None);
      } else {
        assert p[..2] <= KeyPath;
        assert |p| >= 3;
        assert p[2] == "API_KEY" ==> KeyPath <= p;
        assert p[2] == "API_SECRET" ==> SecretPath <= p;
        assert p[2] == "TESTNET" ==> TestnetPath <= p;
        var b, b' := e["BINANCE-FUTURES"], e'["BINANCE-FUTURES"];
        assert At(m'["EXCHANGES"], p[1..]) == At(b', p[2..]);
        assert At(m["EXCHANGES"], p[1..]) == At(b, p[2..]);
        assert At(b', p[2..]) == (if p[2] in b'.fields then At(b'.fields[p[2]], p[3..]) else None);
        assert At(b, p[2..]) == (if p[2] in b.fields then At(b.fields[p[2]], p[3..]) else None);
      }
    }
  }

  /** The credentials in a request carry them both, with Python truthiness. */
  predicate HasCredentials(body: map<string, Value>)
    ensures HasCredentials(body) <==>
              "apiKey" in body && Truthy(body["apiKey"]) && "apiSecret" in body && Truthy(body["apiSecret"])
  {
    Truthy(Get(body, "apiKey", Null)) && Truthy(Get(body, "apiSecret", Null))
  }

  /** The testnet flag of a request; False when the request leaves it out. */
  function TestnetOf(body: map<string, Value>): (t: Value)
    ensures "testnet" !in body ==> t == Bool(false)
    ensures "testnet" in body ==> t == body["testnet"]
  {
    Get(body, "testnet", Bool(false))
  }

  /** The response of /update-config and the config it hands to the file
      writer, if it gets that far. */
  datatype UpdateResult = UpdateResult(response: Response, written: Option<Value>)

  function UpdateConfig(body: map<string, Value>, configFile: Result<Value>, write: Outcome): (u: UpdateResult)
    ensures u.response.code == 400 <==> !HasCredentials(body)
    ensures !HasCredentials(body) ==> u == UpdateResult(Response(400, Message(Error, CredentialsRequired)), None)
    ensures u.response.code == 200 <==>
              HasCredentials(body) && configFile.Ok? && HasSection(configFile.value) && write.Pass?
    ensures u.response.code == 200 ==> u.response.body == Message(Success, ConfigUpdated)
    ensures u.response.code !in {200, 400} ==> u.response.code == 500 && u.response.body.Message?
    ensures HasCredentials(body) && configFile.Err? ==> u == UpdateResult(ServerError(configFile.message), None)
    ensures HasCredentials(body) && configFile.Ok? && !HasSection(configFile.value) ==>
              var merged := SetCredentials(configFile.value, body["apiKey"], body["apiSecret"], TestnetOf(body));
              merged.Err? && u == UpdateResult(ServerError(merged.message), None)
    ensures HasCredentials(body) && configFile.Ok? && HasSection(configFile.value) && write.Fail? ==>
              u.response == ServerError(write.message)
    ensures u.written.Some? ==>
              && HasCredentials(body) && configFile.Ok?
              && SetCredentials(configFile.value, body["apiKey"], body["apiSecret"], TestnetOf(body)) == Ok(u.written.value)
  {
    var apiKey := Get(body, "apiKey", Null);
    var apiSecret := Get(body, "apiSecret", Null);
    var testnet := TestnetOf(body);
    if !Truthy(apiKey) || !Truthy(apiSecret) then
      UpdateResult(Response(400, Message(Error, CredentialsRequired)), None)
    else
      match configFile
      case Err(m) => UpdateResult(ServerError(m), None)
      case Ok(config) =>
        match SetCredentials(config, apiKey, apiSecret, testnet)
        case Err(m) => UpdateResult(ServerError(m), None)
        case Ok(updated) =>
          match write
          case Fail(m) => UpdateResult(ServerError(m), Some(updated))
          case Pass => UpdateResult(Response(200, Message(Success, ConfigUpdated)), Some(updated))
  }

  /** The credential check comes before any file access: with bad credentials
      the response does not depend on the file or on the write. */
  lemma CredentialCheckFirst(body: map<string, Value>, file1: Result<Value>, write1: Outcome,
                             file2: Result<Value>, write2: Outcome)
    requires !HasCredentials(body)
    ensures UpdateConfig(body, file1, write1) == UpdateConfig(body, file2, write2)
  {
  }

  /** A successful update writes the request's key, secret and testnet flag
      (False if the request has none) and keeps every other entry. */
  lemma UpdateConfigWrites(body: map<string, Value>, config: Value, write: Outcome)
    requires HasCredentials(body) && HasSection(config)
    ensures var u := UpdateConfig(body, Ok(config), write);
            && u.written.Some?
            && At(u.written.value, KeyPath) == Some(body["apiKey"])
            && At(u.written.value, SecretPath) == Some(body["apiSecret"])
            && At(u.written.value, TestnetPath) == Some(if "testnet" in body then body["testnet"] else Bool(false))
            && forall p :: OtherEntry(p) ==> At(u.written.value, p) == At(config, p)
  {
    var u := UpdateConfig(body, Ok(config), write);
    SetCredentialsStores(config, body["apiKey"], body["apiSecret"], TestnetOf(body));
    forall p | OtherEntry(p)
      ensures At(u.written.value, p) == At(config, p)
    {
      SetCredentialsKeepsOtherEntries(config, body["apiKey"], body["apiSecret"], TestnetOf(body), p);
    }
  }

  // ------------------------------------------------------------ /execute-trade

  const RequiredParams: seq<string> :=
    ["symbol", "type", "side", "qty", "leverage", "order_mode", "take_profit_percent", "stop_loss_percent"]

  /** The required keys absent from the request, in the order of `required`. */
  function MissingParams(required: seq<string>, data: map<string, Value>): (missing: seq<string>)
    ensures forall p :: p in missing <==> p in required && p !in data
    ensures |missing| <= |required|
  {
    if required == [] then []
    else (if required[0] in data then [] else [required[0]]) + MissingParams(required[1..], data)
  }

  /** a keeps the order of b: it is b with some elements dropped (matched
      greedily from the front). */
  predicate IsSubsequence(a: seq<string>, b: seq<string>)
    decreases |b|
  {
    if b == [] then a == []
    else if a != [] && a[0] == b[0] then IsSubsequence(a[1..], b[1..])
    else IsSubsequence(a, b[1..])
  }

  /** The missing keys come in the order the required list gives them. */
  lemma {:induction false} MissingParamsInOrder(required: seq<string>, data: map<string, Value>)
    ensures IsSubsequence(MissingParams(required, data), required)
  {
    if required != [] {
      MissingParamsInOrder(required[1..], data);
      var rest := MissingParams(required[1..], data);
      if required[0] in data {
        assert MissingParams(required, data) == rest;
        assert rest != [] ==> rest[0] in rest && rest[0] != required[0];
      } else {
        assert MissingParams(required, data) == [required[0]] + rest;
        assert ([required[0]] + rest)[1..] == rest;
      }
    }
  }

  /** The total length of a list of strings. */
  function TotalLength(names: seq<string>): nat {
    if names == [] then 0 else |names[0]| + TotalLength(names[1..])
  }

  /** `sep.join(names)`: the names in order, one separator between each two. */
  function Join(names: seq<string>, sep: string): (r: string)
    ensures |r| == TotalLength(names) + (if names == [] then 0 else (|names| - 1) * |sep|)
    ensures names != [] ==> r[..|names[0]|] == names[0]
    ensures names != [] ==>
              var last := names[|names| - 1];
              |last| <= |r| && r[|r| - |last|..] == last
  {
    if names == [] then ""
    else if |names| == 1 then names[0]
    else
      var head, rest := names[0] + sep, Join(names[1..], sep);
      assert names[1..][|names| - 2] == names[|names| - 1];
      assert (head + rest)[|head|..] == rest;
      head + rest
  }

  /** The 400 message: a fixed prefix, then the missing names joined by ", ". */
  function MissingMessage(missing: seq<string>): (m: string)
    ensures |"Missing parameters: "| <= |m| && m[..|"Missing parameters: "|] == "Missing parameters: "
    ensures |missing| == 1 ==> m == "Missing parameters: " + missing[0]
  {
    "Missing parameters: " + Join(missing, ", ")
  }

  /** The three values the bot is built from. */
  datatype Credentials = Credentials(apiKey: Value, apiSecret: Value, testnet: Value)

  /** Read the credentials from the loaded config, each one through the full
      key path; the first lookup that fails raises. */
  function ReadCredentials(config: Value): (r: Result<Credentials>)
    ensures r.Ok? <==> At(config, KeyPath).Some? && At(config, SecretPath).Some? && At(config, TestnetPath).Some?
    ensures r.Ok? ==> r.value == Credentials(At(config, KeyPath).value, At(config, SecretPath).value,
                                             At(config, TestnetPath).value)
  {
    match Subscript(config, "EXCHANGES")
    case Err(m) => Err(m)
    case Ok(exchanges) =>
      match Subscript(exchanges, "BINANCE-FUTURES")
      case Err(m) => Err(m)
      case Ok(section) =>
        match Subscript(section, "API_KEY")
        case Err(m) => Err(m)
        case Ok(apiKey) =>
          match Subscript(section, "API_SECRET")
          case Err(m) => Err(m)
          case Ok(apiSecret) =>
            match Subscript(section, "TESTNET")
            case Err(m) => Err(m)
            case Ok(testnet) => Ok(Credentials(apiKey, apiSecret, testnet))
  }

  /** Credentials stored by a successful update are the ones read back. */
  lemma ReadBackStoredCredentials(config: Value, apiKey: Value, apiSecret: Value, testnet: Value)
    requires HasSection(config)
    ensures ReadCredentials(SetCredentials(config, apiKey, apiSecret, testnet).value)
         == Ok(Credentials(apiKey, apiSecret, testnet))
  {
  }

  /** Handle /execute-trade: validate the request, read the credentials, build
      a bot and run the trade. `init` is the outcome of building the exchange
      client. Besides the response, the calls the bot made on the exchange
      are returned. */
  method ExecuteTrade(body: map<string, Value>, configFile: Result<Value>, init: Outcome, s: Script)
    returns (resp: Response, calls: seq<Call>)
    requires ValidScript(s)
    ensures var missing := MissingParams(RequiredParams, body);
            missing != [] ==> resp == Response(400, Message(Error, MissingMessage(missing))) && calls == []
    ensures resp.code == 400 <==> MissingParams(RequiredParams, body) != []
    ensures MissingParams(RequiredParams, body) == [] && configFile.Err? ==>
              resp == ServerError(configFile.message) && calls == []
    ensures MissingParams(RequiredParams, body) == [] && configFile.Ok? && ReadCredentials(configFile.value).Err? ==>
              resp == ServerError(ReadCredentials(configFile.value).message) && calls == []
    ensures MissingParams(RequiredParams, body) == [] && configFile.Ok? && ReadCredentials(configFile.value).Ok? && init.Fail? ==>
              resp == ServerError("Failed to initialize Bot: " + init.message) && calls == []
    ensures MissingParams(RequiredParams, body) == [] && configFile.Ok? && ReadCredentials(configFile.value).Ok? && init.Pass? ==>
              resp == Response(200, Trade(RunTrade(body, s).result)) && calls == RunTrade(body, s).calls
  {
    var missing := MissingParams(RequiredParams, body);
    if missing != [] {
      return Response(400, Message(Error, MissingMessage(missing))), [];
    }
    if configFile.Err? {
      return ServerError(configFile.message), [];
    }
    var credentials := ReadCredentials(configFile.value);
    if credentials.Err? {
      return ServerError(credentials.message), [];
    }
    if init.Fail? {
      return ServerError("Failed to initialize Bot: " + init.message), [];
    }
    var bot := new Bot(credentials.value.apiKey, credentials.value.apiSecret, credentials.value.testnet);
    var result := bot.Run(body, s);
    resp := Response(200, Trade(result));
    calls := bot.exchange.calls;
  }

  /** A request holding every required key reaches the bot with all the keys
      the bot reads, so no KeyError ends the run. */
  lemma ValidRequestHasKeys(body: map<string, Value>)
    requires MissingParams(RequiredParams, body) == []
    ensures forall k :: k in RequiredParams ==> k in body
    ensures "leverage" in body && "symbol" in body && "side" in body && "order_mode" in body && "qty" in body
  {
  }
}
