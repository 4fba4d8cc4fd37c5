/**
 * The BeaconPush client: its configuration, the resource paths it builds,
 * the request bodies it shapes, what it keeps of a response, how each of
 * its six operations turns a response into a result or a fixed sentinel,
 * and the pre-image of the user key.
 *
 * The network, the JSON codec and MD5 are not modelled; they are the
 * parameters `Io.send`, `Io.dumps`, `Io.loads` and `md5`.
 */
module BeaconPush {
  import opened Wrappers
  import opened Json
  import opened Strings
  import opened Hex

  // The class attributes of BeaconPush
  const ApiHost: string := "beaconpush.com"
  const ApiVersion: string := "1.0.0"
  const DefaultUserKeySalt: string := "4364Bsddf43dflkmsdflm43tdf"

  const SecretKeyHeader: string := "X-Beacon-Secret-Key"
  const HttpOk: int := 200         // httplib.OK
  const HttpNoContent: int := 204  // httplib.NO_CONTENT

  /** The three attributes `__init__` sets; nothing changes them afterwards. */
  datatype Config = Config(apiKey: string, secretKey: string, host: string)

  /** A value the source turns into text with `str()`: a string or an integer. */
  datatype Arg = Text(s: string) | Int(i: int)

  function Str(a: Arg): (r: string)
    ensures a.Text? ==> r == a.s
    ensures a.Int? ==> IsIntText(r) && ParseInt(r) == a.i
  {
    IntRoundTripFor(a);
    match a
    case Text(s) => s
    case Int(i) => IntToDecimal(i)
  }

  lemma IntRoundTripFor(a: Arg)
    ensures a.Int? ==> IsIntText(IntToDecimal(a.i)) && ParseInt(IntToDecimal(a.i)) == a.i
  {
    if a.Int? {
      IntRoundTrip(a.i);
    }
  }

  function Strs(args: seq<Arg>): (r: seq<string>)
    ensures |r| == |args|
    ensures forall i :: 0 <= i < |args| ==> r[i] == Str(args[i])
  {
    seq(|args|, i requires 0 <= i < |args| => Str(args[i]))
  }

  /** `not s` for an optional string argument. */
  predicate Falsy(s: Option<string>) {
    s == None || !Truthy(JStr(s.value))
  }

  // ---------------------------------------------------------------------
  // Construction

  /** `BeaconPush(api_key, secret_key, host=None)`. */
  function Init(apiKey: string, secretKey: string, host: Option<string>): (c: Config)
    ensures c.apiKey == apiKey && c.secretKey == secretKey
    ensures Falsy(host) ==> c.host == ApiHost
    ensures !Falsy(host) ==> c.host == host.value
    ensures c.host != ""
  {
    Config(apiKey, secretKey, if Falsy(host) then ApiHost else host.value)
  }

  // ---------------------------------------------------------------------
  // Resource paths

  /** The `api_url` template `/api/%(version)s/%(api_key)s/%(command)s`, filled in. */
  function ApiPath(c: Config, command: string): (r: string)
    ensures "/api/" + ApiVersion + "/" <= r
    ensures |r| == |"/api/1.0.0/"| + |c.apiKey| + 1 + |command|
    ensures r[|"/api/1.0.0/"|..|"/api/1.0.0/"| + |c.apiKey|] == c.apiKey
    ensures r[|"/api/1.0.0/"| + |c.apiKey|] == '/'
    ensures r[|r| - |command|..] == command
  {
    "/api/" + ApiVersion + "/" + c.apiKey + "/" + command
  }

  /** `_get_url(command, *args)`. */
  function GetUrl(c: Config, command: string, args: seq<Arg>): (url: string)
    ensures ApiPath(c, command) <= url
    ensures args == [] <==> url == ApiPath(c, command)
  {
    var url := ApiPath(c, command);
    if args == [] then url else url + "/" + Join('/', Strs(args))
  }

  /** The whole path is the slash-join of its segments, the first of them empty. */
  lemma GetUrlIsJoin(c: Config, command: string, args: seq<Arg>)
    ensures GetUrl(c, command, args)
         == Join('/', ["", "api", ApiVersion, c.apiKey, command] + Strs(args))
  {
    var head := ["", "api", ApiVersion, c.apiKey, command];
    assert Join('/', head) == ApiPath(c, command) by {
      JoinCons('/', "", ["api", ApiVersion, c.apiKey, command]);
      JoinCons('/', "api", [ApiVersion, c.apiKey, command]);
      JoinCons('/', ApiVersion, [c.apiKey, command]);
      JoinCons('/', c.apiKey, [command]);
    }
    if args == [] {
      assert head + Strs(args) == head;
    } else {
      JoinAppend('/', head, Strs(args));
    }
  }

  /** A segment that `str()` of an argument can give without breaking the path apart. */
  predicate SlashFree(s: string) {
    '/' !in s
  }

  /**
   * When the key, the command and every argument's text are free of '/',
   * splitting the path on '/' recovers every segment in order: five fixed
   * ones, then one per argument.
   */
  lemma GetUrlSegments(c: Config, command: string, args: seq<Arg>)
    requires SlashFree(c.apiKey) && SlashFree(command)
    requires forall i :: 0 <= i < |args| ==> SlashFree(Str(args[i]))
    ensures Split(GetUrl(c, command, args), '/')
         == ["", "api", ApiVersion, c.apiKey, command] + Strs(args)
    ensures |Split(GetUrl(c, command, args), '/')| == 5 + |args|
  {
    var parts := ["", "api", ApiVersion, c.apiKey, command] + Strs(args);
    GetUrlIsJoin(c, command, args);
    assert forall i :: 0 <= i < |parts| ==> '/' !in parts[i] by {
      assert "/" !in [ApiVersion];
      forall i | 0 <= i < |parts| ensures '/' !in parts[i] {
        if i >= 5 {
          assert parts[i] == Str(args[i - 5]);
        }
      }
    }
    SplitJoin(parts, '/');
  }

  /** When every argument's text is free of '/', different arguments give different paths. */
  lemma GetUrlInjective(c: Config, command: string, a: seq<Arg>, b: seq<Arg>)
    requires forall i :: 0 <= i < |a| ==> SlashFree(Str(a[i]))
    requires forall i :: 0 <= i < |b| ==> SlashFree(Str(b[i]))
    requires GetUrl(c, command, a) == GetUrl(c, command, b)
    ensures Strs(a) == Strs(b)
  {
    var base := ApiPath(c, command) + "/";
    if a != [] && b != [] {
      var ja, jb := Join('/', Strs(a)), Join('/', Strs(b));
      assert GetUrl(c, command, a) == base + ja;
      assert GetUrl(c, command, b) == base + jb;
      assert ja == (base + ja)[|base|..];
      assert jb == (base + jb)[|base|..];
      SplitJoin(Strs(a), '/');
      SplitJoin(Strs(b), '/');
    }
  }

  /** Arguments are not escaped: one argument holding '/' reads as two. */
  lemma SlashInArgumentIsAmbiguous(c: Config, command: string)
    ensures GetUrl(c, command, [Text("a/b")]) == GetUrl(c, command, [Text("a"), Text("b")])
  {
    assert Strs([Text("a/b")]) == ["a/b"];
    assert Strs([Text("a"), Text("b")]) == ["a", "b"];
    JoinCons('/', "a", ["b"]);
  }

  // ---------------------------------------------------------------------
  // Request bodies

  /** The wrapping step of `_dump_data`: a scalar becomes a one-element list. */
  function Wrap(data: JsonValue): (r: JsonValue)
    ensures !IsScalar(r)
    ensures IsScalar(data) ==> Truthy(r)
  {
    if IsScalar(data) then JArr([data]) else data
  }

  /** A Python 2 `long`, such as 5L or 2**63, is not wrapped: it is dumped as a bare number. */
  lemma LongIsNotWrapped(l: int)
    ensures Wrap(JLong(l)) == JLong(l)
    ensures Wrap(JInt(PyMaxInt)) == JArr([JInt(PyMaxInt)])
    ensures Wrap(JInt(PyMaxInt + 1)) == JInt(PyMaxInt + 1)
    ensures Wrap(JInt(-PyMaxInt - 2)) == JInt(-PyMaxInt - 2)
  {
  }

  /** `_dump_data(data)`: `json.dumps` (here `dumps`) of the wrapped value. */
  function DumpData(dumps: JsonValue -> string, data: JsonValue): (text: string)
    ensures IsScalar(data) ==> text == dumps(JArr([data]))
    ensures !IsScalar(data) ==> text == dumps(data)
  {
    dumps(Wrap(data))
  }

  /**
   * A scalar is encoded exactly as the one-element list holding it, anything
   * else is encoded as it is, and wrapping a list changes nothing.
   */
  lemma DumpDataShapes(dumps: JsonValue -> string, data: JsonValue, items: seq<JsonValue>)
    ensures IsScalar(data) ==>
              DumpData(dumps, data) == dumps(JArr([data])) && DumpData(dumps, data) == DumpData(dumps, JArr([data]))
    ensures !IsScalar(data) ==> DumpData(dumps, data) == dumps(data)
    ensures Wrap(JArr(items)) == JArr(items)
    ensures Wrap(Wrap(data)) == Wrap(data)
  {
  }

  /** What `_request` hands to `connection.request` as the body. */
  datatype Outgoing =
    | NoBody                      // the payload was None
    | Encoded(text: string)       // a truthy payload, through _dump_data
    | PassedRaw(value: JsonValue) // a falsy payload other than None, passed on untouched

  function Body(dumps: JsonValue -> string, payload: JsonValue): (b: Outgoing)
    ensures b.Encoded? <==> Truthy(payload)
    ensures b.Encoded? ==> b.text == DumpData(dumps, payload)
    ensures b.NoBody? <==> payload == JNull
    ensures b.PassedRaw? ==> b.value == payload
  {
    if Truthy(payload) then Encoded(DumpData(dumps, payload))
    else if payload == JNull then NoBody
    else PassedRaw(payload)
  }

  // ---------------------------------------------------------------------
  // The exchange

  datatype HttpRequest = HttpRequest(
    host: string,
    verb: string,
    path: string,
    headers: map<string, string>,
    body: Outgoing)

  /** What the transport gives back for one request. */
  datatype Exchange =
    | HttpFailure                       // an httplib.HTTPException was raised
    | SocketFailure                     // a socket error, which the except clause does not catch
    | Received(status: int, raw: string) // the status and the text `resp.read()` returned

  /** The foreign collaborators: the network round trip and the JSON codec. */
  datatype Io = Io(
    send: HttpRequest -> Exchange,
    dumps: JsonValue -> string,
    loads: string -> Option<JsonValue>)  // None: json.loads raised ValueError

  /** The exceptions the client can raise. */
  datatype Error =
    | BeaconPushError     // BeaconPushException
    | SocketError         // the socket error, propagated
    | JsonDecodeError     // ValueError from json.loads
    | NoGetMethod         // AttributeError: the 200 data is not a dict, so it has no get()
    | NameError(name: string)  // only in the as-written members
    | UnpackError         // only in the as-written members: too many values to unpack

  /** The second half of what `_request` returns. */
  datatype ReplyData =
    | NoData              // None: the status was not 200
    | EmptyText           // "": a 200 response with an empty body, kept as read
    | Decoded(value: JsonValue)

  datatype Reply = Reply(status: int, data: ReplyData)

  /** The request `_request(method, url, data)` sends. */
  function BuildRequest(c: Config, dumps: JsonValue -> string, verb: string, url: string, payload: JsonValue): (r: HttpRequest)
    ensures r.host == c.host && r.verb == verb && r.path == url
    ensures r.headers.Keys == {SecretKeyHeader} && r.headers[SecretKeyHeader] == c.secretKey
    ensures r.body == Body(dumps, payload)
    ensures r.body.Encoded? <==> Truthy(payload)
  {
    HttpRequest(c.host, verb, url, map[SecretKeyHeader := c.secretKey], Body(dumps, payload))
  }

  /** A 200 response whose non-empty body `json.loads` rejects. */
  predicate Undecodable(ex: Exchange, loads: string -> Option<JsonValue>) {
    ex.Received? && ex.status == HttpOk && ex.raw != "" && loads(ex.raw).None?
  }

  /** What `_request` makes of the exchange. */
  function ReadReply(ex: Exchange, loads: string -> Option<JsonValue>): (r: Result<Reply, Error>)
    ensures ex.HttpFailure? <==> r == Failure(BeaconPushError)
    ensures ex.SocketFailure? <==> r == Failure(SocketError)
    ensures Undecodable(ex, loads) <==> r == Failure(JsonDecodeError)
    ensures r.Success? <==> ex.Received? && !Undecodable(ex, loads)
    ensures r.Success? ==> r.value.status == ex.status
    ensures r.Success? ==> (r.value.data.NoData? <==> ex.status != HttpOk)
    ensures r.Success? && r.value.data.EmptyText? ==> ex.raw == ""
    ensures r.Success? && r.value.data.Decoded? ==>
              ex.raw != "" && loads(ex.raw) == Some(r.value.data.value)
  {
    match ex
    case HttpFailure => Failure(BeaconPushError)
    case SocketFailure => Failure(SocketError)
    case Received(status, raw) =>
      if status != HttpOk then Success(Reply(status, NoData))
      else if raw == "" then Success(Reply(status, EmptyText))
      else
        match loads(raw)
        case None => Failure(JsonDecodeError)
        case Some(v) => Success(Reply(status, Decoded(v)))
  }

  /** The transport's response to the request `_request(method, url, data)` sends. */
  function Sent(c: Config, io: Io, verb: string, path: string, payload: JsonValue): Exchange {
    io.send(BuildRequest(c, io.dumps, verb, path, payload))
  }

  /** `_request(method, url, data)`. */
  function Request(c: Config, io: Io, verb: string, url: string, payload: JsonValue): (r: Result<Reply, Error>)
    ensures var ex := Sent(c, io, verb, url, payload);
      && (ex.HttpFailure? <==> r == Failure(BeaconPushError))
      && (ex.SocketFailure? <==> r == Failure(SocketError))
      && (Undecodable(ex, io.loads) <==> r == Failure(JsonDecodeError))
      && (r.Success? ==> r.value.status == ex.status)
      && (r.Success? ==> (r.value.data.NoData? <==> ex.status != HttpOk))
  {
    ReadReply(Sent(c, io, verb, url, payload), io.loads)
  }

  /** `data.get(key)` on what `_request` returned with status 200. */
  function GetField(data: ReplyData, key: string): (r: Result<JsonValue, Error>)
    ensures r.Success? <==> data.Decoded? && data.value.JObj?
    ensures r.Success? ==> r.value == Lookup(data.value.fields, key)
    ensures r.Failure? ==> r.error == NoGetMethod
  {
    match data
    case Decoded(JObj(fields)) => Success(Lookup(fields, key))
    case _ => Failure(NoGetMethod)
  }

  // ---------------------------------------------------------------------
  // Specification of the six operations, in terms of the exchange

  /** Transport failures are raised, never turned into a sentinel. */
  ghost predicate TransportErrorsRaised<T>(ex: Exchange, r: Result<T, Error>) {
    && (ex.HttpFailure? ==> r == Failure(BeaconPushError))
    && (ex.SocketFailure? ==> r == Failure(SocketError))
  }

  /** The field `key` of a 200 body: present or None, or the exception on the way. */
  ghost function FieldOfBody(raw: string, loads: string -> Option<JsonValue>, key: string): Result<JsonValue, Error> {
    if raw == "" then Failure(NoGetMethod)
    else if loads(raw).None? then Failure(JsonDecodeError)
    else if !loads(raw).value.JObj? then Failure(NoGetMethod)
    else if key in loads(raw).value.fields then Success(loads(raw).value.fields[key])
    else Success(JNull)
  }

  // ---------------------------------------------------------------------
  // The six operations

  /** `get_number_of_users()`: GET /users; the `online` field, or -1. */
  function GetNumberOfUsers(c: Config, io: Io): (r: Result<JsonValue, Error>)
    ensures var ex := Sent(c, io, "GET", ApiPath(c, "users"), JNull);
      && TransportErrorsRaised(ex, r)
      && (ex.Received? && ex.status != HttpOk ==> r == Success(JInt(-1)))
      && (ex.Received? && ex.status == HttpOk ==> r == FieldOfBody(ex.raw, io.loads, "online"))
  {
    match Request(c, io, "GET", GetUrl(c, "users", []), JNull)
    case Failure(e) => Failure(e)
    case Success(reply) =>
      if reply.status == HttpOk then GetField(reply.data, "online")
      else Success(JInt(-1))
  }

  lemma GetUrlOneArg(c: Config, command: string, a: Arg)
    ensures GetUrl(c, command, [a]) == ApiPath(c, command) + "/" + Str(a)
  {
  }

  /** `get_users_in_channel(channel)`: GET /channels/{channel}; the `users` field, or []. */
  function GetUsersInChannel(c: Config, io: Io, channel: Arg): (r: Result<JsonValue, Error>)
    ensures var ex := Sent(c, io, "GET", ApiPath(c, "channels") + "/" + Str(channel), JNull);
      && TransportErrorsRaised(ex, r)
      && (ex.Received? && ex.status != HttpOk ==> r == Success(JArr([])))
      && (ex.Received? && ex.status == HttpOk ==> r == FieldOfBody(ex.raw, io.loads, "users"))
  {
    GetUrlOneArg(c, "channels", channel);
    match Request(c, io, "GET", GetUrl(c, "channels", [channel]), JNull)
    case Failure(e) => Failure(e)
    case Success(reply) =>
      if reply.status == HttpOk then GetField(reply.data, "users")
      else Success(JArr([]))
  }

  /** `channel_send_message(channel, message)`: POST /channels/{channel}; `messages_sent`, or 0. */
  function ChannelSendMessage(c: Config, io: Io, channel: Arg, message: JsonValue): (r: Result<JsonValue, Error>)
    ensures var ex := Sent(c, io, "POST", ApiPath(c, "channels") + "/" + Str(channel), message);
      && TransportErrorsRaised(ex, r)
      && (ex.Received? && ex.status != HttpOk ==> r == Success(JInt(0)))
      && (ex.Received? && ex.status == HttpOk ==> r == FieldOfBody(ex.raw, io.loads, "messages_sent"))
  {
    GetUrlOneArg(c, "channels", channel);
    match Request(c, io, "POST", GetUrl(c, "channels", [channel]), message)
    case Failure(e) => Failure(e)
    case Success(reply) =>
      if reply.status == HttpOk then GetField(reply.data, "messages_sent")
      else Success(JInt(0))
  }

  /**
   * `user_send_message(user, message)`: POST /users/{user}; `messages_sent`, or 0.
   * Departs from the code: the source's warning on a non-200 status formats
   * the undefined name `channel` and so raises NameError instead of
   * returning 0; this is the intended behaviour (see AsWritten).
   */
  function UserSendMessage(c: Config, io: Io, user: Arg, message: JsonValue): (r: Result<JsonValue, Error>)
    ensures var ex := Sent(c, io, "POST", ApiPath(c, "users") + "/" + Str(user), message);
      && TransportErrorsRaised(ex, r)
      && (ex.Received? && ex.status != HttpOk ==> r == Success(JInt(0)))
      && (ex.Received? && ex.status == HttpOk ==> r == FieldOfBody(ex.raw, io.loads, "messages_sent"))
  {
    GetUrlOneArg(c, "users", user);
    match Request(c, io, "POST", GetUrl(c, "users", [user]), message)
    case Failure(e) => Failure(e)
    case Success(reply) =>
      if reply.status == HttpOk then GetField(reply.data, "messages_sent")
      else Success(JInt(0))
  }

  /** `user_is_online(user)`: GET /users/{user}; true exactly on 200. */
  function UserIsOnline(c: Config, io: Io, user: Arg): (r: Result<bool, Error>)
    ensures var ex := Sent(c, io, "GET", ApiPath(c, "users") + "/" + Str(user), JNull);
      && TransportErrorsRaised(ex, r)
      && (ex.Received? ==> (r.Success? <==> !Undecodable(ex, io.loads)))
      && (ex.Received? && r.Failure? ==> r.error == JsonDecodeError)
      && (r.Success? ==> (r.value <==> ex.Received? && ex.status == HttpOk))
  {
    GetUrlOneArg(c, "users", user);
    match Request(c, io, "GET", GetUrl(c, "users", [user]), JNull)
    case Failure(e) => Failure(e)
    case Success(reply) => Success(reply.status == HttpOk)
  }

  /**
   * `user_force_logout(user)`: DELETE /users/{user}; true exactly on 204.
   * Departs from the code: the source unpacks the pair `_request` returns
   * into the single name `status,`, which raises ValueError on every
   * response; this reads the status as intended (see AsWritten).
   */
  function UserForceLogout(c: Config, io: Io, user: Arg): (r: Result<bool, Error>)
    ensures var ex := Sent(c, io, "DELETE", ApiPath(c, "users") + "/" + Str(user), JNull);
      && TransportErrorsRaised(ex, r)
      && (ex.Received? ==> (r.Success? <==> !Undecodable(ex, io.loads)))
      && (ex.Received? && r.Failure? ==> r.error == JsonDecodeError)
      && (r.Success? ==> (r.value <==> ex.Received? && ex.status == HttpNoContent))
  {
    GetUrlOneArg(c, "users", user);
    match Request(c, io, "DELETE", GetUrl(c, "users", [user]), JNull)
    case Failure(e) => Failure(e)
    case Success(reply) => Success(reply.status == HttpNoContent)
  }

  /**
   * Every operation answers every non-success status with its sentinel and
   * raises only for transport failures or an unreadable 200 body.
   */
  lemma SoftFailureTable(c: Config, io: Io, target: Arg, message: JsonValue, status: int)
    requires status != HttpOk
    requires forall req: HttpRequest :: io.send(req).Received? && io.send(req).status == status
    ensures GetNumberOfUsers(c, io) == Success(JInt(-1))
    ensures GetUsersInChannel(c, io, target) == Success(JArr([]))
    ensures ChannelSendMessage(c, io, target, message) == Success(JInt(0))
    ensures UserSendMessage(c, io, target, message) == Success(JInt(0))
    ensures UserIsOnline(c, io, target) == Success(false)
    ensures UserForceLogout(c, io, target) == Success(status == HttpNoContent)
  {
  }

  // ---------------------------------------------------------------------
  // User keys

  /** The salt `create_user_key` uses: the default one when `salt` is falsy. */
  function EffectiveSalt(salt: Option<string>): (s: string)
    ensures s != ""
    ensures Falsy(salt) ==> s == DefaultUserKeySalt
    ensures !Falsy(salt) ==> s == salt.value
  {
    if Falsy(salt) then DefaultUserKeySalt else salt.value
  }

  /** `"".join((salt, str(user_identifier), self.secret_key))`. */
  function UserKeyPreimage(c: Config, userIdentifier: Arg, salt: Option<string>): (p: string)
    ensures var s := EffectiveSalt(salt);
      && |p| == |s| + |Str(userIdentifier)| + |c.secretKey|
      && p[..|s|] == s
      && p[|s|..|p| - |c.secretKey|] == Str(userIdentifier)
      && p[|p| - |c.secretKey|..] == c.secretKey
  {
    EffectiveSalt(salt) + Str(userIdentifier) + c.secretKey
  }

  /**
   * `create_user_key(user_identifier, salt=None)`: the MD5 hexdigest of the
   * pre-image, `md5` standing for `hashlib.md5(...).digest()`.
   * Departs from the code: the source hashes the undefined name `origStr`
   * (the pre-image is bound to `origstr`) with a `hashlib` it never imports,
   * so it raises NameError; this hashes the pre-image as intended (see AsWritten).
   */
  function CreateUserKey(c: Config, userIdentifier: Arg, salt: Option<string>, md5: string -> Md5Digest): (key: string)
    ensures |key| == 32 && IsLowerHex(key)
    ensures Unhex(key) == md5(UserKeyPreimage(c, userIdentifier, salt))
  {
    var digest := md5(UserKeyPreimage(c, userIdentifier, salt));
    UnhexHexDigest(digest);
    HexDigest(digest)
  }

  /** With the salt and the secret key fixed, identifiers with different text give different pre-images. */
  lemma PreimageSeparatesIdentifiers(c: Config, a: Arg, b: Arg, salt: Option<string>)
    requires Str(a) != Str(b)
    ensures UserKeyPreimage(c, a, salt) != UserKeyPreimage(c, b, salt)
  {
  }

  /** With the identifier and the secret key fixed, different salts give different pre-images. */
  lemma PreimageSeparatesSalts(c: Config, userIdentifier: Arg, s1: Option<string>, s2: Option<string>)
    requires EffectiveSalt(s1) != EffectiveSalt(s2)
    ensures UserKeyPreimage(c, userIdentifier, s1) != UserKeyPreimage(c, userIdentifier, s2)
  {
  }

  /** Distinct integer identifiers give distinct pre-images. */
  lemma PreimageSeparatesIntegers(c: Config, i: int, j: int, salt: Option<string>)
    requires i != j
    ensures UserKeyPreimage(c, Int(i), salt) != UserKeyPreimage(c, Int(j), salt)
  {
  }

  /** `str()` forgets the type: the integer 42 and the string "42" give one key. */
  lemma TextAndIntegerShareKey(c: Config, salt: Option<string>, md5: string -> Md5Digest)
    ensures CreateUserKey(c, Int(42), salt, md5) == CreateUserKey(c, Text("42"), salt, md5)
  {
    assert NatToDecimal(42) == NatToDecimal(4) + [DigitChar(2)];
    assert Str(Int(42)) == "42";
  }

  /**
   * Two keys are equal exactly when MD5 maps the two pre-images to the same
   * digest; in particular equal inputs give equal keys.
   */
  lemma UserKeysEqualIffDigestsEqual(
    c1: Config, id1: Arg, salt1: Option<string>,
    c2: Config, id2: Arg, salt2: Option<string>,
    md5: string -> Md5Digest)
    ensures CreateUserKey(c1, id1, salt1, md5) == CreateUserKey(c2, id2, salt2, md5)
        <==> md5(UserKeyPreimage(c1, id1, salt1)) == md5(UserKeyPreimage(c2, id2, salt2))
  {
  }

  /** Leaving the salt out, passing "" or passing the default salt give the same key. */
  lemma DefaultSaltWhenFalsy(c: Config, userIdentifier: Arg, md5: string -> Md5Digest)
    ensures CreateUserKey(c, userIdentifier, None, md5) == CreateUserKey(c, userIdentifier, Some(""), md5)
    ensures CreateUserKey(c, userIdentifier, None, md5)
         == CreateUserKey(c, userIdentifier, Some(DefaultUserKeySalt), md5)
  {
  }
}
