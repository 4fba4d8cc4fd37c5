# BeaconPush client, modelled in Dafny

A model of `BeaconPush`, a small client for the BeaconPush real-time
messaging service's REST API (`src/beaconpush.py`). The client holds three
settings (API key, secret key and host), builds versioned resource paths
`/api/1.0.0/{api_key}/{command}[/{arg}...]`, serialises request payloads as
JSON, sends each request with an `X-Beacon-Secret-Key` header, and turns each
response into a plain result or a fixed sentinel that callers branch on. It
also derives the user key that browser clients pass when they connect.

The model is pure: the configuration is an immutable datatype and every
operation is a function.

- The network round trip is the parameter `Io.send`. It maps the request the
  client builds to an `Exchange`: an `httplib.HTTPException`, a socket error,
  or a status and the body text.
- `json.dumps` and `json.loads` are the parameters `Io.dumps` and `Io.loads`,
  working on an abstract `JsonValue`.
- MD5 is a parameter `md5` that returns 16 bytes. `hexdigest()` is modelled
  exactly.

Modules:

- `Wrappers` (wrappers.dfy): `Option` and `Result`.
- `Json` (json.dfy): JSON values, Python truthiness, the scalar test of
  `_dump_data`.
- `Strings` (strings.dfy): `str.join`, its inverse `str.split`, and `str()` of
  an integer with its inverse.
- `Hex` (hex.dfy): `hexdigest()` and its inverse.
- `BeaconPush` (beaconpush.dfy): the client itself.
- `AsWritten` (aswritten.dfy): three members exactly as the source writes
  them. See "Findings".

Behaviour of the code that is easy to miss, and that the model keeps:

- Only `httplib.HTTPException` becomes the client's own exception
  (`BeaconPushError`). A socket-level failure, such as a refused connection,
  is not caught by `_request`, so it propagates as it is (`SocketError`).
- A `ValueError` from `json.loads` on a 200 body also propagates
  (`JsonDecodeError`).
- A 200 response with an empty body keeps the empty text `""` as its data. An operation that then calls `.get()` on it raises
  `AttributeError` (`NoGetMethod`). The same happens for a 200 body that
  decodes to something other than a dict.
- `_dump_data` tells a Python 2 `int` from a `long` by type: `5L` is sent
  bare while `5` is sent as `[5]`. The model keeps the two apart as `JInt`
  and `JLong`.
- A falsy payload other than None (`0`, `""`, `[]`, `{}`) is not serialised.
  It is handed to the transport unchanged (`PassedRaw`).

## Model

| member | source | states |
|---|---|---|
| BeaconPush.Init | src/beaconpush.py:43-46 | keys stored unchanged; host is "beaconpush.com" when the host argument is falsy, the given host otherwise; the host is never empty |
| BeaconPush.Str | src/beaconpush.py:52 | `str()` of a string argument is the string; of an integer it is decimal text that reads back as that integer |
| BeaconPush.Strs | src/beaconpush.py:52 | one text per argument, in the order given, each `str()` of its argument |
| BeaconPush.ApiPath | src/beaconpush.py:40-50 | the filled-in `api_url` template starts with "/api/1.0.0/", has the key, one "/" and the command after it, and ends with the command |
| BeaconPush.GetUrl | src/beaconpush.py:48-53 | `/api/1.0.0/{api_key}/{command}` is always a prefix, and is the whole path exactly when there are no arguments |
| BeaconPush.GetUrlIsJoin | src/beaconpush.py:40-53 | the path is the "/"-join of "", "api", the version, the key, the command and `str()` of each argument in order |
| BeaconPush.GetUrlSegments | src/beaconpush.py:48-53 | when no segment contains "/", splitting the path on "/" gives back all segments in order, 5 plus one per argument |
| BeaconPush.GetUrlInjective | src/beaconpush.py:48-53 | for any key and command, when every argument text is slash-free, equal paths mean equal argument texts |
| BeaconPush.SlashInArgumentIsAmbiguous | src/beaconpush.py:51-53 | arguments are not escaped: ["a/b"] and ["a", "b"] give the same path |
| Json.Truthy | src/beaconpush.py:65 | Python truthiness of a payload: None, False, 0, 0.0, "" and empty lists and dicts are false, everything else true |
| Json.IsScalar | src/beaconpush.py:56 | the `isinstance(data, (unicode, str, int, float))` test: strings, booleans, floats and `int`s (values within the `int` range); a `long` of any value, None, lists and dicts are not scalars |
| Json.Lookup | src/beaconpush.py:94 | `dict.get`: the stored value for a present key, None for an absent one |
| BeaconPush.Wrap | src/beaconpush.py:55-57 | the wrapped payload is never a scalar, and a wrapped scalar is truthy |
| BeaconPush.LongIsNotWrapped | src/beaconpush.py:56-57 | a `long` of any value is left bare; `sys.maxint` as an `int` is wrapped in a list, while `sys.maxint + 1` and `-sys.maxint - 2`, which Python holds as `long`s, are left bare |
| BeaconPush.DumpData | src/beaconpush.py:55-59 | a scalar is encoded as the one-element list holding it; anything else is encoded as it is |
| BeaconPush.DumpDataShapes | src/beaconpush.py:55-59 | a scalar is encoded exactly as the one-element list holding it; a non-scalar is encoded unchanged; wrapping a list is the identity; wrapping is idempotent |
| BeaconPush.Body | src/beaconpush.py:65-66 | the body is serialised through `_dump_data` exactly when the payload is truthy; no body exactly when the payload is None; any other falsy payload is passed on unchanged |
| BeaconPush.BuildRequest | src/beaconpush.py:63-71 | the request goes to the configured host with the given method and path, carries exactly one header, X-Beacon-Secret-Key with the secret key, and its body is the one `Body` gives, so serialised through `_dump_data` iff the payload is truthy |
| BeaconPush.ReadReply | src/beaconpush.py:72-86 | HTTP exceptions become BeaconPushException, socket errors propagate, an undecodable 200 body raises ValueError; otherwise the status is kept, the data is None exactly when the status is not 200, "" stays "", and a non-empty 200 body is the value `json.loads` gives |
| BeaconPush.Request | src/beaconpush.py:61-86 | the request built from the configuration goes to the transport once; HTTP exceptions become BeaconPushException, socket errors propagate, an undecodable 200 body raises ValueError; a reply keeps the transport's status, and its data is None exactly when the status is not 200 |
| BeaconPush.GetField | src/beaconpush.py:93-94 | `data.get` succeeds exactly when the 200 data decoded to a dict, and then gives the stored field or None when the key is absent; otherwise AttributeError |
| BeaconPush.GetNumberOfUsers | src/beaconpush.py:88-97 | sends GET .../users with no body; transport failures are raised; non-200 gives -1; 200 gives the `online` field (None when missing) or the decoding error |
| BeaconPush.GetUsersInChannel | src/beaconpush.py:100-109 | sends GET .../channels/{channel}; transport failures are raised; non-200 gives []; 200 gives the `users` field |
| BeaconPush.ChannelSendMessage | src/beaconpush.py:111-120 | sends POST .../channels/{channel} with the message as payload; transport failures are raised; non-200 gives 0; 200 gives `messages_sent` |
| BeaconPush.UserSendMessage | src/beaconpush.py:122-131 | sends POST .../users/{user} with the message as payload; transport failures are raised; non-200 gives 0 (the intended behaviour, see Findings); 200 gives `messages_sent` |
| BeaconPush.UserIsOnline | src/beaconpush.py:133-142 | sends GET .../users/{user}; transport failures are raised; it succeeds unless the 200 body is undecodable; the result is true iff the status is 200 |
| BeaconPush.UserForceLogout | src/beaconpush.py:144-152 | sends DELETE .../users/{user}; transport failures are raised; the result is true iff the status is 204 (the intended behaviour, see Findings) |
| BeaconPush.SoftFailureTable | src/beaconpush.py:88-152 | for any status other than 200, the six operations return their sentinels -1, [], 0, 0, false, and (status == 204); none of them raises |
| BeaconPush.EffectiveSalt | src/beaconpush.py:163-164 | the default salt "4364Bsddf43dflkmsdflm43tdf" when salt is falsy, the given salt otherwise; never empty |
| BeaconPush.CreateUserKey | src/beaconpush.py:154-167 | the key is 32 lowercase hexadecimal characters and decodes to the MD5 digest of salt + str(user_identifier) + secret_key |
| BeaconPush.UserKeyPreimage | src/beaconpush.py:166 | the pre-image is the effective salt, then str(user_identifier), then the secret key, with no overlap |
| BeaconPush.PreimageSeparatesIdentifiers | src/beaconpush.py:166 | identifiers with different text give different pre-images |
| BeaconPush.PreimageSeparatesSalts | src/beaconpush.py:163-166 | different effective salts give different pre-images |
| BeaconPush.PreimageSeparatesIntegers | src/beaconpush.py:166 | different integer identifiers give different pre-images |
| BeaconPush.TextAndIntegerShareKey | src/beaconpush.py:166 | the integer 42 and the string "42" give the same key |
| BeaconPush.UserKeysEqualIffDigestsEqual | src/beaconpush.py:167 | two keys are equal iff the digests of their pre-images are equal; equal inputs give equal keys |
| BeaconPush.DefaultSaltWhenFalsy | src/beaconpush.py:163-164 | no salt, "" and the default salt give the same key |
| Strings.Join | src/beaconpush.py:52 | `"/".join`: the parts in order with one separator between neighbours; `Split` is its inverse on separator-free parts (SplitJoin, JoinSplit) |
| Strings.SplitJoin | src/beaconpush.py:52 | splitting a "/"-join of separator-free parts gives the parts back |
| Strings.JoinSplit | src/beaconpush.py:52 | joining the pieces of a split gives the original text |
| Strings.IntToDecimal | src/beaconpush.py:52 | str() of an integer is non-empty, starts with "-" iff the integer is negative, and has no "/" |
| Strings.IntRoundTrip | src/beaconpush.py:52 | reading str() of an integer back gives the integer |
| Hex.HexDigest | src/beaconpush.py:167 | the hexadecimal text has two lowercase hex digits per byte |
| Hex.UnhexHexDigest | src/beaconpush.py:167 | the hexadecimal text decodes back to the digest bytes |
| AsWritten.UserSendMessageAsWritten | src/beaconpush.py:122-131 | `user_send_message` as written: as the corrected member on 200, NameError('channel') on any other status |
| AsWritten.UserForceLogoutAsWritten | src/beaconpush.py:144-152 | `user_force_logout` as written: the exchange's own exceptions, otherwise ValueError from unpacking the pair into one name |
| AsWritten.CreateUserKeyAsWritten | src/beaconpush.py:154-167 | `create_user_key` as written: builds the pre-image, then raises NameError('hashlib') |
| AsWritten.UserSendMessageRaisesOnNon200 | src/beaconpush.py:126-131 | on a non-200 status the code as written raises NameError where 0 is intended |
| AsWritten.UserForceLogoutNeverReturns | src/beaconpush.py:148-152 | the code as written never returns a result; on 204 the intended result is true |
| AsWritten.CreateUserKeyRaises | src/beaconpush.py:163-167 | the code as written always raises NameError where a 32-digit key is intended |

## Left out

- HTTP transport: `httplib.HTTPConnection`, `connection.request`, `getresponse` and `resp.read()` are network I/O. They are the parameter `Io.send`, which returns a status and the body text.
- JSON text: what `json.dumps` produces and what `json.loads` accepts belong to a foreign library. They are the parameters `Io.dumps` and `Io.loads`; a decoding failure is `None`.
- MD5: the digest algorithm is a foreign cryptographic call. It is the parameter `md5`, only constrained to return 16 bytes.
- Logging: the `NullHandler`, the module-level `logger`, and the debug, warning and error calls only have side effects.
- The `test()` routine and the `__main__` entry point are a manual smoke test with printing and live calls.
- The traceback logged before `BeaconPushException` is raised; the model keeps only which exception results.
- IsScalar: `sys.maxint` is fixed at 2^63-1, its value on 64-bit Linux and macOS builds of CPython 2. On 32-bit builds and on 64-bit Windows it is 2^31-1, so integers between the two are `long`s there and are not wrapped.
- Str: `str()` is modelled for strings and integers only. Floats, booleans and other objects as path arguments or user identifiers are not modelled, nor is Python 2's `UnicodeEncodeError` when `str()` meets non-ASCII `unicode` text.
- Json: JSON floats are reals. NaN and infinities are not modelled. Python tuples (serialised as JSON arrays) have no separate form.
- Config: `api_key`, `secret_key` and `host` are strings. The source accepts any object for them, and for the key `%s` formatting would apply `str()` first.

## Findings

| source | as written | input that shows it | evidently intended | confidence | as-written member | corrected member |
|---|---|---|---|---|---|---|
| src/beaconpush.py:130 | the warning formats `channel`, a name not defined in `user_send_message`, so the non-200 branch raises NameError | any response with a status other than 200, e.g. 500 | log and return 0, as `channel_send_message` does | high, not executed | AsWritten.UserSendMessageAsWritten (AsWritten.UserSendMessageRaisesOnNon200) | BeaconPush.UserSendMessage |
| src/beaconpush.py:148 | `status, = self._request(...)` unpacks a 2-tuple into one name, so every response raises ValueError | any response, e.g. status 204 | `status, data = ...`, then true iff the status is 204 | high, not executed | AsWritten.UserForceLogoutAsWritten (AsWritten.UserForceLogoutNeverReturns) | BeaconPush.UserForceLogout |
| src/beaconpush.py:167 | hashes `origStr`, but the pre-image is bound to `origstr`, and `hashlib` is never imported, so the call raises NameError | any call, e.g. `create_user_key("bob")` | the MD5 hexdigest of the pre-image | high, not executed | AsWritten.CreateUserKeyAsWritten (AsWritten.CreateUserKeyRaises) | BeaconPush.CreateUserKey |
