/**
 * Three members of the client as the source writes them, each next to the
 * corrected member of BeaconPush that the rest of the model uses, and a
 * lemma that shows where the two differ.
 */
module AsWritten {
  import opened Wrappers
  import opened Json
  import opened Hex
  import opened BeaconPush

  /** `user_send_message` as written: the non-200 branch names the undefined `channel`. */
  function UserSendMessageAsWritten(c: Config, io: Io, user: Arg, message: JsonValue): Result<JsonValue, Error> {
    match Request(c, io, "POST", GetUrl(c, "users", [user]), message)
    case Failure(e) => Failure(e)
    case Success(reply) =>
      if reply.status == HttpOk then GetField(reply.data, "messages_sent")
      else Failure(NameError("channel"))
  }

  /** On every status other than 200 the code raises NameError where 0 is meant. */
  lemma UserSendMessageRaisesOnNon200(c: Config, io: Io, user: Arg, message: JsonValue)
    requires var ex := Sent(c, io, "POST", ApiPath(c, "users") + "/" + Str(user), message);
      ex.Received? && ex.status != HttpOk
    ensures UserSendMessageAsWritten(c, io, user, message) == Failure(NameError("channel"))
    ensures UserSendMessage(c, io, user, message) == Success(JInt(0))
  {
    GetUrlOneArg(c, "users", user);
  }

  /** `user_force_logout` as written: `status, = (status, data)` cannot unpack a pair into one name. */
  function UserForceLogoutAsWritten(c: Config, io: Io, user: Arg): Result<bool, Error> {
    match Request(c, io, "DELETE", GetUrl(c, "users", [user]), JNull)
    case Failure(e) => Failure(e)
    case Success(_) => Failure(UnpackError)
  }

  /** The code never returns a result; on 204 the intended one is true. */
  lemma UserForceLogoutNeverReturns(c: Config, io: Io, user: Arg)
    ensures UserForceLogoutAsWritten(c, io, user).Failure?
    ensures Sent(c, io, "DELETE", ApiPath(c, "users") + "/" + Str(user), JNull) == Received(HttpNoContent, "") ==>
              UserForceLogoutAsWritten(c, io, user) == Failure(UnpackError)
              && UserForceLogout(c, io, user) == Success(true)
  {
    GetUrlOneArg(c, "users", user);
  }

  /**
   * `create_user_key` as written: the pre-image is built, then
   * `hashlib.md5(origStr)` fails on the module `hashlib`, which is never
   * imported (and `origStr` is not the name the pre-image was bound to).
   */
  function CreateUserKeyAsWritten(c: Config, userIdentifier: Arg, salt: Option<string>): Result<string, Error> {
    var _ := UserKeyPreimage(c, userIdentifier, salt);
    Failure(NameError("hashlib"))
  }

  /** The code raises where the intended member returns a 32-digit hexadecimal key. */
  lemma CreateUserKeyRaises(c: Config, userIdentifier: Arg, salt: Option<string>, md5: string -> Md5Digest)
    ensures CreateUserKeyAsWritten(c, userIdentifier, salt) == Failure(NameError("hashlib"))
    ensures |CreateUserKey(c, userIdentifier, salt, md5)| == 32
  {
  }
}
