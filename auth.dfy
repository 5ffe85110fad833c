/**
 * Login checking, the request gate in front of the application API, and the
 * change-password update of the server's configuration (api.go). The password
 * digest is a parameter: any function from text to text.
 */
module Auth {
  import opened Wrappers
  import opened Text
  import opened ConfigFile
  import opened ConfigWriter

  /** The one token the login hands out. */
  const Token := "anyrun-token"

  /** The only `Authorization` header the gate accepts. */
  const BearerToken := "Bearer anyrun-token"

  /** The endpoints that never need a token. */
  const OpenPaths := {"/api/auth/login", "/api/auth/user-config", "/api/auth/change-password"}

  /** `authenticate`: the stored user, the submitted name and password, and the digest. */
  function Authenticate(user: Option<UserConfig>, username: string, password: string, hash: string -> string): (ok: bool)
    ensures user.None? || user.value.Username != username ==> !ok
    ensures user.Some? && user.value.Username == username && user.value.FirstLogin && user.value.PasswordHash == "" ==> ok
    ensures user.Some? && user.value.Username == username && !(user.value.FirstLogin && user.value.PasswordHash == "") ==>
              (ok <==> user.value.PasswordHash == hash(password))
  {
    if user.None? then false
    else if user.value.Username != username then false
    else if user.value.FirstLogin && user.value.PasswordHash == "" then true
    else user.value.PasswordHash == hash(password)
  }

  /** Whether the stored user asks for a token at all. */
  predicate NeedsToken(user: Option<UserConfig>)
  {
    user.Some? && !(user.value.PasswordHash == "" && !user.value.FirstLogin)
  }

  /** What the gate does with a request: let it through, or answer with a status and a message. */
  datatype Decision = Pass | Reject(status: int, message: string)

  /** `authMiddleware`: the request path, the stored user and the `Authorization` header (empty when absent). */
  function Gate(path: string, user: Option<UserConfig>, header: string): (d: Decision)
    ensures d.Pass? <==> path in OpenPaths || !NeedsToken(user) || header == BearerToken
    ensures d.Reject? ==> d.status == 401
    ensures d.Reject? ==> (d.message == "Unauthorized" <==> header == "")
  {
    if path == "/api/auth/login" || path == "/api/auth/user-config" || path == "/api/auth/change-password" then Pass
    else if user.None? || (user.value.PasswordHash == "" && !user.value.FirstLogin) then Pass
    else if header == "" then Reject(401, "Unauthorized")
    else if header != BearerToken then Reject(401, "Invalid token")
    else Pass
  }

  /** With no password set after the first login, anyone may use the API without a token. */
  lemma GateOpenWithoutPassword(path: string, u: UserConfig, header: string)
    requires u.PasswordHash == "" && !u.FirstLogin
    ensures Gate(path, Some(u), header) == Pass
  {
  }

  /** Where a token is needed, a missing header and a wrong header are told apart. */
  lemma GateRejections(path: string, user: Option<UserConfig>, header: string)
    requires path !in OpenPaths && NeedsToken(user)
    ensures header == "" ==> Gate(path, user, header) == Reject(401, "Unauthorized")
    ensures header != "" && header != BearerToken ==> Gate(path, user, header) == Reject(401, "Invalid token")
  {
  }

  /** A user on the first login with no password yet is accepted whatever password is typed. */
  lemma FirstLoginAcceptsAnyPassword(u: UserConfig, password: string, hash: string -> string)
    requires u.FirstLogin && u.PasswordHash == ""
    ensures Authenticate(Some(u), u.Username, password, hash)
  {
  }

  /** The server's configuration: the part of `globalConfig` that change-password updates. */
  class Server {
    var config: Config

    constructor(cfg: Config)
      ensures config == cfg
    {
      config := cfg;
    }

    /**
     * The change-password endpoint once its body is decoded: on a failed check nothing
     * changes and the answer is 401; otherwise the user is replaced (before the save is
     * attempted, so a failed save still leaves it changed) and the file is written by
     * `saveConfig`, which leaves the user out (see `ReloadAfterSaveBlanksLogin`).
     * `createError` is the outcome of creating the file.
     */
    method ChangePassword(username: string, oldPassword: string, newPassword: string,
                          hash: string -> string, createError: Option<string>)
      returns (status: int, written: Option<string>)
      modifies this
      ensures !Authenticate(old(config.User), username, oldPassword, hash) ==>
                status == 401 && written == None && config == old(config)
      ensures Authenticate(old(config.User), username, oldPassword, hash) ==>
                config == old(config).(User := Some(UserConfig(username, hash(newPassword), false)))
      ensures Authenticate(old(config.User), username, oldPassword, hash) ==>
                (createError.Some? ==> status == 500 && written == None)
                && (createError.None? ==> status == 200 && written == Some(SavedText(config)))
    {
      if !Authenticate(config.User, username, oldPassword, hash) {
        return 401, None;
      }
      var u := if config.User.None? then UserConfig("", "", false) else config.User.value;
      u := u.(Username := username);
      u := u.(PasswordHash := hash(newPassword));
      u := u.(FirstLogin := false);
      config := config.(User := Some(u));
      var text, err := SaveConfig(config, createError);
      if err.Some? {
        return 500, None;
      }
      return 200, Some(text);
    }
  }

  /**
   * After a password change the new password opens the next session, and the
   * old one no longer does unless it has the same digest.
   */
  lemma NewPasswordWorks(cfg: Config, username: string, oldPassword: string, newPassword: string, hash: string -> string)
    ensures var changed := cfg.(User := Some(UserConfig(username, hash(newPassword), false)));
      && Authenticate(changed.User, username, newPassword, hash)
      && (Authenticate(changed.User, username, oldPassword, hash) <==> hash(oldPassword) == hash(newPassword))
  {
  }

  /**
   * With the user section written, the changed password survives the reload that the
   * next API call performs.
   */
  lemma ChangedPasswordSurvivesReload(cfg: Config, username: string, newPassword: string, hash: string -> string)
    requires forall a :: a in cfg.Apps ==> Savable(a)
    requires Quotable(username) && Quotable(hash(newPassword))
    ensures var changed := cfg.(User := Some(UserConfig(username, hash(newPassword), false)));
      Authenticate(ParseText(SavedTextWithUser(changed)).User, username, newPassword, hash)
  {
    var changed := cfg.(User := Some(UserConfig(username, hash(newPassword), false)));
    SaveWithUserRoundTrip(changed);
  }

  /**
   * As written, the reload after a password change brings back a blank user: from
   * then on only the empty user name can log in, with any password.
   */
  lemma ReloadAfterSaveBlanksLogin(cfg: Config, username: string, password: string, hash: string -> string)
    requires forall a :: a in cfg.Apps ==> Savable(a)
    ensures Authenticate(ParseText(SavedText(cfg)).User, username, password, hash) <==> username == ""
  {
    SaveLoadRoundTrip(cfg);
  }
}
