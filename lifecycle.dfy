/**
 * The account-lifecycle rules of ConfideUser, stated on values: a snapshot
 * of the user record, the shared cache and the record of calls made to the
 * repository, the mailer and the persistence layer. Every operation is a
 * function from the world before the call to the world after it.
 */
module Lifecycle {
  import opened Wrappers
  import opened Rules

  /** A value of `str_random(8)`: an arbitrary string of length 8. */
  type Token8 = s: string | |s| == 8 witness "00000000"

  /** An id assigned by storage when a new record is first written. */
  type AssignedId = s: string | s != "" witness "1"

  /** The attributes of one user record that the lifecycle reads or writes. */
  datatype User = User(
    id: string,
    stored: bool,                          // Eloquent's `exists`
    confirmed: bool,
    confirmationCode: string,
    password: string,
    originalPassword: string,              // `getOriginal('password')`
    passwordConfirmation: Option<string>,  // unset when None
    autoHashPasswordAttributes: bool)

  /** Calls made to collaborators, in the order they are made. */
  datatype Event =
    | ConfirmationEmail(recipient: User)
    | PasswordResetEmail(recipient: User, token: string)
    | ConfirmUserCall(user: User)
    | ForgotPasswordCall(user: User)
    | ChangePasswordCall(user: User, hash: string)
    | PersistCall(user: User, rules: RuleSet)
    | CachePut(key: string, minutes: int)

  /**
   * Configuration and foreign code: whether CONFIDE_TEST is defined, the
   * `confide::signup_cache` setting, the `static::$rules` of the model class
   * (DEFAULT_RULES for ConfideUser itself), `hash->make`, and Ardent's
   * `buildUniqueExclusionRules` for a record with the given id.
   */
  datatype Config = Config(
    testMode: bool,
    signupCache: int,
    defaultRules: RuleSet,
    hash: string -> string,
    excludeSelf: (RuleSet, string) -> RuleSet)

  datatype World = World(user: User, cache: map<string, bool>, log: seq<Event>)

  /** PHP's `empty` on a string attribute. */
  predicate Blank(s: string) { s == "" }

  /** PHP's falsiness of an attribute that may be unset. */
  predicate BlankOpt(o: Option<string>) { o.None? || Blank(o.value) }

  /** The record carries neither a password nor a confirmation. */
  predicate NoNewPassword(u: User) { Blank(u.password) && BlankOpt(u.passwordConfirmation) }

  const SENTINEL_PREFIX: string := "confirmation_email_"

  /** The cache key recording that a user's confirmation email went out. */
  function SentinelKey(id: string): (key: string)
    ensures |key| == |SENTINEL_PREFIX| + |id|
    ensures key[..|SENTINEL_PREFIX|] == SENTINEL_PREFIX
    ensures key[|SENTINEL_PREFIX|..] == id
  {
    SENTINEL_PREFIX + id
  }

  /** `cache->get(key)` is truthy. */
  predicate SentinelSet(cache: map<string, bool>, id: string)
  {
    var key := SentinelKey(id);
    key in cache && cache[key]
  }

  /** The condition under which `afterSave` sends the confirmation email. */
  predicate SendsConfirmation(w: World)
  {
    !w.user.confirmed && !SentinelSet(w.cache, w.user.id)
  }

  /** `beforeSave`: a fresh code for a record without id; the confirmation is never stored. */
  function BeforeSave(u: User, code: Token8): (v: User)
    ensures v.passwordConfirmation == None
    ensures Blank(u.id) ==> v.confirmationCode == code && |v.confirmationCode| == 8
    ensures !Blank(u.id) ==> v.confirmationCode == u.confirmationCode
    ensures v.(confirmationCode := u.confirmationCode, passwordConfirmation := u.passwordConfirmation) == u
  {
    var u1 := if Blank(u.id) then u.(confirmationCode := code) else u;
    u1.(passwordConfirmation := None)
  }

  /** `afterSave`: at most one confirmation email, and a sentinel unless the TTL is 0. */
  function AfterSave(w: World, signupCache: int): (w': World)
    ensures w'.user == w.user
    ensures !SendsConfirmation(w) ==> w' == w
    ensures w.user.confirmed ==> w' == w
    ensures SendsConfirmation(w) && signupCache == 0 ==> w'.log == w.log + [ConfirmationEmail(w.user)]
    ensures SendsConfirmation(w) && signupCache != 0 ==>
      w'.log == w.log + [ConfirmationEmail(w.user), CachePut(SentinelKey(w.user.id), signupCache)]
    ensures SendsConfirmation(w) && signupCache != 0 ==>
      w'.cache == w.cache[SentinelKey(w.user.id) := true] && !SendsConfirmation(w')
    ensures signupCache == 0 ==> w'.cache == w.cache && SendsConfirmation(w') == SendsConfirmation(w)
  {
    if !SendsConfirmation(w) then
      w
    else if signupCache == 0 then
      w.(log := w.log + [ConfirmationEmail(w.user)])
    else
      var key := SentinelKey(w.user.id);
      World(w.user, w.cache[key := true], w.log + [ConfirmationEmail(w.user), CachePut(key, signupCache)])
  }

  /** The record and the rules `real_save` hands to the uniqueness exclusion on an update. */
  datatype Prepared = Prepared(user: User, rules: RuleSet)

  /**
   * The update branch of `real_save`, before `buildUniqueExclusionRules`;
   * `defaults` is the model class's `static::$rules`.
   */
  function PrepareUpdate(u: User, rules: RuleSet, defaults: RuleSet): (p: Prepared)
    ensures NoNewPassword(u) ==>
      p.user == u.(password := u.originalPassword, autoHashPasswordAttributes := false)
    ensures NoNewPassword(u) ==>
      && "password" !in p.rules && "password_confirmation" !in p.rules
      && p.rules.Keys == ActiveRules(rules, defaults).Keys - PASSWORD_KEYS
      && forall k :: k in p.rules ==> p.rules[k] == ActiveRules(rules, defaults)[k]
    ensures NoNewPassword(u) && rules == map[] ==>
      p.rules.Keys == defaults.Keys - PASSWORD_KEYS && forall k :: k in p.rules ==> p.rules[k] == defaults[k]
    ensures !NoNewPassword(u) ==> p.user == u
    ensures !NoNewPassword(u) && rules != map[] ==> p.rules == rules
    ensures !NoNewPassword(u) && rules == map[] ==> p.rules == defaults
    ensures p.user.id == u.id && p.user.stored == u.stored && p.user.confirmationCode == u.confirmationCode
  {
    var active := ActiveRules(rules, defaults);
    if NoNewPassword(u) then
      Prepared(u.(password := u.originalPassword, autoHashPasswordAttributes := false), WithoutPasswordRules(active))
    else
      Prepared(u, active)
  }

  /** On an update of a ConfideUser with no new password, only the username and email rules reach the exclusion rewrite. */
  lemma DefaultUpdateRules(u: User)
    requires NoNewPassword(u)
    ensures PrepareUpdate(u, map[], DEFAULT_RULES).rules
         == map["username" := "required|alpha_dash|unique:users", "email" := "required|email|unique:users"]
  {
  }

  /**
   * `save`/`real_save`. In test mode the two hooks run in order and the result is true;
   * otherwise the (possibly rewritten) rules go to Ardent's persist, whose outcome is
   * `persisted`; a new record that is persisted is stored under the id `newId` that
   * storage assigns.
   */
  function Save(w: World, cfg: Config, rules: RuleSet, code: Token8, persisted: bool, newId: AssignedId): (res: (World, bool))
    ensures cfg.testMode ==>
      res.1 && res.0 == AfterSave(w.(user := BeforeSave(w.user, code)), cfg.signupCache)
    ensures !cfg.testMode ==> res.1 == persisted && res.0.cache == w.cache
    ensures !cfg.testMode && !w.user.stored ==>
      && res.0.log == w.log + [PersistCall(w.user, rules)]
      && res.0.user == if persisted then w.user.(id := newId, stored := true) else w.user
    ensures !cfg.testMode && w.user.stored ==>
      var p := PrepareUpdate(w.user, rules, cfg.defaultRules);
      res.0 == World(p.user, w.cache, w.log + [PersistCall(p.user, cfg.excludeSelf(p.rules, w.user.id))])
    ensures !cfg.testMode && w.user.stored && NoNewPassword(w.user) ==>
      res.0.user.password == w.user.originalPassword && !res.0.user.autoHashPasswordAttributes
    ensures !cfg.testMode && w.user.stored && !NoNewPassword(w.user) ==> res.0.user == w.user
    ensures w.user.stored ==> res.0.user.id == w.user.id && res.0.user.stored
  {
    if cfg.testMode then
      var w1 := w.(user := BeforeSave(w.user, code));
      (AfterSave(w1, cfg.signupCache), true)
    else if w.user.stored then
      var p := PrepareUpdate(w.user, rules, cfg.defaultRules);
      (World(p.user, w.cache, w.log + [PersistCall(p.user, cfg.excludeSelf(p.rules, w.user.id))]), persisted)
    else
      var u := if persisted then w.user.(id := newId, stored := true) else w.user;
      (World(u, w.cache, w.log + [PersistCall(w.user, rules)]), persisted)
  }

  /** `confirm`: the record is confirmed, the repository is told, the result is true. */
  function Confirm(w: World): (w': World)
    ensures w'.user.confirmed
    ensures w'.user == w.user.(confirmed := true)
    ensures w.user.confirmed ==> w'.user == w.user
    ensures w'.cache == w.cache && w'.log == w.log + [ConfirmUserCall(w'.user)]
  {
    var u := w.user.(confirmed := true);
    World(u, w.cache, w.log + [ConfirmUserCall(u)])
  }

  /** `forgotPassword`: one token request to the repository, then one reset email with that token. */
  function ForgotPassword(w: World, token: string): (w': World)
    ensures w'.user == w.user && w'.cache == w.cache
    ensures w'.log == w.log + [ForgotPasswordCall(w.user), PasswordResetEmail(w.user, token)]
  {
    w.(log := w.log + [ForgotPasswordCall(w.user), PasswordResetEmail(w.user, token)])
  }

  /** `array_get($params, key, '')`. */
  function ParamOrBlank(params: map<string, string>, key: string): string
  {
    if key in params then params[key] else ""
  }

  /**
   * `resetPassword`: on matching values, one `changePassword` call with the hash of the
   * new password, whose outcome `changed` is the result; otherwise false and no call.
   */
  function ResetPassword(w: World, cfg: Config, params: map<string, string>, changed: bool): (res: (World, bool))
    ensures res.0.user == w.user && res.0.cache == w.cache
    ensures ParamOrBlank(params, "password") != ParamOrBlank(params, "password_confirmation") ==>
      res == (w, false)
    ensures ParamOrBlank(params, "password") == ParamOrBlank(params, "password_confirmation") ==>
      res.1 == changed
      && res.0.log == w.log + [ChangePasswordCall(w.user, cfg.hash(ParamOrBlank(params, "password")))]
    ensures "password" !in params && "password_confirmation" !in params ==>
      res.1 == changed && res.0.log == w.log + [ChangePasswordCall(w.user, cfg.hash(""))]
  {
    var password := ParamOrBlank(params, "password");
    var confirmation := ParamOrBlank(params, "password_confirmation");
    if password == confirmation then
      (w.(log := w.log + [ChangePasswordCall(w.user, cfg.hash(password))]), changed)
    else
      (w, false)
  }
}
