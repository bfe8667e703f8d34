/**
 * ConfideUser as an object: the record's attributes are fields that its
 * methods update in place, and the services it reaches through
 * `static::$app` (configuration, cache, repository, mailer) live in one
 * shared App object. Each method is proved against the function
 * of the same name in Lifecycle.
 */
module Confide {
  import opened Wrappers
  import opened Rules
  import opened Lifecycle

  /** The application services shared by every user object. */
  class App {
    const config: Config
    var cache: map<string, bool>
    ghost var log: seq<Event>

    constructor (config: Config, cache: map<string, bool>)
      ensures this.config == config && this.cache == cache && log == []
    {
      this.config := config;
      this.cache := cache;
      log := [];
    }
  }

  class ConfideUser {
    const app: App
    var id: string
    var stored: bool
    var confirmed: bool
    var confirmationCode: string
    var password: string
    var originalPassword: string
    var passwordConfirmation: Option<string>
    var autoHashPasswordAttributes: bool

    /** A record with the given attributes, bound to the shared services. */
    constructor (app: App, attributes: User)
      ensures this.app == app && Snapshot() == attributes
    {
      this.app := app;
      id := attributes.id;
      stored := attributes.stored;
      confirmed := attributes.confirmed;
      confirmationCode := attributes.confirmationCode;
      password := attributes.password;
      originalPassword := attributes.originalPassword;
      passwordConfirmation := attributes.passwordConfirmation;
      autoHashPasswordAttributes := attributes.autoHashPasswordAttributes;
    }

    function Snapshot(): User
      reads this
    {
      User(id, stored, confirmed, confirmationCode, password, originalPassword,
           passwordConfirmation, autoHashPasswordAttributes)
    }

    ghost function State(): World
      reads this, app
    {
      World(Snapshot(), app.cache, app.log)
    }

    method Confirm() returns (r: bool)
      modifies this, app
      ensures r && confirmed
      ensures State() == Lifecycle.Confirm(old(State()))
    {
      confirmed := true;
      app.log := app.log + [ConfirmUserCall(Snapshot())];
      r := true;
    }

    /** `token` is what the repository's `forgotPassword` generated and stored. */
    method ForgotPassword(token: string) returns (r: bool)
      modifies app
      ensures r
      ensures State() == Lifecycle.ForgotPassword(old(State()), token)
    {
      app.log := app.log + [ForgotPasswordCall(Snapshot())];
      app.log := app.log + [PasswordResetEmail(Snapshot(), token)];
      r := true;
    }

    /** `changed` is what the repository's `changePassword` returns. */
    method ResetPassword(params: map<string, string>, changed: bool) returns (r: bool)
      modifies app
      ensures (State(), r) == Lifecycle.ResetPassword(old(State()), app.config, params, changed)
    {
      var pw := ParamOrBlank(params, "password");
      var confirmation := ParamOrBlank(params, "password_confirmation");
      if pw == confirmation {
        app.log := app.log + [ChangePasswordCall(Snapshot(), app.config.hash(pw))];
        r := changed;
      } else {
        r := false;
      }
    }

    /** `code` is the value `str_random(8)` produces. */
    method BeforeSave(code: Token8) returns (r: bool)
      modifies this
      ensures r && passwordConfirmation == None
      ensures Snapshot() == Lifecycle.BeforeSave(old(Snapshot()), code)
    {
      if Blank(id) {
        confirmationCode := code;
      }
      if passwordConfirmation.Some? {
        passwordConfirmation := None;
      }
      r := true;
    }

    method AfterSave() returns (r: bool)
      modifies app
      ensures r
      ensures State() == Lifecycle.AfterSave(old(State()), app.config.signupCache)
    {
      var key := SentinelKey(id);
      if !confirmed && !(key in app.cache && app.cache[key]) {
        app.log := app.log + [ConfirmationEmail(Snapshot())];
        var signupCache := app.config.signupCache;
        if signupCache != 0 {
          app.cache := app.cache[key := true];
          app.log := app.log + [CachePut(key, signupCache)];
        }
      }
      r := true;
    }

    method Save(rules: RuleSet, code: Token8, persisted: bool, newId: AssignedId) returns (r: bool)
      modifies this, app
      ensures (State(), r) == Lifecycle.Save(old(State()), app.config, rules, code, persisted, newId)
    {
      r := RealSave(rules, code, persisted, newId);
    }

    /** `persisted` is the outcome of Ardent's `save`, `newId` the id storage gives a new record. */
    method RealSave(rules: RuleSet, code: Token8, persisted: bool, newId: AssignedId) returns (r: bool)
      modifies this, app
      ensures (State(), r) == Lifecycle.Save(old(State()), app.config, rules, code, persisted, newId)
    {
      if app.config.testMode {
        var _ := BeforeSave(code);
        var _ := AfterSave();
        r := true;
      } else {
        var active := rules;
        if stored {
          if active == map[] {
            active := app.config.defaultRules;
          }
          if Blank(password) && BlankOpt(passwordConfirmation) {
            password := originalPassword;
            autoHashPasswordAttributes := false;
            active := active - {"password", "password_confirmation"};
          }
          active := app.config.excludeSelf(active, id);
        }
        r := ParentSave(active, persisted, newId);
      }
    }

    /**
     * Ardent's `save`: the call is recorded with the record and the rules it is
     * given; validation and the database write are foreign, so the outcome is an
     * input. A new record that is written gets the id storage assigns.
     */
    method ParentSave(rules: RuleSet, outcome: bool, newId: AssignedId) returns (ok: bool)
      modifies this, app
      ensures ok == outcome
      ensures app.cache == old(app.cache)
      ensures app.log == old(app.log) + [PersistCall(old(Snapshot()), rules)]
      ensures Snapshot() == if outcome && !old(stored) then old(Snapshot()).(id := newId, stored := true) else old(Snapshot())
    {
      app.log := app.log + [PersistCall(Snapshot(), rules)];
      if outcome && !stored {
        id := newId;
        stored := true;
      }
      ok := outcome;
    }
  }
}
