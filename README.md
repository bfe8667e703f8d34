# Confide user lifecycle in Dafny

A model of the account-lifecycle logic of Confide's `ConfideUser`, the Eloquent/Ardent
user model of the Confide authentication package for Laravel. One user record moves
through registration, saving, email confirmation and password reset. The model decides:

- when `beforeSave` generates a confirmation code, and that it strips `password_confirmation`;
- when `afterSave` sends the confirmation email, and when it writes the
  `confirmation_email_<id>` marker into the cache (a `signup_cache` of 0 means "do not cache");
- how `real_save` rewrites the record and the validation rules on an update that carries no new password;
- what `confirm`, `forgotPassword` and `resetPassword` change, which repository calls they make and what they return.

Layout:

- `wrappers.dfy` (`Wrappers`): `Option`, used for the `password_confirmation` attribute, which may be unset.
- `rules.dfy` (`Rules`): rule sets, ConfideUser's own `$rules` map (`DEFAULT_RULES`), and the two rule edits of `real_save`.
- `lifecycle.dfy` (`Lifecycle`): the operations as functions on values. A `User` snapshot, the
  shared cache and the ordered record of collaborator calls (`Event`) together form a `World`.
  Each operation maps the world before the call to the world after it.
- `trace.dfy` (`Trace`): arbitrary sequences of operations on one record (`Run`), and lemmas
  proved by induction over them.
- `confide_user.dfy` (`Confide`): the imperative form. `ConfideUser` is a class whose fields the
  methods update in place. `App` holds what the source reaches through `static::$app`: the
  configuration, the cache, and a ghost record of the calls made. The postconditions of
  `Confirm`, `ForgotPassword`, `ResetPassword`, `BeforeSave` and `AfterSave` tie the new state
  to the `Lifecycle` function of the same name. Those of `Save` and `RealSave` tie it to
  `Lifecycle.Save`. `ParentSave` stands for Ardent's save and states its effect directly.

Collaborators are inputs, not code:

- `hash->make` is the function-valued field `Config.hash`. Nothing is assumed about it.
- Ardent's `buildUniqueExclusionRules` is `Config.excludeSelf`, applied to the rules and the record's id. Nothing is assumed about it.
- `str_random(8)` is a `Token8` argument: any string of length 8.
- Three repository or Ardent results are also arguments: the token from the repository's
  `forgotPassword`, the result of `changePassword`, and the outcome of Ardent's `save`.
- Whether `CONFIDE_TEST` is defined is `Config.testMode`. The integer value of
  `confide::signup_cache` is `Config.signupCache`.
- `static::$rules` is `Config.defaultRules`. Late static binding makes it the `$rules` of the
  application's model class, which is `DEFAULT_RULES` when that class is ConfideUser itself.
- The id that storage assigns on the first successful write of a new record is an argument (`newId`).
- Each email sent, each repository call and each cache write is an `Event` appended to the log.

Behaviours of the code that a reader might not expect, which the model follows:

- `forgotPassword` returns `true`, not the token.
- `confirm` ignores the repository's answer and returns `true`.
- On an update with no new password, the two password rules are removed from any rule set
  the caller passes, not only from the default one.
- Test mode skips the update rewrite and the persist call entirely.

## Model

| member | source | states |
|---|---|---|
| Rules.ActiveRules | src/Zizaco/Confide/ConfideUser.php:240 | the rules in force: the caller's rules, or the model class's `static::$rules` when the caller's are empty |
| Rules.WithoutPasswordRules | src/Zizaco/Confide/ConfideUser.php:246 | the result has no `password` and no `password_confirmation` rule; every other rule survives with its value |
| Rules.DefaultRulesAttributes | src/Zizaco/Confide/ConfideUser.php:50-55 | ConfideUser's own rule set constrains exactly username, email, password and password_confirmation |
| Lifecycle.SentinelKey | src/Zizaco/Confide/ConfideUser.php:197-207 | the cache key is `confirmation_email_` followed by the id, so distinct ids use distinct keys |
| Lifecycle.SentinelSet | src/Zizaco/Confide/ConfideUser.php:197 | the `cache->get` of the user's key is truthy: the key is present and holds true |
| Lifecycle.SendsConfirmation | src/Zizaco/Confide/ConfideUser.php:197 | the send condition of `afterSave`: the user is unconfirmed and its cache key is not truthy |
| Lifecycle.NoNewPassword | src/Zizaco/Confide/ConfideUser.php:242 | the record carries neither a password nor a password confirmation (an unset confirmation counts as empty) |
| Lifecycle.BeforeSave | src/Zizaco/Confide/ConfideUser.php:169-186 | `password_confirmation` is unset whatever it held; a record without id gets the new 8-character code; a record with an id keeps its code; nothing else changes |
| Lifecycle.AfterSave | src/Zizaco/Confide/ConfideUser.php:195-212 | an email goes out exactly when the user is unconfirmed and the key is not set; a confirmed user changes nothing; after a send with TTL 0 the log gains only the email, the cache is untouched and a repeat sends again; with a nonzero TTL the log gains the email and one cache write of the user's key with that TTL, the key is set and a repeat would not send |
| Lifecycle.PrepareUpdate | src/Zizaco/Confide/ConfideUser.php:238-247 | empty rules stand for the model class's `static::$rules`; with neither password nor confirmation, the stored password is restored, auto-hashing is off, and the rules lose exactly the two password rules, every other rule keeping its value; otherwise the record and the rules are left as given; id, stored flag and code never change |
| Lifecycle.DefaultUpdateRules | src/Zizaco/Confide/ConfideUser.php:240-246 | for ConfideUser's own `$rules`, an update with no new password and no rules hands exactly the default username and email rules to the exclusion rewrite |
| Lifecycle.Save | src/Zizaco/Confide/ConfideUser.php:227-255 | test mode: `beforeSave` then `afterSave`, result true, no persist call; otherwise one persist call with the outcome as result and the cache untouched; a new record's rules are passed unchanged, and on success it is stored under the assigned id; for an update, whose id never changes, the record and rules of `PrepareUpdate`, passed through the exclusion rewrite |
| Lifecycle.Confirm | src/Zizaco/Confide/ConfideUser.php:96-105 | the user is confirmed, nothing else changes, one `confirmUser` call is recorded; an already confirmed record is left as it was |
| Lifecycle.ForgotPassword | src/Zizaco/Confide/ConfideUser.php:112-123 | record and cache unchanged; exactly one token request followed by one reset email carrying that token |
| Lifecycle.ResetPassword | src/Zizaco/Confide/ConfideUser.php:131-144 | record and cache never change; on a mismatch the result is false and no call is made; on a match exactly one `changePassword` call with the hash of the new password, and its answer is the result; two missing values match |
| Trace.Step | src/Zizaco/Confide/ConfideUser.php:96-255 | each trace operation (save, confirm, forgotPassword, resetPassword) keeps a stored record's id and stored flag, changes no id in test mode, never blanks an id, changes an id only by a successful save of a new record outside test mode, which takes the assigned id, keeps a confirmed user confirmed, keeps the code of a record with an id, never clears the cache marker, and only appends to the call record |
| Trace.StepConfirmationEmails | src/Zizaco/Confide/ConfideUser.php:195-212 | an operation adds one confirmation email exactly when it is a test-mode save that `afterSave` lets through, otherwise none |
| Trace.StoredRecordKeepsId | src/Zizaco/Confide/ConfideUser.php:238-253 | once a record is stored, no sequence of operations changes its id or unstores it |
| Trace.IdAssignedOnlyByFirstWrite | src/Zizaco/Confide/ConfideUser.php:238-253 | if a sequence of operations changes the id, the test flag was off, the record was new and ends up stored, and its id is the assigned id of a successful save in the sequence |
| Trace.TestModeKeepsId | src/Zizaco/Confide/ConfideUser.php:229-234 | in test mode nothing is persisted, so no sequence of operations changes the id |
| Trace.ConfirmedIsPermanent | src/Zizaco/Confide/ConfideUser.php:96-105 | once confirmed, a user stays confirmed through any sequence of operations |
| Trace.ConfirmationCodeIsStable | src/Zizaco/Confide/ConfideUser.php:171-174 | once the record has an id, it keeps one, and no sequence of operations regenerates its confirmation code |
| Trace.LogIsAppendOnly | src/Zizaco/Confide/ConfideUser.php:96-255 | calls made are never undone: the call record before a sequence is a prefix of the one after it |
| Trace.ConfirmedUserIsNeverEmailed | src/Zizaco/Confide/ConfideUser.php:197 | a confirmed user gets no confirmation email through any sequence of operations |
| Trace.CachedSentinelSendsAtMostOnce | src/Zizaco/Confide/ConfideUser.php:197-208 | in test mode with a nonzero `signup_cache`, any sequence of operations sends at most one confirmation email, and none once the key is set |
| Trace.ExactlyOneEmailWithCachedSentinel | src/Zizaco/Confide/ConfideUser.php:197-208 | with a nonzero `signup_cache`, test-mode saves of an unconfirmed, unnotified user starting with a save send exactly one email; in particular the second save sends nothing |
| Trace.UncachedSavesAlwaysResend | src/Zizaco/Confide/ConfideUser.php:204-208 | with `signup_cache` 0, n test-mode saves of an unconfirmed, unnotified user send exactly n emails |
| Confide.ConfideUser.Confirm | src/Zizaco/Confide/ConfideUser.php:96-105 | sets `confirmed`, records the repository call, returns true: the new state is `Lifecycle.Confirm` of the old |
| Confide.ConfideUser.ForgotPassword | src/Zizaco/Confide/ConfideUser.php:112-123 | returns true; the new state is `Lifecycle.ForgotPassword` of the old |
| Confide.ConfideUser.ResetPassword | src/Zizaco/Confide/ConfideUser.php:131-144 | the new state and the result are those of `Lifecycle.ResetPassword` |
| Confide.ConfideUser.BeforeSave | src/Zizaco/Confide/ConfideUser.php:169-186 | returns true with `password_confirmation` unset; the new record is `Lifecycle.BeforeSave` of the old |
| Confide.ConfideUser.AfterSave | src/Zizaco/Confide/ConfideUser.php:195-212 | returns true; the new cache and call record are those of `Lifecycle.AfterSave` |
| Confide.ConfideUser.Save | src/Zizaco/Confide/ConfideUser.php:157-160 | delegates to `RealSave`, with the same contract |
| Confide.ConfideUser.RealSave | src/Zizaco/Confide/ConfideUser.php:227-255 | edits the fields and the local rule set in place; the new state and result are those of `Lifecycle.Save` |
| Confide.ConfideUser.ParentSave | src/Zizaco/Confide/ConfideUser.php:253 | the persist call is recorded with the record and rules it receives, its outcome is returned, and a new record that is written is stored under the assigned id |

## Left out

- Lifecycle.Save: the missing password rules and the surviving username and email rules are
  stated for the rule set handed to `buildUniqueExclusionRules`, not for what reaches the
  persist call. That rewrite lives in Ardent and is left abstract.
- Ardent's and Eloquent's `save` (line 253): validation, the database write and running the
  `beforeSave`/`afterSave` hooks from inside it are not modelled. The call is recorded and its
  outcome is an input; a successful write of a new record stores it under an id given as input.
  So outside test mode the model sends no confirmation email and generates no code.
- CachedSentinelSendsAtMostOnce: proved for test mode only. Outside test mode the hooks run
  inside Ardent's save, which is not modelled. There the key of a new record is built from its
  blank id before the write and from the assigned id after it, so a cached blank-id key would
  not suppress the first email.
- `buildUniqueExclusionRules` (line 249) and `hash->make` (line 139) are uninterpreted. The
  per-call salt of the hash is not modelled: equal passwords give equal hashes.
- `str_random(8)` (line 173) is any string of length 8, chosen by the caller. Its randomness and
  character set are not modelled. The repository's reset token is any string.
- Email transport and rendering (`sendEmail`, `fixViewHint`, lines 277-305): a send is a recorded
  event. The suppression of the actual send in the `testing` environment (line 293) is not
  modelled. The recipient name and email address, view names and subjects are not modelled.
- The constructor (lines 60-68) only looks up services and configuration. The model's
  constructors take the attribute values and the services directly.
- Cache TTL expiry: only the zero/nonzero decision and the presence of the key are modelled; there is no clock.
- Concurrency: the race between two saves of the same user on one cache key is not modelled. The model is sequential.
- PHP loose truthiness and `==`: an attribute is empty exactly when it is the empty string
  (`"0"` and `null` are not singled out). The id is a string. Password comparison is string
  equality, so numeric strings such as `"1"` and `"01"` are not treated as equal.
  `(int)` on the `signup_cache` setting is not modelled; the setting is an integer already.
- `generateUuid` (lines 322-325) is deprecated dead code. `filterPasswordRequirement`
  (lines 265-268) has an empty body. `getAuthIdentifier` and `getAuthPassword` are trivial getters.
- The `$customMessages`, `$options` and closure arguments of `save` are passed through
  untouched by this code and are not modelled.
