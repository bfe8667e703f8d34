/**
 * Ardent validation rule sets: a map from attribute name to a rule string,
 * the default rule set of ConfideUser, and the edits `real_save` applies to it.
 */
module Rules {

  type RuleSet = map<string, string>

  /** The two rules `real_save` drops on an update that carries no new password. */
  const PASSWORD_KEYS: set<string> := {"password", "password_confirmation"}

  /**
   * The static `$rules` of ConfideUser. An application model that extends
   * ConfideUser may declare its own; that one is `Config.defaultRules`.
   */
  const DEFAULT_RULES: RuleSet := map[
    "username" := "required|alpha_dash|unique:users",
    "email" := "required|email|unique:users",
    "password" := "required|between:4,11|confirmed",
    "password_confirmation" := "between:4,11"
  ]

  /** `if (empty($rules)) $rules = static::$rules;` */
  function ActiveRules(rules: RuleSet, defaults: RuleSet): RuleSet
  {
    if rules == map[] then defaults else rules
  }

  /** Removes the password rules and keeps every other rule exactly as it was. */
  function WithoutPasswordRules(rules: RuleSet): (r: RuleSet)
    ensures r.Keys == rules.Keys - PASSWORD_KEYS
    ensures "password" !in r && "password_confirmation" !in r
    ensures forall k :: k in r ==> r[k] == rules[k]
  {
    rules - PASSWORD_KEYS
  }

  /** ConfideUser's own rule set constrains exactly these four attributes. */
  lemma DefaultRulesAttributes()
    ensures DEFAULT_RULES.Keys == {"username", "email"} + PASSWORD_KEYS
  {
  }
}
