/**
 * Sequences of lifecycle operations on one user record, and the properties
 * that hold over any such sequence: a stored record keeps its id, a
 * confirmed user stays confirmed and is never sent a confirmation email, a
 * stored code is never regenerated, the call record only grows, and the
 * number of confirmation emails is governed by `confide::signup_cache`.
 */
module Trace {
  import opened Rules
  import opened Lifecycle

  /** One call on the record, with the values its collaborators produce. */
  datatype Op =
    | SaveOp(rules: RuleSet, code: Token8, persisted: bool, newId: AssignedId)
    | ConfirmOp
    | ForgotPasswordOp(token: string)
    | ResetPasswordOp(params: map<string, string>, changed: bool)

  function Step(w: World, cfg: Config, op: Op): (w': World)
    ensures w.user.stored ==> w'.user.id == w.user.id && w'.user.stored
    ensures cfg.testMode ==> w'.user.id == w.user.id
    ensures !Blank(w.user.id) ==> !Blank(w'.user.id)
    ensures w'.user.id != w.user.id ==>
      !cfg.testMode && !w.user.stored && w'.user.stored
      && op.SaveOp? && op.persisted && w'.user.id == op.newId
    ensures w.user.confirmed ==> w'.user.confirmed
    ensures !Blank(w.user.id) ==> w'.user.confirmationCode == w.user.confirmationCode
    ensures SentinelSet(w.cache, w.user.id) ==> SentinelSet(w'.cache, w.user.id)
    ensures cfg.testMode && !SendsConfirmation(w) ==> !SendsConfirmation(w')
    ensures |w.log| <= |w'.log| && w'.log[..|w.log|] == w.log
  {
    match op
    case SaveOp(rules, code, persisted, newId) => Save(w, cfg, rules, code, persisted, newId).0
    case ConfirmOp => Confirm(w)
    case ForgotPasswordOp(token) => ForgotPassword(w, token)
    case ResetPasswordOp(params, changed) => ResetPassword(w, cfg, params, changed).0
  }

  function Run(w: World, cfg: Config, ops: seq<Op>): World
    decreases |ops|
  {
    if ops == [] then w else Run(Step(w, cfg, ops[0]), cfg, ops[1..])
  }

  predicate AllSaves(ops: seq<Op>)
  {
    forall i :: 0 <= i < |ops| ==> ops[i].SaveOp?
  }

  /** The number of confirmation emails in a call record. */
  function ConfirmationEmails(log: seq<Event>): nat
  {
    if log == [] then 0
    else (if log[0].ConfirmationEmail? then 1 else 0) + ConfirmationEmails(log[1..])
  }

  lemma {:induction false} ConfirmationEmailsAppend(a: seq<Event>, b: seq<Event>)
    ensures ConfirmationEmails(a + b) == ConfirmationEmails(a) + ConfirmationEmails(b)
    decreases |a|
  {
    if a == [] {
      assert a + b == b;
    } else {
      assert (a + b)[1..] == a[1..] + b;
      ConfirmationEmailsAppend(a[1..], b);
    }
  }

  /** No event of a call record is a confirmation email. */
  lemma {:induction false} NoConfirmationEmails(log: seq<Event>)
    requires forall i :: 0 <= i < |log| ==> !log[i].ConfirmationEmail?
    ensures ConfirmationEmails(log) == 0
    decreases |log|
  {
    if log != [] {
      assert forall i :: 0 <= i < |log[1..]| ==> log[1..][i] == log[i + 1];
      NoConfirmationEmails(log[1..]);
    }
  }

  /** A single operation sends a confirmation email exactly when it is a test-mode save that `afterSave` lets through. */
  lemma StepConfirmationEmails(w: World, cfg: Config, op: Op)
    ensures ConfirmationEmails(Step(w, cfg, op).log)
         == ConfirmationEmails(w.log) + (if op.SaveOp? && cfg.testMode && SendsConfirmation(w) then 1 else 0)
  {
    var w' := Step(w, cfg, op);
    var added := w'.log[|w.log|..];
    assert w'.log == w.log + added;
    ConfirmationEmailsAppend(w.log, added);
    if op.SaveOp? && cfg.testMode && SendsConfirmation(w) {
      var w1 := w.(user := BeforeSave(w.user, op.code));
      assert SendsConfirmation(w1);
      assert added[0] == ConfirmationEmail(w1.user);
      assert forall i :: 1 <= i < |added| ==> added[i].CachePut?;
      assert added == [added[0]] + added[1..];
      ConfirmationEmailsAppend([added[0]], added[1..]);
      NoConfirmationEmails(added[1..]);
    } else {
      assert forall i :: 0 <= i < |added| ==> !added[i].ConfirmationEmail?;
      NoConfirmationEmails(added);
    }
  }

  /** Once stored, a record keeps its id and stays stored through any sequence of operations. */
  lemma {:induction false} StoredRecordKeepsId(w: World, cfg: Config, ops: seq<Op>)
    requires w.user.stored
    ensures Run(w, cfg, ops).user.id == w.user.id
    ensures Run(w, cfg, ops).user.stored
    decreases |ops|
  {
    if ops != [] {
      StoredRecordKeepsId(Step(w, cfg, ops[0]), cfg, ops[1..]);
    }
  }

  /**
   * The id of a record changes only when the record is first written: the record
   * then becomes stored, and its id is the one storage assigned at a successful save.
   */
  lemma {:induction false} IdAssignedOnlyByFirstWrite(w: World, cfg: Config, ops: seq<Op>)
    ensures Run(w, cfg, ops).user.id != w.user.id ==>
      && !cfg.testMode && !w.user.stored && Run(w, cfg, ops).user.stored
      && exists i :: 0 <= i < |ops| && ops[i].SaveOp? && ops[i].persisted && ops[i].newId == Run(w, cfg, ops).user.id
    decreases |ops|
  {
    if ops != [] {
      var w1 := Step(w, cfg, ops[0]);
      var w' := Run(w, cfg, ops);
      assert w' == Run(w1, cfg, ops[1..]);
      if w1.user.id != w.user.id {
        StoredRecordKeepsId(w1, cfg, ops[1..]);
        assert ops[0].SaveOp? && ops[0].persisted && ops[0].newId == w'.user.id;
      } else {
        IdAssignedOnlyByFirstWrite(w1, cfg, ops[1..]);
        if w'.user.id != w.user.id {
          var j :| 0 <= j < |ops[1..]| && ops[1..][j].SaveOp? && ops[1..][j].persisted && ops[1..][j].newId == w'.user.id;
          assert ops[j + 1] == ops[1..][j];
        }
      }
    }
  }

  /** In test mode no persist runs, so the id never changes. */
  lemma {:induction false} TestModeKeepsId(w: World, cfg: Config, ops: seq<Op>)
    requires cfg.testMode
    ensures Run(w, cfg, ops).user.id == w.user.id
    decreases |ops|
  {
    if ops != [] {
      TestModeKeepsId(Step(w, cfg, ops[0]), cfg, ops[1..]);
    }
  }

  /** A confirmed user is never made unconfirmed again. */
  lemma {:induction false} ConfirmedIsPermanent(w: World, cfg: Config, ops: seq<Op>)
    requires w.user.confirmed
    ensures Run(w, cfg, ops).user.confirmed
    decreases |ops|
  {
    if ops != [] {
      ConfirmedIsPermanent(Step(w, cfg, ops[0]), cfg, ops[1..]);
    }
  }

  /** Once the record has an id, it keeps having one and its confirmation code is never regenerated. */
  lemma {:induction false} ConfirmationCodeIsStable(w: World, cfg: Config, ops: seq<Op>)
    requires !Blank(w.user.id)
    ensures !Blank(Run(w, cfg, ops).user.id)
    ensures Run(w, cfg, ops).user.confirmationCode == w.user.confirmationCode
    decreases |ops|
  {
    if ops != [] {
      ConfirmationCodeIsStable(Step(w, cfg, ops[0]), cfg, ops[1..]);
    }
  }

  /** Calls are only ever appended to the record of calls. */
  lemma {:induction false} LogIsAppendOnly(w: World, cfg: Config, ops: seq<Op>)
    ensures |w.log| <= |Run(w, cfg, ops).log|
    ensures Run(w, cfg, ops).log[..|w.log|] == w.log
    ensures ConfirmationEmails(w.log) <= ConfirmationEmails(Run(w, cfg, ops).log)
    decreases |ops|
  {
    var w' := Run(w, cfg, ops);
    if ops != [] {
      var w1 := Step(w, cfg, ops[0]);
      LogIsAppendOnly(w1, cfg, ops[1..]);
      assert w'.log[..|w.log|] == w'.log[..|w1.log|][..|w.log|];
    }
    assert w'.log == w.log + w'.log[|w.log|..];
    ConfirmationEmailsAppend(w.log, w'.log[|w.log|..]);
  }

  /** A confirmed user never triggers a confirmation email. */
  lemma {:induction false} ConfirmedUserIsNeverEmailed(w: World, cfg: Config, ops: seq<Op>)
    requires w.user.confirmed
    ensures ConfirmationEmails(Run(w, cfg, ops).log) == ConfirmationEmails(w.log)
    decreases |ops|
  {
    if ops != [] {
      StepConfirmationEmails(w, cfg, ops[0]);
      ConfirmedUserIsNeverEmailed(Step(w, cfg, ops[0]), cfg, ops[1..]);
    }
  }

  /**
   * In test mode with a nonzero `signup_cache`, any sequence of operations sends at
   * most one confirmation email, and none if the sentinel was already set or the
   * user confirmed.
   */
  lemma {:induction false} CachedSentinelSendsAtMostOnce(w: World, cfg: Config, ops: seq<Op>)
    requires cfg.testMode && cfg.signupCache != 0
    ensures ConfirmationEmails(Run(w, cfg, ops).log)
         <= ConfirmationEmails(w.log) + (if SendsConfirmation(w) then 1 else 0)
    decreases |ops|
  {
    if ops != [] {
      var w1 := Step(w, cfg, ops[0]);
      StepConfirmationEmails(w, cfg, ops[0]);
      CachedSentinelSendsAtMostOnce(w1, cfg, ops[1..]);
      if ops[0].SaveOp? && SendsConfirmation(w) {
        assert !SendsConfirmation(w1);
      }
    }
  }

  /** With a nonzero `signup_cache`, n >= 1 test-mode saves of an unnotified user send exactly one email. */
  lemma ExactlyOneEmailWithCachedSentinel(w: World, cfg: Config, ops: seq<Op>)
    requires cfg.testMode && cfg.signupCache != 0
    requires SendsConfirmation(w)
    requires |ops| >= 1 && ops[0].SaveOp?
    ensures ConfirmationEmails(Run(w, cfg, ops).log) == ConfirmationEmails(w.log) + 1
  {
    var w1 := Step(w, cfg, ops[0]);
    StepConfirmationEmails(w, cfg, ops[0]);
    assert !SendsConfirmation(w1);
    CachedSentinelSendsAtMostOnce(w1, cfg, ops[1..]);
    LogIsAppendOnly(w1, cfg, ops[1..]);
  }

  /** With `signup_cache` 0, every test-mode save of an unconfirmed, unnotified user sends again. */
  lemma {:induction false} UncachedSavesAlwaysResend(w: World, cfg: Config, ops: seq<Op>)
    requires cfg.testMode && cfg.signupCache == 0
    requires SendsConfirmation(w)
    requires AllSaves(ops)
    ensures ConfirmationEmails(Run(w, cfg, ops).log) == ConfirmationEmails(w.log) + |ops|
    decreases |ops|
  {
    if ops != [] {
      var w1 := Step(w, cfg, ops[0]);
      StepConfirmationEmails(w, cfg, ops[0]);
      assert SendsConfirmation(w1);
      assert AllSaves(ops[1..]) by {
        forall i | 0 <= i < |ops[1..]| ensures ops[1..][i].SaveOp? { assert ops[1..][i] == ops[i + 1]; }
      }
      UncachedSavesAlwaysResend(w1, cfg, ops[1..]);
    }
  }
}
