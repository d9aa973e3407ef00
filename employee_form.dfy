/**
 * The employee form's submission sequence: the `loadingOn` flag, the login
 * created with a fixed password, the single write to the `funcionarios`
 * collection, and the write callbacks that reset the form and navigate or
 * report the error. The backends (authentication, document store, router,
 * notifications) are not modelled: their outcomes are parameters and their
 * effects are recorded in logs.
 */
module EmployeeForm {
  import opened Wrappers
  import opened FieldRules

  /** The password every login is created with. */
  const DefaultPassword: string := "123456789"
  /** The collection the employee record is written to. */
  const CollectionName: string := "funcionarios"
  /** Where a successful write navigates to. */
  const ListingPath: string := "/dashboard/funcionarios"
  /** The `role` added to the submitted values. */
  const UserRole: string := "user"

  const LoginErrorMessage: string := "Erro ao criar o login do funcionário."
  const WriteSuccessMessage: string := "Funcionário adicionado com sucesso!"
  const WriteErrorMessage: string := "Erro ao adicionar o funcionário."

  /** The form's default values, restored by a reset. */
  const DefaultValues: Values := Values("", "", "", "", "", "", Some(""), "")

  /** What the authentication backend answers to a request to create a login. */
  datatype LoginResult = Created(uid: string) | Failed

  /** One request to create a login, with the backend's answer. */
  datatype LoginAttempt = LoginAttempt(email: string, password: string, result: LoginResult)

  /** The submitted values with the added `role`. */
  datatype EmployeeRecord = EmployeeRecord(values: Values, role: string)

  /** One request to the document store: a record and the uid it is paired with. */
  datatype Write = Write(collection: string, record: EmployeeRecord, uid: string)

  datatype Toast = SuccessToast(message: string) | ErrorToast(message: string)

  /** How one press of the submit button ends. */
  datatype SubmitOutcome =
    | Ignored                      // the button is disabled
    | Invalid(errors: set<Field>)  // the schema refused the values
    | LoginRejected                // the login could not be created; the error is rethrown
    | WriteStarted                 // the record write was issued; a callback will follow

  class FuncionarioForm {
    /** The values currently in the form's fields. */
    var values: Values
    var loadingOn: bool
    /** Every request to create a login, in order. */
    var logins: seq<LoginAttempt>
    /** Every record write issued, in order. */
    var writes: seq<Write>
    var toasts: seq<Toast>
    var navigations: seq<string>
    /** How many of the issued writes have had their callback run. */
    ghost var answered: nat

    /** The uids of the logins that were created. */
    function CreatedUids(): set<string>
      reads this
    {
      set a | a in logins && a.result.Created? :: a.result.uid
    }

    /**
     * Every write goes to `funcionarios` with role `user` and pairs the record
     * with the uid of a login that was created; there are no more writes than
     * login requests. Each callback answers one issued write, and only a
     * successful write's callback navigates.
     */
    ghost predicate Valid()
      reads this
    {
      && |writes| <= |logins|
      && answered <= |writes|
      && |navigations| <= answered
      && forall w :: w in writes ==>
           w.collection == CollectionName && w.record.role == UserRole && w.uid in CreatedUids()
    }

    constructor ()
      ensures Valid()
      ensures values == DefaultValues && !loadingOn
      ensures logins == [] && writes == [] && toasts == [] && navigations == []
      ensures answered == 0
    {
      values := DefaultValues;
      loadingOn := false;
      logins, writes, toasts, navigations := [], [], [], [];
      answered := 0;
    }

    /** The submit button is disabled while `loadingOn` is set. */
    predicate SubmitEnabled()
      reads this
    {
      !loadingOn
    }

    /** The user fills in the fields. */
    method Edit(v: Values)
      modifies this`values
      ensures values == v
    {
      values := v;
    }

    /**
     * Requests a login for `email` with the fixed password. On failure the
     * error is reported and no uid comes back (`createEmployeeLogin` rethrows).
     */
    method CreateEmployeeLogin(email: string, result: LoginResult) returns (uid: Option<string>)
      requires Valid()
      modifies this`logins, this`toasts
      ensures Valid()
      ensures logins == old(logins) + [LoginAttempt(email, DefaultPassword, result)]
      ensures result.Created? ==> uid == Some(result.uid) && toasts == old(toasts)
      ensures result.Failed? ==> uid == None && toasts == old(toasts) + [ErrorToast(LoginErrorMessage)]
    {
      logins := logins + [LoginAttempt(email, DefaultPassword, result)];
      assert forall a :: a in old(logins) ==> a in logins;
      match result
      case Created(u) =>
        uid := Some(u);
      case Failed =>
        toasts := toasts + [ErrorToast(LoginErrorMessage)];
        uid := None;
    }

    /**
     * Handles validated values: sets `loadingOn`, requests the login for the
     * email currently in the form, and only if it was created issues one
     * write of the values plus `role: 'user'`, paired with the new uid.
     * Nothing here clears `loadingOn`.
     */
    method OnSubmit(submitted: Values, login: LoginResult) returns (r: SubmitOutcome)
      requires Valid()
      modifies this`loadingOn, this`logins, this`toasts, this`writes
      ensures Valid()
      ensures loadingOn
      ensures logins == old(logins) + [LoginAttempt(values.email, DefaultPassword, login)]
      ensures login.Failed? ==>
        && r == LoginRejected
        && writes == old(writes)
        && toasts == old(toasts) + [ErrorToast(LoginErrorMessage)]
      ensures login.Created? ==>
        && r == WriteStarted
        && writes == old(writes) + [Write(CollectionName, EmployeeRecord(submitted, UserRole), login.uid)]
        && toasts == old(toasts)
    {
      loadingOn := true;
      var record := EmployeeRecord(submitted, UserRole);
      var uid := CreateEmployeeLogin(values.email, login);
      if uid.None? {
        return LoginRejected;
      }
      assert login.uid in CreatedUids() by {
        assert logins[|logins| - 1] == LoginAttempt(values.email, DefaultPassword, login);
      }
      writes := writes + [Write(CollectionName, record, uid.value)];
      r := WriteStarted;
    }

    /**
     * The write succeeded: reset the form, report, navigate to the listing,
     * clear `loadingOn`. It answers an issued write that had no answer yet.
     */
    method OnWriteSuccess()
      requires Valid() && answered < |writes|
      modifies this`values, this`toasts, this`navigations, this`loadingOn, this`answered
      ensures Valid() && answered == old(answered) + 1
      ensures values == DefaultValues && !loadingOn
      ensures toasts == old(toasts) + [SuccessToast(WriteSuccessMessage)]
      ensures navigations == old(navigations) + [ListingPath]
    {
      values := DefaultValues;
      toasts := toasts + [SuccessToast(WriteSuccessMessage)];
      navigations := navigations + [ListingPath];
      loadingOn := false;
      answered := answered + 1;
    }

    /**
     * The write failed: report and clear `loadingOn`; the values stay and
     * nothing navigates. It answers an issued write that had no answer yet.
     */
    method OnWriteError()
      requires Valid() && answered < |writes|
      modifies this`toasts, this`loadingOn, this`answered
      ensures Valid() && answered == old(answered) + 1
      ensures !loadingOn
      ensures toasts == old(toasts) + [ErrorToast(WriteErrorMessage)]
    {
      toasts := toasts + [ErrorToast(WriteErrorMessage)];
      loadingOn := false;
      answered := answered + 1;
    }

    /**
     * One press of the submit button: nothing while it is disabled; the
     * schema's errors when the current values fail it; otherwise `OnSubmit`
     * with the current values.
     */
    method PressSubmit(c: Checks, login: LoginResult) returns (r: SubmitOutcome)
      requires Valid()
      modifies this`loadingOn, this`logins, this`toasts, this`writes
      ensures Valid()
      ensures !old(SubmitEnabled()) ==> r == Ignored && unchanged(this)
      ensures old(SubmitEnabled()) && Validate(values, c).Err? ==>
        r == Invalid(Validate(values, c).error) && unchanged(this)
      ensures old(SubmitEnabled()) && Validate(values, c).Ok? ==>
        && loadingOn
        && logins == old(logins) + [LoginAttempt(values.email, DefaultPassword, login)]
        && (login.Failed? ==>
              && r == LoginRejected
              && writes == old(writes)
              && toasts == old(toasts) + [ErrorToast(LoginErrorMessage)])
        && (login.Created? ==>
              && r == WriteStarted
              && writes == old(writes) + [Write(CollectionName, EmployeeRecord(values, UserRole), login.uid)]
              && toasts == old(toasts))
    {
      if !SubmitEnabled() {
        return Ignored;
      }
      match Validate(values, c)
      case Err(errs) =>
        r := Invalid(errs);
      case Ok(v) =>
        r := OnSubmit(v, login);
    }
  }

  // ---------------------------------------------------------------------
  // Whole runs of the form, from a fresh form
  // ---------------------------------------------------------------------

  /**
   * Values the schema refuses never start a submission: no login is
   * requested, nothing is written and the button stays enabled.
   */
  method RefusedValues(v: Values, c: Checks, login: LoginResult)
    returns (outcome: SubmitOutcome, attempts: seq<LoginAttempt>, written: seq<Write>, enabled: bool)
    requires Validate(v, c).Err?
    ensures outcome == Invalid(Validate(v, c).error)
    ensures attempts == [] && written == [] && enabled
  {
    var form := new FuncionarioForm();
    form.Edit(v);
    outcome := form.PressSubmit(c, login);
    attempts, written, enabled := form.logins, form.writes, form.SubmitEnabled();
  }

  /**
   * A successful run: one login for the form's email with the fixed
   * password, one write of the values with role `user` paired with the new
   * uid, then the form is reset, the listing is shown and the button is
   * enabled again.
   */
  method SuccessfulRun(v: Values, c: Checks, uid: string)
    returns (outcome: SubmitOutcome, attempts: seq<LoginAttempt>, written: seq<Write>,
             after: Values, route: seq<string>, enabled: bool)
    requires Validate(v, c).Ok?
    ensures outcome == WriteStarted
    ensures attempts == [LoginAttempt(v.email, "123456789", Created(uid))]
    ensures written == [Write("funcionarios", EmployeeRecord(v, "user"), uid)]
    ensures after == DefaultValues && route == ["/dashboard/funcionarios"] && enabled
  {
    var form := new FuncionarioForm();
    form.Edit(v);
    outcome := form.PressSubmit(c, Created(uid));
    form.OnWriteSuccess();
    attempts, written, after := form.logins, form.writes, form.values;
    route, enabled := form.navigations, form.SubmitEnabled();
  }

  /**
   * A login that cannot be created stops the submission before any write,
   * and leaves `loadingOn` set: the button stays disabled and the next
   * press does nothing.
   */
  method LoginFailureLocksForm(v: Values, c: Checks, retry: LoginResult)
    returns (first: SubmitOutcome, second: SubmitOutcome, attempts: seq<LoginAttempt>,
             written: seq<Write>, enabled: bool)
    requires Validate(v, c).Ok?
    ensures first == LoginRejected && second == Ignored
    ensures attempts == [LoginAttempt(v.email, DefaultPassword, Failed)]
    ensures written == [] && !enabled
  {
    var form := new FuncionarioForm();
    form.Edit(v);
    first := form.PressSubmit(c, Failed);
    second := form.PressSubmit(c, retry);
    attempts, written, enabled := form.logins, form.writes, form.SubmitEnabled();
  }

  /**
   * A write that fails after the login was created keeps the values, does
   * not navigate and enables the button; the created login is not undone,
   * and pressing again requests a second login for the same email.
   */
  method WriteFailureThenRetry(v: Values, c: Checks, uid: string, retry: LoginResult)
    returns (second: SubmitOutcome, attempts: seq<LoginAttempt>, written: seq<Write>,
             kept: Values, route: seq<string>)
    requires Validate(v, c).Ok?
    ensures attempts == [LoginAttempt(v.email, DefaultPassword, Created(uid)),
                         LoginAttempt(v.email, DefaultPassword, retry)]
    ensures kept == v && route == []
    ensures retry.Failed? ==> second == LoginRejected && |written| == 1
    ensures retry.Created? ==> second == WriteStarted && |written| == 2
  {
    var form := new FuncionarioForm();
    form.Edit(v);
    var first := form.PressSubmit(c, Created(uid));
    form.OnWriteError();
    second := form.PressSubmit(c, retry);
    attempts, written, kept, route := form.logins, form.writes, form.values, form.navigations;
  }
}
