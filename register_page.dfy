/**
 * The registration page: the password checks, the register call (which also starts a
 * session when the reply carries a token) and the success message followed, after a
 * delay, by the move to `/login`. `loading` is cleared on every outcome.
 */
module RegisterPage {
  import opened Wrappers
  import opened Storage
  import opened ApiService
  import opened UserService
  import opened RegisterForms

  class RegisterPage {
    const store: LocalStorage
    var form: RegisterFormData
    var loading: bool
    var error: string
    var success: string
    /** The navigation the success path schedules with `setTimeout`. */
    var scheduledNavigation: Option<string>

    constructor (store: LocalStorage)
      ensures this.store == store
      ensures form == EmptyRegisterForm && !loading && error == "" && success == "" && scheduledNavigation.None?
    {
      this.store := store;
      form := EmptyRegisterForm;
      loading := false;
      error := "";
      success := "";
      scheduledNavigation := None;
    }

    /** `handleChange` */
    method HandleChange(field: RegisterField, value: string)
      modifies this`form
      ensures form == Edited(old(form), field, value)
    {
      form := Edited(form, field, value);
    }

    /**
     * `handleSubmit`, given the settled reply of the register endpoint. Returns the
     * payload sent, None when a password check failed.
     */
    method HandleSubmit(reply: Result<AuthResponse, ErrorBody>) returns (sent: Option<RegisterPayload>)
      modifies this`loading, this`error, this`success, this`scheduledNavigation, store
      ensures !loading
      ensures PasswordFailure(form).Some? ==>
        sent.None? && error == PasswordFailure(form).value && success == "" &&
        scheduledNavigation == old(scheduledNavigation) && store.items == old(store.items)
      ensures PasswordFailure(form).None? ==> sent == Some(PayloadOf(form))
      ensures PasswordFailure(form).None? && reply.Success? ==>
        error == "" && success == SuccessMessage && scheduledNavigation == Some("/login") &&
        store.items == AfterAuth(old(store.items), reply.value)
      ensures PasswordFailure(form).None? && reply.Failure? ==>
        error == MessageOr(reply.error, RegisterFallback) && success == "" &&
        scheduledNavigation == old(scheduledNavigation) && store.items == old(store.items)
    {
      var failure := PasswordFailure(form);
      loading := true;
      error := "";
      success := "";
      if failure.Some? {
        error := failure.value;
        loading := false;
        return None;
      }
      var payload := PayloadOf(form);
      sent := Some(payload);
      var r := Register(store, reply);
      match r {
        case Success(_) =>
          success := SuccessMessage;
          scheduledNavigation := Some("/login");
        case Failure(e) =>
          error := MessageOr(e, RegisterFallback);
      }
      loading := false;
    }
  }
}
