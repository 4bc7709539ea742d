/**
 * What the two registration forms share: the seven inputs, the password checks in their
 * order, and the payload sent to the register endpoint. The page and the component differ
 * only in when they clear `loading`.
 */
module RegisterForms {
  import opened Wrappers
  import opened Validation

  datatype RegisterFormData = RegisterFormData(
    name: string,
    lastname: string,
    email: string,
    phone: string,
    birthdate: string,
    password: string,
    confirmPassword: string)

  const EmptyRegisterForm := RegisterFormData("", "", "", "", "", "", "")

  datatype RegisterField = Name | Lastname | Email | Phone | Birthdate | Password | ConfirmPassword

  function FieldValue(form: RegisterFormData, field: RegisterField): string {
    match field
    case Name => form.name
    case Lastname => form.lastname
    case Email => form.email
    case Phone => form.phone
    case Birthdate => form.birthdate
    case Password => form.password
    case ConfirmPassword => form.confirmPassword
  }

  /** `handleChange`: `[e.target.name]: e.target.value`. */
  function Edited(form: RegisterFormData, field: RegisterField, value: string): (r: RegisterFormData)
    ensures FieldValue(r, field) == value
    ensures forall other :: other != field ==> FieldValue(r, other) == FieldValue(form, other)
  {
    match field
    case Name => form.(name := value)
    case Lastname => form.(lastname := value)
    case Email => form.(email := value)
    case Phone => form.(phone := value)
    case Birthdate => form.(birthdate := value)
    case Password => form.(password := value)
    case ConfirmPassword => form.(confirmPassword := value)
  }

  const MismatchMessage := "Las contraseñas no coinciden"
  const ShortPasswordMessage := "La contraseña debe tener al menos 6 caracteres"
  const SuccessMessage := "¡Cuenta creada exitosamente! Redirigiendo al login..."
  const RegisterFallback := "Error al registrarse. Intenta nuevamente."

  function PasswordChecks(form: RegisterFormData): seq<Check> {
    [
      Check(form.password == form.confirmPassword, MismatchMessage),
      Check(|form.password| >= 6, ShortPasswordMessage)
    ]
  }

  /** The first failing password check of `handleSubmit`, None when the form may be sent. */
  function PasswordFailure(form: RegisterFormData): (r: Option<string>)
    ensures r.None? <==> form.password == form.confirmPassword && |form.password| >= 6
  {
    var checks := PasswordChecks(form);
    assert (forall i :: 0 <= i < |checks| ==> checks[i].passes) <==> checks[0].passes && checks[1].passes;
    FirstFailure(checks)
  }

  /** A mismatch is told before the length, even when the password is also too short. */
  lemma MismatchBeforeLength(form: RegisterFormData)
    ensures form.password != form.confirmPassword ==> PasswordFailure(form) == Some(MismatchMessage)
    ensures form.password == form.confirmPassword && |form.password| < 6 ==>
      PasswordFailure(form) == Some(ShortPasswordMessage)
  {
    var checks := PasswordChecks(form);
    if form.password != form.confirmPassword {
      FirstFailureAt(checks, 0);
    } else if |form.password| < 6 {
      FirstFailureAt(checks, 1);
    }
  }

  /** `registerData`: the six profile fields and the customer role. */
  datatype RegisterPayload = RegisterPayload(
    name: string,
    lastname: string,
    email: string,
    phone: string,
    birthdate: string,
    password: string,
    role: int)

  function PayloadOf(form: RegisterFormData): RegisterPayload {
    RegisterPayload(form.name, form.lastname, form.email, form.phone, form.birthdate, form.password, 2)
  }

  /**
   * The payload copies the six profile fields, always asks for role 2, and does not depend
   * on the confirmation input.
   */
  lemma PayloadDropsConfirmation(form: RegisterFormData, confirm: string)
    ensures PayloadOf(form).role == 2
    ensures PayloadOf(form).name == form.name && PayloadOf(form).lastname == form.lastname
    ensures PayloadOf(form).email == form.email && PayloadOf(form).phone == form.phone
    ensures PayloadOf(form).birthdate == form.birthdate && PayloadOf(form).password == form.password
    ensures PayloadOf(Edited(form, ConfirmPassword, confirm)) == PayloadOf(form)
  {
  }

  /** Only the confirmation input can change whether a password passes the mismatch check. */
  lemma EditingProfileKeepsChecks(form: RegisterFormData, field: RegisterField, value: string)
    requires field != Password && field != ConfirmPassword
    ensures PasswordFailure(Edited(form, field, value)) == PasswordFailure(form)
  {
    var edited := Edited(form, field, value);
    assert edited.password == form.password && edited.confirmPassword == form.confirmPassword by {
      assert FieldValue(edited, Password) == FieldValue(form, Password);
      assert FieldValue(edited, ConfirmPassword) == FieldValue(form, ConfirmPassword);
    }
    assert PasswordChecks(edited) == PasswordChecks(form);
  }
}
