/**
 * The user request schemas: a password is 8 to 32 characters long, a
 * registration repeats it in a confirmation field that must match, and a
 * password change carries an old and a new password under the same bound.
 */
module UserSchemas {
  import opened Wrappers
  import opened Helpers

  const MIN_PASSWORD_LENGTH := 8
  const MAX_PASSWORD_LENGTH := 32

  predicate PasswordLengthOk(p: string) {
    MIN_PASSWORD_LENGTH <= |p| <= MAX_PASSWORD_LENGTH
  }

  /** The length constraint of one password field, reported against that field. */
  function CheckLength(field: string, p: string): (r: Option<ValidationError>)
    ensures r.None? <==> PasswordLengthOk(p)
    ensures r.Some? ==> r.value.field == field
  {
    if |p| < MIN_PASSWORD_LENGTH then Some(ValidationError(field, "String should have at least 8 characters"))
    else if |p| > MAX_PASSWORD_LENGTH then Some(ValidationError(field, "String should have at most 32 characters"))
    else None
  }

  /** The email and password fields of a validated registration body. */
  datatype BaseUser = BaseUser(email: string, password: string)

  /** A validated registration body. */
  datatype CreateUser = CreateUser(email: string, password: string, confirmPassword: string)

  /** A validated password-change body. */
  datatype ChangePassword = ChangePassword(oldPassword: string, newPassword: string)

  /**
   * The email and password fields that every registration body carries:
   * the password must be 8 to 32 characters long.
   */
  function ParseBaseUser(email: string, password: string): (r: Result<BaseUser, ValidationError>)
    ensures r.Success? <==> PasswordLengthOk(password)
    ensures r.Success? ==> r.value == BaseUser(email, password)
    ensures r.Failure? ==> r.error.field == "password"
  {
    match CheckLength("password", password)
    case Some(e) => Failure(e)
    case None => Success(BaseUser(email, password))
  }

  /**
   * A registration passes when both passwords are 8..32 characters long and
   * equal; the field constraints are checked first, and matching lengths
   * with different passwords give "passwords do not match". A body that
   * passes comes back unchanged.
   */
  function ParseCreateUser(email: string, password: string, confirmPassword: string): (r: Result<CreateUser, ValidationError>)
    ensures r.Success? <==> PasswordLengthOk(password) && PasswordLengthOk(confirmPassword) && password == confirmPassword
    ensures r.Success? ==> r.value == CreateUser(email, password, confirmPassword)
    ensures PasswordLengthOk(password) && PasswordLengthOk(confirmPassword) && password != confirmPassword ==>
              r == Failure(ValidationError("", "passwords do not match"))
    ensures !PasswordLengthOk(password) ==> r.Failure? && r.error.field == "password"
  {
    match ParseBaseUser(email, password)
    case Failure(e) => Failure(e)
    case Success(base) =>
      match CheckLength("confirm_password", confirmPassword)
      case Some(e) => Failure(e)
      case None => CheckPasswordsMatch(CreateUser(base.email, base.password, confirmPassword))
  }

  /** The model-level check that runs once both fields are valid. */
  function CheckPasswordsMatch(u: CreateUser): (r: Result<CreateUser, ValidationError>)
    ensures r.Success? <==> u.password == u.confirmPassword
    ensures r.Success? ==> r.value == u
  {
    if u.password != u.confirmPassword then Failure(ValidationError("", "passwords do not match"))
    else Success(u)
  }

  /** A password change passes when both passwords are 8..32 characters long. */
  function ParseChangePassword(oldPassword: string, newPassword: string): (r: Result<ChangePassword, ValidationError>)
    ensures r.Success? <==> PasswordLengthOk(oldPassword) && PasswordLengthOk(newPassword)
    ensures r.Success? ==> r.value == ChangePassword(oldPassword, newPassword)
  {
    match CheckLength("old_password", oldPassword)
    case Some(e) => Failure(e)
    case None =>
      match CheckLength("new_password", newPassword)
      case Some(e) => Failure(e)
      case None => Success(ChangePassword(oldPassword, newPassword))
  }

  /** The schema itself lets the new password equal the old one. */
  lemma SameOldAndNewPasswordPassesSchema(p: string)
    requires PasswordLengthOk(p)
    ensures ParseChangePassword(p, p) == Success(ChangePassword(p, p))
  {
  }
}
