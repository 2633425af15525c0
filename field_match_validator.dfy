/**
 * `FieldMatchValidator`: the class-level `@FieldMatch` check on a registration request, that the
 * password and its repetition are equal.
 */
module FieldMatchValidator {
  import opened Types
  import opened Dto

  /** `isValid`: a null request is valid; otherwise the password must equal the repeated password.
      The password is dereferenced by `equals`, so a present request must carry one; the repeat may
      be null, and then the request is invalid. */
  function IsValid(dto: Option<UserRegistrationRequest>): (r: bool)
    requires dto.Some? ==> dto.value.password.Some?
    ensures dto.None? ==> r
    ensures dto.Some? ==> (r <==> dto.value.repeatPassword == dto.value.password)
  {
    match dto
    case None => true
    case Some(request) =>
      match request.repeatPassword
      case None => false
      case Some(repeat) => request.password.value == repeat
  }

  /** The verdict depends on the two password fields only: email, names and shipping address can
      change without changing it. */
  lemma VerdictIgnoresOtherFields(a: UserRegistrationRequest, b: UserRegistrationRequest)
    requires a.password.Some? && a.password == b.password && a.repeatPassword == b.repeatPassword
    ensures IsValid(Some(a)) == IsValid(Some(b))
  {
  }
}
