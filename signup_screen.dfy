/** The sign-up screen's rules: when the mismatch warning shows, when the
    Create Account button is enabled and shown, and what it sends. */
module SignupScreen {
  import opened Common
  import opened Text
  import opened AuthModel
  import AuthViewModel

  /** The form's four fields. */
  datatype SignupForm = SignupForm(name: string, email: string, password: string, confirmPassword: string)

  /** `Passwords don't match`: both password fields typed in and
      different. */
  predicate MismatchWarning(f: SignupForm): (warn: bool)
    ensures warn ==> f.password != f.confirmPassword
    ensures f.password == "" || f.confirmPassword == "" ==> !warn
  {
    f.password != "" && f.confirmPassword != "" && f.password != f.confirmPassword
  }

  /** `isFormValid`: a name and an email, a password of at least six
      UTF-16 code units (Kotlin's `length`), and a matching confirmation. */
  function RegisterEnabled(f: SignupForm): (enabled: bool)
    ensures enabled ==> |f.password| >= 3 && f.password == f.confirmPassword
    ensures enabled <==> f.name != "" && f.email != "" && Utf16Length(f.password) >= 6 && f.password == f.confirmPassword
  {
    f.name != "" && f.email != "" && Utf16Length(f.password) >= 6 && f.password == f.confirmPassword
  }

  /** Six code units may be three characters: a password of three emoji
      typed twice enables the button. */
  lemma ThreeEmojiPasswordEnabled(f: SignupForm)
    requires f.name == "a" && f.email == "b"
    requires f.password == "\U{1F600}\U{1F600}\U{1F600}" && f.confirmPassword == f.password
    ensures |f.password| == 3 && RegisterEnabled(f)
  {
    var s := f.password;
    assert IsSupplementary(s[0]) && s[1..] == "\U{1F600}\U{1F600}";
    assert Utf16Length(s[1..][1..]) == 2;
    assert Utf16Length(s) == 6;
  }

  /** For passwords without characters outside the Basic Multilingual Plane
      the limit is six characters. */
  lemma BmpPasswordNeedsSixCharacters(f: SignupForm)
    requires forall i :: 0 <= i < |f.password| ==> !IsSupplementary(f.password[i])
    ensures RegisterEnabled(f) <==> f.name != "" && f.email != "" && |f.password| >= 6 && f.password == f.confirmPassword
  {
    Utf16LengthOfBmp(f.password);
  }

  /** The button is enabled only when no mismatch warning shows. */
  lemma EnabledMeansNoWarning(f: SignupForm)
    ensures RegisterEnabled(f) ==> !MismatchWarning(f)
    ensures MismatchWarning(f) ==> !RegisterEnabled(f)
  {
  }

  /** The warning does not cover every reason the button is disabled: a
      short password typed twice shows no warning and still disables it. */
  lemma ShortPasswordSilentlyDisabled(f: SignupForm)
    requires 0 < |f.password| && Utf16Length(f.password) < 6 && f.password == f.confirmPassword
    ensures !MismatchWarning(f) && !RegisterEnabled(f)
  {
  }

  /** The Create Account button is shown except while registering and once
      registered. */
  predicate ButtonShown(state: AuthViewModel.AuthState) {
    !state.Loading? && !state.Success?
  }

  /** What a click sends to `register`: the name, the email and the password;
      nothing when the button is disabled or not shown. */
  function RegisterClick(f: SignupForm, state: AuthViewModel.AuthState): (request: Option<RegisterRequest>)
    ensures request.Some? <==> ButtonShown(state) && RegisterEnabled(f)
    ensures request.Some? ==> request.value == RegisterRequest(f.name, f.email, f.password)
  {
    if ButtonShown(state) && RegisterEnabled(f) then Some(RegisterRequest(f.name, f.email, f.password)) else None
  }

  /** The confirmation only gates the click: it is never sent, and it is
      always the password that is. */
  lemma ConfirmationNotSent(f: SignupForm, state: AuthViewModel.AuthState)
    requires RegisterClick(f, state).Some?
    ensures RegisterClick(f, state).value.password == f.confirmPassword
    ensures Utf16Length(RegisterClick(f, state).value.password) >= 6
  {
  }
}
