/** The registration page: the password pre-checks run before the sign-up call, and the
    mapping from the auth library's error code to the message shown. */
module Register {
  import opened Options
  import opened JsString

  const UserAlreadyExists := "USER_ALREADY_EXISTS"
  const AlreadyRegisteredText := "Email already registered. Please login instead."
  const GenericFailureText := "Registration failed. Please try again."
  const MismatchText := "Passwords do not match"
  const TooShortText := "Password must be at least 8 characters long"
  const CreatedText := "Account created successfully! Please login."
  const UnexpectedText := "An error occurred. Please try again."
  const MinPasswordLength := 8

  /** The property names every plain JavaScript object inherits from `Object.prototype`. */
  const ObjectPrototypeKeys: set<string> := {
    "constructor", "hasOwnProperty", "isPrototypeOf", "propertyIsEnumerable",
    "toLocaleString", "toString", "valueOf", "__proto__",
    "__defineGetter__", "__defineSetter__", "__lookupGetter__", "__lookupSetter__"}

  /** What `errorCodes[code]` yields: a message, or an inherited member (a function or the
      prototype object) that is not a message at all. */
  datatype Lookup = Text(message: string) | Inherited(member: string)

  /** `getErrorMessage` as written: `code in errorCodes` also holds for the inherited names,
      and then the inherited member is returned instead of a message. */
  function ErrorMessageAsWritten(code: string): (r: Lookup)
    ensures r.Inherited? <==> code in ObjectPrototypeKeys
    ensures r.Text? ==> r == Text(ErrorMessage(code))
  {
    if code == UserAlreadyExists then Text(AlreadyRegisteredText)
    else if code in ObjectPrototypeKeys then Inherited(code)
    else Text(GenericFailureText)
  }

  /** The code "toString" gets `Object.prototype.toString` back, not a message. */
  lemma InheritedCodeGivesNoMessage()
    ensures ErrorMessageAsWritten("toString").Inherited?
    ensures ErrorMessageAsWritten("toString") != Text(ErrorMessage("toString"))
  {
    assert "toString" in ObjectPrototypeKeys;
  }

  /** `getErrorMessage` looking up own keys only: the mapped text for the one known code and
      the generic text for every other code. */
  function ErrorMessage(code: string): (r: string)
    ensures r == AlreadyRegisteredText <==> code == UserAlreadyExists
    ensures r == GenericFailureText <==> code != UserAlreadyExists
  {
    if code == UserAlreadyExists then AlreadyRegisteredText else GenericFailureText
  }

  /** The two lookups agree on every code that is not an inherited name. */
  lemma LookupsAgreeOffPrototype(code: string)
    requires code !in ObjectPrototypeKeys
    ensures ErrorMessageAsWritten(code) == Text(ErrorMessage(code))
  {
  }

  /** `password.length`: JavaScript counts UTF-16 code units, so a code point above U+FFFF
      counts twice and a password of code points below it counts each once. */
  function Utf16Length(s: string): (n: nat)
    ensures |s| <= n <= 2 * |s|
    ensures n == |s| <==> forall i :: 0 <= i < |s| ==> s[i] as int < 0x1_0000
    decreases |s|
  {
    if |s| == 0 then 0
    else |Utf16(s[0])| + Utf16Length(s[1..])
  }

  datatype RegisterForm = RegisterForm(name: string, email: string, password: string, confirmPassword: string)

  /** What `authClient.signUp.email` came back with: no error, an error object whose `code`
      may be missing, or a thrown exception. */
  datatype SignUpReply = Created | Rejected(code: Option<string>) | Threw

  datatype Toast = ErrorToast(text: string) | SuccessToast(text: string)

  /** The visible effect of one submit: the toast, whether sign-up was called, the loading
      flag afterwards, and whether the page moves to the login screen. */
  datatype SubmitResult = SubmitResult(toast: Toast, signUpCalled: bool, loading: bool, toLogin: bool)

  /** `error?.code` is truthy: the code is present and not empty. */
  predicate HasCode(reply: SignUpReply) {
    reply.Rejected? && reply.code.Some? && reply.code.value != ""
  }

  /** `handleSubmit`. `reply` is consulted only when sign-up is called; `wasLoading` is the
      loading flag before the submit, which the pre-checks leave alone. */
  function HandleSubmit(f: RegisterForm, wasLoading: bool, reply: SignUpReply): (r: SubmitResult)
    ensures r.signUpCalled <==> f.password == f.confirmPassword && Utf16Length(f.password) >= MinPasswordLength
    ensures f.password != f.confirmPassword ==> r.toast == ErrorToast(MismatchText) && r.loading == wasLoading
    ensures f.password == f.confirmPassword && Utf16Length(f.password) < MinPasswordLength ==>
      r.toast == ErrorToast(TooShortText) && r.loading == wasLoading
    ensures r.signUpCalled && HasCode(reply) ==>
      r.toast == ErrorToast(ErrorMessage(reply.code.value)) && !r.loading
    ensures r.toLogin <==> r.signUpCalled && !reply.Threw? && !HasCode(reply)
    ensures r.signUpCalled && reply.Threw? ==> r.toast == ErrorToast(UnexpectedText) && !r.loading
    ensures r.toLogin ==> r.toast == SuccessToast(CreatedText) && r.loading
  {
    if f.password != f.confirmPassword then SubmitResult(ErrorToast(MismatchText), false, wasLoading, false)
    else if Utf16Length(f.password) < MinPasswordLength then SubmitResult(ErrorToast(TooShortText), false, wasLoading, false)
    else if reply.Threw? then SubmitResult(ErrorToast(UnexpectedText), true, false, false)
    else if HasCode(reply) then SubmitResult(ErrorToast(ErrorMessage(reply.code.value)), true, false, false)
    else SubmitResult(SuccessToast(CreatedText), true, true, true)
  }

  /** A submit stopped by a pre-check never looks at the sign-up reply: any two replies give
      the same result, and whether sign-up is called does not depend on the reply. */
  lemma PreChecksIgnoreReply(f: RegisterForm, wasLoading: bool, a: SignUpReply, b: SignUpReply)
    ensures !HandleSubmit(f, wasLoading, a).signUpCalled ==>
      HandleSubmit(f, wasLoading, a) == HandleSubmit(f, wasLoading, b)
    ensures HandleSubmit(f, wasLoading, a).signUpCalled == HandleSubmit(f, wasLoading, b).signUpCalled
  {
  }
}
