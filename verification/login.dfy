/** `LoginViewModel`: form validity, the e-mail sign-in/sign-up action, the
    password-reset action and the byte-to-character step of the Sign in with
    Apple nonce. Auth and repository outcomes are inputs; the random bytes
    are a parameter. */
module Login {

  import opened Wrappers
  import opened Text
  import opened Profiles

  datatype LoginForm = LoginForm(
    email: string,
    password: string,
    selectedRole: UserRole,
    isSignUpMode: bool,
    isLoading: bool,
    errorMessage: Option<string>,
    showError: bool)

  /** The calls an action makes, in order. */
  datatype AuthCall =
    | SignIn(email: string, password: string)
    | SignUp(email: string, password: string)
    | CreateProfile(uid: string, email: string, role: UserRole)
    | ResetPassword(email: string)

  /** `isFormValid`: an e-mail and a password of at least six characters. */
  function IsFormValid(l: LoginForm): (b: bool)
    ensures b <==> |l.email| > 0 && |l.password| >= 6
  {
    l.email != [] && l.password != [] && |l.password| >= 6
  }

  /** `handlePrimaryAction(sessionViewModel:)`. An invalid form does nothing.
      Otherwise the stored message is cleared and the user signed in, or
      signed up; a sign-up that returns a uid then creates the profile with
      the selected role. Any failure's message is shown. `auth` is the
      sign-in or sign-up outcome (the new uid, or the error's message);
      `profile` is the profile write's outcome. */
  function HandlePrimaryAction(l: LoginForm, auth: Result<string, string>, profile: Outcome<string>)
    : (r: (LoginForm, seq<AuthCall>))
    ensures !IsFormValid(l) ==> r == (l, [])
    ensures IsFormValid(l) ==> !r.0.isLoading && |r.1| >= 1
    ensures IsFormValid(l) && !l.isSignUpMode ==> r.1 == [SignIn(l.email, l.password)]
    ensures IsFormValid(l) && l.isSignUpMode ==> r.1[0] == SignUp(l.email, l.password)
    ensures IsFormValid(l) && l.isSignUpMode ==>
              (|r.1| == 2 <==> auth.Success?) && |r.1| <= 2
    ensures IsFormValid(l) && auth.Failure? ==>
              r.0.errorMessage == Some(auth.error) && r.0.showError
    ensures IsFormValid(l) && auth.Success? && (!l.isSignUpMode || profile.Pass?) ==>
              r.0.errorMessage.None? && r.0.showError == l.showError
    ensures IsFormValid(l) && l.isSignUpMode && auth.Success? && profile.Fail? ==>
              r.0.errorMessage == Some(profile.error) && r.0.showError
  {
    if !IsFormValid(l) then (l, [])
    else
      var l := l.(isLoading := true, errorMessage := None);
      var first := if l.isSignUpMode then SignUp(l.email, l.password) else SignIn(l.email, l.password);
      var (calls, failure) :=
        match auth
        case Failure(message) => ([first], Some(message))
        case Success(uid) =>
          if !l.isSignUpMode then ([first], None)
          else
            var calls := [first, CreateProfile(uid, l.email, l.selectedRole)];
            (calls, if profile.Fail? then Some(profile.error) else None);
      var l := if failure.Some? then l.(errorMessage := failure, showError := true) else l;
      (l.(isLoading := false), calls)
  }

  /** A profile is created only by a sign-up the auth service accepted,
      right after it, with that uid, the form's e-mail and the selected
      role. */
  lemma ProfileOnlyAfterSignUp(l: LoginForm, auth: Result<string, string>, profile: Outcome<string>,
                               i: int)
    requires 0 <= i < |HandlePrimaryAction(l, auth, profile).1|
    requires HandlePrimaryAction(l, auth, profile).1[i].CreateProfile?
    ensures l.isSignUpMode && auth.Success? && i == 1
    ensures HandlePrimaryAction(l, auth, profile).1[0] == SignUp(l.email, l.password)
    ensures HandlePrimaryAction(l, auth, profile).1[i] == CreateProfile(auth.value, l.email, l.selectedRole)
  {
  }

  const ResetPrompt: string := "Please enter your email address."
  const ResetSent: string := "Password reset email sent. Please check your inbox."

  /** `sendPasswordReset()`. Without an e-mail only the prompt is shown and
      no call is made; otherwise the reset is requested and its outcome is
      shown either way. `reset` is the auth call's outcome. */
  function SendPasswordReset(l: LoginForm, reset: Outcome<string>): (r: (LoginForm, seq<AuthCall>))
    ensures r.0.showError
    ensures l.email == [] ==> r.1 == [] && r.0 == l.(errorMessage := Some(ResetPrompt), showError := true)
    ensures l.email != [] ==> r.1 == [ResetPassword(l.email)] && !r.0.isLoading
    ensures l.email != [] && reset.Pass? ==> r.0.errorMessage == Some(ResetSent)
    ensures l.email != [] && reset.Fail? ==> r.0.errorMessage == Some(reset.error)
  {
    if l.email == [] then (l.(errorMessage := Some(ResetPrompt), showError := true), [])
    else
      var message := if reset.Pass? then ResetSent else reset.error;
      (l.(errorMessage := Some(message), showError := true, isLoading := false), [ResetPassword(l.email)])
  }

  // ------------------------------------------------------------------ nonce

  const Digits: string := "0123456789"
  /** The upper-case letters of the nonce alphabet; 'W' is not among them. */
  const Upper: string := "ABCDEFGHIJKLMNOPQRSTUVXYZ"
  const Lower: string := "abcdefghijklmnopqrstuvwxyz"
  const Symbols: string := "-._"

  /** The 64-character nonce alphabet. */
  const Charset: string := Digits + Upper + Lower + Symbols

  /** The position of `c` in the alphabet, or -1. */
  function CharIndex(c: char): (i: int)
    ensures -1 <= i < 64
  {
    if '0' <= c <= '9' then c as int - '0' as int
    else if 'A' <= c <= 'V' then c as int - 'A' as int + 10
    else if 'X' <= c <= 'Z' then c as int - 'X' as int + 32
    else if 'a' <= c <= 'z' then c as int - 'a' as int + 35
    else if c == '-' then 61
    else if c == '.' then 62
    else if c == '_' then 63
    else -1
  }

  lemma UpperIndex(i: int)
    requires 0 <= i < |Upper|
    ensures CharIndex(Upper[i]) == i + 10
  {
  }

  lemma LowerIndex(i: int)
    requires 0 <= i < |Lower|
    ensures CharIndex(Lower[i]) == i + 35
  {
  }

  /** `CharIndex` inverts indexing into the alphabet, so its 64 characters
      are pairwise distinct. */
  lemma {:induction false} CharsetIndex(i: int)
    requires 0 <= i < |Charset|
    ensures |Charset| == 64
    ensures CharIndex(Charset[i]) == i
  {
    if i < 10 {
    } else if i < 35 {
      UpperIndex(i - 10);
    } else if i < 61 {
      LowerIndex(i - 35);
    }
  }

  /** The character a random byte becomes: the byte modulo the alphabet's
      size picks it. */
  function NonceChar(b: byte): (c: char)
  {
    Charset[b as int % 64]
  }

  /** A nonce character gives back its byte modulo 64, and is never 'W'. */
  lemma NonceCharDecodes(b: byte)
    ensures CharIndex(NonceChar(b)) == b as int % 64
    ensures NonceChar(b) != 'W'
  {
    CharsetIndex(b as int % 64);
  }

  /** The mapping step of `randomNonceString(length:)` over the bytes the
      system generator supplied: one alphabet character per byte, in order. */
  method Nonce(bytes: seq<byte>) returns (nonce: string)
    requires |bytes| > 0
    ensures |nonce| == |bytes|
    ensures forall i :: 0 <= i < |bytes| ==> nonce[i] == Charset[bytes[i] as int % 64]
    ensures forall i :: 0 <= i < |nonce| ==> nonce[i] != 'W'
  {
    nonce := [];
    var k := 0;
    while k < |bytes|
      invariant 0 <= k <= |bytes| && |nonce| == k
      invariant forall i :: 0 <= i < k ==> nonce[i] == NonceChar(bytes[i]) && nonce[i] != 'W'
    {
      NonceCharDecodes(bytes[k]);
      nonce := nonce + [NonceChar(bytes[k])];
      k := k + 1;
    }
  }
}
