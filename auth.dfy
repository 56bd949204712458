/**
 * The login / sign-up screen: role normalisation, the phone OTP flow, the
 * email login and the registration form, and the mode toggle that resets it.
 */
module Auth {
  import opened Wrappers
  import opened Text
  import opened Api

  /** `preferredRole?.uppercase()`. */
  function NormalizeRole(preferredRole: Option<string>): (r: Option<string>)
    ensures r.None? <==> preferredRole.None?
    ensures r.Some? ==> r.value == Uppercase(preferredRole.value)
    ensures r.Some? ==> |r.value| == |preferredRole.value| && Uppercase(r.value) == r.value
  {
    match preferredRole
    case None => None
    case Some(p) => UppercaseIdempotent(p); Some(Uppercase(p))
  }

  /** `normalizedPreferredRole == "CUSTOMER" || normalizedPreferredRole == "LABOUR"`. */
  predicate RoleLocked(normalized: Option<string>) {
    normalized == Some("CUSTOMER") || normalized == Some("LABOUR")
  }

  /** `normalizedPreferredRole ?: "CUSTOMER"`: the role the form starts with and returns to. */
  function InitialRole(normalized: Option<string>): (role: string)
    ensures normalized.None? ==> role == "CUSTOMER"
    ensures normalized.Some? ==> role == normalized.value
  {
    normalized.GetOr("CUSTOMER")
  }

  /** The role is locked exactly when the preferred role names a customer or a labour provider, in any case. */
  lemma RoleLockedIgnoresCase(preferredRole: Option<string>)
    ensures RoleLocked(NormalizeRole(preferredRole)) <==>
      preferredRole.Some? && (EqualsIgnoreCase(preferredRole.value, "CUSTOMER") || EqualsIgnoreCase(preferredRole.value, "LABOUR"))
  {
    if preferredRole.Some? {
      assert IsUppercase("CUSTOMER") by { assert "CUSTOMER" == ['C', 'U', 'S', 'T', 'O', 'M', 'E', 'R']; }
      assert IsUppercase("LABOUR") by { assert "LABOUR" == ['L', 'A', 'B', 'O', 'U', 'R']; }
      UppercaseIsUppercase("CUSTOMER");
      UppercaseIsUppercase("LABOUR");
      UppercaseMatchesIgnoreCase(preferredRole.value, "CUSTOMER");
      UppercaseMatchesIgnoreCase(preferredRole.value, "LABOUR");
    }
  }

  /** A locked form always registers the preferred role, which is one of the two account types. */
  lemma LockedRoleIsPreferred(normalized: Option<string>)
    requires RoleLocked(normalized)
    ensures InitialRole(normalized) == normalized.value
    ensures InitialRole(normalized) == "CUSTOMER" || InitialRole(normalized) == "LABOUR"
  {
  }

  /** Why a submit stopped before a request was sent (one per warning toast). */
  datatype AuthError =
    | PhoneMissing     // "Please enter your phone number"
    | OtpNotSent       // "Please send OTP first"
    | InvalidOtp       // "Please enter a valid 6-digit OTP"
    | MissingFields    // "Please fill in all fields"
    | PasswordMismatch // "Passwords do not match"

  /** What the main button does, by mode. */
  datatype PrimaryAction = VerifyOtpAction | EmailLogin | SignUp

  function PrimaryActionOf(isLoginMode: bool, usePhoneLogin: bool): (a: PrimaryAction)
    ensures a.SignUp? <==> !isLoginMode
    ensures a.VerifyOtpAction? <==> isLoginMode && usePhoneLogin
  {
    if isLoginMode then (if usePhoneLogin then VerifyOtpAction else EmailLogin) else SignUp
  }

  /** Send-OTP: a blank number sends nothing; otherwise the number is sent as typed. */
  function SendOtpCheck(phoneNumber: string): (r: Result<SendOtpRequest, AuthError>)
    ensures r.Failure? <==> IsBlank(phoneNumber)
    ensures r.Failure? ==> r.error == PhoneMissing
    ensures r.Success? ==> r.value.phoneNumber == phoneNumber
  {
    if IsBlank(phoneNumber) then Failure(PhoneMissing) else Success(SendOtpRequest(phoneNumber))
  }

  /**
   * Verify-OTP, checked in order: an OTP must have been sent, then the code
   * must be non-blank and six UTF-16 code units long (Kotlin's `length`).
   */
  function VerifyOtpCheck(otpSent: bool, otpCode: string, phoneNumber: string): (r: Result<VerifyOtpRequest, AuthError>)
    ensures r == Failure(OtpNotSent) <==> !otpSent
    ensures r == Failure(InvalidOtp) <==> otpSent && (IsBlank(otpCode) || Utf16Length(otpCode) != 6)
    ensures r.Success? <==> otpSent && Utf16Length(otpCode) == 6 && !IsBlank(otpCode)
    ensures r.Success? ==> r.value == VerifyOtpRequest(phoneNumber, otpCode) && 3 <= |otpCode| <= 6
  {
    if !otpSent then Failure(OtpNotSent)
    else if IsBlank(otpCode) || Utf16Length(otpCode) != 6 then Failure(InvalidOtp)
    else Success(VerifyOtpRequest(phoneNumber, otpCode))
  }

  /** Email login: both fields must be non-blank; they are sent untrimmed. */
  function LoginCheck(email: string, password: string): (r: Result<LoginRequest, AuthError>)
    ensures r.Failure? <==> IsBlank(email) || IsBlank(password)
    ensures r.Failure? ==> r.error == MissingFields
    ensures r.Success? ==> r.value.email == email && r.value.password == password
  {
    if IsBlank(email) || IsBlank(password) then Failure(MissingFields)
    else Success(LoginRequest(email, password))
  }

  /**
   * Sign-up, checked in order: no blank field, then matching passwords. The
   * request carries the selected role, and a blank image URL as `null`.
   */
  function RegisterCheck(name: string, email: string, password: string, confirmPassword: string,
                         selectedRole: string, profileImageUrl: string): (r: Result<RegisterRequest, AuthError>)
    ensures r == Failure(MissingFields) <==>
      IsBlank(name) || IsBlank(email) || IsBlank(password) || IsBlank(confirmPassword)
    ensures r == Failure(PasswordMismatch) <==>
      !IsBlank(name) && !IsBlank(email) && !IsBlank(password) && !IsBlank(confirmPassword) && password != confirmPassword
    ensures r.Success? ==> r.value.name == name && r.value.email == email
    ensures r.Success? ==> r.value.password == password && password == confirmPassword
    ensures r.Success? ==> r.value.role == Some(selectedRole)
    ensures r.Success? ==> r.value.profileImageUrl == IfBlankNull(profileImageUrl)
  {
    if IsBlank(name) || IsBlank(email) || IsBlank(password) || IsBlank(confirmPassword) then Failure(MissingFields)
    else if password != confirmPassword then Failure(PasswordMismatch)
    else Success(RegisterRequest(name, email, password, Some(selectedRole), IfBlankNull(profileImageUrl)))
  }

  /** The four values handed to `onLoginSuccess`. */
  datatype Session = Session(name: Option<string>, email: Option<string>, token: Option<string>, role: Option<string>)

  /** A login or OTP reply calls `onLoginSuccess(body.name, body.email, body.token, body.role)` exactly when it is confirmed. */
  function SessionOf(reply: Call<AuthResponse>): (s: Option<Session>)
    ensures s.Some? <==> Confirmed(reply)
    ensures s.Some? ==> var d := reply.body.value.payload;
      s.value.name == d.name && s.value.email == d.email && s.value.token == d.token && s.value.role == d.role
  {
    if Confirmed(reply) then
      var d := reply.body.value.payload;
      Some(Session(d.name, d.email, d.token, d.role))
    else None
  }

  /** The plain text fields of the screen, each set to whatever is typed. */
  datatype TextField = PhoneNumber | Name | ProfileImageUrl | Email | Password | ConfirmPassword

  /** The screen's remembered state (`AuthScreen.kt` lines 66-86). */
  class AuthScreen {
    const preferredRole: Option<string>
    const normalizedPreferredRole: Option<string>
    const isRoleLocked: bool

    var isLoginMode: bool
    var usePhoneLogin: bool
    var name: string
    var email: string
    var password: string
    var confirmPassword: string
    var profileImageUrl: string
    var phoneNumber: string
    var otpCode: string
    var otpSent: bool
    var passwordVisible: bool
    var confirmPasswordVisible: bool
    var isLoading: bool
    var isSendingOtp: bool
    var selectedRole: string

    /**
     * The OTP never exceeds six UTF-16 code units, phone login and a sent OTP
     * occur only in login mode, a locked role cannot be changed, and no
     * request is in flight between handlers.
     */
    ghost predicate Valid()
      reads this
    {
      && Utf16Length(otpCode) <= 6
      && (usePhoneLogin ==> isLoginMode)
      && (otpSent ==> isLoginMode)
      && (isRoleLocked ==> normalizedPreferredRole.Some? && selectedRole == normalizedPreferredRole.value)
      && !isLoading && !isSendingOtp
    }

    constructor (preferredRole: Option<string>)
      ensures Valid()
      ensures this.preferredRole == preferredRole
      ensures normalizedPreferredRole == NormalizeRole(preferredRole)
      ensures isRoleLocked == RoleLocked(normalizedPreferredRole)
      ensures selectedRole == InitialRole(NormalizeRole(preferredRole))
      ensures isLoginMode && !usePhoneLogin && !otpSent && !passwordVisible && !confirmPasswordVisible
      ensures name == "" && email == "" && password == "" && confirmPassword == ""
      ensures profileImageUrl == "" && phoneNumber == "" && otpCode == ""
    {
      this.preferredRole := preferredRole;
      normalizedPreferredRole := NormalizeRole(preferredRole);
      isRoleLocked := RoleLocked(NormalizeRole(preferredRole));
      isLoginMode := true;
      usePhoneLogin := false;
      name := "";
      email := "";
      password := "";
      confirmPassword := "";
      profileImageUrl := "";
      phoneNumber := "";
      otpCode := "";
      otpSent := false;
      passwordVisible := false;
      confirmPasswordVisible := false;
      isLoading := false;
      isSendingOtp := false;
      selectedRole := InitialRole(NormalizeRole(preferredRole));
    }

    /**
     * Whether a plain text field is on screen and enabled: the phone number
     * only in phone login until an OTP is sent, email and password outside
     * phone login, and the other three only in sign-up mode.
     */
    predicate Editable(field: TextField)
      reads this
    {
      match field
      case PhoneNumber => isLoginMode && usePhoneLogin && !otpSent
      case Email | Password => !isLoginMode || !usePhoneLogin
      case Name | ProfileImageUrl | ConfirmPassword => !isLoginMode
    }

    /** Typing into a field on screen replaces its text and nothing else. */
    method Edit(field: TextField, value: string)
      requires Valid() && Editable(field)
      modifies this`phoneNumber, this`name, this`profileImageUrl, this`email, this`password, this`confirmPassword
      ensures Valid()
      ensures phoneNumber == if field == PhoneNumber then value else old(phoneNumber)
      ensures name == if field == Name then value else old(name)
      ensures profileImageUrl == if field == ProfileImageUrl then value else old(profileImageUrl)
      ensures email == if field == Email then value else old(email)
      ensures password == if field == Password then value else old(password)
      ensures confirmPassword == if field == ConfirmPassword then value else old(confirmPassword)
    {
      match field
      case PhoneNumber => phoneNumber := value;
      case Name => name := value;
      case ProfileImageUrl => profileImageUrl := value;
      case Email => email := value;
      case Password => password := value;
      case ConfirmPassword => confirmPassword := value;
    }

    /**
     * The OTP field, shown in phone login once an OTP is sent, accepts an
     * edit only up to six UTF-16 code units.
     */
    method EditOtpCode(value: string)
      requires Valid() && isLoginMode && usePhoneLogin && otpSent
      modifies this`otpCode
      ensures Valid()
      ensures otpCode == if Utf16Length(value) <= 6 then value else old(otpCode)
    {
      if Utf16Length(value) <= 6 {
        otpCode := value;
      }
    }

    /** "Change Phone Number", shown under the OTP field: back to the send step with an empty code. */
    method ChangeNumber()
      requires Valid() && isLoginMode && usePhoneLogin && otpSent
      modifies this`otpSent, this`otpCode
      ensures Valid() && !otpSent && otpCode == ""
    {
      otpSent := false;
      otpCode := "";
    }

    /** The "Email" / "Phone" login-method buttons, shown only in login mode. */
    method SelectLoginMethod(phone: bool)
      requires Valid() && isLoginMode
      modifies this`usePhoneLogin
      ensures Valid() && usePhoneLogin == phone
    {
      usePhoneLogin := phone;
    }

    /** The account-type buttons, shown only in sign-up mode when the role is not locked. */
    method SelectRole(role: string)
      requires Valid() && !isLoginMode && !isRoleLocked
      requires role == "CUSTOMER" || role == "LABOUR"
      modifies this`selectedRole
      ensures Valid() && selectedRole == role
    {
      selectedRole := role;
    }

    /** The "Send OTP" button of the phone form, shown until an OTP has been sent. */
    method SendOtp(reply: Call<OtpResponse>) returns (sent: Result<SendOtpRequest, AuthError>)
      requires Valid() && isLoginMode && usePhoneLogin && !otpSent
      modifies this`otpSent, this`isSendingOtp
      ensures Valid()
      ensures sent == SendOtpCheck(phoneNumber)
      ensures otpSent <==> sent.Success? && Confirmed(reply)
    {
      sent := SendOtpCheck(phoneNumber);
      if sent.Success? {
        isSendingOtp := true;
        if Confirmed(reply) {
          otpSent := true;
        }
        isSendingOtp := false;
      }
    }

    /** The main button in phone mode: verify the OTP and log in. */
    method VerifyOtp(reply: Call<AuthResponse>) returns (sent: Result<VerifyOtpRequest, AuthError>, session: Option<Session>)
      requires Valid() && PrimaryActionOf(isLoginMode, usePhoneLogin) == VerifyOtpAction
      modifies this`otpSent, this`otpCode, this`phoneNumber, this`isLoading
      ensures Valid()
      ensures sent == VerifyOtpCheck(old(otpSent), old(otpCode), old(phoneNumber))
      ensures session == if sent.Success? then SessionOf(reply) else None
      ensures session.Some? ==> !otpSent && otpCode == "" && phoneNumber == ""
      ensures session.None? ==> otpSent == old(otpSent) && otpCode == old(otpCode) && phoneNumber == old(phoneNumber)
    {
      sent := VerifyOtpCheck(otpSent, otpCode, phoneNumber);
      session := None;
      if sent.Success? {
        isLoading := true;
        session := SessionOf(reply);
        if session.Some? {
          otpSent := false;
          otpCode := "";
          phoneNumber := "";
        }
        isLoading := false;
      }
    }

    /** The main button in email mode: log in; the fields are kept whatever the outcome. */
    method Login(reply: Call<AuthResponse>) returns (sent: Result<LoginRequest, AuthError>, session: Option<Session>)
      requires Valid() && PrimaryActionOf(isLoginMode, usePhoneLogin) == EmailLogin
      modifies this`isLoading
      ensures Valid()
      ensures sent == LoginCheck(email, password)
      ensures session == if sent.Success? then SessionOf(reply) else None
    {
      sent := LoginCheck(email, password);
      session := None;
      if sent.Success? {
        isLoading := true;
        session := SessionOf(reply);
        isLoading := false;
      }
    }

    /**
     * The main button in sign-up mode. A confirmed registration switches to
     * login mode and clears the four account fields; the image URL stays.
     */
    method Register(reply: Call<AuthResponse>) returns (sent: Result<RegisterRequest, AuthError>)
      requires Valid() && PrimaryActionOf(isLoginMode, usePhoneLogin) == SignUp
      modifies this`isLoginMode, this`name, this`email, this`password, this`confirmPassword, this`isLoading
      ensures Valid()
      ensures sent == RegisterCheck(old(name), old(email), old(password), old(confirmPassword), selectedRole, profileImageUrl)
      ensures sent.Success? && Confirmed(reply) ==>
        isLoginMode && !usePhoneLogin && name == "" && email == "" && password == "" && confirmPassword == ""
      ensures !(sent.Success? && Confirmed(reply)) ==>
        !isLoginMode && name == old(name) && email == old(email) && password == old(password)
        && confirmPassword == old(confirmPassword)
    {
      sent := RegisterCheck(name, email, password, confirmPassword, selectedRole, profileImageUrl);
      if sent.Success? {
        isLoading := true;
        if Confirmed(reply) {
          isLoginMode := true;
          name := "";
          email := "";
          password := "";
          confirmPassword := "";
        }
        isLoading := false;
      }
    }

    /** "Sign Up" / "Login" toggle: flip the mode and reset the whole form. */
    method ToggleMode()
      requires Valid()
      modifies this`isLoginMode, this`name, this`email, this`password, this`confirmPassword,
               this`profileImageUrl, this`phoneNumber, this`otpCode, this`otpSent,
               this`passwordVisible, this`confirmPasswordVisible, this`selectedRole, this`usePhoneLogin
      ensures Valid()
      ensures isLoginMode == !old(isLoginMode)
      ensures (name, email, password, confirmPassword, profileImageUrl, phoneNumber, otpCode)
           == ("", "", "", "", "", "", "")
      ensures (otpSent, passwordVisible, confirmPasswordVisible, usePhoneLogin) == (false, false, false, false)
      ensures selectedRole == InitialRole(normalizedPreferredRole)
    {
      isLoginMode := !isLoginMode;
      ClearFields();
      selectedRole := InitialRole(normalizedPreferredRole);
      usePhoneLogin := false;
    }

    /** The field resets of the mode toggle (`AuthScreen.kt` lines 712-721). */
    method ClearFields()
      modifies this`name, this`email, this`password, this`confirmPassword,
               this`profileImageUrl, this`phoneNumber, this`otpCode, this`otpSent,
               this`passwordVisible, this`confirmPasswordVisible
      ensures (name, email, password, confirmPassword, profileImageUrl, phoneNumber, otpCode)
           == ("", "", "", "", "", "", "")
      ensures (otpSent, passwordVisible, confirmPasswordVisible) == (false, false, false)
    {
      name := "";
      email := "";
      password := "";
      confirmPassword := "";
      profileImageUrl := "";
      phoneNumber := "";
      otpCode := "";
      otpSent := false;
      passwordVisible := false;
      confirmPasswordVisible := false;
    }
  }
}
