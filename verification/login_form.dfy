/** The sign-in form shared by customers and tailors: Google sign-in, or a
    phone number followed by a one-time code. A successful sign-in creates or
    refreshes the user's profile document and goes to the role's dashboard.
    The identity provider is an oracle: each handler receives the answer the
    provider gives to this call. */
module LoginForm {
  import opened JsValues
  import opened DocumentStore
  import opened UserActions
  import opened Ui

  /** `'phone' | 'otp'` */
  datatype Step = PhoneStep | OtpStep

  /** Seconds before a code may be requested again. */
  const ResendCooldownSeconds: int := 30

  /** What the Google popup gives: a user, or an error with its code. */
  datatype PopupResult = PopupUser(user: AuthProfile) | PopupError(code: string)

  /** What confirming the code gives: a result with a user, a result without
      one, or an error with its code (`""` when the error has none). */
  datatype Confirmation = Confirmed(user: AuthProfile) | NoUser | Rejected(code: string)

  const ExpiredDescription: string := "The OTP has expired. Please request a new one."
  const InvalidCodeDescription: string := "The verification code is invalid. Please try again."
  const IncorrectDescription: string := "The OTP is incorrect. Please try again."

  /** The description of a failed confirmation, chosen by the error code. */
  function OtpFailureDescription(code: string): string
  {
    if code == "auth/invalid-verification-code" then InvalidCodeDescription
    else if code == "auth/code-expired" then ExpiredDescription
    else IncorrectDescription
  }

  /** The three failure descriptions are distinct, so the toast tells the
      user which of the cases happened: an expired code, an invalid code, or
      anything else (a missing user included). */
  lemma FailureDescriptionsIdentifyCause(code: string)
    ensures OtpFailureDescription(code) == ExpiredDescription <==> code == "auth/code-expired"
    ensures OtpFailureDescription(code) == InvalidCodeDescription <==> code == "auth/invalid-verification-code"
    ensures OtpFailureDescription(code) == IncorrectDescription <==>
      code != "auth/code-expired" && code != "auth/invalid-verification-code"
  {
    assert |ExpiredDescription| != |InvalidCodeDescription|;
    assert |ExpiredDescription| != |IncorrectDescription|;
    assert |InvalidCodeDescription| != |IncorrectDescription|;
  }

  /** The caption of the resend button: plain while the button is usable,
      otherwise the remaining seconds, which read back as that number. */
  function ResendCaption(resendCooldown: nat): (caption: string)
    ensures resendCooldown == 0 <==> caption == "Resend OTP"
    ensures resendCooldown > 0 ==>
      && |caption| >= 16
      && caption[..14] == "Resend OTP in "
      && caption[|caption| - 1] == 's'
      && ParseNumber(caption[14..|caption| - 1]) == Some(resendCooldown as real)
  {
    if resendCooldown > 0 then
      var seconds := NatText(resendCooldown);
      var c := "Resend OTP in " + seconds + "s";
      assert c[14..|c| - 1] == seconds;
      ParseNumberOfNatText(resendCooldown);
      c
    else "Resend OTP"
  }

  const ProfileFailedToast: Toast :=
    Toast("Profile Creation Failed", "Could not create your user profile. Please try again.", true)
  const GoogleFailedToast: Toast :=
    Toast("Google Sign-In Failed", "Could not sign in with Google. Please try again.", true)
  const PhoneFailedToast: Toast :=
    Toast("Phone Sign-In Failed", "Could not send OTP. Please check the number and try again.", true)
  const NoConfirmationToast: Toast := Toast("Verification Failed", "Please request a new OTP.", true)

  function OtpSentToast(fullPhoneNumber: string): Toast
  {
    Toast("OTP Sent", "We've sent a verification code to " + fullPhoneNumber + ".", false)
  }

  class Form {
    const userType: Role
    var isLoading: bool
    var phone: string
    var otp: string
    var step: Step
    var resendCooldown: int
    /** The selected country's dialling prefix. */
    var dialCode: string
    /** Whether `window.confirmationResult` is set; it lives on the window and
        so outlasts the form. */
    var hasConfirmation: bool

    /** The cooldown stays within [0, 30]. */
    ghost predicate Valid()
      reads this
    {
      0 <= resendCooldown <= ResendCooldownSeconds
    }

    /** Whether the resend button is enabled. */
    predicate CanResend()
      reads this
    {
      !isLoading && resendCooldown == 0
    }

    constructor (userType: Role, dialCode: string, hasConfirmation: bool)
      ensures Valid()
      ensures this.userType == userType && this.dialCode == dialCode && this.hasConfirmation == hasConfirmation
      ensures !isLoading && phone == "" && otp == "" && step == PhoneStep && resendCooldown == 0
    {
      this.userType := userType;
      this.dialCode := dialCode;
      this.hasConfirmation := hasConfirmation;
      isLoading, phone, otp, step, resendCooldown := false, "", "", PhoneStep, 0;
    }

    /** One second of the cooldown timer: the effect schedules a decrement
        only while the cooldown is positive. */
    method Tick()
      requires Valid()
      modifies this`resendCooldown
      ensures Valid()
      ensures old(resendCooldown) > 0 ==> resendCooldown == old(resendCooldown) - 1
      ensures old(resendCooldown) == 0 ==> resendCooldown == 0
    {
      if resendCooldown > 0 {
        resendCooldown := resendCooldown - 1;
      }
    }

    /** Letting the timer run until it stops: it fires once per second of the
        cooldown, after which a code may be requested again unless a request
        is in flight. */
    method RunCooldown() returns (seconds: nat)
      requires Valid()
      modifies this`resendCooldown
      ensures Valid()
      ensures seconds == old(resendCooldown) && resendCooldown == 0
      ensures CanResend() <==> !isLoading
    {
      seconds := 0;
      while resendCooldown > 0
        invariant Valid()
        invariant seconds + resendCooldown == old(resendCooldown)
        decreases resendCooldown
      {
        Tick();
        seconds := seconds + 1;
      }
    }

    method SetPhone(value: string)
      modifies this`phone
      ensures phone == value
    {
      phone := value;
    }

    method SetOtp(value: string)
      modifies this`otp
      ensures otp == value
    {
      otp := value;
    }

    method SelectCountry(code: string)
      modifies this`dialCode
      ensures dialCode == code
    {
      dialCode := code;
    }

    /** `handlePhoneSignIn`, from the phone form (enabled while nothing is
        loading) or the resend button (see `Resend`). The number dialled is
        the country prefix followed by the typed number. When the code is
        sent, the code step opens with a fresh 30-second cooldown; when it is
        not, nothing but the toast changes. Loading always ends. */
    method PhoneSignIn(codeSent: bool) returns (dialled: string, toast: Toast)
      requires Valid() && !isLoading
      modifies this`isLoading, this`step, this`resendCooldown, this`hasConfirmation
      ensures Valid() && !isLoading
      ensures dialled == dialCode + phone
      ensures codeSent ==>
        step == OtpStep && resendCooldown == ResendCooldownSeconds && hasConfirmation &&
        toast == OtpSentToast(dialled)
      ensures !codeSent ==>
        step == old(step) && resendCooldown == old(resendCooldown) &&
        hasConfirmation == old(hasConfirmation) && toast == PhoneFailedToast
    {
      isLoading := true;
      var fullPhoneNumber := dialCode + phone;
      dialled := fullPhoneNumber;
      if codeSent {
        hasConfirmation := true;
        step := OtpStep;
        resendCooldown := ResendCooldownSeconds;
        toast := OtpSentToast(fullPhoneNumber);
      } else {
        toast := PhoneFailedToast;
      }
      isLoading := false;
    }

    /** The resend button: enabled only when nothing is loading and the
        cooldown has run out; it requests a new code for the same number. */
    method Resend(codeSent: bool) returns (dialled: string, toast: Toast)
      requires Valid() && step == OtpStep && CanResend()
      modifies this`isLoading, this`step, this`resendCooldown, this`hasConfirmation
      ensures Valid() && !isLoading && step == OtpStep
      ensures dialled == dialCode + phone
      ensures codeSent ==> resendCooldown == ResendCooldownSeconds && toast == OtpSentToast(dialled)
      ensures !codeSent ==> resendCooldown == 0 && toast == PhoneFailedToast
      ensures codeSent ==> hasConfirmation
      ensures !codeSent ==> hasConfirmation == old(hasConfirmation)
    {
      dialled, toast := PhoneSignIn(codeSent);
    }

    /** The "Back" link under the code input: back to the phone step; the
        pending code and the cooldown are kept. */
    method Back()
      requires !isLoading
      modifies this`step
      ensures step == PhoneStep
    {
      step := PhoneStep;
    }

    /** `handleSuccessfulLogin`: the profile is created (or refreshed) for the
        form's role; on success the route is the role's dashboard and the form
        stays loading while it navigates; on failure loading ends with a
        toast. */
    method SuccessfulLogin(user: AuthProfile, db: Database, writeFails: bool)
      returns (route: Option<string>, toast: Option<Toast>)
      requires Valid()
      modifies this`isLoading, db
      ensures Valid()
      ensures var ok := user.uid != "" && !writeFails;
        && (ok ==>
              route == Some(Dashboard(userType)) && toast.None? && isLoading == old(isLoading) &&
              db.docs == MergeWrite(old(db.docs), CollectionFor(RoleName(userType)), user.uid,
                                    CreatePayload(user, RoleName(userType))))
        && (!ok ==> route.None? && toast == Some(ProfileFailedToast) && !isLoading && db.docs == old(db.docs))
    {
      var r := CreateUserProfile(db, user, RoleName(userType), writeFails);
      if r.Done? {
        route, toast := Some(Dashboard(userType)), None;
      } else {
        route, toast := None, Some(ProfileFailedToast);
        isLoading := false;
      }
    }

    /** `handleGoogleSignIn`: a popup user signs in as above, so the profile
        is written exactly when the dashboard route is taken; a popup error
        ends loading, with a toast unless the user closed the popup, and
        writes nothing. */
    method GoogleSignIn(popup: PopupResult, db: Database, writeFails: bool)
      returns (route: Option<string>, toast: Option<Toast>)
      requires Valid() && !isLoading
      modifies this`isLoading, db
      ensures Valid()
      ensures popup.PopupError? ==> route.None? && !isLoading && db.docs == old(db.docs)
      ensures popup.PopupError? ==> (toast.None? <==> popup.code == "auth/popup-closed-by-user")
      ensures popup.PopupError? && toast.Some? ==> toast.value == GoogleFailedToast
      ensures popup.PopupUser? ==> (route.Some? <==> popup.user.uid != "" && !writeFails)
      ensures popup.PopupUser? && route.Some? ==> route.value == Dashboard(userType) && isLoading && toast.None?
      ensures popup.PopupUser? && route.None? ==> !isLoading && toast == Some(ProfileFailedToast)
      ensures popup.PopupUser? && route.Some? ==>
        db.docs == MergeWrite(old(db.docs), CollectionFor(RoleName(userType)), popup.user.uid,
                              CreatePayload(popup.user, RoleName(userType)))
      ensures route.None? ==> db.docs == old(db.docs)
    {
      isLoading := true;
      match popup
      case PopupUser(user) =>
        route, toast := SuccessfulLogin(user, db, writeFails);
      case PopupError(code) =>
        route := None;
        if code != "auth/popup-closed-by-user" {
          toast := Some(GoogleFailedToast);
        } else {
          toast := None;
        }
        isLoading := false;
    }

    /** `handleOtpSubmit`, from the code form (enabled while nothing is
        loading). Without a pending confirmation the form goes back to the
        phone step. A confirmed user signs in; any other answer ends loading
        with a description chosen by the error code, and an invalid code also
        clears the typed code. */
    method OtpSubmit(answer: Confirmation, db: Database, writeFails: bool)
      returns (route: Option<string>, toast: Option<Toast>)
      requires Valid() && !isLoading
      modifies this`isLoading, this`step, this`otp, db
      ensures Valid()
      ensures !hasConfirmation ==>
        route.None? && toast == Some(NoConfirmationToast) && step == PhoneStep && !isLoading &&
        otp == old(otp) && db.docs == old(db.docs)
      ensures hasConfirmation ==> step == old(step)
      ensures hasConfirmation && answer.Confirmed? ==>
        (route.Some? <==> answer.user.uid != "" && !writeFails) && otp == old(otp) &&
        (route.Some? ==>
           route.value == Dashboard(userType) && isLoading && toast.None? &&
           db.docs == MergeWrite(old(db.docs), CollectionFor(RoleName(userType)), answer.user.uid,
                                 CreatePayload(answer.user, RoleName(userType)))) &&
        (route.None? ==> !isLoading && toast == Some(ProfileFailedToast) && db.docs == old(db.docs))
      ensures hasConfirmation && !answer.Confirmed? ==>
        var code := if answer.Rejected? then answer.code else "";
        route.None? && !isLoading && db.docs == old(db.docs) &&
        toast == Some(Toast("OTP Verification Failed", OtpFailureDescription(code), true)) &&
        (code == "auth/invalid-verification-code" ==> otp == "") &&
        (code != "auth/invalid-verification-code" ==> otp == old(otp))
    {
      if !hasConfirmation {
        toast := Some(NoConfirmationToast);
        step := PhoneStep;
        return None, toast;
      }
      isLoading := true;
      match answer
      case Confirmed(user) =>
        route, toast := SuccessfulLogin(user, db, writeFails);
      case NoUser =>
        route, toast := None, Some(Toast("OTP Verification Failed", IncorrectDescription, true));
        isLoading := false;
      case Rejected(code) =>
        var description := IncorrectDescription;
        if code == "auth/code-expired" {
          description := ExpiredDescription;
        }
        if code == "auth/invalid-verification-code" {
          description := InvalidCodeDescription;
          otp := "";
        }
        route, toast := None, Some(Toast("OTP Verification Failed", description, true));
        isLoading := false;
    }
  }

  /** Sending a code and confirming it signs the user in: the profile is
      written and the route is the dashboard of the form's role. */
  method SendAndConfirm(userType: Role, dialCode: string, number: string, user: AuthProfile, db: Database)
    returns (route: Option<string>)
    requires user.uid != ""
    modifies db
    ensures route == Some(Dashboard(userType))
    ensures GetDoc(db.docs, CollectionFor(RoleName(userType)), user.uid).Some?
  {
    var form := new Form(userType, dialCode, false);
    form.SetPhone(number);
    var dialled, sent := form.PhoneSignIn(true);
    var toast;
    route, toast := form.OtpSubmit(Confirmed(user), db, false);
  }
}
