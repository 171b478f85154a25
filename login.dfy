/**
 * The login flow of the farmers' learning app: the six-slot one-time-password
 * overlay (slot entry, focus movement, completeness, resend countdown) and the
 * guards of the login screen around sending and confirming the password.
 * Every awaited call to the authentication service is split at its `await`:
 * the handler's start is one method, its continuation another, and the
 * service's answer is a parameter of the continuation.
 */
module Login {
  import opened Wrappers

  const OTP_LENGTH: nat := 6
  const RESEND_SECONDS: nat := 30
  const PHONE_LENGTH: nat := 10
  const COUNTRY_CODE: string := "+91"
  const BACKSPACE: string := "Backspace"

  // ---------------------------------------------------------------------------
  // Pure helpers
  // ---------------------------------------------------------------------------

  /** `text.slice(-1)`: the last character, or the empty string. */
  function LastChar(text: string): (r: string)
    ensures |r| <= 1
    ensures r == "" <==> text == ""
    ensures r != "" ==> r[0] == text[|text| - 1]
  {
    if text == "" then "" else text[|text| - 1..]
  }

  /** `slots.join('')`: empty exactly when every slot is empty. */
  function Join(slots: seq<string>): (r: string)
    ensures r == "" <==> forall i :: 0 <= i < |slots| ==> slots[i] == ""
  {
    if slots == [] then "" else Join(slots[..|slots| - 1]) + slots[|slots| - 1]
  }

  predicate AllSingleChars(slots: seq<string>)
  {
    forall i :: 0 <= i < |slots| ==> |slots[i]| == 1
  }

  /** Joining one-character slots gives a code with one character per slot, in slot order. */
  lemma {:induction false} JoinOfSingleChars(slots: seq<string>)
    requires AllSingleChars(slots)
    ensures |Join(slots)| == |slots|
    ensures forall i :: 0 <= i < |slots| ==> Join(slots)[i] == slots[i][0]
  {
    if slots != [] {
      var init := slots[..|slots| - 1];
      JoinOfSingleChars(init);
    }
  }

  /** One countdown step: `prev > 0 ? prev - 1 : 0`. */
  function NextTimer(t: int): (r: int)
    ensures r >= 0
    ensures t > 0 ==> r == t - 1
    ensures t <= 0 ==> r == 0
  {
    if t > 0 then t - 1 else 0
  }

  /** The timer after `n` ticks. */
  function TimerAfter(t: int, n: nat): int
  {
    if n == 0 then t else NextTimer(TimerAfter(t, n - 1))
  }

  /** The countdown saturates: after `n` ticks from `t >= 0` it reads `t - n`, or 0
    * once `n >= t`, and it stays at 0 from then on. */
  lemma {:induction false} TicksSaturate(t: nat, n: nat)
    ensures TimerAfter(t, n) == if n >= t then 0 else t - n
  {
    if n > 0 {
      TicksSaturate(t, n - 1);
    }
  }

  /** After a resend restarts the countdown, the timer is still running for
    * 29 ticks and reads 0 from the 30th tick on. */
  lemma {:induction false} ResendCooldown(n: nat)
    ensures TimerAfter(RESEND_SECONDS, n) == 0 <==> n >= RESEND_SECONDS
    ensures n < RESEND_SECONDS ==> TimerAfter(RESEND_SECONDS, n) == RESEND_SECONDS - n
  {
    TicksSaturate(RESEND_SECONDS, n);
  }

  // ---------------------------------------------------------------------------
  // OtpOverlay
  // ---------------------------------------------------------------------------

  /** The state of the password overlay. */
  class OtpOverlay {
    var otp: seq<string>
    var timer: int
    var isResending: bool
    /** The slot whose input has the keyboard focus. */
    var focused: nat

    ghost predicate Valid()
      reads this
    {
      |otp| == OTP_LENGTH && 0 <= timer <= RESEND_SECONDS && focused < OTP_LENGTH
    }

    /** Each slot holds at most one character, which the input handler keeps. */
    ghost predicate SlotsAtMostOneChar()
      reads this
    {
      forall i :: 0 <= i < |otp| ==> |otp[i]| <= 1
    }

    constructor ()
      ensures Valid() && SlotsAtMostOneChar()
      ensures otp == ["", "", "", "", "", ""] && timer == RESEND_SECONDS && !isResending && focused == 0
    {
      otp := ["", "", "", "", "", ""];
      timer := RESEND_SECONDS;
      isResending := false;
      focused := 0;
    }

    /** handleOtpChange: rewrites one slot and advances the focus after a digit. */
    method HandleOtpChange(text: string, index: nat)
      requires Valid() && index < OTP_LENGTH
      modifies this`otp, this`focused
      ensures Valid()
      ensures |otp| == OTP_LENGTH && otp[index] == text
      ensures forall i :: 0 <= i < OTP_LENGTH && i != index ==> otp[i] == old(otp[i])
      ensures focused == if |text| == 1 && index < OTP_LENGTH - 1 then index + 1 else old(focused)
    {
      var newOtp := otp;
      newOtp := newOtp[index := text];
      otp := newOtp;
      if |text| == 1 && index < OTP_LENGTH - 1 {
        focused := index + 1;
      }
    }

    /** The slot input's `onChangeText`: passes on only the last character typed. */
    method OnChangeText(raw: string, index: nat)
      requires Valid() && index < OTP_LENGTH
      modifies this`otp, this`focused
      ensures Valid()
      ensures otp == old(otp)[index := LastChar(raw)]
      ensures old(SlotsAtMostOneChar()) ==> SlotsAtMostOneChar()
      ensures focused == if raw != "" && index < OTP_LENGTH - 1 then index + 1 else old(focused)
    {
      HandleOtpChange(LastChar(raw), index);
    }

    /** The slot input's `onKeyPress`: backspace on an empty slot moves the focus back. */
    method OnKeyPress(key: string, index: nat)
      requires Valid() && index < OTP_LENGTH
      modifies this`focused
      ensures Valid()
      ensures focused == if key == BACKSPACE && otp[index] == "" && index > 0 then index - 1 else old(focused)
    {
      if key == BACKSPACE && otp[index] == "" && index > 0 {
        focused := index - 1;
      }
    }

    /** isOtpComplete. */
    function IsOtpComplete(): (r: bool)
      reads this
      requires Valid()
      ensures r <==> forall i :: 0 <= i < OTP_LENGTH ==> |otp[i]| == 1
    {
      forall i :: 0 <= i < |otp| ==> |otp[i]| == 1
    }

    /** The confirm button: disabled until every slot holds one character;
      * when enabled it submits the six characters joined in slot order. */
    method PressConfirm() returns (code: Option<string>)
      requires Valid()
      ensures code.Some? <==> IsOtpComplete()
      ensures code.Some? ==> |code.value| == OTP_LENGTH
      ensures code.Some? ==> forall i :: 0 <= i < OTP_LENGTH ==> code.value[i] == otp[i][0]
    {
      if IsOtpComplete() {
        JoinOfSingleChars(otp);
        code := Some(Join(otp));
      } else {
        code := None;
      }
    }

    /** One second of the countdown interval. */
    method Tick()
      requires Valid()
      modifies this`timer
      ensures Valid()
      ensures timer == NextTimer(old(timer))
      ensures old(timer) == 0 ==> timer == 0
    {
      timer := if timer > 0 then timer - 1 else 0;
    }

    /** resendDisabled. */
    function ResendDisabled(): (r: bool)
      reads this
      ensures !r <==> timer == 0 && !isResending
    {
      timer != 0 || isResending
    }

    /** handleResendOtp up to its `await onResend()`: acts only when the timer
      * has run out and no resend is in flight. */
    method HandleResendOtp() returns (started: bool)
      requires Valid()
      modifies this`isResending
      ensures Valid()
      ensures started == !old(ResendDisabled())
      ensures isResending == (old(isResending) || started)
    {
      started := false;
      if timer == 0 && !isResending {
        isResending := true;
        started := true;
      }
    }

    /** The continuation of handleResendOtp once `onResend()` has returned. */
    method ResendReturned()
      requires Valid()
      modifies this`isResending, this`timer
      ensures Valid()
      ensures !isResending && timer == RESEND_SECONDS
      ensures ResendDisabled()
    {
      isResending := false;
      timer := RESEND_SECONDS;
    }
  }

  // ---------------------------------------------------------------------------
  // LoginScreen
  // ---------------------------------------------------------------------------

  /** `verifyOtp` as one request: the phone number and the typed code. */
  datatype VerifyRequest = VerifyRequest(phone: string, token: string)

  /** The answer of `verifyOtp`. */
  datatype VerifyOutcome = VerifyError | NoSession | SignedIn(userId: string)

  /** The profile row upserted after a successful sign-in. */
  datatype Profile = Profile(id: string, fullName: string, mobileNo: string, agriStackId: string)

  class LoginScreen {
    var fullName: string
    var mobileNo: string
    var agriStackId: string
    var showOtpOverlay: bool
    var isLoading: bool

    constructor ()
      ensures fullName == "" && mobileNo == "" && agriStackId == ""
      ensures !showOtpOverlay && !isLoading
    {
      fullName, mobileNo, agriStackId := "", "", "";
      showOtpOverlay, isLoading := false, false;
    }

    method SetMobileNo(text: string)
      modifies this`mobileNo
      ensures mobileNo == text
    {
      mobileNo := text;
    }

    /** phoneNoWithCode. */
    function PhoneNoWithCode(): (r: string)
      reads this
      ensures |r| == |COUNTRY_CODE| + |mobileNo|
      ensures r[..|COUNTRY_CODE|] == COUNTRY_CODE && r[|COUNTRY_CODE|..] == mobileNo
    {
      COUNTRY_CODE + mobileNo
    }

    /** isSendOtpActive. */
    function IsSendOtpActive(): (r: bool)
      reads this
      ensures r ==> |PhoneNoWithCode()| == |COUNTRY_CODE| + PHONE_LENGTH
      ensures r <==> |mobileNo| == PHONE_LENGTH && !isLoading
    {
      |mobileNo| == PHONE_LENGTH && !isLoading
    }

    /** handleSendOTP up to its `await signInWithOtp`: with a 10-character
      * number and no request in flight it sets the loading flag and returns
      * the number to send; otherwise it takes the invalid-phone branch. */
    method HandleSendOtp() returns (phone: Option<string>)
      modifies this`isLoading
      ensures phone.Some? <==> old(IsSendOtpActive())
      ensures phone.Some? ==> phone.value == PhoneNoWithCode() && |phone.value| == 13 && isLoading
      ensures phone.None? ==> isLoading == old(isLoading)
    {
      if |mobileNo| == PHONE_LENGTH && !isLoading {
        isLoading := true;
        phone := Some(PhoneNoWithCode());
      } else {
        phone := None;
      }
    }

    /** The continuation of handleSendOTP: clears the loading flag and opens
      * the overlay when the password was sent. */
    method SendOtpReturned(sent: bool)
      modifies this`isLoading, this`showOtpOverlay
      ensures !isLoading
      ensures showOtpOverlay == (old(showOtpOverlay) || sent)
    {
      isLoading := false;
      if sent {
        showOtpOverlay := true;
      }
    }

    /** handleOtpConfirmation up to its `await verifyOtp`: returns at once,
      * changing nothing, while a request is in flight. */
    method HandleOtpConfirmation(code: string) returns (request: Option<VerifyRequest>)
      modifies this`isLoading
      ensures old(isLoading) ==> request.None? && isLoading
      ensures !old(isLoading) ==> request == Some(VerifyRequest(PhoneNoWithCode(), code)) && isLoading
    {
      if isLoading {
        return None;
      }
      isLoading := true;
      request := Some(VerifyRequest(PhoneNoWithCode(), code));
    }

    /** The continuation of handleOtpConfirmation up to its `await upsertProfile`.
      * On sign-in it returns the profile to upsert and keeps loading; on a
      * verification error or a missing session it clears the loading flag. */
    method VerifyReturned(outcome: VerifyOutcome) returns (upsert: Option<Profile>)
      modifies this`isLoading
      ensures upsert.Some? <==> outcome.SignedIn?
      ensures outcome.SignedIn? ==>
        upsert.value == Profile(outcome.userId, fullName, mobileNo, agriStackId) && isLoading == old(isLoading)
      ensures !outcome.SignedIn? ==> !isLoading
    {
      match outcome
      case VerifyError =>
        isLoading := false;
        upsert := None;
      case SignedIn(userId) =>
        upsert := Some(Profile(userId, fullName, mobileNo, agriStackId));
      case NoSession =>
        isLoading := false;
        upsert := None;
    }

    /** The continuation after `upsertProfile`, whatever it returned: the
      * loading flag is cleared and the overlay closes. */
    method UpsertReturned()
      modifies this`isLoading, this`showOtpOverlay
      ensures !isLoading && !showOtpOverlay
    {
      isLoading := false;
      showOtpOverlay := false;
    }

    /** The overlay's close button. */
    method CloseOverlay()
      modifies this`showOtpOverlay
      ensures !showOtpOverlay
    {
      showOtpOverlay := false;
    }
  }
}
