/**
 * The phone/OTP login page: the phone-input filter, the registration check
 * that decides whether an OTP is sent, and the OTP submit that stores the
 * token. The registration endpoint's status, the SMS sign-in, the OTP
 * confirmation and the issued token are inputs.
 */
module LoginPage {
  import opened Wrappers
  import opened Text
  import opened Session

  /** `/^\d{0,10}$/`: at most ten ASCII digits. */
  predicate IsPhoneDraft(s: string) {
    |s| <= 10 && AllDigits(s)
  }

  /**
   * Typing into the phone box: a digit typed into a draft of fewer than ten
   * digits is taken, any other character is refused, and deleting from the end
   * is always taken.
   */
  lemma PhoneDraftTyping(draft: string, c: char, k: nat)
    requires IsPhoneDraft(draft)
    ensures IsPhoneDraft(draft + [c]) <==> |draft| < 10 && IsDigit(c)
    ensures k <= |draft| ==> IsPhoneDraft(draft[..k])
  {
    var typed := draft + [c];
    assert typed[|draft|] == c;
    assert forall i :: 0 <= i < |draft| ==> typed[i] == draft[i];
  }

  const CountryPrefix := "+91"

  /** The number the OTP is sent to. */
  function OtpRecipient(phone: string): (r: string)
    requires IsPhoneDraft(phone) && |phone| == 10
    ensures |r| == 13 && r[..3] == "+91" && r[3..] == phone
    ensures AllDigits(r[1..])
  {
    CountryPrefix + phone
  }

  /** How a Send-OTP submit ends. */
  datatype SendOtpOutcome =
    | Ignored                  // phone is not ten digits: nothing happens
    | OtpSent(to: string)      // 202 and the SMS sign-in resolved
    | NotRegistered            // 403
    | ServerError              // any other status
    | Failed                   // the check or the SMS sign-in rejected

  /**
   * The decision `handleSendOtp` makes. `status` is the registration check's
   * status (`None` when the request rejects); `smsOk` is whether
   * `signInWithPhoneNumber` resolved.
   */
  function SendOtpDecision(phone: string, status: Option<int>, smsOk: bool): (r: SendOtpOutcome)
    requires IsPhoneDraft(phone)
    ensures |phone| != 10 <==> r == Ignored
    ensures r.OtpSent? <==> |phone| == 10 && status == Some(202) && smsOk
    ensures r.OtpSent? ==> r.to == "+91" + phone
    ensures r == NotRegistered <==> |phone| == 10 && status == Some(403)
    ensures r == ServerError <==> |phone| == 10 && status.Some? && status.value != 202 && status.value != 403
  {
    if |phone| != 10 then Ignored
    else match status
      case None => Failed
      case Some(code) =>
        if code == 202 then (if smsOk then OtpSent(OtpRecipient(phone)) else Failed)
        else if code == 403 then NotRegistered
        else ServerError
  }

  /** How an OTP submit ends. */
  datatype OtpOutcome =
    | PinTooShort        // the form's schema rejects it; the handler does not run
    | NoConfirmation     // no pending confirmation
    | InvalidOtp         // confirmation or token retrieval rejected
    | LoggedIn(navigateTo: string)

  /** The OTP form's schema: `z.string().min(6)`. */
  predicate PinAccepted(pin: string) {
    |pin| >= 6
  }

  /**
   * The OTP submit, on the session. `confirmed` is whether `confirm(pin)`
   * resolved (the provider then has a user); `idToken` is what `getIdToken()`
   * resolves to.
   */
  function OtpSubmitStep(st: SessionState, pin: string, hasConfirmation: bool,
                         confirmed: bool, idToken: Option<string>): (r: (OtpOutcome, SessionState))
    ensures !PinAccepted(pin) ==> r == (PinTooShort, st)
    ensures PinAccepted(pin) && !hasConfirmation ==> r == (NoConfirmation, st)
    // success writes the token key only; the expiry key keeps whatever it held
    ensures r.0.LoggedIn? <==> PinAccepted(pin) && hasConfirmation && confirmed && idToken.Some?
    ensures r.0.LoggedIn? ==>
              r.0.navigateTo == "/balance-sheet" && r.1 == SessionState(idToken, st.expiresAt, true)
    ensures r.1.token != st.token ==> r.0.LoggedIn?
    ensures r.1.expiresAt == st.expiresAt
    // a rejected confirmation changes nothing
    ensures PinAccepted(pin) && hasConfirmation && !confirmed ==> r == (InvalidOtp, st)
    // a confirmation whose token then rejects leaves the provider signed in with no token stored
    ensures PinAccepted(pin) && hasConfirmation && confirmed && idToken.None? ==>
              r == (InvalidOtp, st.(hasUser := true))
  {
    if !PinAccepted(pin) then (PinTooShort, st)
    else if !hasConfirmation then (NoConfirmation, st)
    else if !confirmed then (InvalidOtp, st)
    else if idToken.None? then (InvalidOtp, st.(hasUser := true))
    else (LoggedIn("/balance-sheet"), SessionState(idToken, st.expiresAt, true))
  }

  class LoginForm {
    var phone: string
    var loading: bool
    var otpSent: bool
    /** `window.confirmationResult` is set. */
    var hasConfirmation: bool

    predicate Valid()
      reads this
    {
      IsPhoneDraft(phone)
    }

    constructor ()
      ensures Valid()
      ensures phone == "" && !loading && !otpSent && !hasConfirmation
    {
      phone, loading, otpSent, hasConfirmation := "", false, false, false;
    }

    /** `handlePhoneChange`: the edit is taken only when it is 0 to 10 digits. */
    method ChangePhone(value: string)
      requires Valid()
      modifies this
      ensures Valid()
      ensures phone == if IsPhoneDraft(value) then value else old(phone)
      ensures loading == old(loading) && otpSent == old(otpSent) && hasConfirmation == old(hasConfirmation)
    {
      if IsPhoneDraft(value) {
        phone := value;
      }
    }

    /** `handleSendOtp`: `loading` is set for the duration and cleared in `finally`. */
    method SendOtp(status: Option<int>, smsOk: bool) returns (outcome: SendOtpOutcome)
      requires Valid()
      modifies this
      ensures Valid() && phone == old(phone)
      ensures loading == (old(loading) && outcome == Ignored)
      ensures outcome == SendOtpDecision(old(phone), status, smsOk)
      ensures otpSent == (old(otpSent) || outcome.OtpSent?)
      ensures hasConfirmation == (old(hasConfirmation) || outcome.OtpSent?)
    {
      if |phone| != 10 {
        return Ignored;
      }
      loading := true;
      match status {
        case None =>
          outcome := Failed;
        case Some(code) =>
          if code == 202 {
            if smsOk {
              var to := OtpRecipient(phone);
              hasConfirmation := true;
              otpSent := true;
              outcome := OtpSent(to);
            } else {
              outcome := Failed;
            }
          } else if code == 403 {
            outcome := NotRegistered;
          } else {
            outcome := ServerError;
          }
      }
      loading := false;
    }

    /** `handleOtpSubmit` behind the form's schema check. */
    method SubmitOtp(s: Store, pin: string, confirmed: bool, idToken: Option<string>)
      returns (outcome: OtpOutcome)
      modifies this, s
      ensures (outcome, s.State()) == OtpSubmitStep(old(s.State()), pin, old(hasConfirmation), confirmed, idToken)
      ensures loading == (old(loading) && (outcome == PinTooShort || outcome == NoConfirmation))
      ensures phone == old(phone) && otpSent == old(otpSent) && hasConfirmation == old(hasConfirmation)
    {
      if !PinAccepted(pin) {
        return PinTooShort;
      }
      if !hasConfirmation {
        return NoConfirmation;
      }
      loading := true;
      if !confirmed {
        outcome := InvalidOtp;
      } else {
        s.SignIn();
        if idToken.None? {
          outcome := InvalidOtp;
        } else {
          s.SetItem(Jwt, idToken.value);
          outcome := LoggedIn("/balance-sheet");
        }
      }
      loading := false;
    }
  }
}
