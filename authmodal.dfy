/**
 * The sign-in dialog (components/AuthModal.tsx): a two-step machine that first takes a phone
 * number and then a one-time code, which the demo accepts only when it is "1234".
 */
module AuthModal {
  datatype Step = PHONE | OTP

  /** The demo's only accepted one-time code. */
  const DemoOtp: string := "1234"

  /** A phone number is accepted once it has at least this many characters. */
  const MinPhoneLength: nat := 10

  /** What one press of the submit button leads to; the two rejections are the dialog's alerts. */
  datatype Outcome = AskForOtp | PhoneRejected | LoggedIn(phone: string) | OtpRejected

  /** The branch `handleSubmit` takes for the current fields. */
  function SubmitOutcome(step: Step, phone: string, otp: string): (o: Outcome)
    ensures step == PHONE ==> (o == AskForOtp <==> |phone| >= MinPhoneLength)
    ensures step == PHONE ==> o == AskForOtp || o == PhoneRejected
    ensures step == OTP ==> o == LoggedIn(phone) || o == OtpRejected
  {
    match step
    case PHONE => if |phone| >= MinPhoneLength then AskForOtp else PhoneRejected
    case OTP => if otp == DemoOtp then LoggedIn(phone) else OtpRejected
  }

  /** A login happens only from the code step, only with the demo code, and carries the entered phone. */
  lemma LoginOnlyWithDemoCode(step: Step, phone: string, otp: string)
    ensures SubmitOutcome(step, phone, otp).LoggedIn? <==> step == OTP && otp == "1234"
    ensures SubmitOutcome(step, phone, otp).LoggedIn? ==> SubmitOutcome(step, phone, otp).phone == phone
  {
  }

  /** A phone number of nine characters is turned away and one of ten is taken. */
  lemma PhoneLengthBoundary()
    ensures SubmitOutcome(PHONE, "987654321", "") == PhoneRejected
    ensures SubmitOutcome(PHONE, "9876543210", "") == AskForOtp
  {
  }

  class LoginFlow {
    var phone: string
    var otp: string
    var step: Step

    /** The code step is only reached with an accepted phone number. */
    predicate Valid()
      reads this
    {
      step == OTP ==> |phone| >= MinPhoneLength
    }

    constructor ()
      ensures Valid()
      ensures step == PHONE && phone == "" && otp == ""
    {
      phone := "";
      otp := "";
      step := PHONE;
    }

    /** The phone field is only on screen in the first step. */
    method SetPhone(text: string)
      requires Valid() && step == PHONE
      modifies this`phone
      ensures Valid()
      ensures phone == text
    {
      phone := text;
    }

    /** The code field is only on screen in the second step. */
    method SetOtp(text: string)
      requires Valid() && step == OTP
      modifies this`otp
      ensures Valid()
      ensures otp == text
    {
      otp := text;
    }

    /**
     * `handleSubmit`. An accepted phone moves to the code step; the right code logs in with
     * the phone and empties the dialog back to its first step; a rejection changes nothing.
     */
    method Submit() returns (outcome: Outcome)
      requires Valid()
      modifies this
      ensures Valid()
      ensures outcome == SubmitOutcome(old(step), old(phone), old(otp))
      ensures outcome == AskForOtp ==> step == OTP && phone == old(phone) && otp == old(otp)
      ensures outcome.LoggedIn? ==> step == PHONE && phone == "" && otp == ""
      ensures outcome.LoggedIn? ==> |outcome.phone| >= MinPhoneLength
      ensures outcome == PhoneRejected || outcome == OtpRejected ==>
                step == old(step) && phone == old(phone) && otp == old(otp)
    {
      if step == PHONE {
        if |phone| >= MinPhoneLength {
          step := OTP;
          outcome := AskForOtp;
        } else {
          outcome := PhoneRejected;
        }
      } else {
        if otp == DemoOtp {
          outcome := LoggedIn(phone);
          phone := "";
          otp := "";
          step := PHONE;
        } else {
          outcome := OtpRejected;
        }
      }
    }

    /** The Change Number link: back to the first step, the typed number kept. */
    method ChangeNumber()
      requires Valid()
      modifies this`step
      ensures Valid()
      ensures step == PHONE
    {
      step := PHONE;
    }
  }
}
