/** The one-time-passcode step: the code field keeps at most six digits, a
    countdown runs from 300 seconds down to 0 and is shown as `m:ss`, and a
    valid code puts the step into a processing state that ends by reporting
    completion to the page. */
module TransferOtp {
  import opened Wrappers
  import opened DecimalText

  const OtpLength: nat := 6
  const CountdownStart: nat := 300

  // ---------------------------------------------------------------------
  // The code field
  // ---------------------------------------------------------------------

  /** `value.replace(/\D/g, "")`: the digits of `s`, in order. */
  function KeepDigits(s: string): (r: string)
    ensures AllDigits(r) && |r| <= |s|
  {
    if s == [] then []
    else (if IsDigit(s[0]) then [s[0]] else []) + KeepDigits(s[1..])
  }

  /** What the code field stores for a keystroke: the first six digits typed. */
  function Sanitize(raw: string): (r: string)
    ensures AllDigits(r) && |r| <= OtpLength
    ensures |r| == if |KeepDigits(raw)| < OtpLength then |KeepDigits(raw)| else OtpLength
    ensures r == KeepDigits(raw)[..|r|]
  {
    var d := KeepDigits(raw);
    if |d| <= OtpLength then d else d[..OtpLength]
  }

  /** One character is kept iff it is a digit. */
  lemma KeepDigitsOfChar(c: char)
    ensures KeepDigits([c]) == if IsDigit(c) then [c] else []
  {
    assert [c][1..] == [];
  }

  /** The digits of a concatenation are the digits of each part, in order:
      every digit typed is kept, and nothing else. */
  lemma {:induction false} KeepDigitsAppend(a: string, b: string)
    ensures KeepDigits(a + b) == KeepDigits(a) + KeepDigits(b)
  {
    if a == [] {
      assert a + b == b;
    } else {
      assert (a + b)[0] == a[0] && (a + b)[1..] == a[1..] + b;
      KeepDigitsAppend(a[1..], b);
    }
  }

  lemma {:induction false} KeepDigitsOfDigits(s: string)
    requires AllDigits(s)
    ensures KeepDigits(s) == s
  {
    if s != [] {
      KeepDigitsOfDigits(s[1..]);
    }
  }

  /** Sanitising what is already stored changes nothing. */
  lemma SanitizeIdempotent(raw: string)
    ensures Sanitize(Sanitize(raw)) == Sanitize(raw)
  {
    KeepDigitsOfDigits(Sanitize(raw));
  }

  /** The values the field can hold are exactly the digit strings of length at most six. */
  lemma SanitizeFixesExactlyShortDigitStrings(s: string)
    ensures Sanitize(s) == s <==> AllDigits(s) && |s| <= OtpLength
  {
    if AllDigits(s) {
      KeepDigitsOfDigits(s);
    }
  }

  // ---------------------------------------------------------------------
  // The countdown caption
  // ---------------------------------------------------------------------

  /** `s.padStart(2, "0")`. */
  function PadStart2(s: string): string
  {
    if |s| >= 2 then s else seq(2 - |s|, _ => '0') + s
  }

  /** `formatTime`: whole minutes, a colon, and the remaining seconds padded to two digits. */
  function FormatTime(seconds: nat): string
  {
    NatToString(seconds / 60) + ":" + PadStart2(NatToString(seconds % 60))
  }

  /** Reads an `m:ss` caption back into seconds: minutes, a colon, two digits below 60. */
  function ParseTime(t: string): Option<nat>
  {
    if |t| < 4 then None
    else
      var k := |t| - 3;
      if t[k] == ':' && AllDigits(t[..k]) && AllDigits(t[k + 1..]) && DigitsValue(t[k + 1..]) < 60
      then Some(DigitsValue(t[..k]) * 60 + DigitsValue(t[k + 1..]))
      else None
  }

  /** The padded seconds are always two digits spelling the remainder. */
  lemma PaddedSeconds(r: nat)
    requires r < 60
    ensures var p := PadStart2(NatToString(r));
            |p| == 2 && AllDigits(p) && DigitsValue(p) == r
  {
    TwoDigitSpelling(r);
    DigitsValueOfNatToString(r);
    var s := NatToString(r);
    if |s| < 2 {
      assert PadStart2(s) == "0" + s;
      LeadingZero(s);
    }
  }

  /** Round trip: the caption determines the seconds it was made from,
      `minutes * 60 + secs == seconds`. */
  lemma FormatTimeRoundTrip(seconds: nat)
    ensures ParseTime(FormatTime(seconds)) == Some(seconds)
  {
    var m, p := NatToString(seconds / 60), PadStart2(NatToString(seconds % 60));
    PaddedSeconds(seconds % 60);
    DigitsValueOfNatToString(seconds / 60);
    var t := FormatTime(seconds);
    assert t == m + ":" + p;
    var k := |t| - 3;
    assert k == |m|;
    assert t[..k] == m && t[k] == ':' && t[k + 1..] == p;
  }

  /** Five minutes read "5:00". */
  lemma FormatTimeFiveMinutes()
    ensures FormatTime(CountdownStart) == "5:00"
  {
    assert NatToString(5) == "5";
    assert NatToString(0) == "0";
  }

  /** Seconds left after `elapsed` ticks of the countdown. */
  function Countdown(elapsed: nat): (t: nat)
    ensures t <= CountdownStart
  {
    if elapsed >= CountdownStart then 0 else CountdownStart - elapsed
  }

  // ---------------------------------------------------------------------
  // The buttons
  // ---------------------------------------------------------------------

  /** Send is disabled for an incomplete code, while processing, and once time is up. */
  predicate SendDisabled(otp: string, isProcessing: bool, timeLeft: int)
  {
    |otp| != OtpLength || isProcessing || timeLeft == 0
  }

  /** Cancel is disabled while processing. */
  predicate CancelDisabled(isProcessing: bool)
  {
    isProcessing
  }

  // ---------------------------------------------------------------------
  // The component state
  // ---------------------------------------------------------------------

  /** One mounted OTP step. `processingArmed` is the completion timer that
      a submission starts; `elapsed` counts the seconds since mounting. */
  class OtpChallenge {
    var otp: string
    var isProcessing: bool
    var timeLeft: int
    var processingArmed: bool
    ghost var elapsed: nat

    ghost predicate Valid()
      reads this
    {
      AllDigits(otp) && |otp| <= OtpLength &&
      timeLeft == Countdown(elapsed) &&
      (processingArmed <==> isProcessing)
    }

    /** Mounting the step: empty code, five minutes on the clock. */
    constructor ()
      ensures Valid()
      ensures otp == "" && !isProcessing && timeLeft == CountdownStart && elapsed == 0
    {
      otp, isProcessing, timeLeft, processingArmed := "", false, CountdownStart, false;
      elapsed := 0;
    }

    /** A change in the code field (it stays editable while processing). */
    method Input(raw: string)
      requires Valid()
      modifies this
      ensures Valid()
      ensures otp == Sanitize(raw)
      ensures isProcessing == old(isProcessing) && timeLeft == old(timeLeft) && elapsed == old(elapsed)
    {
      otp := Sanitize(raw);
    }

    /** One second passes. The interval runs only while time is left, so the
        clock never goes below 0 and stays there; reaching 0 does not leave the step. */
    method Tick()
      requires Valid()
      modifies this
      ensures Valid() && elapsed == old(elapsed) + 1
      ensures timeLeft == if old(timeLeft) > 0 then old(timeLeft) - 1 else 0
      ensures otp == old(otp) && isProcessing == old(isProcessing) && processingArmed == old(processingArmed)
    {
      if timeLeft > 0 {
        timeLeft := timeLeft - 1;
      }
      elapsed := elapsed + 1;
    }

    /** Send: the button is enabled only for a complete code, while not
        processing and before time is up; the handler then starts processing. */
    method Send()
      requires Valid()
      modifies this
      ensures Valid()
      ensures isProcessing == (old(isProcessing) || !SendDisabled(old(otp), old(isProcessing), old(timeLeft)))
      ensures |old(otp)| != OtpLength ==> isProcessing == old(isProcessing) && processingArmed == old(processingArmed)
      ensures otp == old(otp) && timeLeft == old(timeLeft) && elapsed == old(elapsed)
    {
      if !SendDisabled(otp, isProcessing, timeLeft) {
        // handleOtpSubmit
        if |otp| != OtpLength {
          return;
        }
        isProcessing := true;
        processingArmed := true;
      }
    }

    /** The completion timer fires: processing ends and `onComplete` is
        called, once per submission. */
    method ProcessingDone() returns (completed: bool)
      requires Valid()
      modifies this
      ensures Valid()
      ensures completed == old(processingArmed)
      ensures !old(processingArmed) ==> unchanged(this)
      ensures !isProcessing && !processingArmed
      ensures otp == old(otp) && timeLeft == old(timeLeft) && elapsed == old(elapsed)
    {
      completed := processingArmed;
      if processingArmed {
        isProcessing := false;
        processingArmed := false;
      }
    }
  }
}
