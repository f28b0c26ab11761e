/**
 * The email verification page (src/pages/auth/VerifyEmail.tsx): a six-slot
 * code buffer filled by typing or pasting, the "length must be 6" gate in
 * front of the backend call, the outcome of that call, and the resend
 * countdown.
 */
module VerifyEmail {
  import opened Wrappers
  import opened Text
  import opened Browser

  const SlotCount := 6
  const ResendDelay := 60
  const InactivePath := "/auth/inactive"
  /** The user type the page sends with every verification request. */
  const RequestUserType := "SuperAdmin"

  /** `code.join('')`: the slots concatenated in order, as long as the slots together. */
  function Join(code: seq<string>): (r: string)
    ensures |r| == SumOfLengths(code)
  {
    if code == [] then "" else code[0] + Join(code[1..])
  }

  function SumOfLengths(code: seq<string>): nat {
    if code == [] then 0 else |code[0]| + SumOfLengths(code[1..])
  }

  /** A slot holds nothing or a single digit: what the one-character, digits-only inputs allow. */
  predicate SlotOk(slot: string) {
    slot == "" || (|slot| == 1 && IsDigit(slot[0]))
  }

  predicate SlotsOk(code: seq<string>) {
    forall i :: 0 <= i < |code| ==> SlotOk(code[i])
  }

  /**
   * With every slot empty or one digit, the joined code has one character per
   * filled slot: it reaches the full length exactly when no slot is empty,
   * and it is made of digits only.
   */
  lemma {:induction false} JoinOfSlots(code: seq<string>)
    requires SlotsOk(code)
    ensures |Join(code)| <= |code|
    ensures |Join(code)| == |code| <==> forall i :: 0 <= i < |code| ==> code[i] != ""
    ensures AllDigitChars(Join(code))
    ensures (forall i :: 0 <= i < |code| ==> code[i] != "") ==>
              forall i :: 0 <= i < |code| ==> Join(code)[i] == code[i][0]
  {
    if code != [] {
      JoinOfSlots(code[1..]);
      assert Join(code) == code[0] + Join(code[1..]);
      if forall i :: 0 <= i < |code| ==> code[i] != "" {
        assert forall i :: 1 <= i < |code| ==> code[1..][i - 1] == code[i];
        forall i | 0 <= i < |code| ensures Join(code)[i] == code[i][0] {
          if i > 0 {
            assert Join(code)[i] == Join(code[1..])[i - 1];
          }
        }
      }
      if |Join(code)| == |code| {
        forall i | 0 <= i < |code| ensures code[i] != "" {
          if i > 0 {
            assert code[1..][i - 1] == code[i];
          }
        }
      }
      if forall i :: 0 <= i < |code| ==> code[i] != "" {
        assert forall i :: 0 <= i < |code| - 1 ==> code[1..][i] == code[i + 1];
      }
    }
  }

  /**
   * The paste loop: the pasted characters, in order, overwrite the first
   * slots; a character past the last slot is dropped and slots past the
   * pasted text keep their content.
   */
  method OverwritePrefix(code: seq<string>, digits: seq<string>) returns (newCode: seq<string>)
    requires |code| == SlotCount
    ensures |newCode| == SlotCount
    ensures forall i :: 0 <= i < SlotCount && i < |digits| ==> newCode[i] == digits[i]
    ensures forall i :: |digits| <= i < SlotCount ==> newCode[i] == code[i]
  {
    newCode := code;
    var index := 0;
    while index < |digits|
      invariant 0 <= index <= |digits|
      invariant |newCode| == SlotCount
      invariant forall i :: 0 <= i < SlotCount && i < index ==> newCode[i] == digits[i]
      invariant forall i :: index <= i < SlotCount ==> newCode[i] == code[i]
    {
      if index < SlotCount {
        newCode := newCode[index := digits[index]];
      }
      index := index + 1;
    }
  }

  /** `pasted.slice(0, 6).split('')`: the first six characters, one string each. */
  function SplitPrefix(pasted: string): (digits: seq<string>)
    ensures |digits| == if |pasted| < SlotCount then |pasted| else SlotCount
    ensures forall i :: 0 <= i < |digits| ==> digits[i] == [pasted[i]]
  {
    var n := if |pasted| < SlotCount then |pasted| else SlotCount;
    seq(n, i requires 0 <= i < n => [pasted[i]])
  }

  /** What the backend call gives back: a result whose `active` may be missing, or a thrown error. */
  datatype VerifyResult = Answered(active: Option<bool>) | Failed(message: string)

  /** The body of the verification request. */
  datatype VerifyRequest = VerifyRequest(email: string, code: string, userType: string)

  /** One timer run of the countdown effect: it only runs while the countdown is positive. */
  function Tick(countdown: nat): nat {
    if countdown > 0 then countdown - 1 else 0
  }

  /** `n` timer runs in a row. */
  function Ticks(countdown: nat, n: nat): nat {
    if n == 0 then countdown else Ticks(Tick(countdown), n - 1)
  }

  /** The countdown drops by exactly one per run while positive and stops at zero. */
  lemma {:induction false} TicksCountDown(countdown: nat, n: nat)
    ensures Ticks(countdown, n) == if countdown >= n then countdown - n else 0
  {
    if n > 0 {
      TicksCountDown(Tick(countdown), n - 1);
    }
  }

  /** After a resend the button comes back after exactly sixty runs, and not before. */
  lemma ResendBlockedForSixty(n: nat)
    ensures Ticks(ResendDelay, n) > 0 <==> n < ResendDelay
  {
    TicksCountDown(ResendDelay, n);
  }

  /** The state of the page. */
  class VerifyEmailPage {
    var email: string
    var code: seq<string>
    var isResending: bool
    var isVerifying: bool
    var isVerified: bool
    var countdown: nat

    /** Six slots, each empty or one digit. */
    ghost predicate Valid()
      reads this
    {
      |code| == SlotCount && SlotsOk(code)
    }

    constructor()
      ensures Valid()
      ensures email == "" && code == ["", "", "", "", "", ""]
      ensures !isResending && !isVerifying && !isVerified && countdown == 0
    {
      email := "";
      code := ["", "", "", "", "", ""];
      isResending := false;
      isVerifying := false;
      isVerified := false;
      countdown := 0;
    }

    /** The email the previous page passed along, if any, replaces the current one. */
    method TakeEmailFromNavigation(stateEmail: Option<string>)
      modifies this`email
      ensures stateEmail.Some? && stateEmail.value != "" ==> email == stateEmail.value
      ensures !(stateEmail.Some? && stateEmail.value != "") ==> email == old(email)
    {
      if stateEmail.Some? && stateEmail.value != "" {
        email := stateEmail.value;
      }
    }

    /** Typing into the email input replaces the address. */
    method HandleEmailChange(value: string)
      modifies this`email
      ensures email == value
    {
      email := value;
    }

    /** The resend button is disabled while a resend runs or the countdown is positive. */
    predicate ResendDisabled()
      reads this
    {
      isResending || countdown > 0
    }

    /** The verify button is disabled while verifying or until the joined code has six characters. */
    predicate VerifyDisabled()
      reads this
    {
      isVerifying || |Join(code)| != SlotCount
    }

    /**
     * Typing `value` into slot `index` (the input holds at most one
     * character): a non-digit is refused and the code stays as it was;
     * otherwise only that slot changes.
     */
    method HandleCodeChange(index: nat, value: string)
      requires Valid() && index < SlotCount && |value| <= 1
      modifies this`code
      ensures Valid()
      ensures value != "" && !IsDigitString(value) ==> code == old(code)
      ensures value == "" || IsDigitString(value) ==> code == old(code)[index := value]
    {
      if value != "" && !IsDigitString(value) {
        return;
      }
      var newCode := code;
      newCode := newCode[index := value];
      code := newCode;
    }

    /**
     * Pasting: an empty or not-all-digits paste changes nothing; otherwise its
     * first six characters overwrite the first slots in order and the other
     * slots stay.
     */
    method HandlePaste(pasted: string)
      requires Valid()
      modifies this`code
      ensures Valid()
      ensures pasted == "" || !IsDigitString(pasted) ==> code == old(code)
      ensures pasted != "" && IsDigitString(pasted) ==>
        && (forall i :: 0 <= i < SlotCount && i < |pasted| ==> code[i] == [pasted[i]])
        && (forall i :: |pasted| <= i < SlotCount ==> code[i] == old(code)[i])
    {
      if pasted == "" || !IsDigitString(pasted) {
        return;
      }
      var digits := SplitPrefix(pasted);
      code := OverwritePrefix(code, digits);
    }

    /**
     * Pressing verify: no request unless the joined code has exactly six
     * characters; otherwise verifying starts and the request carries the
     * email, the code (the six slot digits in slot order) and the fixed user type.
     */
    method StartVerify() returns (request: Option<VerifyRequest>)
      requires Valid()
      modifies this`isVerifying
      ensures request.Some? <==> |Join(code)| == SlotCount
      ensures request.Some? ==>
        && request.value == VerifyRequest(email, Join(code), RequestUserType)
        && IsDigitString(request.value.code)
        && (forall i :: 0 <= i < SlotCount ==> code[i] == [request.value.code[i]])
        && isVerifying
      ensures request.None? ==> isVerifying == old(isVerifying)
      ensures !old(VerifyDisabled()) <==> !old(isVerifying) && request.Some?
    {
      var joined := Join(code);
      if |joined| != SlotCount {
        return None;
      }
      JoinOfSlots(code);
      isVerifying := true;
      request := Some(VerifyRequest(email, joined, RequestUserType));
    }

    /**
     * The answer: `active` exactly false leads to the inactive page carrying
     * the email, unverified; any other answer marks the email verified (the
     * page then moves on to sign-in); a thrown error leaves it unverified.
     * Verifying ends in every case.
     */
    method FinishVerify(result: VerifyResult) returns (nav: Option<Navigation>)
      modifies this`isVerifying, this`isVerified
      ensures !isVerifying
      ensures result.Answered? && result.active == Some(false) ==>
                nav == Some(Navigation(InactivePath, Some(email))) && isVerified == old(isVerified)
      ensures result.Answered? && result.active != Some(false) ==>
                nav == Some(Navigation(SignInPath, None)) && isVerified
      ensures result.Failed? ==> nav == None && isVerified == old(isVerified)
    {
      nav := None;
      if result.Failed? {
        isVerifying := false;
        return;
      }
      if result.active == Some(false) {
        isVerifying := false;
        nav := Some(Navigation(InactivePath, Some(email)));
        return;
      }
      isVerified := true;
      isVerifying := false;
      nav := Some(Navigation(SignInPath, None));
    }

    /** One run of the countdown timer, which is only scheduled while the countdown is positive. */
    method CountdownTick()
      requires countdown > 0
      modifies this`countdown
      ensures countdown == old(countdown) - 1
    {
      countdown := countdown - 1;
    }

    /** Pressing resend starts the simulated request. */
    method HandleResendCode()
      modifies this`isResending
      ensures isResending
    {
      isResending := true;
    }

    /** The end of the simulated resend: the countdown restarts at sixty. */
    method ResendComplete()
      modifies this`isResending, this`countdown
      ensures !isResending && countdown == ResendDelay
      ensures ResendDisabled()
    {
      isResending := false;
      countdown := ResendDelay;
    }
  }
}
