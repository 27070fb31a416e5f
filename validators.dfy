/**
 * String-value validators: one check per string VR, on the raw bytes of the
 * value, and the dispatcher that selects one of them by VR.
 *
 * The checks with a scan loop (AS, CS, DA, IS) are methods proved against a
 * predicate that says what they accept; the loop-free checks are functions
 * whose contracts tie their bound to the registry's maximum data length.
 */
module Validators {
  import opened Util
  import opened Defs

  // Character classes, in the C locale.

  predicate IsDigit(b: Byte) { 0x30 <= b <= 0x39 }

  predicate IsUpper(b: Byte) { 0x41 <= b <= 0x5A }

  predicate IsSign(b: Byte) { b == PLUS || b == MINUS }

  /** A character allowed in a Code String: A-Z, 0-9, space or underscore. */
  predicate IsCodeChar(b: Byte) { IsUpper(b) || IsDigit(b) || b == SPACE || b == UNDERSCORE }

  /** The unit letter of an Age String: D, W, M or Y. */
  predicate IsAgeUnit(b: Byte) { b == 0x44 || b == 0x57 || b == 0x4D || b == 0x59 }

  predicate AllDigits(v: Bytes)
  {
    forall i | 0 <= i < |v| :: IsDigit(v[i])
  }

  // ---------------------------------------------------------------------------
  // What the scanning validators accept

  /** Age String: three digits and a unit letter, e.g. "018M". */
  predicate AgeString(v: Bytes)
  {
    |v| == 4 && (forall i | 0 <= i < 3 :: IsDigit(v[i])) && IsAgeUnit(v[3])
  }

  /** Code String: at most 16 characters, each a Code String character. */
  predicate CodeString(v: Bytes)
  {
    |v| <= 16 && forall i | 0 <= i < |v| :: IsCodeChar(v[i])
  }

  /** Date: exactly eight digits (the range of the date is not checked). */
  predicate DateString(v: Bytes)
  {
    |v| == 8 && AllDigits(v)
  }

  /** The index where the digits of an Integer String start: a sign is skipped only when more follows. */
  function DigitsStart(v: Bytes): (k: nat)
    ensures k <= 1 && (|v| > 0 || k == 0)
  {
    if |v| > 1 && IsSign(v[0]) then 1 else 0
  }

  /** Integer String: at most 12 characters, digits after an optional sign. */
  predicate IntegerString(v: Bytes)
  {
    |v| <= 12 && forall i | DigitsStart(v) <= i < |v| :: IsDigit(v[i])
  }

  lemma {:induction false} IntegerStringShape(v: Bytes)
    ensures IntegerString(v) <==>
      |v| <= 12 && (AllDigits(v) || (|v| >= 2 && IsSign(v[0]) && AllDigits(v[1..])))
  {
    if |v| >= 2 && IsSign(v[0]) {
      assert forall i | 1 <= i < |v| :: v[i] == v[1..][i - 1];
    }
  }

  // Examples, with each value's text in a comment.

  lemma IntegerStringExamples()
    ensures IntegerString([])
    ensures IntegerString([MINUS, 0x35])                   // "-5"
    ensures IntegerString([PLUS, 0x30, 0x30, 0x31, 0x32])  // "+0012"
    ensures !IntegerString([PLUS])                         // "+"
    ensures !IntegerString([0x31, MINUS])                  // "1-"
    ensures !IntegerString(seq(13, _ => 0x31))             // thirteen digits
  {
    var sign: Bytes := [PLUS];
    assert !IsDigit(sign[0]);
    var late: Bytes := [0x31, MINUS];
    assert !IsDigit(late[1]);
  }

  lemma AgeStringExamples()
    ensures AgeString([0x30, 0x31, 0x38, 0x4D])   // "018M"
    ensures !AgeString([0x31, 0x38, 0x4D])        // "18M"
    ensures !AgeString([0x30, 0x31, 0x38, 0x58])  // "018X"
  {
  }

  // ---------------------------------------------------------------------------
  // The validators

  /** Application Entity: 1 to 16 characters. */
  function CheckAE(v: Bytes): (ok: bool)
    ensures ok <==> 0 < |v| <= MaxLength(AE)
  {
    !(|v| == 0 || |v| > 16)
  }

  /**
   * Age String, as the source writes it: the unit test joins four
   * inequalities with "or", which is true for every byte, so every value is
   * rejected, "018M" included.
   */
  method CheckASAsWritten(v: Bytes) returns (ok: bool)
    ensures !ok
  {
    if |v| != 4 {
      return false;
    }
    for i := 0 to 3 {
      if !IsDigit(v[i]) {
        return false;
      }
    }
    var unit := v[3];
    if unit != 0x44 || unit != 0x57 || unit != 0x4D || unit != 0x59 {
      return false;
    }
    return true;
  }

  /** Age String, with the unit test the format calls for: the unit is one of D, W, M, Y. */
  method CheckAS(v: Bytes) returns (ok: bool)
    ensures ok == AgeString(v)
  {
    if |v| != 4 {
      return false;
    }
    for i := 0 to 3
      invariant forall k | 0 <= k < i :: IsDigit(v[k])
    {
      if !IsDigit(v[i]) {
        return false;
      }
    }
    if v[3] != 0x44 && v[3] != 0x57 && v[3] != 0x4D && v[3] != 0x59 {
      return false;
    }
    return true;
  }

  /** Code String. The empty value is accepted. */
  method CheckCS(v: Bytes) returns (ok: bool)
    ensures ok == CodeString(v)
    ensures ok ==> |v| <= MaxLength(CS)
  {
    if |v| > 16 {
      return false;
    }
    for i := 0 to |v|
      invariant forall k | 0 <= k < i :: IsCodeChar(v[k])
    {
      if !IsCodeChar(v[i]) {
        return false;
      }
    }
    return true;
  }

  /** Date. */
  method CheckDA(v: Bytes) returns (ok: bool)
    ensures ok == DateString(v)
  {
    if |v| != 8 {
      return false;
    }
    for i := 0 to |v|
      invariant forall k | 0 <= k < i :: IsDigit(v[k])
    {
      if !IsDigit(v[i]) {
        return false;
      }
    }
    return true;
  }

  /** Time: only the length is checked. */
  function CheckTM(v: Bytes): (ok: bool)
    ensures ok <==> |v| <= MaxLength(TM)
  {
    !(|v| > 16)
  }

  /** Date Time: only the length is checked. */
  function CheckDT(v: Bytes): (ok: bool)
    ensures ok <==> |v| <= MaxLength(DT)
  {
    !(|v| > 26)
  }

  /** Decimal String: only the length is checked. */
  function CheckDS(v: Bytes): (ok: bool)
    ensures ok <==> |v| <= MaxLength(DS)
  {
    !(|v| > 16)
  }

  /** Integer String. The shared index skips a leading sign only when |v| > 1. */
  method CheckIS(v: Bytes) returns (ok: bool)
    ensures ok == IntegerString(v)
    ensures ok ==> |v| <= MaxLength(IS)
  {
    if |v| > 12 {
      return false;
    }
    var i := 0;
    if |v| > 1 {
      if v[0] == PLUS || v[0] == MINUS {
        i := i + 1;
      }
    }
    while i < |v|
      invariant DigitsStart(v) <= i <= |v|
      invariant forall k | DigitsStart(v) <= k < i :: IsDigit(v[k])
    {
      if !IsDigit(v[i]) {
        return false;
      }
      i := i + 1;
    }
    return true;
  }

  /** Long String. */
  function CheckLO(v: Bytes): (ok: bool)
    ensures ok <==> |v| <= MaxLength(LO)
  {
    !(|v| > 64)
  }

  /** Short Text. */
  function CheckST(v: Bytes): (ok: bool)
    ensures ok <==> |v| <= MaxLength(ST)
  {
    !(|v| > 1024)
  }

  /** Long Text. */
  function CheckLT(v: Bytes): (ok: bool)
    ensures ok <==> |v| <= MaxLength(LT)
  {
    !(|v| > 10240)
  }

  /** Unlimited Text: every value is accepted. */
  function CheckUT(v: Bytes): (ok: bool)
    ensures ok
  {
    true
  }

  /** Person Name: only the length is checked. */
  function CheckPN(v: Bytes): (ok: bool)
    ensures ok <==> |v| <= MaxLength(PN)
  {
    !(|v| > 64)
  }

  /** Short String. */
  function CheckSH(v: Bytes): (ok: bool)
    ensures ok <==> |v| <= MaxLength(SH)
  {
    !(|v| > 16)
  }

  /** Unlimited Characters: every value is accepted. */
  function CheckUC(v: Bytes): (ok: bool)
    ensures ok
  {
    true
  }

  /** Unique Identifier: only the length is checked. */
  function CheckUI(v: Bytes): (ok: bool)
    ensures ok <==> |v| <= MaxLength(UI)
  {
    !(|v| > 64)
  }

  /** Universal Resource Identifier: every value is accepted. */
  function CheckUR(v: Bytes): (ok: bool)
    ensures ok
  {
    true
  }

  // ---------------------------------------------------------------------------
  // The dispatcher

  /** What the dispatcher accepts for a VR: its check's verdict, and nothing for a non-string VR. */
  predicate Accepts(vr: Code, v: Bytes)
  {
    match vr
    case AE => CheckAE(v)
    case AS => AgeString(v)
    case CS => CodeString(v)
    case DA => DateString(v)
    case TM => CheckTM(v)
    case DT => CheckDT(v)
    case DS => CheckDS(v)
    case IS => IntegerString(v)
    case LO => CheckLO(v)
    case ST => CheckST(v)
    case LT => CheckLT(v)
    case UT => CheckUT(v)
    case PN => CheckPN(v)
    case SH => CheckSH(v)
    case UC => CheckUC(v)
    case UI => CheckUI(v)
    case UR => CheckUR(v)
    case _ => false
  }

  method CheckStringValue(vr: Code, v: Bytes) returns (ok: bool)
    ensures ok == Accepts(vr, v)
    ensures ok ==> IsString(vr)
  {
    match vr {
      case AE => ok := CheckAE(v);
      case AS => ok := CheckAS(v);
      case CS => ok := CheckCS(v);
      case DA => ok := CheckDA(v);
      case TM => ok := CheckTM(v);
      case DT => ok := CheckDT(v);
      case DS => ok := CheckDS(v);
      case IS => ok := CheckIS(v);
      case LO => ok := CheckLO(v);
      case ST => ok := CheckST(v);
      case LT => ok := CheckLT(v);
      case UT => ok := CheckUT(v);
      case PN => ok := CheckPN(v);
      case SH => ok := CheckSH(v);
      case UC => ok := CheckUC(v);
      case UI => ok := CheckUI(v);
      case UR => ok := CheckUR(v);
      case _ => ok := false;
    }
  }

  /**
   * What the dispatcher as written accepts: with its Age String check, no
   * AS value; every other VR as in Accepts.
   */
  predicate AcceptsAsWritten(vr: Code, v: Bytes)
  {
    if vr == AS then false else Accepts(vr, v)
  }

  /** The dispatcher as written: AS goes to the Age String check as written. */
  method CheckStringValueAsWritten(vr: Code, v: Bytes) returns (ok: bool)
    ensures ok == AcceptsAsWritten(vr, v)
    ensures ok ==> IsString(vr) && vr != AS
  {
    if vr == AS {
      ok := CheckASAsWritten(v);
    } else {
      ok := CheckStringValue(vr, v);
    }
  }

  /** The dispatcher's cases are exactly the string VRs: each accepts some value, every other VR none. */
  lemma {:induction false} AcceptsSomethingIffString(vr: Code)
    ensures (exists v :: Accepts(vr, v)) <==> IsString(vr)
  {
    if IsString(vr) {
      var zero: Byte := 0x30;
      var w: Bytes :=
        match vr
        case AE => [zero]
        case AS => [zero, zero, zero, 0x59]
        case DA => [zero, zero, zero, zero, zero, zero, zero, zero]
        case _ => [];
      assert Accepts(vr, w);
    }
  }

  /** As written, AS is the one string VR that accepts no value. */
  lemma {:induction false} AcceptsSomethingAsWritten(vr: Code)
    ensures (exists v :: AcceptsAsWritten(vr, v)) <==> IsString(vr) && vr != AS
  {
    AcceptsSomethingIffString(vr);
    if IsString(vr) && vr != AS {
      var v :| Accepts(vr, v);
      assert AcceptsAsWritten(vr, v);
    }
  }

  lemma NonStringRejected(vr: Code, v: Bytes)
    requires !IsString(vr)
    ensures !Accepts(vr, v)
  {
  }

  /** Whenever the registry records a bound for a VR, the dispatcher accepts nothing longer. */
  lemma AcceptedWithinRegistryBound(vr: Code, v: Bytes)
    requires Accepts(vr, v) && MaxLength(vr) > 0
    ensures |v| <= MaxLength(vr)
  {
  }

  /** The VRs checked by length alone accept exactly the values within the registry's bound. */
  lemma LengthOnlyVRs(vr: Code, v: Bytes)
    requires vr in {AE, TM, DT, DS, LO, ST, LT, PN, SH, UI}
    ensures Accepts(vr, v) <==> (vr != AE || |v| > 0) && |v| <= MaxLength(vr)
  {
  }

  /** UT, UC and UR accept every value; UC and UR are not even registered. */
  lemma UnboundedVRs(vr: Code, v: Bytes)
    requires vr in {UT, UC, UR}
    ensures Accepts(vr, v)
    ensures MaxLength(vr) == 0
  {
  }

  /** Fixed-length VRs that the registry leaves unbounded. */
  lemma FixedLengthVRs(v: Bytes)
    ensures Accepts(AS, v) ==> |v| == 4 && MaxLength(AS) == 0
    ensures Accepts(DA, v) ==> |v| == 8 && MaxLength(DA) == 0
  {
  }
}
