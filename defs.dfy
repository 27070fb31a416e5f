/**
 * Value Representation (VR) codes, the VR registry, VR classification and
 * the data element Tag (DICOM PS3.5, section 6.2 for the VR table and
 * section 7.1 for the data element structure).
 */
module Defs {
  import opened Util

  /** The byte order a value buffer is stored in. */
  datatype ByteOrder = LE | BE

  /**
   * The VR codes the library names. Each code stands for its two-letter
   * name (see Name); 28 of them are registered, OD, UC and UR are not.
   */
  datatype Code =
    | AE | AS | AT | CS | DA | DS | DT | FL | FD | IS | LO | LT | OB | OD | OF | OL
    | OW | PN | SH | SL | SQ | SS | ST | TM | UI | UL | UN | US | UT | UC | UR

  /** Every code, as a finite set. */
  const kAllCodes: set<Code> :=
    {AE, AS, AT, CS, DA, DS, DT, FL, FD, IS, LO, LT, OB, OD, OF, OL,
     OW, PN, SH, SL, SQ, SS, ST, TM, UI, UL, UN, US, UT, UC, UR}

  /** The two ASCII characters that name a code on the wire. */
  function Name(c: Code): (n: (char, char))
  {
    match c
    case AE => ('A', 'E') case AS => ('A', 'S') case AT => ('A', 'T') case CS => ('C', 'S')
    case DA => ('D', 'A') case DS => ('D', 'S') case DT => ('D', 'T') case FL => ('F', 'L')
    case FD => ('F', 'D') case IS => ('I', 'S') case LO => ('L', 'O') case LT => ('L', 'T')
    case OB => ('O', 'B') case OD => ('O', 'D') case OF => ('O', 'F') case OL => ('O', 'L')
    case OW => ('O', 'W') case PN => ('P', 'N') case SH => ('S', 'H') case SL => ('S', 'L')
    case SQ => ('S', 'Q') case SS => ('S', 'S') case ST => ('S', 'T') case TM => ('T', 'M')
    case UI => ('U', 'I') case UL => ('U', 'L') case UN => ('U', 'N') case US => ('U', 'S')
    case UT => ('U', 'T') case UC => ('U', 'C') case UR => ('U', 'R')
  }

  /**
   * The code whose name is the byte pair (b0, b1), if any: the two-character
   * code that MAKE_VR_CODE builds, read back as a member of the enumeration.
   */
  function Parse(b0: char, b1: char): (r: Option<Code>)
    ensures r.Some? ==> Name(r.value) == (b0, b1)
  {
    match b0
    case 'A' =>
      (match b1
      case 'E' => Some(AE)
      case 'S' => Some(AS)
      case 'T' => Some(AT)
      case _ => None)
    case 'C' =>
      (match b1
      case 'S' => Some(CS)
      case _ => None)
    case 'D' =>
      (match b1
      case 'A' => Some(DA)
      case 'S' => Some(DS)
      case 'T' => Some(DT)
      case _ => None)
    case 'F' =>
      (match b1
      case 'L' => Some(FL)
      case 'D' => Some(FD)
      case _ => None)
    case 'I' =>
      (match b1
      case 'S' => Some(IS)
      case _ => None)
    case 'L' =>
      (match b1
      case 'O' => Some(LO)
      case 'T' => Some(LT)
      case _ => None)
    case 'O' =>
      (match b1
      case 'B' => Some(OB)
      case 'D' => Some(OD)
      case 'F' => Some(OF)
      case 'L' => Some(OL)
      case 'W' => Some(OW)
      case _ => None)
    case 'P' =>
      (match b1
      case 'N' => Some(PN)
      case _ => None)
    case 'S' =>
      (match b1
      case 'H' => Some(SH)
      case 'L' => Some(SL)
      case 'Q' => Some(SQ)
      case 'S' => Some(SS)
      case 'T' => Some(ST)
      case _ => None)
    case 'T' =>
      (match b1
      case 'M' => Some(TM)
      case _ => None)
    case 'U' =>
      (match b1
      case 'I' => Some(UI)
      case 'L' => Some(UL)
      case 'N' => Some(UN)
      case 'S' => Some(US)
      case 'T' => Some(UT)
      case 'C' => Some(UC)
      case 'R' => Some(UR)
      case _ => None)
    case _ => None
  }

  lemma ParseName(c: Code)
    ensures Parse(Name(c).0, Name(c).1) == Some(c)
  {
  }

  // ---------------------------------------------------------------------------
  // The registry

  /** What the registry records for one code. */
  datatype VRInfo = VRInfo(code: Code, wordSize: nat, maxDataLength: nat)

  /**
   * The registration table: the word size used for byte reversal and the
   * maximum data length (0 when the table gives no bound). OD, UC and UR
   * are absent.
   */
  function Lookup(c: Code): (r: Option<VRInfo>)
    ensures r.Some? ==> r.value.code == c
  {
    match c
    case AE => Some(VRInfo(AE, 0, 16))
    case AS => Some(VRInfo(AS, 0, 0))
    case AT => Some(VRInfo(AT, 2, 0))
    case CS => Some(VRInfo(CS, 0, 16))
    case DA => Some(VRInfo(DA, 0, 0))
    case DS => Some(VRInfo(DS, 0, 16))
    case DT => Some(VRInfo(DT, 0, 26))
    case FL => Some(VRInfo(FL, 4, 0))
    case FD => Some(VRInfo(FD, 8, 0))
    case IS => Some(VRInfo(IS, 0, 12))
    case LO => Some(VRInfo(LO, 0, 64))
    case LT => Some(VRInfo(LT, 0, 10240))
    case OB => Some(VRInfo(OB, 0, 0))
    case OF => Some(VRInfo(OF, 4, 0))
    case OL => Some(VRInfo(OL, 4, 0))
    case OW => Some(VRInfo(OW, 2, 0))
    case PN => Some(VRInfo(PN, 0, 64))
    case SH => Some(VRInfo(SH, 0, 16))
    case SL => Some(VRInfo(SL, 4, 0))
    case SQ => Some(VRInfo(SQ, 0, 0))
    case SS => Some(VRInfo(SS, 2, 0))
    case ST => Some(VRInfo(ST, 0, 1024))
    case TM => Some(VRInfo(TM, 0, 16))
    case UI => Some(VRInfo(UI, 0, 64))
    case UL => Some(VRInfo(UL, 4, 0))
    case UN => Some(VRInfo(UN, 0, 0))
    case US => Some(VRInfo(US, 2, 0))
    case UT => Some(VRInfo(UT, 0, 0))
    case OD => None
    case UC => None
    case UR => None
  }

  /**
   * VRDict::IsValid: the code is in the registry (see VRDict for the map it
   * builds). Every code is registered except OD, UC and UR.
   */
  predicate IsValid(c: Code)
    ensures IsValid(c) <==> c !in {OD, UC, UR}
  {
    Lookup(c).Some?
  }

  /** The registered maximum data length, 0 for an unbounded or unregistered code. */
  function MaxLength(c: Code): (n: nat)
  {
    if IsValid(c) then Lookup(c).value.maxDataLength else 0
  }

  /** The registered word size, 0 for an unregistered code. */
  function WordSize(c: Code): (n: nat)
  {
    if IsValid(c) then Lookup(c).value.wordSize else 0
  }

  lemma WordSizes(c: Code)
    ensures WordSize(c) in {0, 2, 4, 8}
    ensures WordSize(c) == 2 <==> c in {AT, OW, SS, US}
    ensures WordSize(c) == 4 <==> c in {FL, OF, OL, SL, UL}
    ensures WordSize(c) == 8 <==> c == FD
  {
  }

  /**
   * The registry object: a map from code to entry, filled by one
   * RegisterVR(code, word_size, max_data_length) call per row of Lookup.
   * The rows are built here from Lookup, so the table is written once.
   */
  class VRDict {
    var vrMap: map<Code, VRInfo>

    constructor ()
      ensures forall c :: c in vrMap <==> IsValid(c)
      ensures forall c | c in vrMap :: Lookup(c) == Some(vrMap[c])
    {
      vrMap := map c | c in kAllCodes && IsValid(c) :: Lookup(c).value;
      forall c ensures c in kAllCodes {
        match c
        case AE => case AS => case AT => case CS => case DA => case DS => case DT => case FL =>
        case FD => case IS => case LO => case LT => case OB => case OD => case OF => case OL =>
        case OW => case PN => case SH => case SL => case SQ => case SS => case ST => case TM =>
        case UI => case UL => case UN => case US => case UT => case UC => case UR =>
      }
    }
  }

  // ---------------------------------------------------------------------------
  // Construction of a VR from its two bytes

  /**
   * The lenient reading of two VR bytes: the named code when it is
   * registered, UN otherwise. It never fails.
   */
  function FromBytes(b0: char, b1: char): (c: Code)
    ensures IsValid(c)
    ensures c != UN ==> Name(c) == (b0, b1)
  {
    match Parse(b0, b1)
    case Some(code) => if IsValid(code) then code else UN
    case None => UN
  }

  lemma FromName(c: Code)
    ensures FromBytes(Name(c).0, Name(c).1) == if IsValid(c) then c else UN
  {
    ParseName(c);
  }

  lemma UnregisteredNamesReadAsUnknown()
    ensures FromBytes('U', 'C') == UN
    ensures FromBytes('U', 'R') == UN
    ensures FromBytes('O', 'D') == UN
  {
  }

  /** A VR object: a code that its constructor and SetBytes assign. */
  class VR {
    var code: Code

    constructor (b0: char, b1: char)
      ensures code == FromBytes(b0, b1)
    {
      var parsed := Parse(b0, b1);
      if parsed.Some? && IsValid(parsed.value) {
        code := parsed.value;
      } else {
        code := UN;
      }
    }

    /** Strict assignment: fails and keeps the code when the bytes name no registered code. */
    method SetBytes(b0: char, b1: char) returns (ok: bool)
      modifies this`code
      ensures ok <==> Parse(b0, b1).Some? && IsValid(Parse(b0, b1).value)
      ensures ok ==> code == Parse(b0, b1).value && Name(code) == (b0, b1)
      ensures !ok ==> code == old(code)
    {
      var parsed := Parse(b0, b1);
      if !(parsed.Some? && IsValid(parsed.value)) {
        return false;
      }
      code := parsed.value;
      return true;
    }
  }

  // ---------------------------------------------------------------------------
  // Classification

  /**
   * VRs whose value length field is 4 bytes, preceded by 2 reserved bytes.
   * None of them has a registered maximum length.
   */
  predicate Is16BitsFollowingReversed(c: Code)
    ensures Is16BitsFollowingReversed(c) ==> MaxLength(c) == 0
  {
    c == OB || c == OD || c == OF || c == OL || c == OW || c == SQ ||
    c == UN || c == UC || c == UR || c == UT
  }

  const kStringCodes: seq<Code> :=
    [AE, AS, CS, DA, TM, DT, DS, IS, LO, ST, LT, UT, PN, SH, UC, UI, UR]

  const kBackSlashCodes: seq<Code> :=
    [AE, AS, CS, DA, DS, DT, TM, IS, UI, SH, LO, PN, UC]

  /** VRs whose value is character text; none has a word size, so none is byte-swapped. */
  predicate IsString(c: Code)
    ensures IsString(c) ==> WordSize(c) == 0
  {
    c in kStringCodes
  }

  /** String VRs whose value may hold several components separated by a backslash. */
  predicate IsBackSlashVM(c: Code)
    ensures IsBackSlashVM(c) ==> IsString(c)
  {
    c in kBackSlashCodes
  }

  /** The string VRs that are never multi-valued. */
  lemma BackSlashVMIsString(c: Code)
    ensures IsString(c) && !IsBackSlashVM(c) <==> c in {ST, LT, UT, UR}
  {
    if IsString(c) {
      match c
      case AE => case AS => case CS => case DA => case TM => case DT => case DS => case IS =>
      case LO => case ST => case LT => case UT => case PN => case SH => case UC => case UI =>
      case UR =>
    }
  }

  /** The text VRs with a 4-byte length field are exactly UT, UC and UR. */
  lemma LongLengthCodes(c: Code)
    ensures Is16BitsFollowingReversed(c) && IsString(c) <==> c in {UT, UC, UR}
  {
    if Is16BitsFollowingReversed(c) {
      match c
      case OB => case OD => case OF => case OL => case OW => case SQ => case UN =>
      case UC => case UR => case UT =>
    }
  }

  /** Of the VRs with a 4-byte length field, only UC may be multi-valued. */
  lemma LongLengthMultiValued(c: Code)
    ensures Is16BitsFollowingReversed(c) && IsBackSlashVM(c) <==> c == UC
  {
    if Is16BitsFollowingReversed(c) {
      match c
      case OB => case OD => case OF => case OL => case OW => case SQ => case UN =>
      case UC => case UR => case UT =>
    }
  }

  // ---------------------------------------------------------------------------
  // Tag

  /** The two bytes of a 16-bit word, most significant first. */
  function BytesOf16(x: bv16): (r: Bytes)
    ensures |r| == 2
  {
    [(x >> 8) as Byte, (x & 0xFF) as Byte]
  }

  /** SwapUint16: exchange the two bytes of a 16-bit word. */
  function SwapUint16(x: bv16): (r: bv16)
    ensures BytesOf16(r) == Reversed(BytesOf16(x))
  {
    (x << 8) | (x >> 8)
  }

  /** A data element tag: a (group, element) pair of 16-bit words. */
  datatype Tag = Tag(group: bv16, element: bv16) {

    /** The tag as it reads in the opposite byte order: each half swapped on its own. */
    function SwapBytes(): (t: Tag)
      ensures BytesOf16(t.group) == Reversed(BytesOf16(group))
      ensures BytesOf16(t.element) == Reversed(BytesOf16(element))
    {
      Tag(SwapUint16(group), SwapUint16(element))
    }
  }

  lemma SwapUint16Twice(x: bv16)
    ensures SwapUint16(SwapUint16(x)) == x
  {
  }

  lemma SwapBytesTwice(t: Tag)
    ensures t.SwapBytes().SwapBytes() == t
  {
    SwapUint16Twice(t.group);
    SwapUint16Twice(t.element);
  }
}
