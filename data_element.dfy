/**
 * The data element: a tag, a VR, the byte order of its value, a declared
 * length and the raw value buffer, with the string, number and raw-byte
 * accessors that validate, pad, strip and byte-swap the value.
 *
 * The host byte order is not probed: it is the parameter `host` of the
 * accessors that depend on it.
 */
module Element {
  import opened Util
  import opened Defs
  import opened Validators

  /** The declared length of a sequence whose extent is given by a delimiter item. */
  const kUndefinedLength: nat := 0xFFFF_FFFF

  // ---------------------------------------------------------------------------
  // String padding

  /** A string value as stored: an odd-length value gets one trailing space. */
  function PadToEven(v: Bytes): (r: Bytes)
    ensures |r| % 2 == 0
    ensures |r| == if |v| % 2 == 1 then |v| + 1 else |v|
    ensures r[..|v|] == v
    ensures |v| % 2 == 1 ==> r[|v|] == SPACE
  {
    if |v| % 2 == 1 then v + [SPACE] else v
  }

  /**
   * A stored string value as read back: one trailing space is dropped, then
   * one trailing NUL.
   */
  function StripPadding(b: Bytes): (r: Bytes)
    ensures |r| <= |b| && r == b[..|r|]
    ensures |b| - 2 <= |r|
    ensures |r| == |b| - 1 ==> b[|b| - 1] == SPACE || b[|b| - 1] == NUL
    ensures |r| == |b| - 2 ==> b[|b| - 2] == NUL && b[|b| - 1] == SPACE
    ensures b == [] ==> r == []
  {
    var s := if |b| > 0 && b[|b| - 1] == SPACE then b[..|b| - 1] else b;
    if |s| > 0 && s[|s| - 1] == NUL then s[..|s| - 1] else s
  }

  /**
   * Padding then stripping gives the value back exactly when the value is
   * empty, or ends in neither NUL nor (for an even length) a space.
   */
  lemma {:induction false} StringRoundTrip(v: Bytes)
    ensures StripPadding(PadToEven(v)) == v <==>
      v == [] || (v[|v| - 1] != NUL && (|v| % 2 == 1 || v[|v| - 1] != SPACE))
  {
    var p := PadToEven(v);
    if |v| % 2 == 1 {
      assert p == v + [SPACE];
      assert p[..|p| - 1] == v;
    }
    if StripPadding(p) == v && v != [] {
      assert v[|v| - 1] != NUL;
    }
  }

  /** "DOE^JOHN", eight bytes. */
  const kDoeJohn: Bytes := [0x44, 0x4F, 0x45, 0x5E, 0x4A, 0x4F, 0x48, 0x4E]

  /** "DOE^JON", seven bytes. */
  const kDoeJon: Bytes := [0x44, 0x4F, 0x45, 0x5E, 0x4A, 0x4F, 0x4E]

  /** An even-length name is stored as is; an odd-length one gains a space that reading drops. */
  lemma PatientNameExample()
    ensures Accepts(PN, kDoeJohn) && PadToEven(kDoeJohn) == kDoeJohn
    ensures StripPadding(kDoeJohn + [SPACE]) == kDoeJohn
    ensures PadToEven(kDoeJon) == kDoeJon + [SPACE]
    ensures StripPadding(PadToEven(kDoeJon)) == kDoeJon
  {
    assert (kDoeJohn + [SPACE])[..8] == kDoeJohn;
    assert (kDoeJon + [SPACE])[..7] == kDoeJon;
  }

  /**
   * A value accepted for a VR with a 2-byte length field fits that field
   * once padded.
   */
  lemma AcceptedFitsShortLengthField(vr: Code, v: Bytes)
    requires Accepts(vr, v) && !Is16BitsFollowingReversed(vr)
    ensures |PadToEven(v)| <= 0xFFFF
  {
  }

  // ---------------------------------------------------------------------------
  // Byte order adjustment

  /** Whether a value of `size` bytes stored in `order` is reversed on a `host` machine. */
  predicate Swaps(size: nat, order: ByteOrder, host: ByteOrder)
  {
    order != host && (size == 2 || size == 4 || size == 8)
  }

  /** A value buffer brought from one byte order to the other: its first `size` bytes reversed. */
  function Adjusted(s: Bytes, size: nat, order: ByteOrder, host: ByteOrder): (r: Bytes)
    requires Swaps(size, order, host) ==> size <= |s|
    ensures |r| == |s|
    ensures !Swaps(size, order, host) ==> r == s
    ensures Swaps(size, order, host) ==>
      r[size..] == s[size..] && forall i | 0 <= i < size :: r[i] == s[size - 1 - i]
  {
    if Swaps(size, order, host) then Reversed(s[..size]) + s[size..] else s
  }

  lemma {:induction false} AdjustedTwice(s: Bytes, size: nat, order: ByteOrder, host: ByteOrder)
    requires Swaps(size, order, host) ==> size <= |s|
    ensures Adjusted(Adjusted(s, size, order, host), size, order, host) == s
  {
    if Swaps(size, order, host) {
      var once := Adjusted(s, size, order, host);
      var twice := Adjusted(once, size, order, host);
      assert forall i | 0 <= i < |s| :: twice[i] == s[i] by {
        forall i | 0 <= i < |s| ensures twice[i] == s[i] {
          if i >= size {
            assert twice[i] == twice[size..][i - size];
            assert once[i] == once[size..][i - size];
          }
        }
      }
    }
  }

  /** Every numeric word size of the registry is one that byte-order adjustment reverses. */
  lemma RegisteredWordSizesSwap(vr: Code, order: ByteOrder, host: ByteOrder)
    requires WordSize(vr) != 0 && order != host
    ensures Swaps(WordSize(vr), order, host)
  {
    WordSizes(vr);
  }

  // ---------------------------------------------------------------------------
  // The element

  class DataElement {
    // Set by the constructors and never changed.
    const tag: Tag
    const vr: Code
    const byteOrder: ByteOrder
    // The declared value length; kUndefinedLength for a sequence of undefined length.
    var length: nat
    var buffer: Bytes

    /** The length agrees with the buffer, and the buffer has even length. */
    predicate WellFormed()
      reads this
    {
      |buffer| == length && |buffer| % 2 == 0
    }

    /** An element with an explicit VR and an empty value. */
    constructor (tag: Tag, vr: Code, byteOrder: ByteOrder)
      ensures this.tag == tag && this.vr == vr && this.byteOrder == byteOrder
      ensures length == 0 && buffer == [] && WellFormed()
    {
      this.tag := tag;
      this.vr := vr;
      this.byteOrder := byteOrder;
      length := 0;
      buffer := [];
    }

    /** An element whose VR is the dictionary's VR for its tag. */
    constructor FromDictionary(tag: Tag, byteOrder: ByteOrder, getVR: Tag -> Code)
      ensures this.tag == tag && vr == getVR(tag) && this.byteOrder == byteOrder
      ensures length == 0 && buffer == [] && WellFormed()
    {
      this.tag := tag;
      this.byteOrder := byteOrder;
      length := 0;
      buffer := [];
      vr := getVR(tag);
    }

    /** Replace the buffer and its length; an odd-length buffer is refused. */
    method SetBuffer(b: Bytes) returns (ok: bool)
      modifies this`length, this`buffer
      ensures ok <==> |b| % 2 == 0
      ensures ok ==> buffer == b && length == |b| && WellFormed()
      ensures !ok ==> buffer == old(buffer) && length == old(length)
    {
      if |b| % 2 != 0 {
        return false;
      }
      length := |b|;
      buffer := b;
      return true;
    }

    /** set_buffer: the buffer and a declared length together; the two are not compared. */
    method SetBufferAndLength(b: Bytes, n: nat)
      requires n % 2 == 0
      modifies this`length, this`buffer
      ensures buffer == b && length == n
      ensures WellFormed() <==> |b| == n
    {
      buffer := b;
      length := n;
    }

    /** set_length: the declared length alone, e.g. kUndefinedLength for a sequence. */
    method SetLength(n: nat)
      modifies this`length
      ensures length == n
      ensures WellFormed() <==> n == |buffer| && n % 2 == 0
      ensures n == kUndefinedLength ==> !WellFormed()
    {
      length := n;
    }

    /** The value as text, its padding removed. Never fails. */
    method GetString() returns (ok: bool, value: Bytes)
      ensures ok && value == StripPadding(buffer)
    {
      if |buffer| == 0 {
        return true, [];
      }
      var size := |buffer|;
      if buffer[|buffer| - 1] == SPACE {
        size := size - 1;
      }
      if size > 0 && buffer[size - 1] == NUL {
        size := size - 1;
      }
      return true, buffer[..size];
    }

    /**
     * Validate a string value for the element's VR and store it padded to
     * even length; a rejected value changes nothing. AS values are judged by
     * the corrected Age String check.
     */
    method SetString(v: Bytes) returns (ok: bool)
      modifies this`length, this`buffer
      ensures ok == Accepts(vr, v)
      ensures ok ==> buffer == PadToEven(v) && length == |buffer| && WellFormed()
      ensures !ok ==> buffer == old(buffer) && length == old(length)
    {
      ok := CheckStringValue(vr, v);
      if !ok {
        return;
      }
      StorePadded(v);
    }

    /** SetString as written: its dispatcher refuses every value on an AS element. */
    method SetStringAsWritten(v: Bytes) returns (ok: bool)
      modifies this`length, this`buffer
      ensures ok == AcceptsAsWritten(vr, v)
      ensures vr == AS ==> !ok
      ensures ok ==> buffer == PadToEven(v) && length == |buffer| && WellFormed()
      ensures !ok ==> buffer == old(buffer) && length == old(length)
    {
      ok := CheckStringValueAsWritten(vr, v);
      if !ok {
        return;
      }
      StorePadded(v);
    }

    /** The storing half of SetString: resize, copy, and pad an odd length with a space. */
    method StorePadded(v: Bytes)
      modifies this`length, this`buffer
      ensures buffer == PadToEven(v) && length == |buffer|
    {
      var padding := |v| % 2 == 1;
      length := |v|;
      if padding {
        length := length + 1;
      }
      var resized := Resize(buffer, length);
      if length > 0 {
        resized := v + resized[|v|..];
      }
      if padding {
        resized := resized[length - 1 := SPACE];
      }
      buffer := resized;
    }

    /** Bring `size` bytes at the start of value between the element's byte order and the host's. */
    method AdjustBytes(value: array<Byte>, size: nat, host: ByteOrder)
      requires Swaps(size, byteOrder, host) ==> size <= value.Length
      modifies value
      ensures value[..] == Adjusted(old(value[..]), size, byteOrder, host)
    {
      if byteOrder != host {
        if size == 2 {
          Swap16(value);
        } else if size == 4 {
          Swap32(value);
        } else if size == 8 {
          Swap64(value);
        }
      }
    }

    /** Copy the whole buffer to the start of value; the caller must ask for exactly the stored length. */
    method GetBytes(value: array<Byte>, n: nat)
      requires n == length && length <= |buffer| && n <= value.Length
      modifies value
      ensures value[..] == buffer[..n] + old(value[n..])
    {
      forall i | 0 <= i < n {
        value[i] := buffer[i];
      }
    }

    /** Store the first n bytes of value as the buffer; n must not be 0 (evenness is not checked). */
    method SetBytes(value: array<Byte>, n: nat)
      requires n != 0 && n <= value.Length
      modifies this`length, this`buffer
      ensures length == n && buffer == value[..n]
      ensures WellFormed() <==> n % 2 == 0
    {
      length := n;
      if |buffer| != length {
        buffer := Resize(buffer, length);
      }
      buffer := value[..n];
    }

    /**
     * Read a number of `size` bytes into value, in host byte order. Refused,
     * with value untouched, unless `expected` is the element's VR.
     */
    method GetNumber(expected: Code, size: nat, value: array<Byte>, host: ByteOrder) returns (ok: bool)
      requires expected == vr ==> size == length && length <= |buffer| && size <= value.Length
      modifies value
      ensures ok <==> expected == vr
      ensures ok ==> value[..] == Adjusted(buffer[..size] + old(value[size..]), size, byteOrder, host)
      ensures !ok ==> value[..] == old(value[..])
    {
      if vr != expected {
        return false;
      }
      GetBytes(value, size);
      AdjustBytes(value, size, host);
      return true;
    }

    /**
     * Store a number of `size` bytes given in host byte order. The caller's
     * value is brought to the element's byte order in place first. Refused,
     * with nothing changed, unless `expected` is the element's VR.
     */
    method SetNumber(expected: Code, size: nat, value: array<Byte>, host: ByteOrder) returns (ok: bool)
      requires expected == vr ==> 0 < size <= value.Length
      modifies value, this`length, this`buffer
      ensures ok <==> expected == vr
      ensures ok ==> value[..] == Adjusted(old(value[..]), size, byteOrder, host)
      ensures ok ==> buffer == value[..size] && length == size
      ensures !ok ==> value[..] == old(value[..]) && buffer == old(buffer) && length == old(length)
    {
      if vr != expected {
        return false;
      }
      AdjustBytes(value, size, host);
      SetBytes(value, size);
      return true;
    }

    /**
     * GetNumber<T>(value, length): when the declared length is `n`, copy
     * sizeof(T) bytes (the length of value) from the start of the buffer,
     * without byte-order adjustment; otherwise leave value untouched.
     */
    method GetNumberChecked(value: array<Byte>, n: nat) returns (ok: bool)
      requires length == n ==> value.Length <= |buffer|
      modifies value
      ensures ok <==> length == n
      ensures ok ==> value[..] == buffer[..value.Length]
      ensures !ok ==> value[..] == old(value[..])
    {
      if length == n {
        forall i | 0 <= i < value.Length {
          value[i] := buffer[i];
        }
        return true;
      }
      return false;
    }

    /** GetNumber<T>(value): GetNumberChecked with the length sizeof(T). */
    method GetNumberSized(value: array<Byte>) returns (ok: bool)
      requires length == value.Length ==> value.Length <= |buffer|
      modifies value
      ensures ok <==> length == value.Length
      ensures ok ==> value[..] == buffer[..value.Length]
      ensures !ok ==> value[..] == old(value[..])
    {
      ok := GetNumberChecked(value, value.Length);
    }
  }

  // ---------------------------------------------------------------------------
  // Round trips through the element's accessors

  /** SetString then GetString returns the value whenever it is accepted and its last byte is not padding. */
  method SetThenGetString(e: DataElement, v: Bytes) returns (ok: bool, r: Bytes)
    modifies e`length, e`buffer
    ensures ok <==> Accepts(e.vr, v)
    ensures ok && (v == [] || (v[|v| - 1] != SPACE && v[|v| - 1] != NUL)) ==> r == v
  {
    ok := e.SetString(v);
    var read;
    read, r := e.GetString();
    StringRoundTrip(v);
  }

  /**
   * SetNumber then GetNumber with the element's own VR returns the caller's
   * original bytes, whatever the two byte orders.
   */
  method SetThenGetNumber(e: DataElement, x: array<Byte>, host: ByteOrder) returns (y: array<Byte>)
    requires 0 < x.Length
    modifies x, e`length, e`buffer
    ensures fresh(y) && y[..] == old(x[..])
    ensures x[..] == Adjusted(old(x[..]), x.Length, e.byteOrder, host)
  {
    var stored := e.SetNumber(e.vr, x.Length, x, host);
    y := new Byte[x.Length];
    var got := e.GetNumber(e.vr, x.Length, y, host);
    assert e.buffer[..x.Length] + y[x.Length..] == e.buffer;
    AdjustedTwice(old(x[..]), x.Length, e.byteOrder, host);
  }
}
