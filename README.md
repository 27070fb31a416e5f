# DICOM data element codec, modelled in Dafny

This project models the element-level core of a small DICOM library (`dcm`):

- the Value Representation (VR) registry. It records, for each registered two-letter VR code, a word size (the unit of byte swapping) and a maximum data length;
- the `VR` value: building one from its two wire bytes, and the classifications "16 bits following, reversed", "string" and "backslash multi-valued";
- `Tag::SwapBytes`;
- the string validators, one per string VR, and the dispatcher that selects one by VR;
- the `DataElement` class. It has a tag, a VR, a byte order, a declared length and a raw byte buffer. Its accessors validate and pad string values, strip padding when reading, copy raw bytes, and bring numbers between the element's byte order and the host's.

Files and modules:

- `util.dfy` (`Util`): bytes (`bv8`), `Option`, byte reversal, `std::vector::resize`, and in-place `Swap16`/`Swap32`/`Swap64` on an `array`.
- `defs.dfy` (`Defs`): VR codes, the registry table `Lookup` and the class `VRDict` built from it, the class `VR`, the classifications, and `Tag`.
- `validators.dfy` (`Validators`): the validators and the dispatcher.
  - The validators with a scan loop are methods proved against predicates that say what they accept. These are AS (as written, and corrected), CS, DA and IS.
  - The length-only validators are functions whose contracts tie their bound to the registry's maximum data length.
  - `CheckUT`, `CheckUC` and `CheckUR` accept every value.
- `data_element.dfy` (`Element`): the class `DataElement`. It comes with the specification functions `PadToEven`, `StripPadding` and `Adjusted`, their lemmas, and two client methods that prove the set-then-get round trips through the class's own methods.

Modelling choices:

- A `std::string` value and the `std::vector<char>` buffer are both byte sequences (`seq<bv8>`). The two VR bytes are `char`s.
- The character classes (`isdigit`, `isupper`) are those of the C locale.
- The host byte order is probed at start-up in the library. Here it is a `host` parameter of the methods that depend on it.
- A `void*` out-parameter or in-out parameter is an `array<bv8>` that the method modifies.
- `size_t` is `nat`.
- The plain getters (`tag()`, `vr()`, `length()`, `buffer()`) are the class's public fields.
- The dictionary lookup `DataDict::GetVR` belongs to another component. It is the parameter `getVR` of `DataElement.FromDictionary`.
- The registry singleton's map is built, in `VRDict`, from the table `Lookup`. The table is therefore written once, and `VRDict`'s constructor proves that its map holds exactly that table. `FromBytes`, the `VR` constructor and `VR.SetBytes` ask `IsValid`, which reads the same table. No `VRDict` object is passed to them.

Points where the model keeps the code's behaviour even though it may be unexpected:

- `Is16BitsFollowingReversed` includes OD, which the registry does not register.
- `CheckUR`'s comment names a 64-byte maximum, but the code accepts every value.
- The registry has no entry for OD, UC or UR. Reading those names with the lenient `VR` constructor therefore gives UN, and `VR::SetBytes` refuses them.
- `SetBytes`, `set_buffer` and `set_length` do not keep the buffer's length even, or equal to the declared length. Their contracts say exactly when the element is still `WellFormed`.
- The header declares `SetString` as returning `void` and uses an `Endian` byte order. The model follows the definitions in `data_element.cpp`: `SetString` returns a `bool`, and the byte order is a `ByteOrder`.

One deliberate departure from the code: the dispatcher `CheckStringValue`, and through it `DataElement.SetString`, uses the corrected Age String check `CheckAS` (see Findings).
- The dispatcher as written is `CheckStringValueAsWritten`. It sends AS to `CheckASAsWritten` and so accepts no AS value.
- `AcceptsSomethingAsWritten` states the consequence: AS is the one string VR that accepts nothing.
- `DataElement.SetStringAsWritten` is the element operation as written. On an AS element it refuses every value and changes nothing.

## Model

| member | source | states |
|---|---|---|
| Defs.Lookup | dcm/defs.cpp:49-77 | the registry's 28 rows with their word sizes and maximum lengths; every entry's code is its key |
| Defs.WordSizes | dcm/defs.cpp:49-77 | a word size is 0, 2, 4 or 8; it is 2 exactly for AT, OW, SS, US, 4 exactly for FL, OF, OL, SL, UL, and 8 exactly for FD |
| Defs.IsValid | dcm/defs.cpp:42-44 | a code is registered exactly when it is not OD, UC or UR |
| Defs.VRDict.constructor | dcm/defs.cpp:49-83 | the registry map has an entry exactly for the registered codes, and each entry is that code's row |
| Defs.Parse | dcm/defs.cpp:89-90 | a byte pair that names a code parses to a code with exactly that name |
| Defs.ParseName | dcm/defs.cpp:89-90 | every code's own name parses back to it |
| Defs.FromBytes | dcm/defs.cpp:89-97 | the lenient reading always gives a registered code, and any code other than UN is named by the bytes read |
| Defs.FromName | dcm/defs.cpp:89-97 | a code's name reads back as that code when it is registered, and as UN otherwise |
| Defs.UnregisteredNamesReadAsUnknown | dcm/defs.cpp:89-97 | "UC", "UR" and "OD" are read as UN, because the registry lacks them |
| Defs.VR.constructor | dcm/defs.cpp:89-97 | the new VR's code is the lenient reading of the two bytes |
| Defs.VR.SetBytes | dcm/defs.cpp:99-108 | succeeds exactly when the bytes name a registered code, and then sets that code; otherwise the code is unchanged |
| Defs.Is16BitsFollowingReversed | dcm/defs.cpp:110-118 | the ten codes listed have a 2-byte reserved field and a 4-byte length; none of them has a registered maximum length |
| Defs.IsString | dcm/defs.cpp:122-130 | the seventeen codes listed are the text VRs; none of them has a word size, so none is byte-swapped |
| Defs.IsBackSlashVM | dcm/defs.cpp:132-141 | the thirteen codes listed may be backslash multi-valued; every one of them is a string VR |
| Defs.LongLengthCodes | dcm/defs.cpp:110-130 | the text VRs with a 4-byte length field are exactly UT, UC and UR |
| Defs.LongLengthMultiValued | dcm/defs.cpp:110-141 | the only VR with a 4-byte length field that may be backslash multi-valued is UC |
| Defs.BackSlashVMIsString | dcm/defs.cpp:122-141 | the string VRs that are never multi-valued are exactly ST, LT, UT and UR |
| Defs.SwapUint16 | dcm/defs.cpp:146 | the two bytes of the result are those of the input in reverse order |
| Defs.Tag.SwapBytes | dcm/defs.cpp:145-147 | each half of the swapped tag has its two bytes reversed |
| Defs.SwapBytesTwice | dcm/defs.cpp:145-147 | swapping a tag's bytes twice gives the tag back |
| Validators.CheckAE | dcm/data_element.cpp:39-47 | accepts exactly the values of 1 to 16 bytes, 16 being the registry's maximum for AE |
| Validators.CheckASAsWritten | dcm/data_element.cpp:50-71 | the Age String check as written rejects every value |
| Validators.CheckAS | dcm/data_element.cpp:50-71 | accepts exactly three digits followed by D, W, M or Y |
| Validators.AgeStringExamples | dcm/data_element.cpp:50-71 | "018M" is an Age String; "18M" and "018X" are not |
| Validators.CheckCS | dcm/data_element.cpp:74-94 | accepts exactly the values of at most 16 bytes that contain only upper-case letters, digits, spaces and underscores; the bound is the registry's |
| Validators.CheckDA | dcm/data_element.cpp:97-115 | accepts exactly the values of eight digits |
| Validators.CheckTM | dcm/data_element.cpp:118-131 | accepts exactly the values within the registry's maximum for TM |
| Validators.CheckDT | dcm/data_element.cpp:134-147 | accepts exactly the values within the registry's maximum for DT |
| Validators.CheckDS | dcm/data_element.cpp:150-164 | accepts exactly the values within the registry's maximum for DS |
| Validators.CheckIS | dcm/data_element.cpp:167-191 | accepts exactly the values of at most 12 bytes that are all digits after a leading sign; the sign is skipped only when more follows |
| Validators.IntegerStringShape | dcm/data_element.cpp:167-191 | an Integer String is all digits, or a sign followed by at least one digit and only digits |
| Validators.IntegerStringExamples | dcm/data_element.cpp:167-191 | "", "-5" and "+0012" are accepted; "+", "1-" and thirteen digits are not |
| Validators.CheckLO | dcm/data_element.cpp:194-202 | accepts exactly the values within the registry's maximum for LO |
| Validators.CheckST | dcm/data_element.cpp:205-214 | accepts exactly the values within the registry's maximum for ST |
| Validators.CheckLT | dcm/data_element.cpp:217-225 | accepts exactly the values within the registry's maximum for LT |
| Validators.CheckPN | dcm/data_element.cpp:235-245 | accepts exactly the values within the registry's maximum for PN |
| Validators.CheckSH | dcm/data_element.cpp:248-257 | accepts exactly the values within the registry's maximum for SH |
| Validators.CheckUT | dcm/data_element.cpp:228-232 | accepts every value |
| Validators.CheckUC | dcm/data_element.cpp:259-263 | accepts every value |
| Validators.CheckUR | dcm/data_element.cpp:281-292 | accepts every value, although its comment names a 64-byte maximum |
| Validators.CheckUI | dcm/data_element.cpp:266-279 | accepts exactly the values within the registry's maximum for UI |
| Validators.UnboundedVRs | dcm/data_element.cpp:228-292 | UT, UC and UR accept every value, and the registry records no bound for them |
| Validators.CheckStringValue | dcm/data_element.cpp:296-354 | the verdict is that of the VR's own check, with the corrected check for AS, and only a string VR can accept a value |
| Validators.AcceptsSomethingIffString | dcm/data_element.cpp:296-354 | with the corrected Age String check, a VR accepts at least one value exactly when it is a string VR |
| Validators.CheckStringValueAsWritten | dcm/data_element.cpp:296-354 | the dispatcher as written: no AS value is accepted; every other VR gets its own check's verdict |
| Validators.AcceptsSomethingAsWritten | dcm/data_element.cpp:296-354 | as written, a VR accepts at least one value exactly when it is a string VR other than AS |
| Validators.NonStringRejected | dcm/data_element.cpp:349-353 | a VR that is not a string VR accepts no value |
| Validators.AcceptedWithinRegistryBound | dcm/data_element.cpp:296-354 | an accepted value never exceeds the registry's maximum length for its VR, where one is recorded |
| Validators.LengthOnlyVRs | dcm/data_element.cpp:118-279 | the ten VRs checked by length alone accept exactly the values within the registry's bound (AE also needs a non-empty value) |
| Validators.FixedLengthVRs | dcm/data_element.cpp:50-115 | accepted AS values have 4 bytes and accepted DA values 8, although the registry records no bound for either |
| Element.PadToEven | dcm/data_element.cpp:414-429 | the stored value has even length, starts with the value, and an odd-length value gains one trailing space |
| Element.StripPadding | dcm/data_element.cpp:392-404 | reading drops at most two trailing bytes, and only a space, a NUL, or a NUL followed by a space |
| Element.StringRoundTrip | dcm/data_element.cpp:386-432 | stripping a padded value gives it back exactly when it is empty or its last byte is neither NUL nor, for an even length, a space |
| Element.PatientNameExample | dcm/data_element.cpp:409-432 | "DOE^JOHN" is stored as is; "DOE^JON" is stored with a trailing space and reads back without it |
| Element.AcceptedFitsShortLengthField | dcm/defs.cpp:110-118 | a stored accepted string of a VR with a 2-byte length field fits that field |
| Element.Adjusted | dcm/data_element.cpp:595-605 | byte-order adjustment reverses the first 2, 4 or 8 bytes when the byte orders differ, and changes nothing otherwise |
| Element.AdjustedTwice | dcm/data_element.cpp:595-605 | adjusting twice gives the bytes back |
| Element.RegisteredWordSizesSwap | dcm/defs.cpp:27-29 | every numeric word size in the registry is one that adjustment reverses |
| Element.DataElement.constructor | dcm/data_element.cpp:360-362 | a new element has the given tag, VR and byte order, length 0 and an empty buffer |
| Element.DataElement.FromDictionary | dcm/data_element.cpp:364-367 | as the constructor, with the VR that the dictionary gives for the tag |
| Element.DataElement.SetBuffer | dcm/data_element.cpp:373-384 | an even-length buffer is stored with its length; an odd one is refused and nothing changes |
| Element.DataElement.SetBufferAndLength | dcm/data_element.h:46-50 | stores the buffer and an even declared length; the element stays well formed exactly when the two agree |
| Element.DataElement.SetLength | dcm/data_element.h:36 | sets the declared length alone; the undefined length of a sequence (0xFFFFFFFF, odd) never leaves the element well formed |
| Element.DataElement.GetString | dcm/data_element.cpp:386-407 | always succeeds, with the buffer stripped of its padding |
| Element.DataElement.SetString | dcm/data_element.cpp:409-432 | succeeds exactly when the VR's check (the corrected one for AS) accepts the value; the buffer is then the value padded to even length, and the element is well formed; a refused value changes nothing |
| Element.DataElement.SetStringAsWritten | dcm/data_element.cpp:409-432 | as written: succeeds exactly when the dispatcher as written accepts the value, so never on an AS element; on failure nothing changes |
| Element.DataElement.StorePadded | dcm/data_element.cpp:414-429 | resizing, copying and padding leave the buffer as the value padded to even length, with its length |
| Element.DataElement.AdjustBytes | dcm/data_element.cpp:595-605 | the caller's storage becomes its byte-order adjustment |
| Element.DataElement.GetBytes | dcm/data_element.cpp:577-581 | the caller's storage starts with the first `length` bytes of the buffer, and the rest is unchanged |
| Element.DataElement.SetBytes | dcm/data_element.cpp:583-593 | the buffer becomes the caller's first n bytes and the length n; the element is well formed exactly when n is even |
| Element.DataElement.GetNumber | dcm/data_element.cpp:553-563 | succeeds exactly for the element's own VR, giving the buffer adjusted to the host's byte order; otherwise the storage is untouched |
| Element.DataElement.SetNumber | dcm/data_element.cpp:565-575 | succeeds exactly for the element's own VR; the caller's value is adjusted in place and stored; otherwise nothing changes |
| Element.DataElement.GetNumberChecked | dcm/data_element.h:85-92 | copies sizeof(T) bytes from the buffer exactly when the declared length is the one asked for; otherwise the storage is untouched |
| Element.DataElement.GetNumberSized | dcm/data_element.h:79-82 | the same, with the length asked for being sizeof(T) |
| Element.SetThenGetString | dcm/data_element.cpp:386-432 | a value the VR accepts, whose last byte is neither a space nor a NUL, reads back unchanged |
| Element.SetThenGetNumber | dcm/data_element.cpp:553-575 | a number stored with SetNumber and read with GetNumber comes back as the caller's original bytes, whatever the two byte orders |

## Left out

- `DataElement::Print`, `PrintValue` and `Tag::Print`: text output to streams, with no state to model.
- `GetWString`: conversion to wide strings depends on the platform's encoding.
- The typed accessors `GetUint16`, `GetUint32`, `GetInt16`, `GetInt32`, `GetFloat32` and `GetFloat64` are declared in `data_element.h` but defined in no file of this model. They are left out, on the assumption that each one calls `GetNumber` with its type's VR and size. Floating point is not modelled.
- `Element.DataElement.GetNumberChecked` and `Element.DataElement.GetNumberSized`: modelled as a raw copy of sizeof(T) bytes, not as a typed value; the reinterpretation of those bytes as T is not modelled.
- `Accept` and the `Visitor`: double dispatch into code outside this core.
- `DataDict::GetVR` is not part of this model; it is the parameter `getVR`.
- The host byte-order probe (`kByteOrderOS`) is the parameter `host`.
- The singleton machinery of `VRDict` and the `std::map` container are not modelled as such: `VRDict` is a class with a `map` field.
- `Util.Swap16`, `Util.Swap32`, `Util.Swap64`, `Defs.SwapUint16` and the code construction `MAKE_VR_CODE` live in headers that are not part of this model. They are modelled by their evident intent. The numeric VR code is not modelled, so neither is the ordering it induces. A code is an enumeration value with a two-character name.
- Undefined behaviour is excluded by preconditions instead of being modelled:
  - a copy past the end of the caller's storage or of the buffer, in `GetBytes`, `SetBytes`, `GetNumber` and `SetNumber`;
  - a Swap16, Swap32 or Swap64 that writes past the end of the caller's storage, in `AdjustBytes`;
  - the `reinterpret_cast` read of sizeof(T) bytes past a shorter buffer, in `GetNumberChecked` and `GetNumberSized`;
  - a failed `assert` in `GetBytes`, in `SetBytes` (also reached through `SetNumber`, hence its `0 < size`), or in `set_buffer`.
- `Validators.CheckStringValue`: sends AS to the corrected `CheckAS`, so the model accepts Age Strings such as "018M" where the code as written rejects every AS value. `Validators.CheckStringValueAsWritten` models the code as written.
- `Validators.AcceptsSomethingIffString`: holds of the corrected dispatcher. Of the dispatcher as written, AS accepts nothing, which `Validators.AcceptsSomethingAsWritten` states.
- `Element.DataElement.SetString`: uses the corrected dispatcher, so it stores an accepted Age String. The code as written refuses every value on an AS element and leaves the element unchanged. `Element.DataElement.SetStringAsWritten` states that.

## Findings

| source | as written | input that shows it | evidently intended | confidence | as-written member | corrected member |
|---|---|---|---|---|---|---|
| dcm/data_element.cpp:65-66 | the unit test joins `value[3] != 'D'`, `!= 'W'`, `!= 'M'` and `!= 'Y'` with `\|\|`, which is true for every byte, so every Age String is rejected | "018M" | reject only when the unit is none of D, W, M, Y (join with `&&`) | not executed | Validators.CheckASAsWritten | Validators.CheckAS |
