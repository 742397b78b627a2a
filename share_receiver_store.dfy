/** ShareClipboard/ReceiverStore.swift: the receiver id the ShareClipboard
    client sends to, kept in `receiver.data` in Application Support. */
module ShareReceiverStore {

  import opened Wrappers
  import opened Strings

  /** What `receiver.data` holds: the JSON of a string, the JSON `null`, or
      bytes that do not decode as an optional string. */
  datatype Blob = JsonString(s: string) | JsonNull | Garbage

  /** Why `delete()` threw: there was no file, or removing it failed. */
  datatype DeleteError = NoSuchFile | RemoveFailed(description: string)

  /** The `NSError` `validate(receiverId:)` throws (domain "ReceiverStore"). */
  datatype ValidationError = ValidationError(code: int, description: string)

  const ValidationMessage: string := "Receiver ID must be an 8-digit number"

  /** The bounds of Swift's 64-bit `Int`. */
  const IntMax: int := 0x7fff_ffff_ffff_ffff
  const IntMin: int := -0x8000_0000_0000_0000

  /** `Int(s) != nil` for Swift's `Int.init?(_ description: String)`: an
      optional '+' or '-', then one or more ASCII digits, within `Int`'s range. */
  predicate SwiftIntParses(s: string) {
    if |s| > 0 && (s[0] == '+' || s[0] == '-') then
      |s| > 1 && AllAsciiDigits(s[1..]) &&
      (if s[0] == '-' then DecimalValue(s[1..]) <= -IntMin else DecimalValue(s[1..]) <= IntMax)
    else
      |s| > 0 && AllAsciiDigits(s) && DecimalValue(s) <= IntMax
  }

  /** `validate(receiverId:)`: code 1 unless there are 8 characters, then
      code 2 unless Swift parses the text as an `Int`. */
  function Validate(receiverId: string): (r: Option<ValidationError>)
  {
    if |receiverId| != 8 then Some(ValidationError(1, ValidationMessage))
    else if !SwiftIntParses(receiverId) then Some(ValidationError(2, ValidationMessage))
    else None
  }

  /** Any 8 characters made of an optional sign and ASCII digits pass; with
      8 characters the range of `Int` never matters. */
  lemma ValidateAccepts(receiverId: string)
    ensures Validate(receiverId).None? <==>
            |receiverId| == 8 &&
            (AllAsciiDigits(receiverId) ||
             ((receiverId[0] == '+' || receiverId[0] == '-') && AllAsciiDigits(receiverId[1..])))
    ensures |receiverId| != 8 ==> Validate(receiverId) == Some(ValidationError(1, ValidationMessage))
    ensures Validate(receiverId) == Some(ValidationError(2, ValidationMessage)) <==>
            |receiverId| == 8 &&
            !(AllAsciiDigits(receiverId) ||
              ((receiverId[0] == '+' || receiverId[0] == '-') && AllAsciiDigits(receiverId[1..])))
  {
    if |receiverId| == 8 {
      var tail := receiverId[1..];
      if AllAsciiDigits(receiverId) {
        SmallDecimal(receiverId);
      }
      if (receiverId[0] == '+' || receiverId[0] == '-') && AllAsciiDigits(tail) {
        SmallDecimal(tail);
      }
    }
  }

  /** At most 8 digits stay far below the bounds of `Int`. */
  lemma SmallDecimal(s: string)
    requires AllAsciiDigits(s) && |s| <= 8
    ensures DecimalValue(s) < 100000000
  {
    DecimalBelowPow10(s);
    Pow10Monotone(|s|, 8);
  }

  lemma {:induction false} DecimalBelowPow10(s: string)
    requires AllAsciiDigits(s)
    ensures DecimalValue(s) < Pow10(|s|)
    decreases |s|
  {
    if s != [] {
      var init := s[..|s| - 1];
      assert AllAsciiDigits(init);
      DecimalBelowPow10(init);
    }
  }

  /** The validator is not a digits-only check: a signed 7-digit number passes. */
  lemma SignedNumbersPass()
    ensures Validate("+1234567").None?
    ensures Validate("-1234567").None?
    ensures Validate("1234567").Some? && Validate("1234567").value.code == 1
    ensures Validate("1234567a").Some? && Validate("1234567a").value.code == 2
  {
    ValidateAccepts("+1234567");
    ValidateAccepts("-1234567");
    assert "+1234567"[1..] == "1234567";
    assert "-1234567"[1..] == "1234567";
    assert !IsAsciiDigit("1234567a"[7]);
    ValidateAccepts("1234567a");
  }

  /** The id `load()` publishes for the stored blob. */
  function Decoded(storage: Option<Blob>): (r: Option<string>)
    ensures r.Some? <==> storage.Some? && storage.value.JsonString?
    ensures r.Some? ==> r.value == storage.value.s
  {
    match storage
    case Some(JsonString(s)) => Some(s)
    case _ => None
  }

  class ReceiverStore {
    var receiverId: Option<string>
    /** `receiver.data`; `None` when the file does not exist. */
    var storage: Option<Blob>

    constructor (storage: Option<Blob>)
      ensures receiverId == None && this.storage == storage
    {
      receiverId := None;
      this.storage := storage;
    }

    /** `load()`: nil when nothing is stored or the data does not decode. */
    method Load()
      modifies this
      ensures receiverId == Decoded(storage)
      ensures storage == old(storage)
    {
      if storage.None? {
        receiverId := None;
        return;
      }
      receiverId := Decoded(storage);
    }

    /** `save(receiverId:)`: the id is published first and without validation;
        `writeFailure` is the error of writing the file, if any. */
    method Save(id: string, writeFailure: Option<string>) returns (error: Option<string>)
      modifies this
      ensures receiverId == Some(id)
      ensures error == writeFailure
      ensures writeFailure.None? ==> storage == Some(JsonString(id))
      ensures writeFailure.Some? ==> storage == old(storage)
    {
      receiverId := Some(id);
      if writeFailure.Some? {
        return writeFailure;
      }
      storage := Some(JsonString(id));
      error := None;
    }

    /** `delete()`: the id is cleared first; removing a missing file throws too. */
    method Delete(removeFailure: Option<string>) returns (error: Option<DeleteError>)
      modifies this
      ensures receiverId == None
      ensures old(storage).None? ==> error == Some(NoSuchFile) && storage == None
      ensures old(storage).Some? && removeFailure.Some? ==>
                error == Some(RemoveFailed(removeFailure.value)) && storage == old(storage)
      ensures old(storage).Some? && removeFailure.None? ==> error == None && storage == None
    {
      receiverId := None;
      if storage.None? {
        return Some(NoSuchFile);
      }
      if removeFailure.Some? {
        return Some(RemoveFailed(removeFailure.value));
      }
      storage := None;
      error := None;
    }
  }

  /** What was saved is what the next load yields, valid or not. */
  method SaveThenLoad(store: ReceiverStore, id: string)
    modifies store
    ensures store.receiverId == Some(id)
  {
    var _ := store.Save(id, None);
    store.Load();
  }
}
