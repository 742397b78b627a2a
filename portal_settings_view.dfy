/** ClipboardPortal/ui/SettingsView.swift: the `onReceive` closure that keeps
    only digits in the friend's-code field. */
module PortalSettingsView {

  import opened Wrappers
  import opened Strings
  import PortalHistoryView
  import ShareReceiverStore
  import PythonRelay

  const KeptCharacters: string := "0123456789"

  /** `newValue.filter { "0123456789".contains($0) }`. */
  function FilterDigits(s: string): (r: string)
    ensures AllAsciiDigits(r)
    ensures |r| <= |s|
    ensures multiset(r) <= multiset(s)
  {
    if s == [] then []
    else
      var init := s[..|s| - 1];
      var c := s[|s| - 1];
      assert s == init + [c];
      if c in KeptCharacters then FilterDigits(init) + [c] else FilterDigits(init)
  }

  /** The kept characters are exactly the ASCII digits. */
  lemma KeptAreAsciiDigits(c: char)
    ensures c in KeptCharacters <==> IsAsciiDigit(c)
  {
    if IsAsciiDigit(c) {
      assert KeptCharacters[c as int - '0' as int] == c;
    }
  }

  /** Filtering works character by character and keeps the order: the
      filter of a concatenation is the concatenation of the filters. */
  lemma {:induction false} FilterDigitsAppend(a: string, b: string)
    ensures FilterDigits(a + b) == FilterDigits(a) + FilterDigits(b)
    decreases |b|
  {
    if b == [] {
      assert a + b == a;
    } else {
      var init := b[..|b| - 1];
      assert a + b == (a + init) + [b[|b| - 1]];
      assert (a + b)[..|a + b| - 1] == a + init;
      FilterDigitsAppend(a, init);
    }
  }

  /** A single character survives exactly when it is an ASCII digit. */
  lemma FilterDigitsChar(c: char)
    ensures FilterDigits([c]) == if IsAsciiDigit(c) then [c] else []
  {
    KeptAreAsciiDigits(c);
    assert [c][..0] == [];
  }

  /** A value is left as it is exactly when it is all ASCII digits. */
  lemma {:induction false} FilterDigitsFixed(s: string)
    ensures FilterDigits(s) == s <==> AllAsciiDigits(s)
    decreases |s|
  {
    // A value with a non-digit differs from its filter, which has none.
    if s != [] && AllAsciiDigits(s) {
      var init := s[..|s| - 1];
      var c := s[|s| - 1];
      assert s == init + [c];
      assert AllAsciiDigits(init);
      KeptAreAsciiDigits(c);
      FilterDigitsFixed(init);
    }
  }

  /** Filtering twice is filtering once. */
  lemma FilterDigitsIdempotent(s: string)
    ensures FilterDigits(FilterDigits(s)) == FilterDigits(s)
  {
    FilterDigitsFixed(FilterDigits(s));
  }

  /** One run of the closure on `newValue`: the value `receiverId` is
      reassigned to, or `None` when filtering changed nothing. */
  function OnReceive(newValue: string): (update: Option<string>)
    ensures update.None? <==> AllAsciiDigits(newValue)
    ensures update.Some? ==> update.value == FilterDigits(newValue) && update.value != newValue
  {
    FilterDigitsFixed(newValue);
    var filtered := FilterDigits(newValue);
    if filtered != newValue then Some(filtered) else None
  }

  /** The reassignment publishes a value the next run leaves alone, so the
      closure settles after one extra round. */
  lemma OnReceiveSettles(newValue: string)
    ensures OnReceive(newValue).Some? ==> OnReceive(OnReceive(newValue).value).None?
  {
  }

  /** A filtered code of 8 characters passes every id check of the system:
      the history view's `looksLikeUserId`, the ShareClipboard validator and
      the Python relay's `is_valid_user_id`. */
  lemma FilteredCodePassesChecks(s: string, isNumber: char -> bool, isDigit: char -> bool)
    requires AcceptsAsciiDigits(isNumber) && AcceptsAsciiDigits(isDigit)
    requires |FilterDigits(s)| == 8
    ensures PortalHistoryView.LooksLikeUserId(FilterDigits(s), isNumber)
    ensures ShareReceiverStore.Validate(FilterDigits(s)).None?
    ensures PythonRelay.IsValidUserId(FilterDigits(s), isDigit)
  {
    var code := FilterDigits(s);
    PortalHistoryView.LooksLikeUserIdFacts(code, isNumber);
    ShareReceiverStore.ValidateAccepts(code);
    PythonRelay.IsValidUserIdMeaning(code, isDigit);
  }
}
