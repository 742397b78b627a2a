/** ClipboardPortal/ui/ClipboardHistoryListView.swift: the id check and the
    choice between the "your friend's ID" checkmark and the "Set friend ID"
    button on one history entry. */
module PortalHistoryView {

  import opened Strings

  /** `looksLikeUserId`: exactly 8 characters, each accepted by Swift's
      `Character.isNumber` (the parameter `isNumber`). */
  predicate LooksLikeUserId(s: string, isNumber: char -> bool) {
    |s| == 8 && AllSatisfy(s, isNumber)
  }

  /** Every 8-character ASCII digit string looks like an id, and nothing of
      another length does. */
  lemma LooksLikeUserIdFacts(s: string, isNumber: char -> bool)
    ensures |s| != 8 ==> !LooksLikeUserId(s, isNumber)
    ensures AcceptsAsciiDigits(isNumber) && |s| == 8 && AllAsciiDigits(s) ==> LooksLikeUserId(s, isNumber)
    ensures LooksLikeUserId(s, isNumber) ==> forall i :: 0 <= i < 8 ==> isNumber(s[i])
  {
    if AcceptsAsciiDigits(isNumber) && |s| == 8 && AllAsciiDigits(s) {
      forall i | 0 <= i < |s| ensures isNumber(s[i]) {
        assert IsAsciiDigit(s[i]);
      }
    }
  }

  /** The content of an entry as this view sees it: a `.text` case, whose
      string it can read, or some other case. */
  datatype EntryContent = TextContent(text: string) | OtherContent(tag: string)

  datatype Entry = Entry(content: EntryContent, received: bool)

  /** What the entry shows next to its content. */
  datatype Badge = Checkmark | SetFriendId(text: string) | NoBadge

  /** The badge of an entry for the configured `receiverId`. `describe` is
      the string interpolation `"\(entry.content)"`, whose form depends on a
      description of the content type that is not part of this model. */
  function BadgeOf(entry: Entry, receiverId: string, describe: EntryContent -> string,
                   isNumber: char -> bool): (b: Badge)
    ensures !entry.received ==> b == NoBadge
    ensures b == Checkmark <==> entry.received && receiverId == describe(entry.content)
    ensures b.SetFriendId? <==>
              entry.received && receiverId != describe(entry.content) &&
              entry.content.TextContent? && LooksLikeUserId(entry.content.text, isNumber)
    ensures b.SetFriendId? ==> b.text == entry.content.text
  {
    if entry.received && receiverId == describe(entry.content) then Checkmark
    else if entry.content.TextContent? && LooksLikeUserId(entry.content.text, isNumber) && entry.received then
      SetFriendId(entry.content.text)
    else NoBadge
  }

  /** The checkmark wins: an entry that already matches the configured id
      never offers the button, whatever its text looks like. */
  lemma CheckmarkTakesPrecedence(entry: Entry, describe: EntryContent -> string, isNumber: char -> bool)
    requires entry.received
    ensures BadgeOf(entry, describe(entry.content), describe, isNumber) == Checkmark
  {
  }

  /** Pressing "Set friend ID" sets `receiverId` to the entry's text; the
      same entry then shows the checkmark exactly when the description of
      its content is that text, and otherwise still offers the button. */
  lemma PressSetFriendId(entry: Entry, receiverId: string, describe: EntryContent -> string,
                         isNumber: char -> bool)
    requires BadgeOf(entry, receiverId, describe, isNumber).SetFriendId?
    ensures var pressed := BadgeOf(entry, receiverId, describe, isNumber).text;
            pressed == entry.content.text &&
            (BadgeOf(entry, pressed, describe, isNumber) == Checkmark <==> describe(entry.content) == pressed) &&
            (describe(entry.content) != pressed ==>
               BadgeOf(entry, pressed, describe, isNumber) == SetFriendId(pressed))
  {
  }
}
