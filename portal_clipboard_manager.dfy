/** ClipboardPortal/ClipboardManager.swift: the send and receive side of the
    ClipboardPortal client, with its history of sent and received contents. */
module PortalClipboardManager {

  import opened Wrappers
  import opened Strings
  import opened ClipboardHistory
  import PortalServerRequest

  datatype ContentType = Text | Url

  datatype ClipboardContent = ClipboardContent(id: Option<Uuid>, kind: ContentType, content: string)

  datatype PasteboardType = StringType | UrlType

  /** What `copyToClipboard` writes after clearing the pasteboard: the text as
      a string, and for a URL also as a URL. */
  function PasteboardWrites(c: ClipboardContent): (w: seq<(PasteboardType, string)>)
    ensures forall i :: 0 <= i < |w| ==> w[i].1 == c.content
    ensures (StringType, c.content) in w
    ensures (UrlType, c.content) in w <==> c.kind == Url
  {
    match c.kind
    case Text => [(StringType, c.content)]
    case Url => [(UrlType, c.content), (StringType, c.content)]
  }

  const NoReceiverMessage: string := "No receiver configured. Go to settings."
  const UnknownReceiverMessage: string := "This receiver ID does not exist."
  const NoContentMessage: string := "No sendable clipboard content."
  const RickUrl: string := "https://www.youtube.com/watch?v=xvFZjo5PgG0"

  /** The message a failed `/send` request leaves in `sendErrorMessage`. */
  function SendErrorMessage(outcome: PortalServerRequest.RequestOutcome<Uuid>): (m: string)
    requires !outcome.Returned?
    ensures outcome == PortalServerRequest.Thrown(PortalServerRequest.NotFound) ==> m == UnknownReceiverMessage
    ensures outcome.Thrown? && outcome.error != PortalServerRequest.NotFound ==>
              m == PortalServerRequest.ErrorDescription(outcome.error)
    ensures outcome.Rethrown? ==> m == outcome.description
  {
    match outcome
    case Thrown(e) =>
      if e == PortalServerRequest.NotFound then UnknownReceiverMessage
      else PortalServerRequest.ErrorDescription(e)
    case Rethrown(d) => d
  }

  /** The test that sends pasted text as a URL. */
  predicate LooksLikeUrl(s: string, urlParses: string -> bool) {
    (StartsWith(s, "http:") || StartsWith(s, "https:")) && !Contains(s, " ") && urlParses(s)
  }

  /** The content `sendClipboardContent()` builds from the pasteboard string;
      `urlParses` stands for `URL(string:) != nil`. */
  function Classify(pasted: string, urlParses: string -> bool): (c: ClipboardContent)
    ensures c.id == None
  {
    var text := if pasted == "rick" then RickUrl else pasted;
    if LooksLikeUrl(text, urlParses) then ClipboardContent(None, Url, text)
    else ClipboardContent(None, Text, text)
  }

  /** Classification changes the text only for the "rick" easter egg; a URL
      starts with "http:" or "https:", has no space anywhere and parses, and
      everything else is text. */
  lemma ClassifyFacts(pasted: string, urlParses: string -> bool)
    ensures pasted != "rick" ==> Classify(pasted, urlParses).content == pasted
    ensures Classify(pasted, urlParses).kind == Url ==>
              var s := Classify(pasted, urlParses).content;
              (StartsWith(s, "http:") || StartsWith(s, "https:")) && urlParses(s) &&
              forall i :: 0 <= i < |s| ==> s[i] != ' '
    ensures (exists i :: 0 <= i < |pasted| && pasted[i] == ' ') ==> Classify(pasted, urlParses).kind == Text
  {
    var c := Classify(pasted, urlParses);
    if c.kind == Url {
      assert " " == [' '];
      NotContainsCharAt(c.content, ' ');
    }
    if exists i :: 0 <= i < |pasted| && pasted[i] == ' ' {
      assert pasted != "rick";
      var i :| 0 <= i < |pasted| && pasted[i] == ' ';
      assert c.content[i] == ' ';
    }
  }

  /** Conversely, any other text that starts with "http:" or "https:", has
      no space and parses is sent as a URL, unchanged. */
  lemma ClassifyUrl(pasted: string, urlParses: string -> bool)
    requires pasted != "rick" && (StartsWith(pasted, "http:") || StartsWith(pasted, "https:"))
    requires forall i :: 0 <= i < |pasted| ==> pasted[i] != ' '
    requires urlParses(pasted)
    ensures Classify(pasted, urlParses) == ClipboardContent(None, Url, pasted)
  {
    assert " " == [' '];
    NotContainsChar(pasted, ' ');
  }

  /** The easter-egg URL starts with "https:" and has no space. */
  lemma RickUrlShape()
    ensures StartsWith(RickUrl, "https:") && Lacks(RickUrl, ' ')
  {
    // The literal is checked piece by piece: short pieces keep the proof cheap.
    var p1, p2, p3, p4, p5, p6 := "https://", "www.yout", "ube.com/", "watch?v=", "xvFZjo5P", "gG0";
    assert RickUrl == p1 + p2 + p3 + p4 + p5 + p6;
    assert StartsWith(RickUrl, "https:");
    assert Lacks(p1, ' ') && Lacks(p2, ' ') && Lacks(p3, ' ') && Lacks(p4, ' ') && Lacks(p5, ' ') && Lacks(p6, ' ');
    LacksConcat(p1, p2, ' ');
    LacksConcat(p1 + p2, p3, ' ');
    LacksConcat(p1 + p2 + p3, p4, ' ');
    LacksConcat(p1 + p2 + p3 + p4, p5, ' ');
    LacksConcat(p1 + p2 + p3 + p4 + p5, p6, ' ');
  }

  /** The string "rick" is sent as the fixed video URL whenever that URL parses. */
  lemma RickIsSentAsUrl(urlParses: string -> bool)
    requires urlParses(RickUrl)
    ensures Classify("rick", urlParses) == ClipboardContent(None, Url, RickUrl)
  {
    RickUrlShape();
    assert " " == [' '];
    NotContainsChar(RickUrl, ' ');
  }

  class ClipboardManager {
    var sending: bool
    var sendErrorMessage: Option<string>
    var receiveErrorMessage: Option<string>
    var clipboardHistory: seq<HistoryEntry<ClipboardContent>>
    var receiverId: Option<string>

    constructor ()
      ensures !sending && sendErrorMessage == None && receiveErrorMessage == None
      ensures clipboardHistory == [] && receiverId == None
    {
      sending := false;
      sendErrorMessage := None;
      receiveErrorMessage := None;
      clipboardHistory := [];
      receiverId := None;
    }

    /** `lastReceivedContent`. */
    function LastReceivedContent(): Option<ClipboardContent>
      reads this
    {
      LastReceived(clipboardHistory)
    }

    /** `receiveClipboardContent`: clear the receive error, write the
        pasteboard, open a URL that parses, record one received entry.
        Returns what was written and whether a browser was opened. */
    method ReceiveClipboardContent(content: ClipboardContent, urlParses: string -> bool)
      returns (written: seq<(PasteboardType, string)>, opensBrowser: bool)
      modifies this
      ensures receiveErrorMessage == None
      ensures clipboardHistory == old(clipboardHistory) + [HistoryEntry(content, true)]
      ensures LastReceivedContent() == Some(content)
      ensures sending == old(sending) && sendErrorMessage == old(sendErrorMessage) && receiverId == old(receiverId)
      ensures written == PasteboardWrites(content)
      ensures opensBrowser <==> content.kind == Url && urlParses(content.content)
    {
      receiveErrorMessage := None;
      written := PasteboardWrites(content);
      opensBrowser := content.kind == Url && urlParses(content.content);
      AppendReceived(clipboardHistory, content);
      clipboardHistory := clipboardHistory + [HistoryEntry(content, true)];
    }

    /** The guard and the spinner at the start of `sendClipboardContent(content:)`:
        returns the receiver to send to, or `None` when there is none. */
    method StartSend() returns (target: Option<string>)
      modifies this
      ensures target.None? <==> old(receiverId).None? || old(receiverId) == Some("")
      ensures target.None? ==>
                sendErrorMessage == Some(NoReceiverMessage) && sending == old(sending)
      ensures target.Some? ==>
                target == old(receiverId) && sending && sendErrorMessage == None
      ensures clipboardHistory == old(clipboardHistory) && receiverId == old(receiverId)
      ensures receiveErrorMessage == old(receiveErrorMessage)
    {
      if receiverId.None? || receiverId == Some("") {
        sendErrorMessage := Some(NoReceiverMessage);
        return None;
      }
      target := receiverId;
      sending := true;
      sendErrorMessage := None;
    }

    /** The rest of `sendClipboardContent(content:)` once `/send` has answered
        with `outcome`: record the content under the server's id, or show the
        error; the spinner is hidden either way. */
    method FinishSend(content: ClipboardContent, outcome: PortalServerRequest.RequestOutcome<Uuid>)
      modifies this
      ensures !sending
      ensures outcome.Returned? ==>
                clipboardHistory == old(clipboardHistory) + [HistoryEntry(content.(id := Some(outcome.value)), false)] &&
                sendErrorMessage == old(sendErrorMessage)
      ensures !outcome.Returned? ==>
                clipboardHistory == old(clipboardHistory) && sendErrorMessage == Some(SendErrorMessage(outcome))
      ensures LastReceivedContent() == old(LastReceivedContent())
      ensures receiveErrorMessage == old(receiveErrorMessage) && receiverId == old(receiverId)
    {
      if outcome.Returned? {
        var sent := content.(id := Some(outcome.value));
        AppendSent(clipboardHistory, sent);
        clipboardHistory := clipboardHistory + [HistoryEntry(sent, false)];
      } else {
        sendErrorMessage := Some(SendErrorMessage(outcome));
      }
      sending := false;
    }

    /** `sendClipboardContent(content:)`. `requested` is the receiver id the
        request went to, `None` when no request was made (and `outcome` unused). */
    method SendClipboardContent(content: ClipboardContent, outcome: PortalServerRequest.RequestOutcome<Uuid>)
      returns (requested: Option<string>)
      modifies this
      ensures requested.None? <==> old(receiverId).None? || old(receiverId) == Some("")
      ensures requested.None? ==>
                sendErrorMessage == Some(NoReceiverMessage) && sending == old(sending) &&
                clipboardHistory == old(clipboardHistory)
      ensures requested.Some? ==> requested == old(receiverId) && !sending
      ensures requested.Some? && outcome.Returned? ==>
                clipboardHistory == old(clipboardHistory) + [HistoryEntry(content.(id := Some(outcome.value)), false)] &&
                sendErrorMessage == None
      ensures requested.Some? && !outcome.Returned? ==>
                clipboardHistory == old(clipboardHistory) && sendErrorMessage == Some(SendErrorMessage(outcome))
      ensures LastReceivedContent() == old(LastReceivedContent())
      ensures receiveErrorMessage == old(receiveErrorMessage) && receiverId == old(receiverId)
    {
      requested := StartSend();
      if requested.Some? {
        FinishSend(content, outcome);
      }
    }

    /** `sendClipboardContent()`: send the pasteboard string, classified. */
    method SendPasteboard(pasteboard: Option<string>, urlParses: string -> bool,
                          outcome: PortalServerRequest.RequestOutcome<Uuid>)
      returns (attempted: Option<ClipboardContent>, requested: Option<string>)
      modifies this
      ensures pasteboard.None? ==>
                attempted.None? && requested.None? && sendErrorMessage == Some(NoContentMessage) &&
                sending == old(sending) && clipboardHistory == old(clipboardHistory)
      ensures pasteboard.Some? ==> attempted == Some(Classify(pasteboard.value, urlParses))
      ensures pasteboard.Some? ==>
                (requested.None? <==> old(receiverId).None? || old(receiverId) == Some(""))
      ensures pasteboard.Some? && requested.None? ==>
                sendErrorMessage == Some(NoReceiverMessage) && sending == old(sending) &&
                clipboardHistory == old(clipboardHistory)
      ensures requested.Some? ==> requested == old(receiverId) && !sending
      ensures pasteboard.Some? && requested.Some? && outcome.Returned? ==>
                clipboardHistory == old(clipboardHistory) +
                  [HistoryEntry(attempted.value.(id := Some(outcome.value)), false)] &&
                sendErrorMessage == None
      ensures requested.Some? && !outcome.Returned? ==>
                clipboardHistory == old(clipboardHistory) && sendErrorMessage == Some(SendErrorMessage(outcome))
      ensures LastReceivedContent() == old(LastReceivedContent())
      ensures receiveErrorMessage == old(receiveErrorMessage) && receiverId == old(receiverId)
    {
      if pasteboard.None? {
        sendErrorMessage := Some(NoContentMessage);
        return None, None;
      }
      var content := Classify(pasteboard.value, urlParses);
      attempted := Some(content);
      requested := SendClipboardContent(content, outcome);
    }

    /** `==`: compares `sending`, `clipboardHistory` and `receiverId` only. */
    predicate Equal(other: ClipboardManager)
      reads this, other
    {
      sending == other.sending && clipboardHistory == other.clipboardHistory && receiverId == other.receiverId
    }
  }

  /** `==` does not see the error messages: a failed send leaves a manager
      `==` to an untouched one that was `==` to it before, although the
      failed one now shows the send error. */
  method FailedSendKeepsEqual(a: ClipboardManager, b: ClipboardManager, content: ClipboardContent,
                              outcome: PortalServerRequest.RequestOutcome<Uuid>)
    returns (requested: Option<string>)
    requires a != b && a.Equal(b) && !a.sending && !outcome.Returned?
    modifies a
    ensures a.Equal(b)
    ensures requested.Some? ==> a.sendErrorMessage == Some(SendErrorMessage(outcome))
    ensures requested.None? ==> a.sendErrorMessage == Some(NoReceiverMessage)
  {
    requested := a.SendClipboardContent(content, outcome);
  }
}
