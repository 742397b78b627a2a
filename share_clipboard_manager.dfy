/** ShareClipboard/ClipboardManager.swift: the send and receive side of the
    older ShareClipboard client. Pushed contents may arrive truncated, in
    which case the full content is fetched from the relay. */
module ShareClipboardManager {

  import opened Wrappers
  import opened Strings
  import opened ClipboardHistory
  import ShareServerRequest

  /** ShareClipboard only knows text contents. */
  datatype ClipboardContent = ClipboardContent(id: Option<Uuid>, content: string, isTruncated: bool)

  /** The fields of the user the manager reads. ShareClipboard/User.swift
      declares `id`, `apnsToken` and `updateSecret` but no `secret`; the
      manager reads `user.secret`, which is what this type carries. */
  datatype User = User(id: string, secret: string)

  /** The body of a `/receive` request. */
  datatype ReceiveRequest = ReceiveRequest(id: string, secret: string, skipForId: Option<Uuid>)

  /** What a `/receive` request yields: the response's `clipboardContent`, or
      the description of the error it threw. */
  type FetchOutcome = Result<Option<ClipboardContent>, string>

  const NoReceiverMessage: string := "No receiver configured."
  const NoContentMessage: string := "No sendable clipboard content."

  /** The message a failed `/send` leaves: the error's `localizedDescription`. */
  function SendErrorMessage(outcome: ShareServerRequest.RequestOutcome<Uuid>): (m: string)
    requires !outcome.Returned?
    ensures outcome.Thrown? ==> m == ShareServerRequest.ErrorDescription(outcome.error)
    ensures outcome.Rethrown? ==> m == outcome.description
  {
    match outcome
    case Thrown(e) => ShareServerRequest.ErrorDescription(e)
    case Rethrown(d) => d
  }

  class ClipboardManager {
    var sending: bool
    var sendErrorMessage: Option<string>
    var receiveErrorMessage: Option<string>
    var clipboardHistory: seq<HistoryEntry<ClipboardContent>>
    var receiverId: Option<string>

    constructor ()
      ensures !sending && sendErrorMessage == None && receiveErrorMessage == None
      ensures clipboardHistory == [] && receiverId == None
    {
      sending := false;
      sendErrorMessage := None;
      receiveErrorMessage := None;
      clipboardHistory := [];
      receiverId := None;
    }

    /** The `skipForId` of `fetchFullClipboardContents`: with `skipCurrent`,
        the id of the last received content (none when nothing was received
        or that content has no id); without it, none. */
    function SkipId(skipCurrent: bool): (r: Option<Uuid>)
      reads this
      ensures !skipCurrent ==> r == None
      ensures skipCurrent && LastReceivedIndex(clipboardHistory).None? ==> r == None
      ensures skipCurrent && LastReceivedIndex(clipboardHistory).Some? ==>
                r == clipboardHistory[LastReceivedIndex(clipboardHistory).value].clipboardContent.id
    {
      LastReceivedIsLastMarked(clipboardHistory);
      if skipCurrent then
        match LastReceived(clipboardHistory)
        case None => None
        case Some(c) => c.id
      else None
    }

    /** The request `fetchFullClipboardContents(for:skipCurrent:)` posts. */
    function FetchRequest(user: User, skipCurrent: bool): (r: ReceiveRequest)
      reads this
      ensures r.id == user.id && r.secret == user.secret && r.skipForId == SkipId(skipCurrent)
    {
      ReceiveRequest(user.id, user.secret, SkipId(skipCurrent))
    }

    /** `receiveClipboardContent`: a truncated content is replaced by the
        fetched one when there is a user and the fetch returns content; a
        fetch error is shown and nothing is recorded or pasted. `request` is
        the `/receive` request made, if any; `pasted` the pasteboard string. */
    method ReceiveClipboardContent(content: ClipboardContent, user: Option<User>, fetch: FetchOutcome)
      returns (request: Option<ReceiveRequest>, pasted: Option<string>)
      modifies this
      ensures request.Some? <==> content.isTruncated && user.Some?
      ensures request.Some? ==> request.value == old(FetchRequest(user.value, false))
      ensures request.Some? && fetch.Failure? ==>
                pasted.None? && receiveErrorMessage == Some(fetch.error) &&
                clipboardHistory == old(clipboardHistory)
      ensures !(request.Some? && fetch.Failure?) ==>
                var full := if request.Some? && fetch.value.Some? then fetch.value.value else content;
                pasted == Some(full.content) && receiveErrorMessage == None &&
                clipboardHistory == old(clipboardHistory) + [HistoryEntry(full, true)] &&
                LastReceived(clipboardHistory) == Some(full)
      ensures !content.isTruncated ==>
                pasted == Some(content.content) &&
                clipboardHistory == old(clipboardHistory) + [HistoryEntry(content, true)]
      ensures sending == old(sending) && sendErrorMessage == old(sendErrorMessage) && receiverId == old(receiverId)
    {
      receiveErrorMessage := None;
      var fullContent := content;
      request := None;
      if fullContent.isTruncated {
        if user.Some? {
          request := Some(FetchRequest(user.value, false));
          match fetch
          case Failure(e) =>
            receiveErrorMessage := Some(e);
            return request, None;
          case Success(fetched) =>
            if fetched.Some? {
              fullContent := fetched.value;
            }
        }
      }
      pasted := Some(fullContent.content);
      AppendReceived(clipboardHistory, fullContent);
      clipboardHistory := clipboardHistory + [HistoryEntry(fullContent, true)];
    }

    /** The guard and the spinner at the start of `sendClipboardContent(content:)`:
        only a missing receiver is refused; an empty id goes through. */
    method StartSend() returns (target: Option<string>)
      modifies this
      ensures target == old(receiverId)
      ensures target.None? ==> sendErrorMessage == Some(NoReceiverMessage) && sending == old(sending)
      ensures target.Some? ==> sending && sendErrorMessage == None
      ensures clipboardHistory == old(clipboardHistory) && receiverId == old(receiverId)
      ensures receiveErrorMessage == old(receiveErrorMessage)
    {
      if receiverId.None? {
        sendErrorMessage := Some(NoReceiverMessage);
        return None;
      }
      target := receiverId;
      sending := true;
      sendErrorMessage := None;
    }

    /** The rest of `sendClipboardContent(content:)` once `/send` has answered. */
    method FinishSend(content: ClipboardContent, outcome: ShareServerRequest.RequestOutcome<Uuid>)
      modifies this
      ensures !sending
      ensures outcome.Returned? ==>
                clipboardHistory == old(clipboardHistory) + [HistoryEntry(content.(id := Some(outcome.value)), false)] &&
                sendErrorMessage == old(sendErrorMessage)
      ensures !outcome.Returned? ==>
                clipboardHistory == old(clipboardHistory) && sendErrorMessage == Some(SendErrorMessage(outcome))
      ensures LastReceived(clipboardHistory) == old(LastReceived(clipboardHistory))
      ensures receiveErrorMessage == old(receiveErrorMessage) && receiverId == old(receiverId)
    {
      if outcome.Returned? {
        var sent := content.(id := Some(outcome.value));
        AppendSent(clipboardHistory, sent);
        clipboardHistory := clipboardHistory + [HistoryEntry(sent, false)];
      } else {
        sendErrorMessage := Some(SendErrorMessage(outcome));
      }
      sending := false;
    }

    /** `sendClipboardContent(content:)`; `requested` is the receiver id the
        request went to, `None` when no request was made. */
    method SendClipboardContent(content: ClipboardContent, outcome: ShareServerRequest.RequestOutcome<Uuid>)
      returns (requested: Option<string>)
      modifies this
      ensures requested == old(receiverId)
      ensures requested.None? ==>
                sendErrorMessage == Some(NoReceiverMessage) && sending == old(sending) &&
                clipboardHistory == old(clipboardHistory)
      ensures requested.Some? ==> !sending
      ensures requested.Some? && outcome.Returned? ==>
                clipboardHistory == old(clipboardHistory) + [HistoryEntry(content.(id := Some(outcome.value)), false)] &&
                sendErrorMessage == None
      ensures requested.Some? && !outcome.Returned? ==>
                clipboardHistory == old(clipboardHistory) && sendErrorMessage == Some(SendErrorMessage(outcome))
      ensures LastReceived(clipboardHistory) == old(LastReceived(clipboardHistory))
      ensures receiveErrorMessage == old(receiveErrorMessage) && receiverId == old(receiverId)
    {
      requested := StartSend();
      if requested.Some? {
        FinishSend(content, outcome);
      }
    }

    /** `sendClipboardContent()`: the pasteboard string is sent as untruncated text. */
    method SendPasteboard(pasteboard: Option<string>, outcome: ShareServerRequest.RequestOutcome<Uuid>)
      returns (requested: Option<string>)
      modifies this
      ensures pasteboard.None? ==>
                requested.None? && sendErrorMessage == Some(NoContentMessage) &&
                sending == old(sending) && clipboardHistory == old(clipboardHistory)
      ensures pasteboard.Some? ==> requested == old(receiverId)
      ensures pasteboard.Some? && requested.None? ==>
                sendErrorMessage == Some(NoReceiverMessage) && sending == old(sending) &&
                clipboardHistory == old(clipboardHistory)
      ensures requested.Some? ==> !sending
      ensures pasteboard.Some? && requested.Some? && outcome.Returned? ==>
                clipboardHistory == old(clipboardHistory) +
                  [HistoryEntry(ClipboardContent(Some(outcome.value), pasteboard.value, false), false)] &&
                sendErrorMessage == None
      ensures requested.Some? && !outcome.Returned? ==>
                clipboardHistory == old(clipboardHistory) && sendErrorMessage == Some(SendErrorMessage(outcome))
      ensures LastReceived(clipboardHistory) == old(LastReceived(clipboardHistory))
      ensures receiveErrorMessage == old(receiveErrorMessage) && receiverId == old(receiverId)
    {
      if pasteboard.None? {
        sendErrorMessage := Some(NoContentMessage);
        return None;
      }
      requested := SendClipboardContent(ClipboardContent(None, pasteboard.value, false), outcome);
    }

    /** `checkForUpdates(user:)`: ask for content other than the last received
        one (`poll`); new content is received (`refetch` being what a
        truncated one's own fetch yields). Returns whether there was new
        content and the `/receive` request of the poll. */
    method CheckForUpdates(user: User, poll: FetchOutcome, refetch: FetchOutcome)
      returns (found: bool, request: ReceiveRequest)
      modifies this
      ensures request == old(FetchRequest(user, true))
      ensures found <==> poll.Success? && poll.value.Some?
      ensures poll.Failure? ==>
                receiveErrorMessage == Some(poll.error) && clipboardHistory == old(clipboardHistory)
      ensures poll == Success(None) ==>
                receiveErrorMessage == None && clipboardHistory == old(clipboardHistory)
      ensures found && !poll.value.value.isTruncated ==>
                clipboardHistory == old(clipboardHistory) + [HistoryEntry(poll.value.value, true)] &&
                receiveErrorMessage == None
      ensures found && poll.value.value.isTruncated && refetch.Failure? ==>
                receiveErrorMessage == Some(refetch.error) && clipboardHistory == old(clipboardHistory)
      ensures found && poll.value.value.isTruncated && refetch.Success? ==>
                var full := if refetch.value.Some? then refetch.value.value else poll.value.value;
                clipboardHistory == old(clipboardHistory) + [HistoryEntry(full, true)] &&
                receiveErrorMessage == None
      ensures sending == old(sending) && sendErrorMessage == old(sendErrorMessage) && receiverId == old(receiverId)
    {
      receiveErrorMessage := None;
      request := FetchRequest(user, true);
      match poll
      case Failure(e) =>
        receiveErrorMessage := Some(e);
        return false, request;
      case Success(next) =>
        if next.Some? {
          var _, _ := ReceiveClipboardContent(next.value, Some(user), refetch);
          return true, request;
        }
        return false, request;
    }
  }
}
