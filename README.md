# ClipboardPortal in Dafny

ClipboardPortal shares clipboard contents between Macs through a relay
server. This project models the decision and state logic of its clients and
relays, and proves what that logic promises. Two client generations are
covered:

- ClipboardPortal: the friend-request gate, the friend list, the clipboard
  manager, the typed server errors, the URL scheme handler, the Downloads
  file mover, and two small view helpers.
- ShareClipboard: the clipboard manager with its truncated-content
  fallback, the typed server errors, the receiver-id store, and the APNs
  device-token encoding.

Two relay generations are covered:

- The Python FastAPI relay (`server/app/main.py`), which keeps one file per
  user in a data directory.
- The Vapor relay (`server/Sources/App`), with its user model and its
  `send` and `receive` routes.

Every source file is modelled against its own local types, because the
generations do not share their `User` and `ClipboardContent` types.

Nothing in the model does I/O. Each effect the source has on the outside
world becomes an input or an output:

- the answer of a server request becomes a transport result and a decode
  result;
- the files on disk become an optional blob, a map from file name to
  content, or a set of existing paths;
- a random draw becomes a parameter within the source's range;
- a pasteboard write becomes a returned value.

The classes whose fields the source updates in place are Dafny classes with
`modifies` clauses. Pure decisions are functions, and the properties are
lemmas about them. Shared pieces live in three modules:

- `Wrappers`: `Option` and `Result`.
- `Strings`: decimal text, padding, hexadecimal, UUID strings, prefixes and
  substrings.
- `Sequences`: the first-match search behind Swift's `first(where:)`.

Each `ServerRequestError` case stands for a status of section 15 of
RFC 9110: 400, 403, 404, 413 and 422 (section 15.5) and 500 and 502
(section 15.6).

Where a comment and the code disagree, the model follows the code:

- The Vapor `receive` route throws `.unauthorized` (401) for a wrong secret,
  although the comment beside it says 403.
- The ShareClipboard validator accepts any 8 characters that Swift's `Int`
  parser accepts, such as "+1234567". It is not the digits-only check its
  comment describes.

## Model

| member | source | states |
|---|---|---|
| Sequences.FirstIndexWhere | ClipboardPortal/UserStore.swift:138 | `first(where:)`: the index of the first element satisfying the predicate; none exactly when no element does |
| ClipboardHistory.ReceivedEntries | ClipboardPortal/ClipboardManager.swift:46 | `filter(\.received)` returns only received entries and is never longer than the history |
| ClipboardHistory.ReceivedEntriesKeepsReceived | ClipboardPortal/ClipboardManager.swift:46 | every entry the filter returns comes from the history, and every received entry is kept as often as it occurs there |
| ClipboardHistory.ReceivedEntriesAppend | ClipboardPortal/ClipboardManager.swift:46 | the filter keeps the history's order: filtering a concatenation concatenates the filtered parts |
| ClipboardHistory.LastReceivedIndex | ClipboardPortal/ClipboardManager.swift:45-47 | the last entry marked received; no later entry is received; none when no entry is received |
| ClipboardHistory.LastReceivedIsLastMarked | ClipboardPortal/ClipboardManager.swift:45-47 | `lastReceivedContent` (filter, then last) is the content of the last received entry, and nil exactly when none is received |
| ClipboardHistory.AppendReceived | ClipboardPortal/ClipboardManager.swift:54 | after recording a received content, it is the last received content |
| ClipboardHistory.AppendSent | ClipboardPortal/ClipboardManager.swift:107 | recording a sent content leaves the last received content unchanged |
| PortalServerRequest.FromStatusCode | ClipboardPortal/ServerRequest.swift:15-26 | a status maps to `.unknown` exactly when it is not one of 400, 403, 404, 413, 422, 500, 502; never to networkError or brokenJsonResponse |
| PortalServerRequest.RfcStatus | ClipboardPortal/ServerRequest.swift:3-13 | each status-specific error stands for a 4xx or 5xx status |
| PortalServerRequest.FromStatusCodeMatchesRfc | ClipboardPortal/ServerRequest.swift:15-26 | `fromStatusCode` is the inverse of the RFC 9110 status table on the seven mapped statuses; every other status has no status-specific error |
| PortalServerRequest.ErrorDescription | ClipboardPortal/ServerRequest.swift:29-42 | the message of a broken JSON response contains its detail |
| PortalServerRequest.BrokenJsonDescriptionInjective | ClipboardPortal/ServerRequest.swift:39 | different details give different messages |
| PortalServerRequest.CheckResponse | ClipboardPortal/ServerRequest.swift:65-76 | any transport failure becomes networkError; a non-HTTP response becomes unknown; a status outside 200...299 becomes `fromStatusCode(status)`; only a 2xx HTTP response passes, with its body |
| PortalServerRequest.SendRequestForString | ClipboardPortal/ServerRequest.swift:77-82 | a String result is the UTF-8 decoding of the body; an undecodable body throws unknown; failed checks throw their error; nothing is rethrown |
| PortalServerRequest.SendRequestForJson | ClipboardPortal/ServerRequest.swift:83-97 | failed checks throw their error; after a 2xx status the outcome is that of the JSON decode |
| PortalServerRequest.DecodeOutcome | ClipboardPortal/ServerRequest.swift:84-96 | a decoded value is returned; the four DecodingError kinds become brokenJsonResponse; any other decode error is rethrown unchanged |
| PortalServerRequest.JsonOutcomeOrigins | ClipboardPortal/ServerRequest.swift:64-97 | networkError comes only from the transport; unknown comes only from a non-HTTP response or an unmapped status; values, rethrown errors and brokenJsonResponse come only after a 2xx status |
| ShareServerRequest.ErrorDescription | ShareClipboard/ServerRequest.swift:11-28 | the message of `.unknown(code)` contains the code |
| ShareServerRequest.UnknownDescriptionInjective | ShareClipboard/ServerRequest.swift:24-25 | different codes give different messages |
| ShareServerRequest.StatusError | ShareClipboard/ServerRequest.swift:76-82 | 400, 403, 404 and 500 get their own error; any other status becomes `.unknown` carrying that status; never networkError |
| ShareServerRequest.StatusErrorRoundTrip | ShareClipboard/ServerRequest.swift:76-82 | the status can be read back from the error the switch throws |
| ShareServerRequest.SendRequest | ShareClipboard/ServerRequest.swift:65-85 | transport failure becomes networkError, a non-HTTP response `.unknown(-1)`, a non-2xx status the switch's error; only a 2xx status reaches JSON decoding, whose value is returned or whose error is rethrown |
| ShareServerRequest.NonHttpDistinguishable | ShareClipboard/ServerRequest.swift:73-81 | a non-HTTP response never gives the same outcome as a real HTTP status |
| PortalUserStore.FirstFriend | ClipboardPortal/UserStore.swift:138 | the first friend with the id: it has that id, no earlier friend has it, and it is nil exactly when no friend has it |
| PortalUserStore.AppendKeepsFirstMatch | ClipboardPortal/UserStore.swift:124-138 | appending a friend (even with a duplicate id) never changes what the lookup returns for an id already present |
| PortalUserStore.AppendNewIsFound | ClipboardPortal/UserStore.swift:129-138 | a friend appended under an id not present before is what the lookup returns for that id |
| PortalUserStore.CreateUserOnServer | ClipboardPortal/UserStore.swift:154-160 | a created user has the server-assigned id and no friends; a failed request propagates its error |
| PortalUserStore.UserStore.constructor | ClipboardPortal/UserStore.swift:42-43 | no user and no error message |
| PortalUserStore.UserStore.GetFriend | ClipboardPortal/UserStore.swift:137-139 | nil without a user, else the first friend with the id |
| PortalUserStore.UserStore.Load | ClipboardPortal/UserStore.swift:55-99 | no file URL gives "Could not get file URL"; with no file, a successful creation installs the new user with no friends and saves it, and a failed one sets "User creation failed: …"; a stored user (or stored null) is published; each decoding failure sets its own message and leaves the user unchanged |
| PortalUserStore.UserStore.Save | ClipboardPortal/UserStore.swift:102-110 | on success the file holds the user; on failure the file is untouched and the message is set; the published user never changes |
| PortalUserStore.UserStore.Delete | ClipboardPortal/UserStore.swift:113-121 | the user and the message are cleared before removal; the file is gone, or the deletion error is shown; with no file there is always a deletion error, since removing a missing file throws |
| PortalUserStore.UserStore.AddFriend | ClipboardPortal/UserStore.swift:124-134 | a failed key fetch changes nothing and propagates its error; otherwise exactly one friend is appended at the end, earlier entries unchanged, and the user is saved |
| PortalUserStore.UserStore.GetOrAddFriend | ClipboardPortal/UserStore.swift:142-145 | a stored friend is returned without fetching or changing anything; a failed fetch changes nothing; otherwise `addFriend` runs, the new friend is then found by its id, the file holds the new user when the save succeeds, and a failed save sets "User data saving failed: …" |
| PortalFriendRequest.FriendRequest.constructor | ClipboardPortal/FriendRequest.swift:7-10 | starts with no request, no callback, no error, not loading |
| PortalFriendRequest.FriendRequest.Reset | ClipboardPortal/FriendRequest.swift:13-18 | id, callback and error become nil and loading false |
| PortalFriendRequest.FriendRequest.ShowRequest | ClipboardPortal/FriendRequest.swift:21-25 | any earlier request, callback and error are dropped; exactly the new id and callback are pending |
| PortalFriendRequest.FriendRequest.AcceptCurrentFriendRequest | ClipboardPortal/FriendRequest.swift:28-40 | requires a pending request; on a failed `addFriend` the error is shown, the id and callback stay pending, no callback runs and the friend list is unchanged; on success the pending callback runs once, the friend is appended and everything is reset; loading is false on both paths |
| PortalFriendRequest.FriendRequest.DenyCurrentFriendRequest | ClipboardPortal/FriendRequest.swift:43-45 | exactly `reset`; no callback is run |
| PortalFriendRequest.AcceptThenReload | ClipboardPortal/FriendRequest.swift:28-40 | an accept with a fetched key runs the callback and resets whether or not the save succeeds; when the save succeeds a store loaded from the file finds the new friend by its id; when it fails (ClipboardPortal/UserStore.swift:102-110) only the error message records it, the file is unchanged, and a reload from a file that held the old user, or from no file, does not know the friend |
| PortalClipboardManager.PasteboardWrites | ClipboardPortal/ClipboardManager.swift:15-29 | the content is always written as a string, and also as a URL exactly when its type is url |
| PortalClipboardManager.SendErrorMessage | ClipboardPortal/ClipboardManager.swift:109-118 | `.notFound` becomes "This receiver ID does not exist."; other errors show their description |
| PortalClipboardManager.Classify | ClipboardPortal/ClipboardManager.swift:123-129 | the content built from the pasteboard has no id yet |
| PortalClipboardManager.ClassifyFacts | ClipboardPortal/ClipboardManager.swift:124-129 | only "rick" changes the text; a URL starts with "http:" or "https:", has no space and parses; text with a space is sent as text |
| PortalClipboardManager.ClassifyUrl | ClipboardPortal/ClipboardManager.swift:125-126 | any other text that starts with "http:" or "https:", has no space and parses is sent unchanged as a URL |
| PortalClipboardManager.RickUrlShape | ClipboardPortal/ClipboardManager.swift:124-125 | the easter-egg URL starts with "https:" and has no space, so it passes the URL test's text checks |
| PortalClipboardManager.RickIsSentAsUrl | ClipboardPortal/ClipboardManager.swift:124 | "rick" is sent as the fixed video URL, as a URL |
| PortalClipboardManager.ClipboardManager.constructor | ClipboardPortal/ClipboardManager.swift:39-43 | not sending, no messages, empty history, no receiver |
| PortalClipboardManager.ClipboardManager.ReceiveClipboardContent | ClipboardPortal/ClipboardManager.swift:50-55 | clears the receive error, writes the pasteboard, opens a browser exactly for a URL that parses, and appends exactly one received entry, which becomes the last received content |
| PortalClipboardManager.ClipboardManager.StartSend | ClipboardPortal/ClipboardManager.swift:95-100 | a nil or empty receiver sets "No receiver configured. Go to settings." and sends nothing; otherwise sending is true and the send error is cleared |
| PortalClipboardManager.ClipboardManager.FinishSend | ClipboardPortal/ClipboardManager.swift:100-119 | success appends one sent entry whose id is the server's and whose type and content are unchanged; failure shows the mapped message and leaves history alone; sending ends false |
| PortalClipboardManager.ClipboardManager.SendClipboardContent | ClipboardPortal/ClipboardManager.swift:93-120 | both together: the receiver guard, then the success or failure effects; the last received content never changes |
| PortalClipboardManager.ClipboardManager.SendPasteboard | ClipboardPortal/ClipboardManager.swift:121-133 | no pasteboard string sets "No sendable clipboard content."; otherwise the classified content is sent, with the missing-receiver, success and failure outcomes of `sendClipboardContent(content:)` on history, message and spinner |
| PortalClipboardManager.FailedSendKeepsEqual | ClipboardPortal/ClipboardManager.swift:135-137 | `==` compares sending, history and receiver only, so a failed send keeps a manager `==` to an untouched copy while its error message changes |
| ShareClipboardManager.SendErrorMessage | ShareClipboard/ClipboardManager.swift:92-94 | a failed send shows the error's description |
| ShareClipboardManager.ClipboardManager.constructor | ShareClipboard/ClipboardManager.swift:22-26 | not sending, no messages, empty history, no receiver |
| ShareClipboardManager.ClipboardManager.SkipId | ShareClipboard/ClipboardManager.swift:62-64 | with skipCurrent, the id of the last received entry (none if nothing was received); without it, none |
| ShareClipboardManager.ClipboardManager.FetchRequest | ShareClipboard/ClipboardManager.swift:61-66 | the `/receive` body carries the user's id and secret and the skip id |
| ShareClipboardManager.ClipboardManager.ReceiveClipboardContent | ShareClipboard/ClipboardManager.swift:29-50 | untruncated content is pasted and recorded unchanged; truncated content is replaced by fetched content when there is a user and the fetch returns some, else kept; a fetch error is shown and nothing is pasted or recorded |
| ShareClipboardManager.ClipboardManager.StartSend | ShareClipboard/ClipboardManager.swift:78-83 | only a nil receiver is refused, with "No receiver configured."; an empty id goes through |
| ShareClipboardManager.ClipboardManager.FinishSend | ShareClipboard/ClipboardManager.swift:83-94 | success appends one sent entry carrying the server's id; failure shows the error; sending ends false |
| ShareClipboardManager.ClipboardManager.SendClipboardContent | ShareClipboard/ClipboardManager.swift:77-95 | the receiver guard, then the success or failure effects; the last received content never changes |
| ShareClipboardManager.ClipboardManager.SendPasteboard | ShareClipboard/ClipboardManager.swift:96-103 | no pasteboard string sets "No sendable clipboard content."; otherwise the text is sent untruncated, with the missing-receiver, success and failure outcomes on history, message and spinner |
| ShareClipboardManager.ClipboardManager.CheckForUpdates | ShareClipboard/ClipboardManager.swift:105-117 | asks while skipping the last received id; true exactly when the poll returns content; a poll error is shown and returns false; new content is recorded as received, a truncated one replaced by its refetch when that returns content, and a refetch error is shown with nothing recorded |
| ShareReceiverStore.ValidateAccepts | ShareClipboard/ReceiverStore.swift:45-48 | passes exactly for 8 characters that are digits or a sign followed by 7 digits; any other length throws code 1; 8 characters that are not such a number throw code 2, and only those do |
| ShareReceiverStore.SignedNumbersPass | ShareClipboard/ReceiverStore.swift:47 | "+1234567" and "-1234567" pass; 7 characters give code 1; "1234567a" gives code 2 |
| ShareReceiverStore.Decoded | ShareClipboard/ReceiverStore.swift:20-26 | an id is loaded exactly when the stored data is the JSON of a string, and it is that string |
| ShareReceiverStore.ReceiverStore.Load | ShareClipboard/ReceiverStore.swift:18-27 | the id becomes nil when nothing is stored or the data does not decode, and the stored string otherwise |
| ShareReceiverStore.ReceiverStore.Save | ShareClipboard/ReceiverStore.swift:30-35 | the id is published unvalidated before writing; a write failure is reported and leaves the file alone |
| ShareReceiverStore.ReceiverStore.Delete | ShareClipboard/ReceiverStore.swift:38-42 | the id becomes nil; a missing file or a failed removal is reported |
| ShareReceiverStore.SaveThenLoad | ShareClipboard/ReceiverStore.swift:18-35 | what `save` stored, valid or not, is what the next `load` yields |
| ShareDeviceToken.TokenOf | ShareClipboard/ShareClipboardApp.swift:17-18 | the token text is twice as long as the token |
| ShareDeviceToken.TokenLayout | ShareClipboard/ShareClipboardApp.swift:17 | byte k becomes characters 2k and 2k+1, high nibble first, so byte order is kept; every character is lowercase hex |
| ShareDeviceToken.TokenRoundTrip | ShareClipboard/ShareClipboardApp.swift:17-18 | decoding the text gives the bytes back, so different tokens give different texts |
| ShareDeviceToken.DeviceTokenStore.constructor | ShareClipboard/ShareClipboardApp.swift:5-8 | no token and no error |
| ShareDeviceToken.AppDelegate.DidRegister | ShareClipboard/ShareClipboardApp.swift:13-21 | the published token is the encoded text; the error is untouched |
| ShareDeviceToken.AppDelegate.DidFailToRegister | ShareClipboard/ShareClipboardApp.swift:23-29 | the error is recorded; the token is left untouched |
| PythonRelay.IsValidUserIdMeaning | server/app/main.py:60 | valid exactly for 8 characters that are all digits; every 8-character ASCII digit string is valid |
| PythonRelay.IdOfDrawFacts | server/app/main.py:52 | an id from a draw in `range(0, 99999999)` is 8 ASCII digits, reads back as the draw, and is never "99999999" |
| PythonRelay.IdOfDrawInjective | server/app/main.py:51-52 | different draws give different ids |
| PythonRelay.LastWriteWins | server/app/main.py:74-79 | two sends to one receiver leave what the second alone leaves |
| PythonRelay.SendTouchesOnlyReceiver | server/app/main.py:72-79 | a send creates no file and changes only the receiver's content and metadata |
| PythonRelay.DataDirectory.UserDataFile | server/app/main.py:44-47 | a path is returned exactly when something exists under the id: a file, or the data directory itself for "" and "."; for ids of two or more characters exactly when the content file exists |
| PythonRelay.DataDirectory.CreateUser | server/app/main.py:49-56 | the id is the first draw with no content file, so it never collides; it is 8 ASCII digits; exactly the empty content, empty metadata and verbatim public-key files are added |
| PythonRelay.DataDirectory.SendClipboardContent | server/app/main.py:66-79 | bad metadata gives 422 before the id is looked at; an invalid id or unknown user gives 404 and writes nothing; otherwise the content slot, then the metadata, are overwritten |
| PythonRelay.Connect | server/app/main.py:97-103 | "forbidden" exactly when nothing exists under the id (neither a file nor the data directory); otherwise the metadata path next to it is watched |
| PythonRelay.ConnectToDataDirectory | server/app/main.py:44-47 | the ids "" and "." name the data directory, so they are never forbidden although they are no valid user ids; the socket watches ".meta" or "..meta" |
| PythonRelay.ConnectValidated | server/app/main.py:97-103 | the connect check with the id validated first: a rejection is "forbidden", an admission watches the id's metadata file |
| PythonRelay.ConnectValidatedAdmitsUsers | server/app/main.py:97-103 | the validated check admits exactly the valid ids with a content file, and agrees with the check as written on every valid id |
| PythonRelay.ConnectChecksExistenceOnly | server/app/main.py:97-103 | the name of another user's metadata file passes the connect check although it is no valid user id |
| PythonRelay.NewEvent | server/app/main.py:109-118 | a "new" event carries the stored metadata and the stored public key; none when either cannot be read |
| PythonRelay.WatchFiles | server/app/main.py:107-119 | one event per metadata change, each built from the files at that change, until one cannot be built |
| PythonRelay.EventsFollowSends | server/app/main.py:109-118 | a fresh user's subscriber gets no event before a send; after a send it gets exactly the sent metadata with the receiver's key |
| Strings.UuidStringLayout | server/Sources/App/UserModel.swift:26-28 | a `uuidString` is 36 characters, dashes at 8, 13, 18 and 23, uppercase hex elsewhere |
| VaporRelay.GenerateRandomId | server/Sources/App/UserModel.swift:22-24 | the id has 8 characters |
| VaporRelay.GenerateRandomIdPadding | server/Sources/App/UserModel.swift:23 | every draw already has 8 digits with a non-zero first digit, so the padding never changes it, and the id reads back as the draw |
| VaporRelay.GenerateRandomIdInjective | server/Sources/App/UserModel.swift:22-24 | different draws give different ids |
| VaporRelay.GenerateRandomSecret | server/Sources/App/UserModel.swift:26-28 | the secret is a 36-character UUID string |
| VaporRelay.UserModel.Empty | server/Sources/App/UserModel.swift:10 | `init()` assigns no field |
| VaporRelay.UserModel.constructor | server/Sources/App/UserModel.swift:11-16 | a given id or secret is kept and one is generated only when nil; the last content defaults to nil |
| VaporRelay.UserModel.WithToken | server/Sources/App/UserModel.swift:17-19 | both the id and the secret are generated |
| VaporRelay.Receive | server/Sources/App/routes.swift:47-56 | 404 exactly for an unknown user; 401 exactly when the stored secret differs from the given one; otherwise nothing when the stored content's id is the skip id, else the stored content; no record changes |
| VaporRelay.NilSecretNeverPasses | server/Sources/App/routes.swift:51 | a user whose stored secret is nil can never receive |
| VaporRelay.Database.CreateUser | server/Sources/App/routes.swift:8-13 | the created user is a `UserModel()` with no field set |
| VaporRelay.Database.Send | server/Sources/App/routes.swift:26-37 | an unknown receiver gives 404 and stores nothing; otherwise the content gets the fresh id (replacing the client's), becomes the receiver's single stored content, and that id is returned |
| VaporRelay.ReceiveAfterSend | server/Sources/App/routes.swift:26-56 | after a send, the receiver with its secret gets exactly the sent content under the new id, unless it skips that id |
| VaporRelay.SendIsolatesUsers | server/Sources/App/routes.swift:26-37 | a send changes nothing another user can receive |
| MoveFileToDownloads.RetryNames | ClipboardPortal/MoveFileToDownloads.swift:13 | retries are "<stem>-<counter>.<ext>" in the destination's parent directory, built from the original name, with a '.' even for an empty extension, and different counters give different names |
| MoveFileToDownloads.LongCounterIsFree | ClipboardPortal/MoveFileToDownloads.swift:11-14 | a counter longer than every existing path gives a free name, so the search ends |
| MoveFileToDownloads.MoveFileToDownloadsFolder | ClipboardPortal/MoveFileToDownloads.swift:5-20 | the first candidate is the preferred name in Downloads, later ones are in the destination's parent directory; the chosen one does not exist and every earlier one does; a failed move returns the original URL, else the chosen one |
| PortalUrlHandler.FirstValue | ClipboardPortal/ClipboardPortalApp.swift:44-45 | the value of the first item with the name; nil when there is none |
| PortalUrlHandler.ContentTypeOf | ClipboardPortal/ClipboardPortalApp.swift:49 | only "url" gives a URL; every other string falls back to text |
| PortalUrlHandler.HandleIncomingUrl | ClipboardPortal/ClipboardPortalApp.swift:33-57 | content is sent exactly for scheme "clipboardportal", host "paste", present query items and a first "content" item with a value; it is that value with the first "type" (default "text") |
| PortalUrlHandler.TypeDefaultsToText | ClipboardPortal/ClipboardPortalApp.swift:44-49 | a missing type gives text; the type is a URL exactly when the first type item is "url" |
| PortalUrlHandler.FirstValueIgnoresLaterItems | ClipboardPortal/ClipboardPortalApp.swift:44-45 | items after the first one with a name are never consulted |
| PortalUrlHandler.Open | ClipboardPortal/ClipboardPortalApp.swift:27-31 | at most one content per URL |
| PortalUrlHandler.OpenAppend | ClipboardPortal/ClipboardPortalApp.swift:27-31 | URLs are handled independently and in order |
| PortalHistoryView.LooksLikeUserIdFacts | ClipboardPortal/ui/ClipboardHistoryListView.swift:65-67 | exactly 8 characters are required, each a number; every 8 ASCII digits look like an id |
| PortalHistoryView.BadgeOf | ClipboardPortal/ui/ClipboardHistoryListView.swift:31-38 | the checkmark shows exactly for a received entry equal to the receiver id; "Set friend ID" shows only for other received text entries that look like an id, and carries that text; sent entries get neither |
| PortalHistoryView.CheckmarkTakesPrecedence | ClipboardPortal/ui/ClipboardHistoryListView.swift:31-35 | a matching received entry shows the checkmark whatever its text looks like |
| PortalHistoryView.PressSetFriendId | ClipboardPortal/ui/ClipboardHistoryListView.swift:35-38 | pressing sets the receiver id to the exact text; the checkmark then shows exactly when the entry's description is that text |
| PortalSettingsView.FilterDigits | ClipboardPortal/ui/SettingsView.swift:41 | the result has only ASCII digits, is no longer than the input, and takes its characters from it |
| PortalSettingsView.KeptAreAsciiDigits | ClipboardPortal/ui/SettingsView.swift:41 | the kept characters "0123456789" are exactly the ASCII digits |
| PortalSettingsView.FilterDigitsAppend | ClipboardPortal/ui/SettingsView.swift:41 | filtering a concatenation concatenates the filters, so order is kept |
| PortalSettingsView.FilterDigitsChar | ClipboardPortal/ui/SettingsView.swift:41 | one character survives exactly when it is an ASCII digit |
| PortalSettingsView.FilterDigitsFixed | ClipboardPortal/ui/SettingsView.swift:42-44 | a value is left unchanged exactly when it is all ASCII digits |
| PortalSettingsView.FilterDigitsIdempotent | ClipboardPortal/ui/SettingsView.swift:41-44 | filtering twice is filtering once |
| PortalSettingsView.OnReceive | ClipboardPortal/ui/SettingsView.swift:40-45 | the id is reassigned exactly when it has a non-digit, and then to the filtered value |
| PortalSettingsView.OnReceiveSettles | ClipboardPortal/ui/SettingsView.swift:40-45 | after one reassignment the next round changes nothing |
| PortalSettingsView.FilteredCodePassesChecks | ClipboardPortal/ui/SettingsView.swift:41 | a filtered code of 8 characters passes `looksLikeUserId`, the ShareClipboard validator and the Python relay's `is_valid_user_id` |

## Left out

- ClipboardPortal/Crypto.swift is not part of this model. Its key agreement, key derivation and encryption are library calls whose behaviour is not visible.
- SwiftUI views and modifiers are not modelled, apart from `looksLikeUserId`, the history badge choice and the settings digit filter.
- OS effects are not modelled: pasteboard writes are returned as values, and browser opening is a returned flag. Notifications and sounds are not modelled at all.
- Concurrency is not modelled. Every `DispatchQueue.main.async` block, `Task` and `await` is a sequential step taken at once. So the model does not capture a spinner update that lands after the request, or Tasks started by `application(_:open:)` that finish in another order.
- Request building in `post`, `put` and `get` is not modelled. This covers the URL, the headers and the JSON encoding of the body; only the response pipeline is modelled.
- Decoding is not modelled. `URL(string:)`, `URLComponents`, `String(data:encoding:)`, `JSONDecoder.decode` and Foundation's path stem, extension and parent directory are all inputs to the model.
- Swift's strings are sequences of grapheme clusters (`Character`s), and Swift's `Character.isNumber` and Python's `str.isdigit` are Unicode classifiers. Every string operation of the model works on code points instead: `count`, `filter`, `starts(with:)`, `contains` and `==` alike. So for "1\u{20E3}" the settings filter keeps '1' where Swift drops the whole character. The model takes each classifier as a parameter that accepts at least the ASCII digits.
- PortalUserStore.UserStore.AddFriend: the key fetch and its base64 decoding are one outcome. The crash of the forced unwrap of `user` is kept out by a precondition that holds whenever a key arrives.
- PortalFriendRequest.FriendRequest.AcceptCurrentFriendRequest: the callback is an opaque token. Running it is modelled as returning it.
- ShareReceiverStore.ReceiverStore.Load: the crash of `try!` when Application Support cannot be located is not modelled.
- ShareReceiverStore: the Application Support file URL is not modelled.
- ClipboardPortal's `checkForUpdates` and `fetchFullClipboardContents` are not modelled. They read `user.secret` and `user.lastReceivedClipboardContent`, which that generation's `User` does not have. The ShareClipboard versions are modelled.
- PortalHistoryView.BadgeOf: the interpolation `"\(entry.content)"` is a parameter, because the description of that generation's content type is not part of this model.
- PythonRelay.DataDirectory.CreateUser: the random draws are a finite sequence that contains a free id. The source keeps drawing forever; it ends only because a free id is eventually drawn.
- The Python relay's paths are names in a map, and the data directory itself is the names "" and ".". So the model does not capture what `os.path.join` does with other ids that leave the plain file names, such as ids containing ".." or "/" or starting with "/".
- The watcher's change coalescing, its stop event and the websocket disconnects are not modelled.
- MoveFileToDownloads.MoveFileToDownloadsFolder: a move does not add the destination to the set of existing paths. Files appearing between the check and the move are not modelled either.
- The Vapor relay's Fluent storage is a map from id to row. `find` and `save` are map reads and writes, and whether the database accepts the empty `UserModel()` of the create route is not modelled.
- ShareClipboard/UserStore.swift, SettingsStore, configuration and server bootstrap are not part of this model. Neither are temp.swift and ClipboardFriend/ClipboardFriendApp.swift.

## Findings

| source | as written | input that shows it | evidently intended | confidence | as-written member | corrected member |
|---|---|---|---|---|---|---|
| server/app/main.py:97-103 | the websocket lets in any id under which something exists in the data directory | the connect message `{"id": ""}` names the data directory itself, so it is not forbidden and the socket watches `data/.meta` | only a valid user id with a content file is let in | not executed | PythonRelay.ConnectToDataDirectory | PythonRelay.ConnectValidatedAdmitsUsers |
