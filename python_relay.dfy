/** server/app/main.py: the FastAPI relay. Every user is a group of files in
    the data directory: `<id>` holds the single last content sent to the user,
    `<id>.meta` its metadata and `<id>.publickey` the user's public key. */
module PythonRelay {

  import opened Wrappers
  import opened Strings

  /** `ClipboardContentSendMetadata`. */
  datatype Metadata = Metadata(senderId: string, encryptedContentMetadataBase64: string)

  /** The content of one file of the data directory. */
  datatype FileBody =
    | Raw(bytes: seq<Byte>)        // an uploaded clipboard content
    | Text(text: string)           // text written with `open(..., "w")`
    | MetaJson(meta: Metadata)     // `json.dump(meta.dict(), f)`

  /** An `HTTPException`. */
  datatype HttpError = HttpError(statusCode: int, detail: string)

  /** `WebsocketServerMessage`. */
  datatype WsMessage = WsMessage(event: string, meta: Option<Metadata>, publicKeyBase64: Option<string>)

  /** The exclusive upper bound of `range(0, 99999999)`. */
  const IdDrawBound: nat := 99999999

  /** `is_valid_user_id`: `isdigit()` (Unicode-aware, given as `isDigit`) and
      exactly 8 characters. */
  predicate IsValidUserId(userId: string, isDigit: char -> bool) {
    |userId| > 0 && AllSatisfy(userId, isDigit) && |userId| == 8
  }

  /** The validator accepts exactly the 8-character strings of digits, and in
      particular every 8-character ASCII digit string. */
  lemma IsValidUserIdMeaning(userId: string, isDigit: char -> bool)
    ensures IsValidUserId(userId, isDigit) <==>
            |userId| == 8 && forall i :: 0 <= i < 8 ==> isDigit(userId[i])
    ensures AcceptsAsciiDigits(isDigit) && |userId| == 8 && AllAsciiDigits(userId) ==>
            IsValidUserId(userId, isDigit)
  {
  }

  /** The id made from a draw: `str(n).zfill(8)`. */
  function IdOfDraw(n: nat): string {
    ZFill(NatToDecimal(n), 8)
  }

  /** Ids made from draws of `range(0, 99999999)` are 8 ASCII digits that
      read back as the draw, so distinct draws give distinct ids and
      "99999999" is never made. */
  lemma IdOfDrawFacts(n: nat)
    requires n < IdDrawBound
    ensures |IdOfDraw(n)| == 8 && AllAsciiDigits(IdOfDraw(n))
    ensures DecimalValue(IdOfDraw(n)) == n
    ensures IdOfDraw(n) != "99999999"
  {
    var s := NatToDecimal(n);
    NatToDecimalFacts(n);
    if |s| > 8 {
      Pow10Monotone(8, |s| - 1);
    }
    ZFillDigits(s, 8);
    if IdOfDraw(n) == "99999999" {
      assert "99999999" == Repeat('9', 8);
      AllNines(8);
    }
  }

  /** k nines read as 10^k - 1. */
  lemma {:induction false} AllNines(k: nat)
    ensures AllAsciiDigits(Repeat('9', k)) && DecimalValue(Repeat('9', k)) == Pow10(k) - 1
    decreases k
  {
    if k > 0 {
      assert Repeat('9', k)[..k - 1] == Repeat('9', k - 1);
      AllNines(k - 1);
    }
  }

  lemma IdOfDrawInjective(m: nat, n: nat)
    requires m < IdDrawBound && n < IdDrawBound && IdOfDraw(m) == IdOfDraw(n)
    ensures m == n
  {
    IdOfDrawFacts(m);
    IdOfDrawFacts(n);
  }

  /** The files `create_user` writes for a new id. */
  function WithNewUser(files: map<string, FileBody>, userId: string, publicKeyBase64: string): map<string, FileBody> {
    files[userId := Text("")][userId + ".meta" := Text("")][userId + ".publickey" := Text(publicKeyBase64)]
  }

  /** The files after a successful send to `receiverId`: the content slot and
      then the metadata are overwritten. */
  function AfterSend(files: map<string, FileBody>, receiverId: string, meta: Metadata, upload: seq<Byte>)
    : map<string, FileBody>
  {
    files[receiverId := Raw(upload)][receiverId + ".meta" := MetaJson(meta)]
  }

  /** The last write wins: two sends to one receiver leave what the second alone leaves. */
  lemma LastWriteWins(files: map<string, FileBody>, r: string, m1: Metadata, u1: seq<Byte>, m2: Metadata, u2: seq<Byte>)
    ensures AfterSend(AfterSend(files, r, m1, u1), r, m2, u2) == AfterSend(files, r, m2, u2)
  {
  }

  /** A send to an existing user creates no file and touches no file other
      than the receiver's content and metadata. */
  lemma SendTouchesOnlyReceiver(files: map<string, FileBody>, r: string, m: Metadata, u: seq<Byte>)
    requires r in files && r + ".meta" in files
    ensures AfterSend(files, r, m, u).Keys == files.Keys
    ensures forall f :: f in files && f != r && f != r + ".meta" ==> AfterSend(files, r, m, u)[f] == files[f]
    ensures AfterSend(files, r, m, u)[r] == Raw(u) && AfterSend(files, r, m, u)[r + ".meta"] == MetaJson(m)
  {
  }

  /** Names that `os.path.join(DATA_DIR, name)` turns into the data directory
      itself ("data/" and "data/."), which always exists. */
  predicate NamesDataDirectory(name: string) {
    name == "" || name == "."
  }

  /** `os.path.exists(os.path.join(DATA_DIR, name))`: a file of the directory,
      or the directory itself. */
  predicate PathExists(files: map<string, FileBody>, name: string) {
    name in files || NamesDataDirectory(name)
  }

  class DataDirectory {
    /** File name (relative to `DATA_DIR`) to content. */
    var files: map<string, FileBody>

    constructor (files: map<string, FileBody>)
      ensures this.files == files
    {
      this.files := files;
    }

    /** `get_user_data_file`: the path under the data directory, if anything
        exists there. For a name of 8 or more characters that is a file. */
    function UserDataFile(userId: string): (r: Option<string>)
      reads this
      ensures r.Some? <==> userId in files || userId == "" || userId == "."
      ensures |userId| >= 2 ==> (r.Some? <==> userId in files)
      ensures r.Some? ==> r.value == userId
    {
      if PathExists(files, userId) then Some(userId) else None
    }

    /** `create_user`: draw ids until one has no content file, then create the
        user's three files. `draws` are the successive `secrets.choice` results. */
    method CreateUser(publicKeyBase64: string, draws: seq<nat>) returns (userId: string)
      requires forall i :: 0 <= i < |draws| ==> draws[i] < IdDrawBound
      requires exists i :: 0 <= i < |draws| && IdOfDraw(draws[i]) !in files
      modifies this
      ensures userId !in old(files)
      ensures exists k :: 0 <= k < |draws| && userId == IdOfDraw(draws[k]) &&
                          forall j :: 0 <= j < k ==> IdOfDraw(draws[j]) in old(files)
      ensures |userId| == 8 && AllAsciiDigits(userId)
      ensures files == WithNewUser(old(files), userId, publicKeyBase64)
    {
      var current: Option<string> := None;
      var i := 0;
      while current.None? || UserDataFile(current.value).Some?
        invariant 0 <= i <= |draws|
        invariant current.None? <==> i == 0
        invariant current.Some? ==> current.value == IdOfDraw(draws[i - 1])
        invariant forall j :: 0 <= j < i - 1 ==> IdOfDraw(draws[j]) in files
        invariant current.None? || current.value in files ==>
                    exists j :: i <= j < |draws| && IdOfDraw(draws[j]) !in files
        decreases |draws| - i
      {
        current := Some(IdOfDraw(draws[i]));
        i := i + 1;
      }
      userId := current.value;
      IdOfDrawFacts(draws[i - 1]);
      files := WithNewUser(files, userId, publicKeyBase64);
    }

    /** `send_clipboard_content`: `meta` is the result of parsing the form's
        metadata (`None` when it is not valid). Returns the error raised, if any. */
    method SendClipboardContent(receiverId: string, meta: Option<Metadata>, upload: seq<Byte>, isDigit: char -> bool)
      returns (error: Option<HttpError>)
      modifies this
      ensures meta.None? ==> error == Some(HttpError(422, "Invalid metadata"))
      ensures meta.Some? && !IsValidUserId(receiverId, isDigit) ==> error == Some(HttpError(404, "User not found"))
      ensures meta.Some? && IsValidUserId(receiverId, isDigit) && receiverId !in old(files) ==>
                error == Some(HttpError(404, "User not found"))
      ensures error.Some? ==> files == old(files)
      ensures error.None? <==> meta.Some? && IsValidUserId(receiverId, isDigit) && receiverId in old(files)
      ensures error.None? ==> files == AfterSend(old(files), receiverId, meta.value, upload)
    {
      if meta.None? {
        return Some(HttpError(422, "Invalid metadata"));
      }
      if !IsValidUserId(receiverId, isDigit) {
        return Some(HttpError(404, "User not found"));
      }
      var dataFile := UserDataFile(receiverId);
      if dataFile.None? {
        return Some(HttpError(404, "User not found"));
      }
      files := files[dataFile.value := Raw(upload)];
      files := files[dataFile.value + ".meta" := MetaJson(meta.value)];
      error := None;
    }
  }

  /** The first answer of `/ws` to the connect message `{"id": connectId}`:
      a "forbidden" event when nothing exists under that name, else the
      metadata file to watch. */
  function Connect(files: map<string, FileBody>, connectId: string): (r: Result<string, WsMessage>)
    ensures r.Failure? <==> connectId !in files && connectId != "" && connectId != "."
    ensures r.Failure? ==> r.error == WsMessage("forbidden", None, None)
    ensures r.Success? ==> r.value == connectId + ".meta"
  {
    if !PathExists(files, connectId) then Failure(WsMessage("forbidden", None, None))
    else Success(connectId + ".meta")
  }

  /** An empty id (or ".") names the data directory, which exists, so it is
      never forbidden, whatever the directory holds: the socket then watches
      ".meta" (or "..meta") in the data directory. */
  lemma ConnectToDataDirectory(files: map<string, FileBody>, isDigit: char -> bool)
    ensures Connect(files, "") == Success(".meta") && !IsValidUserId("", isDigit)
    ensures Connect(files, ".") == Success("..meta") && !IsValidUserId(".", isDigit)
  {
    assert "" + ".meta" == ".meta";
    assert "." + ".meta" == "..meta";
  }

  /** The connect check as evidently intended: only a valid user id whose
      content file exists is let in. */
  function ConnectValidated(files: map<string, FileBody>, connectId: string, isDigit: char -> bool)
    : (r: Result<string, WsMessage>)
    ensures r.Failure? ==> r.error == WsMessage("forbidden", None, None)
    ensures r.Success? ==> r.value == connectId + ".meta"
  {
    if IsValidUserId(connectId, isDigit) then Connect(files, connectId)
    else Failure(WsMessage("forbidden", None, None))
  }

  /** The intended check admits exactly the existing users: neither the data
      directory nor another user's metadata file gets through, and for a
      valid id it agrees with the check as written. */
  lemma ConnectValidatedAdmitsUsers(files: map<string, FileBody>, connectId: string, isDigit: char -> bool)
    ensures ConnectValidated(files, connectId, isDigit).Success? <==>
            IsValidUserId(connectId, isDigit) && connectId in files
    ensures IsValidUserId(connectId, isDigit) ==>
            ConnectValidated(files, connectId, isDigit) == Connect(files, connectId)
  {
  }

  /** The connect check is a file-existence test only: the name of another
      user's metadata file passes it, although it is no user id. */
  lemma ConnectChecksExistenceOnly(files: map<string, FileBody>, userId: string, isDigit: char -> bool)
    requires userId + ".meta" in files && !isDigit('.')
    ensures Connect(files, userId + ".meta").Success?
    ensures !IsValidUserId(userId + ".meta", isDigit)
  {
    assert (userId + ".meta")[|userId|] == '.';
  }

  /** The event the watcher sends after one change of the metadata file: the
      stored metadata with the stored public key; `None` when either cannot
      be read or the metadata does not parse (the watcher then stops). */
  function NewEvent(files: map<string, FileBody>, metaFile: string, publicKeyFile: string): (r: Option<WsMessage>)
    ensures r.Some? <==> metaFile in files && files[metaFile].MetaJson? &&
                         publicKeyFile in files && files[publicKeyFile].Text?
    ensures r.Some? ==>
              r.value.event == "new" && r.value.meta == Some(files[metaFile].meta) &&
              r.value.publicKeyBase64 == Some(files[publicKeyFile].text)
  {
    if metaFile in files && files[metaFile].MetaJson? && publicKeyFile in files && files[publicKeyFile].Text? then
      Some(WsMessage("new", Some(files[metaFile].meta), Some(files[publicKeyFile].text)))
    else None
  }

  /** `watch_files` for the subscriber `connectId`: `snapshots` are the data
      directory as it is at each change of the metadata file. One "new"
      event per change, until an event cannot be built. */
  method WatchFiles(connectId: string, snapshots: seq<map<string, FileBody>>) returns (events: seq<WsMessage>)
    ensures |events| <= |snapshots|
    ensures forall i :: 0 <= i < |events| ==>
              Some(events[i]) == NewEvent(snapshots[i], connectId + ".meta", connectId + ".publickey")
    ensures |events| < |snapshots| ==>
              NewEvent(snapshots[|events|], connectId + ".meta", connectId + ".publickey").None?
  {
    var metaFile := connectId + ".meta";
    var publicKeyFile := connectId + ".publickey";
    events := [];
    var i := 0;
    while i < |snapshots|
      invariant 0 <= i <= |snapshots| && |events| == i
      invariant forall k :: 0 <= k < i ==> Some(events[k]) == NewEvent(snapshots[k], metaFile, publicKeyFile)
    {
      var event := NewEvent(snapshots[i], metaFile, publicKeyFile);
      if event.None? {
        return;
      }
      events := events + [event.value];
      i := i + 1;
    }
  }

  /** Right after `create_user` the metadata file is empty, so a subscriber
      gets no event until a send has written metadata; after a send every
      subscriber of the receiver gets that metadata with the receiver's key. */
  lemma EventsFollowSends(files: map<string, FileBody>, r: string, pk: string, m: Metadata, u: seq<Byte>)
    ensures NewEvent(WithNewUser(files, r, pk), r + ".meta", r + ".publickey").None?
    ensures NewEvent(AfterSend(WithNewUser(files, r, pk), r, m, u), r + ".meta", r + ".publickey") ==
            Some(WsMessage("new", Some(m), Some(pk)))
  {
    var f := WithNewUser(files, r, pk);
    assert r + ".meta" != r + ".publickey" by {
      assert (r + ".meta")[|r| + 1] == 'm' && (r + ".publickey")[|r| + 1] == 'p';
    }
    assert r != r + ".publickey" && r != r + ".meta";
  }
}
