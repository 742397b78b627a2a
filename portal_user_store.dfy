/** ClipboardPortal/UserStore.swift: the local user, its friend list, and the
    `user.data` file they are kept in. */
module PortalUserStore {

  import opened Wrappers
  import opened Strings
  import opened Sequences

  /** The raw representation of a Curve25519 key-agreement public key. */
  datatype PublicKey = PublicKey(raw: seq<Byte>)

  /** A peer whose public key is trusted. */
  datatype Friend = Friend(id: string, publicKey: PublicKey)

  /** The local user: the relay-assigned id and the friends allowed to send. */
  datatype User = User(id: string, friends: seq<Friend>)

  /** What `addFriend` gets from fetching `<id>.publickey` and decoding it:
      the key, or the description of the error either step threw. */
  datatype KeyFetch = Fetched(key: PublicKey) | FetchFailed(description: string)

  /** What decoding `user.data` failed with (the four `DecodingError` kinds
      the source catches, and any other read or decode error). */
  datatype DecodeFailure =
    | DataCorrupted
    | KeyNotFound(key: string)
    | ValueNotFound(valueType: string)
    | TypeMismatch(typeName: string)
    | OtherFailure(description: string)

  /** The content of `user.data`: the JSON of a `User?`, or data that does not decode. */
  datatype StoredData = UserJson(stored: Option<User>) | Undecodable(failure: DecodeFailure)

  // ---------------------------------------------------------------------
  // First-match lookup

  /** The predicate `{ $0.id == userId }`. */
  function IdIs(userId: string): (p: Friend -> bool)
    ensures forall f :: p(f) <==> f.id == userId
  {
    (f: Friend) => f.id == userId
  }

  /** `friends.first(where: { $0.id == userId })`. */
  function FirstFriend(friends: seq<Friend>, userId: string): (r: Option<Friend>)
    ensures r.Some? <==> exists j :: 0 <= j < |friends| && friends[j].id == userId
    ensures r.Some? ==> r.value.id == userId && r.value == friends[FirstIndexWhere(friends, IdIs(userId)).value]
    ensures r.Some? ==> forall j :: 0 <= j < FirstIndexWhere(friends, IdIs(userId)).value ==> friends[j].id != userId
  {
    match FirstIndexWhere(friends, IdIs(userId))
    case None => None
    case Some(i) => Some(friends[i])
  }

  /** Appending a friend never changes what an earlier match returns, so a
      duplicate id appended later is shadowed by the first entry. */
  lemma AppendKeepsFirstMatch(friends: seq<Friend>, f: Friend, userId: string)
    requires FirstFriend(friends, userId).Some?
    ensures FirstFriend(friends + [f], userId) == FirstFriend(friends, userId)
  {
    FirstIndexWhereAppend(friends, [f], IdIs(userId));
    var i := FirstIndexWhere(friends, IdIs(userId)).value;
    assert (friends + [f])[i] == friends[i];
  }

  /** An appended friend whose id was not present is found by its id. */
  lemma AppendNewIsFound(friends: seq<Friend>, f: Friend)
    requires FirstFriend(friends, f.id).None?
    ensures FirstFriend(friends + [f], f.id) == Some(f)
  {
    FirstIndexWhereAppendNew(friends, f, IdIs(f.id));
    assert (friends + [f])[|friends|] == f;
  }

  /** `createUserOnServer`: the user built from the relay's `UserCreateResponse`. */
  function CreateUserOnServer(response: Result<string, string>): (r: Result<User, string>)
    ensures r.Success? <==> response.Success?
    ensures r.Success? ==> r.value.id == response.value && r.value.friends == []
    ensures r.Failure? ==> r.error == response.error
  {
    match response
    case Success(id) => Success(User(id, []))
    case Failure(e) => Failure(e)
  }

  /** The message `load` shows for each way decoding `user.data` can fail. */
  function DecodeFailureMessage(f: DecodeFailure): string {
    match f
    case DataCorrupted => "User data corrupted"
    case KeyNotFound(key) => "User data key missing: " + key
    case ValueNotFound(v) => "User data value missing: " + v
    case TypeMismatch(t) => "User data type mismatch: " + t
    case OtherFailure(d) => "User data decoding failed: " + d
  }

  /** The error message after `save`: set on failure, untouched on success. */
  function AfterSave(message: Option<string>, saveFailure: Option<string>): Option<string> {
    match saveFailure
    case Some(d) => Some("User data saving failed: " + d)
    case None => message
  }

  /** The file after `save(user:)`: the user's JSON on success, untouched on failure. */
  function FileAfterSave(file: Option<StoredData>, u: User, saveFailure: Option<string>): Option<StoredData> {
    if saveFailure.None? then Some(UserJson(Some(u))) else file
  }

  class UserStore {
    var user: Option<User>
    var userLoadErrorMessage: Option<string>
    /** `user.data` in Application Support; `None` when the file does not exist. */
    var file: Option<StoredData>

    constructor (file: Option<StoredData>)
      ensures user == None && userLoadErrorMessage == None && this.file == file
    {
      user := None;
      userLoadErrorMessage := None;
      this.file := file;
    }

    /** `getFriend(userId:)`: nil without a user, else the first friend with that id. */
    function GetFriend(userId: string): (r: Option<Friend>)
      reads this
      ensures user.None? ==> r.None?
      ensures user.Some? ==> r == FirstFriend(user.value.friends, userId)
    {
      match user
      case None => None
      case Some(u) => FirstFriend(u.friends, userId)
    }

    /** `load()`. `fileUrlAvailable` is whether Application Support could be
        located, `creation` the relay's answer to `createUserOnServer`, and
        `saveFailure` the error of saving a newly created user, if any. */
    method Load(fileUrlAvailable: bool, creation: Result<string, string>, saveFailure: Option<string>)
      modifies this
      ensures !fileUrlAvailable ==>
                user == old(user) && file == old(file) && userLoadErrorMessage == Some("Could not get file URL")
      ensures fileUrlAvailable && old(file).None? && creation.Failure? ==>
                user == old(user) && file == old(file) &&
                userLoadErrorMessage == Some("User creation failed: " + creation.error)
      ensures fileUrlAvailable && old(file).None? && creation.Success? ==>
                user == Some(User(creation.value, [])) &&
                file == FileAfterSave(old(file), user.value, saveFailure) &&
                userLoadErrorMessage == AfterSave(None, saveFailure)
      ensures fileUrlAvailable && old(file).Some? && old(file).value.UserJson? ==>
                user == old(file).value.stored && file == old(file) && userLoadErrorMessage == None
      ensures fileUrlAvailable && old(file).Some? && old(file).value.Undecodable? ==>
                user == old(user) && file == old(file) &&
                userLoadErrorMessage == Some(DecodeFailureMessage(old(file).value.failure))
    {
      userLoadErrorMessage := None;
      if !fileUrlAvailable {
        userLoadErrorMessage := Some("Could not get file URL");
        return;
      }
      if file.None? {
        var created := CreateUserOnServer(creation);
        if created.Success? {
          user := Some(created.value);
          Save(created.value, saveFailure);
        } else {
          userLoadErrorMessage := Some("User creation failed: " + created.error);
        }
        return;
      }
      match file.value
      case UserJson(stored) =>
        user := stored;
      case Undecodable(failure) =>
        userLoadErrorMessage := Some(DecodeFailureMessage(failure));
    }

    /** `save(user:)`. */
    method Save(u: User, saveFailure: Option<string>)
      modifies this
      ensures user == old(user)
      ensures file == FileAfterSave(old(file), u, saveFailure)
      ensures userLoadErrorMessage == AfterSave(old(userLoadErrorMessage), saveFailure)
    {
      if saveFailure.Some? {
        userLoadErrorMessage := Some("User data saving failed: " + saveFailure.value);
      } else {
        file := Some(UserJson(Some(u)));
      }
    }

    /** `delete()`: forget the user and the message first, then remove the
        file; `removeFailure` is the error of removing it, if any. Removing a
        file that does not exist always throws, so a missing file always
        comes with an error. */
    method Delete(removeFailure: Option<string>)
      requires file.None? ==> removeFailure.Some?
      modifies this
      ensures user == None
      ensures old(file).None? ==> file == None && userLoadErrorMessage.Some?
      ensures removeFailure.None? ==> file == None && userLoadErrorMessage == None
      ensures removeFailure.Some? ==>
                file == old(file) && userLoadErrorMessage == Some("User data deletion failed: " + removeFailure.value)
    {
      user := None;
      userLoadErrorMessage := None;
      if removeFailure.Some? {
        userLoadErrorMessage := Some("User data deletion failed: " + removeFailure.value);
      } else {
        file := None;
      }
    }

    /** `addFriend(userId:)`: fetch and decode the key, append exactly one
        friend at the end, save. The source force-unwraps `user` once the key
        is in hand. */
    method AddFriend(userId: string, fetch: KeyFetch, saveFailure: Option<string>) returns (r: Result<Friend, string>)
      requires fetch.Fetched? ==> user.Some?
      modifies this
      ensures fetch.FetchFailed? ==>
                r == Failure(fetch.description) && user == old(user) && file == old(file) &&
                userLoadErrorMessage == old(userLoadErrorMessage)
      ensures fetch.Fetched? ==>
                r == Success(Friend(userId, fetch.key)) &&
                user == Some(User(old(user).value.id, old(user).value.friends + [r.value])) &&
                file == FileAfterSave(old(file), user.value, saveFailure) &&
                userLoadErrorMessage == AfterSave(old(userLoadErrorMessage), saveFailure)
    {
      if fetch.FetchFailed? {
        return Failure(fetch.description);
      }
      var friend := Friend(userId, fetch.key);
      user := Some(User(user.value.id, user.value.friends + [friend]));
      Save(user.value, saveFailure);
      return Success(friend);
    }

    /** `getOrAddFriend(userId:)`: a stored friend is returned without a fetch;
        otherwise `addFriend`. */
    method GetOrAddFriend(userId: string, fetch: KeyFetch, saveFailure: Option<string>) returns (r: Result<Friend, string>)
      requires GetFriend(userId).None? && fetch.Fetched? ==> user.Some?
      modifies this
      ensures old(GetFriend(userId)).Some? ==>
                r == Success(old(GetFriend(userId)).value) && user == old(user) && file == old(file) &&
                userLoadErrorMessage == old(userLoadErrorMessage)
      ensures old(GetFriend(userId)).None? && fetch.FetchFailed? ==>
                r == Failure(fetch.description) && user == old(user) && file == old(file) &&
                userLoadErrorMessage == old(userLoadErrorMessage)
      ensures old(GetFriend(userId)).None? && fetch.Fetched? ==>
                r == Success(Friend(userId, fetch.key)) &&
                user == Some(User(old(user).value.id, old(user).value.friends + [r.value])) &&
                GetFriend(userId) == Some(r.value) &&
                file == FileAfterSave(old(file), user.value, saveFailure) &&
                userLoadErrorMessage == AfterSave(old(userLoadErrorMessage), saveFailure)
    {
      var existing := GetFriend(userId);
      if existing.Some? {
        return Success(existing.value);
      }
      r := AddFriend(userId, fetch, saveFailure);
      if fetch.Fetched? {
        AppendNewIsFound(old(user).value.friends, r.value);
      }
    }
  }
}
