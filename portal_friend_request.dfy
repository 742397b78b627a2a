/** ClipboardPortal/FriendRequest.swift: the single pending friend request
    that gates content from a sender who is not yet a friend. */
module PortalFriendRequest {

  import opened Wrappers
  import opened PortalUserStore

  /** Stands for the closure `whenAccepted` (resuming the suspended receive);
      only its identity matters to the request slot. */
  datatype Callback = Callback(token: nat)

  class FriendRequest {
    var requestingUserId: Option<string>
    var loading: bool
    var errorMessage: Option<string>
    var callbackAfterAccepted: Option<Callback>

    /** Between operations: a callback is only ever kept together with the
        request it belongs to, and nothing is loading. */
    ghost predicate Valid()
      reads this
    {
      (callbackAfterAccepted.Some? ==> requestingUserId.Some?) && !loading
    }

    ghost predicate IsReset()
      reads this
    {
      requestingUserId == None && callbackAfterAccepted == None && errorMessage == None && !loading
    }

    constructor ()
      ensures IsReset() && Valid()
    {
      requestingUserId := None;
      loading := false;
      errorMessage := None;
      callbackAfterAccepted := None;
    }

    /** `reset()`. */
    method Reset()
      modifies this
      ensures IsReset() && Valid()
    {
      requestingUserId := None;
      callbackAfterAccepted := None;
      errorMessage := None;
      loading := false;
    }

    /** `showRequest(userId:whenAccepted:)`: any earlier request, its callback
        and its error are dropped before the new one is installed. */
    method ShowRequest(userId: string, whenAccepted: Callback)
      modifies this
      ensures requestingUserId == Some(userId) && callbackAfterAccepted == Some(whenAccepted)
      ensures errorMessage == None && !loading
      ensures Valid()
    {
      Reset();
      requestingUserId := Some(userId);
      callbackAfterAccepted := Some(whenAccepted);
    }

    /** `acceptCurrentFriendRequest()`: add the requesting user as a friend;
        on success run the callback once and reset, on failure keep the
        request and show the error. `ran` is the callback that was run. The
        source force-unwraps `requestingUserId`, and `addFriend` force-unwraps
        the store's user once the key is fetched. */
    method AcceptCurrentFriendRequest(store: UserStore, fetch: KeyFetch, saveFailure: Option<string>)
      returns (ran: Option<Callback>)
      requires requestingUserId.Some?
      requires fetch.Fetched? ==> store.user.Some?
      modifies this, store
      ensures !loading
      ensures fetch.FetchFailed? ==>
                ran == None && errorMessage == Some(fetch.description) &&
                requestingUserId == old(requestingUserId) && callbackAfterAccepted == old(callbackAfterAccepted) &&
                store.user == old(store.user) && store.file == old(store.file) &&
                store.userLoadErrorMessage == old(store.userLoadErrorMessage)
      ensures fetch.Fetched? ==>
                ran == old(callbackAfterAccepted) && IsReset() &&
                store.user == Some(User(old(store.user).value.id,
                                        old(store.user).value.friends + [Friend(old(requestingUserId).value, fetch.key)])) &&
                store.file == FileAfterSave(old(store.file), store.user.value, saveFailure) &&
                store.userLoadErrorMessage == AfterSave(old(store.userLoadErrorMessage), saveFailure)
      ensures old(Valid()) ==> Valid()
    {
      loading := true;
      var added := store.AddFriend(requestingUserId.value, fetch, saveFailure);
      if added.Failure? {
        errorMessage := Some(added.error);
        loading := false;
        return None;
      }
      ran := callbackAfterAccepted;
      Reset();
    }

    /** `denyCurrentFriendRequest()`: exactly `reset()`; the callback is dropped unrun. */
    method DenyCurrentFriendRequest()
      modifies this
      ensures IsReset() && Valid()
    {
      Reset();
    }
  }

  /** Accepting a request with a fetched key, then loading a fresh store
      from the file: the accept runs the callback and resets whether or not
      the save succeeds. When it succeeds the reloaded store knows the new
      friend; when it fails only the store's error message says so, the file
      keeps what it had, and a reload from a file that held the user before
      the accept, or from no file at all, does not know the friend.
      `reloadCreation` is the relay's answer should the reload find no file
      and create a user. */
  method AcceptThenReload(request: FriendRequest, store: UserStore, key: PublicKey, saveFailure: Option<string>,
                          reloadCreation: Result<string, string>)
    returns (ran: Option<Callback>, reloaded: UserStore)
    requires request.requestingUserId.Some? && store.user.Some?
    requires store.GetFriend(request.requestingUserId.value).None?
    modifies request, store
    ensures fresh(reloaded)
    ensures ran == old(request.callbackAfterAccepted) && request.IsReset()
    ensures saveFailure.None? ==>
              reloaded.user == store.user &&
              reloaded.GetFriend(old(request.requestingUserId).value) ==
                Some(Friend(old(request.requestingUserId).value, key))
    ensures saveFailure.Some? ==>
              store.userLoadErrorMessage == Some("User data saving failed: " + saveFailure.value) &&
              store.file == old(store.file)
    ensures saveFailure.Some? && old(store.file).Some? ==> reloaded.file == old(store.file)
    ensures saveFailure.Some? && old(store.file) == Some(UserJson(old(store.user))) ==>
              reloaded.user == old(store.user) &&
              reloaded.GetFriend(old(request.requestingUserId).value).None?
    ensures saveFailure.Some? && old(store.file).None? ==>
              reloaded.GetFriend(old(request.requestingUserId).value).None?
  {
    var userId := request.requestingUserId.value;
    ran := request.AcceptCurrentFriendRequest(store, Fetched(key), saveFailure);
    reloaded := new UserStore(store.file);
    reloaded.Load(true, reloadCreation, None);
    if saveFailure.None? {
      AppendNewIsFound(old(store.user).value.friends, Friend(userId, key));
    }
  }
}
