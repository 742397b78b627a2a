/** server/Sources/App/UserModel.swift and routes.swift: the Vapor relay that
    keeps, per user, an APNs token, a secret and the last content sent to it. */
module VaporRelay {

  import opened Wrappers
  import opened Strings

  datatype ContentType = Text | Url

  /** server/Sources/App/ClipboardContent.swift. */
  datatype ClipboardContent = ClipboardContent(id: Option<Uuid>, kind: ContentType, content: string)

  /** A Fluent `@Field` property: unset until assigned (reading it unset traps). */
  datatype Field<T> = Unset | Set(value: T)

  /** The bounds of `Int.random(in: 10000000...99999999)`. */
  const MinIdDraw: nat := 10000000
  const MaxIdDraw: nat := 99999999

  /** `generateRandomID` for the draw `n`: its decimal text padded on the
      right with '0' (or cut) to 8 characters. */
  function GenerateRandomId(n: nat): (id: string)
    requires MinIdDraw <= n <= MaxIdDraw
    ensures |id| == 8
  {
    GenerateRandomIdPadding(n);
    PadRight(NatToDecimal(n), 8)
  }

  /** Every draw already has 8 digits, so the padding never changes it: the
      id is the draw's decimal text, with a non-zero first digit, and reads
      back as the draw. */
  lemma GenerateRandomIdPadding(n: nat)
    requires MinIdDraw <= n <= MaxIdDraw
    ensures PadRight(NatToDecimal(n), 8) == NatToDecimal(n)
    ensures |NatToDecimal(n)| == 8 && AllAsciiDigits(NatToDecimal(n))
    ensures NatToDecimal(n)[0] != '0'
    ensures DecimalValue(NatToDecimal(n)) == n
  {
    assert Pow10(7) == MinIdDraw && Pow10(8) == MaxIdDraw + 1;
    NatToDecimalLength(n, 8);
    NatToDecimalFacts(n);
  }

  /** Distinct draws give distinct ids. */
  lemma GenerateRandomIdInjective(m: nat, n: nat)
    requires MinIdDraw <= m <= MaxIdDraw && MinIdDraw <= n <= MaxIdDraw
    requires GenerateRandomId(m) == GenerateRandomId(n)
    ensures m == n
  {
    GenerateRandomIdPadding(m);
    GenerateRandomIdPadding(n);
    NatToDecimalInjective(m, n);
  }

  /** `generateRandomSecret` for the UUID `u`: `u.uuidString`. */
  function GenerateRandomSecret(u: Uuid): (secret: string)
    ensures |secret| == 36
  {
    UuidStringLayout(u);
    UuidString(u)
  }

  class UserModel {
    var id: Option<string>
    var apnsToken: Field<string>
    var secret: Field<Option<string>>
    var lastReceivedClipboardContent: Field<Option<ClipboardContent>>

    /** `init()`: assigns nothing. */
    constructor Empty()
      ensures id == None && apnsToken == Unset && secret == Unset && lastReceivedClipboardContent == Unset
    {
      id := None;
      apnsToken := Unset;
      secret := Unset;
      lastReceivedClipboardContent := Unset;
    }

    /** `init(id:apnsToken:secret:lastReceivedClipboardContent:)`; `idDraw`
        and `secretDraw` are the random values used when `id` or `secret` is nil. */
    constructor (id: Option<string>, apnsToken: string, secret: Option<string>,
                 lastReceivedClipboardContent: Option<ClipboardContent>, idDraw: nat, secretDraw: Uuid)
      requires MinIdDraw <= idDraw <= MaxIdDraw
      ensures this.id == Some(if id.Some? then id.value else GenerateRandomId(idDraw))
      ensures this.apnsToken == Set(apnsToken)
      ensures this.secret == Set(Some(if secret.Some? then secret.value else GenerateRandomSecret(secretDraw)))
      ensures this.lastReceivedClipboardContent == Set(lastReceivedClipboardContent)
    {
      this.id := Some(if id.Some? then id.value else GenerateRandomId(idDraw));
      this.apnsToken := Set(apnsToken);
      this.secret := Set(Some(if secret.Some? then secret.value else GenerateRandomSecret(secretDraw)));
      this.lastReceivedClipboardContent := Set(lastReceivedClipboardContent);
    }

    /** `init(apnsToken:)`: both the id and the secret are generated. */
    constructor WithToken(apnsToken: string, idDraw: nat, secretDraw: Uuid)
      requires MinIdDraw <= idDraw <= MaxIdDraw
      ensures id == Some(GenerateRandomId(idDraw)) && this.apnsToken == Set(apnsToken)
      ensures secret == Set(Some(GenerateRandomSecret(secretDraw)))
      ensures lastReceivedClipboardContent == Set(None)
    {
      id := Some(GenerateRandomId(idDraw));
      this.apnsToken := Set(apnsToken);
      secret := Set(Some(GenerateRandomSecret(secretDraw)));
      lastReceivedClipboardContent := Set(None);
    }
  }

  /** One row of the `users` table. */
  datatype UserRow = UserRow(apnsToken: string, secret: Option<string>, lastReceivedClipboardContent: Option<ClipboardContent>)

  /** An `Abort` status. */
  const NotFound: int := 404
  const Unauthorized: int := 401

  /** The `receive` route: 404 for an unknown user, 401 unless the stored
      secret equals the given one, nothing when the stored content's id is
      `skipForId`, and the stored content otherwise. */
  function Receive(users: map<string, UserRow>, id: string, secret: string, skipForId: Option<Uuid>)
    : (r: Result<Option<ClipboardContent>, int>)
    ensures r == Failure(NotFound) <==> id !in users
    ensures r == Failure(Unauthorized) <==> id in users && users[id].secret != Some(secret)
    ensures r.Success? ==>
              var last := users[id].lastReceivedClipboardContent;
              r.value == if last.Some? && last.value.id != skipForId then last else None
  {
    if id !in users then Failure(NotFound)
    else if users[id].secret != Some(secret) then Failure(Unauthorized)
    else
      var last := users[id].lastReceivedClipboardContent;
      var lastId := if last.Some? then last.value.id else None;
      if lastId == skipForId then Success(None) else Success(last)
  }

  /** A user whose stored secret is nil can never receive. */
  lemma NilSecretNeverPasses(users: map<string, UserRow>, id: string, secret: string, skipForId: Option<Uuid>)
    requires id in users && users[id].secret.None?
    ensures Receive(users, id, secret, skipForId) == Failure(Unauthorized)
  {
  }

  class Database {
    var users: map<string, UserRow>

    constructor (users: map<string, UserRow>)
      ensures this.users == users
    {
      this.users := users;
    }

    /** The create route: a `UserModel()` with no field assigned is what it
        saves and returns; the database's handling of that save is not part
        of this model. */
    method CreateUser() returns (created: UserModel)
      ensures fresh(created)
      ensures created.id == None && created.apnsToken == Unset && created.secret == Unset
    {
      created := new UserModel.Empty();
    }

    /** The `send` route: 404 for an unknown receiver; otherwise the content
        gets the new id `freshId` (any id the client sent is replaced), becomes
        the receiver's single stored content, and that id is returned. */
    method Send(receiverId: string, content: ClipboardContent, freshId: Uuid) returns (r: Result<Uuid, int>)
      modifies this
      ensures r.Failure? <==> receiverId !in old(users)
      ensures r.Failure? ==> r.error == NotFound && users == old(users)
      ensures r.Success? ==>
                r.value == freshId &&
                users == old(users)[receiverId := old(users)[receiverId].(
                           lastReceivedClipboardContent := Some(content.(id := Some(freshId))))]
    {
      if receiverId !in users {
        return Failure(NotFound);
      }
      var stored := content.(id := Some(freshId));
      var row := users[receiverId];
      users := users[receiverId := row.(lastReceivedClipboardContent := Some(stored))];
      r := Success(stored.id.value);
    }
  }

  /** After a send, the receiver with its secret gets exactly the sent
      content, under the new id, unless it asks to skip that id; a client
      that skips by the id it last received never gets the same content twice. */
  lemma ReceiveAfterSend(users: map<string, UserRow>, receiverId: string, content: ClipboardContent,
                         freshId: Uuid, skipForId: Option<Uuid>)
    requires receiverId in users && users[receiverId].secret.Some?
    ensures var after := users[receiverId := users[receiverId].(
                           lastReceivedClipboardContent := Some(content.(id := Some(freshId))))];
            Receive(after, receiverId, users[receiverId].secret.value, skipForId) ==
              if skipForId == Some(freshId) then Success(None)
              else Success(Some(content.(id := Some(freshId))))
  {
  }

  /** Sending to one user changes nothing any other user can receive. */
  lemma SendIsolatesUsers(users: map<string, UserRow>, receiverId: string, other: string, content: ClipboardContent,
                          freshId: Uuid, secret: string, skipForId: Option<Uuid>)
    requires receiverId in users && other != receiverId
    ensures var after := users[receiverId := users[receiverId].(
                           lastReceivedClipboardContent := Some(content.(id := Some(freshId))))];
            Receive(after, other, secret, skipForId) == Receive(users, other, secret, skipForId)
  {
  }
}
