/** Response shapes of the cloud identity and discovery service (`schemas/plex-tv.ts`), in
    the same style as the server's: a predicate `IsX(j, v)` per shape and a decoder proved
    against it. `getResources` and `getFriends` answer with a bare JSON array. */
module PlexTv {
  import opened Wrappers
  import opened Json

  // ---------------------------------------------------------------------------
  // POST /api/v2/pins and GET /api/v2/pins/{id}
  // ---------------------------------------------------------------------------

  /** `authToken` is `None` while the PIN is unclaimed (JSON `null`). */
  datatype Pin = Pin(id: int, code: string, authToken: Option<string>, expiresAt: string, clientIdentifier: string)

  predicate IsPin(j: Json, p: Pin) {
    j.JObj? &&
    var o := j.fields;
    HasNumber(o, "id", p.id) && HasString(o, "code", p.code) && HasStringOrNull(o, "authToken", p.authToken)
    && HasString(o, "expiresAt", p.expiresAt) && HasString(o, "clientIdentifier", p.clientIdentifier)
  }

  function DecodePin(j: Json): (r: Decoded<Pin>)
    ensures r.Ok? ==> IsPin(j, r.value)
    ensures r.Err? ==> forall p :: !IsPin(j, p)
  {
    var o :- AsObject(j);
    var id :- RequiredNumber(o, "id");
    var code :- RequiredString(o, "code");
    var authToken :- RequiredStringOrNull(o, "authToken");
    var expiresAt :- RequiredString(o, "expiresAt");
    var clientIdentifier :- RequiredString(o, "clientIdentifier");
    Ok(Pin(id, code, authToken, expiresAt, clientIdentifier))
  }

  // ---------------------------------------------------------------------------
  // GET /api/v2/user
  // ---------------------------------------------------------------------------

  datatype User = User(id: int, uuid: string, username: string, email: string, thumb: string, title: string, authToken: string)

  predicate IsUser(j: Json, u: User) {
    j.JObj? &&
    var o := j.fields;
    HasNumber(o, "id", u.id) && HasString(o, "uuid", u.uuid) && HasString(o, "username", u.username)
    && HasString(o, "email", u.email) && HasString(o, "thumb", u.thumb) && HasString(o, "title", u.title)
    && HasString(o, "authToken", u.authToken)
  }

  function DecodeUser(j: Json): (r: Decoded<User>)
    ensures r.Ok? ==> IsUser(j, r.value)
    ensures r.Err? ==> forall u :: !IsUser(j, u)
  {
    var o :- AsObject(j);
    var id :- RequiredNumber(o, "id");
    var uuid :- RequiredString(o, "uuid");
    var username :- RequiredString(o, "username");
    var email :- RequiredString(o, "email");
    var thumb :- RequiredString(o, "thumb");
    var title :- RequiredString(o, "title");
    var authToken :- RequiredString(o, "authToken");
    Ok(User(id, uuid, username, email, thumb, title, authToken))
  }

  // ---------------------------------------------------------------------------
  // GET /api/v2/resources
  // ---------------------------------------------------------------------------

  datatype ResourceConnection = ResourceConnection(protocol: string, address: string, port: int, uri: string, local: bool, relay: bool)

  predicate IsResourceConnection(j: Json, c: ResourceConnection) {
    j.JObj? &&
    var o := j.fields;
    HasString(o, "protocol", c.protocol) && HasString(o, "address", c.address) && HasNumber(o, "port", c.port)
    && HasString(o, "uri", c.uri) && HasBoolean(o, "local", c.local) && HasBoolean(o, "relay", c.relay)
  }

  function DecodeResourceConnection(j: Json): (r: Decoded<ResourceConnection>)
    ensures r.Ok? ==> IsResourceConnection(j, r.value)
    ensures r.Err? ==> forall c :: !IsResourceConnection(j, c)
  {
    var o :- AsObject(j);
    var protocol :- RequiredString(o, "protocol");
    var address :- RequiredString(o, "address");
    var port :- RequiredNumber(o, "port");
    var uri :- RequiredString(o, "uri");
    var local :- RequiredBoolean(o, "local");
    var relay :- RequiredBoolean(o, "relay");
    Ok(ResourceConnection(protocol, address, port, uri, local, relay))
  }

  /** `accessToken` is `None` for JSON `null`; `capabilities` is the JSON key `provides`. */
  datatype Resource = Resource(name: string, capabilities: string, clientIdentifier: string, accessToken: Option<string>, connections: seq<ResourceConnection>)

  ghost predicate IsResource(j: Json, r: Resource) {
    j.JObj? &&
    var o := j.fields;
    HasString(o, "name", r.name) && HasString(o, "provides", r.capabilities)
    && HasString(o, "clientIdentifier", r.clientIdentifier) && HasStringOrNull(o, "accessToken", r.accessToken)
    && HasArray(o, "connections", r.connections, IsResourceConnection)
  }

  function DecodeResource(j: Json): (r: Decoded<Resource>)
    ensures r.Ok? ==> IsResource(j, r.value)
    ensures r.Err? ==> forall v :: !IsResource(j, v)
  {
    var o :- AsObject(j);
    var name :- RequiredString(o, "name");
    var capabilities :- RequiredString(o, "provides");
    var clientIdentifier :- RequiredString(o, "clientIdentifier");
    var accessToken :- RequiredStringOrNull(o, "accessToken");
    var connections :- RequiredArray(o, "connections", DecodeResourceConnection, IsResourceConnection);
    Ok(Resource(name, capabilities, clientIdentifier, accessToken, connections))
  }

  /** `Schema.Array(PlexResource)`: the body itself is the array. */
  ghost predicate IsResources(j: Json, rs: seq<Resource>) {
    j.JArr? && Each(j.items, rs, IsResource)
  }

  function DecodeResources(j: Json): (r: Decoded<seq<Resource>>)
    ensures r.Ok? ==> IsResources(j, r.value)
    ensures r.Err? ==> forall rs :: !IsResources(j, rs)
  {
    ArrayDecodes(j, DecodeResource, IsResource);
    AsArray(j, DecodeResource)
  }

  // ---------------------------------------------------------------------------
  // GET /api/v2/friends
  // ---------------------------------------------------------------------------

  datatype Friend = Friend(id: int, uuid: string, title: string, username: string, thumb: string, status: string)

  predicate IsFriend(j: Json, f: Friend) {
    j.JObj? &&
    var o := j.fields;
    HasNumber(o, "id", f.id) && HasString(o, "uuid", f.uuid) && HasString(o, "title", f.title)
    && HasString(o, "username", f.username) && HasString(o, "thumb", f.thumb) && HasString(o, "status", f.status)
  }

  function DecodeFriend(j: Json): (r: Decoded<Friend>)
    ensures r.Ok? ==> IsFriend(j, r.value)
    ensures r.Err? ==> forall f :: !IsFriend(j, f)
  {
    var o :- AsObject(j);
    var id :- RequiredNumber(o, "id");
    var uuid :- RequiredString(o, "uuid");
    var title :- RequiredString(o, "title");
    var username :- RequiredString(o, "username");
    var thumb :- RequiredString(o, "thumb");
    var status :- RequiredString(o, "status");
    Ok(Friend(id, uuid, title, username, thumb, status))
  }

  /** `Schema.Array(PlexFriend)`: the body itself is the array. */
  ghost predicate IsFriends(j: Json, fs: seq<Friend>) {
    j.JArr? && Each(j.items, fs, IsFriend)
  }

  function DecodeFriends(j: Json): (r: Decoded<seq<Friend>>)
    ensures r.Ok? ==> IsFriends(j, r.value)
    ensures r.Err? ==> forall fs :: !IsFriends(j, fs)
  {
    ArrayDecodes(j, DecodeFriend, IsFriend);
    AsArray(j, DecodeFriend)
  }

  // ---------------------------------------------------------------------------
  // GET /api/v2/home/users
  // ---------------------------------------------------------------------------

  datatype HomeUser = HomeUser(id: int, uuid: string, title: string, username: string, thumb: string, admin: bool, restricted: bool)

  predicate IsHomeUser(j: Json, u: HomeUser) {
    j.JObj? &&
    var o := j.fields;
    HasNumber(o, "id", u.id) && HasString(o, "uuid", u.uuid) && HasString(o, "title", u.title)
    && HasString(o, "username", u.username) && HasString(o, "thumb", u.thumb)
    && HasBoolean(o, "admin", u.admin) && HasBoolean(o, "restricted", u.restricted)
  }

  function DecodeHomeUser(j: Json): (r: Decoded<HomeUser>)
    ensures r.Ok? ==> IsHomeUser(j, r.value)
    ensures r.Err? ==> forall u :: !IsHomeUser(j, u)
  {
    var o :- AsObject(j);
    var id :- RequiredNumber(o, "id");
    var uuid :- RequiredString(o, "uuid");
    var title :- RequiredString(o, "title");
    var username :- RequiredString(o, "username");
    var thumb :- RequiredString(o, "thumb");
    var admin :- RequiredBoolean(o, "admin");
    var restricted :- RequiredBoolean(o, "restricted");
    Ok(HomeUser(id, uuid, title, username, thumb, admin, restricted))
  }

  datatype HomeUsersResponse = HomeUsersResponse(users: seq<HomeUser>)

  ghost predicate IsHomeUsersResponse(j: Json, r: HomeUsersResponse) {
    j.JObj? && HasArray(j.fields, "users", r.users, IsHomeUser)
  }

  function DecodeHomeUsersResponse(j: Json): (r: Decoded<HomeUsersResponse>)
    ensures r.Ok? ==> IsHomeUsersResponse(j, r.value)
    ensures r.Err? ==> forall v :: !IsHomeUsersResponse(j, v)
  {
    var o :- AsObject(j);
    var users :- RequiredArray(o, "users", DecodeHomeUser, IsHomeUser);
    Ok(HomeUsersResponse(users))
  }

  // ---------------------------------------------------------------------------
  // Properties of the cloud schemas
  // ---------------------------------------------------------------------------

  /** `authToken` of a PIN: `null` decodes to `None`, a string to `Some`, and a missing key
      or any other value fails. */
  lemma PinAuthTokenNullable(j: Json)
    requires j.JObj?
    ensures !("authToken" in j.fields && (j.fields["authToken"].JNull? || j.fields["authToken"].JStr?)) ==> DecodePin(j).Err?
    ensures DecodePin(j).Ok? && j.fields["authToken"] == JNull ==> DecodePin(j).value.authToken == None
    ensures DecodePin(j).Ok? && j.fields["authToken"].JStr? ==> DecodePin(j).value.authToken == Some(j.fields["authToken"].s)
  {
  }

  /** `id` of a PIN must be a number; `code`, `expiresAt`, `clientIdentifier` strings. */
  lemma PinRequiredFields(j: Json, k: string)
    requires j.JObj?
    ensures k == "id" && !(k in j.fields && j.fields[k].JNum?) ==> DecodePin(j).Err?
    ensures k in {"code", "expiresAt", "clientIdentifier"} && !(k in j.fields && j.fields[k].JStr?) ==> DecodePin(j).Err?
  {
  }

  /** A resource's `connections` must be present and an array; `accessToken` may be null. */
  lemma ResourceFieldRules(j: Json)
    requires j.JObj?
    ensures !("connections" in j.fields && j.fields["connections"].JArr?) ==> DecodeResource(j).Err?
    ensures DecodeResource(j).Ok? && j.fields["accessToken"] == JNull ==> DecodeResource(j).value.accessToken == None
  {
  }

  /** A connection's `local`/`relay` must be booleans and `port` a number. */
  lemma ConnectionTypes(j: Json)
    requires j.JObj?
    ensures !("local" in j.fields && j.fields["local"].JBool?) ==> DecodeResourceConnection(j).Err?
    ensures !("relay" in j.fields && j.fields["relay"].JBool?) ==> DecodeResourceConnection(j).Err?
    ensures !("port" in j.fields && j.fields["port"].JNum?) ==> DecodeResourceConnection(j).Err?
  {
  }

  /** One bad element of a top-level array fails the whole `getResources`/`getFriends`
      body; a body that is not an array fails too. */
  lemma OneBadElementFailsArray(j: Json, i: nat)
    ensures !j.JArr? ==> DecodeResources(j).Err? && DecodeFriends(j).Err?
    ensures j.JArr? && i < |j.items| && DecodeResource(j.items[i]).Err? ==> DecodeResources(j).Err?
    ensures j.JArr? && i < |j.items| && DecodeFriend(j.items[i]).Err? ==> DecodeFriends(j).Err?
  {
  }

  /** The home users body must be an object holding a `users` array. */
  lemma HomeUsersRequiresUsers(j: Json)
    ensures !j.JObj? ==> DecodeHomeUsersResponse(j).Err?
    ensures j.JObj? && !("users" in j.fields && j.fields["users"].JArr?) ==> DecodeHomeUsersResponse(j).Err?
  {
  }

  /** A user requires `id` and six strings; a home user additionally `admin`/`restricted`
      booleans. */
  lemma UserRequiredFields(j: Json, k: string)
    requires j.JObj?
    ensures k == "id" && !(k in j.fields && j.fields[k].JNum?) ==> DecodeUser(j).Err? && DecodeHomeUser(j).Err?
    ensures k in {"uuid", "username", "email", "thumb", "title", "authToken"} && !(k in j.fields && j.fields[k].JStr?) ==> DecodeUser(j).Err?
    ensures k in {"uuid", "title", "username", "thumb"} && !(k in j.fields && j.fields[k].JStr?) ==> DecodeHomeUser(j).Err?
    ensures k in {"admin", "restricted"} && !(k in j.fields && j.fields[k].JBool?) ==> DecodeHomeUser(j).Err?
  {
  }

  /** The record shapes are functions of the payload: at most one value per payload. */
  lemma RecordShapesFunctional()
    ensures Functional(IsPin) && Functional(IsUser) && Functional(IsResourceConnection)
    ensures Functional(IsFriend) && Functional(IsHomeUser)
  {
  }

  /** A resource payload allows at most one resource, connections included. */
  lemma {:induction false} ResourceFunctional(j: Json, a: Resource, b: Resource)
    requires IsResource(j, a) && IsResource(j, b)
    ensures a == b
  {
    RecordShapesFunctional();
    EachFunctional(j.fields["connections"].items, a.connections, b.connections, IsResourceConnection);
  }

  /** The top-level arrays and the home users body allow at most one value per payload. */
  lemma {:induction false} ResponsesFunctional(j: Json)
    ensures forall a, b :: IsResources(j, a) && IsResources(j, b) ==> a == b
    ensures forall a, b :: IsFriends(j, a) && IsFriends(j, b) ==> a == b
    ensures forall a, b :: IsHomeUsersResponse(j, a) && IsHomeUsersResponse(j, b) ==> a == b
  {
    RecordShapesFunctional();
    assert Functional(IsResource) by {
      forall r, a, b | IsResource(r, a) && IsResource(r, b) ensures a == b {
        ResourceFunctional(r, a, b);
      }
    }
    forall a, b | IsResources(j, a) && IsResources(j, b) ensures a == b {
      EachFunctional(j.items, a, b, IsResource);
    }
    forall a, b | IsFriends(j, a) && IsFriends(j, b) ensures a == b {
      EachFunctional(j.items, a, b, IsFriend);
    }
    forall a, b | IsHomeUsersResponse(j, a) && IsHomeUsersResponse(j, b) ensures a == b {
      EachFunctional(j.fields["users"].items, a.users, b.users, IsHomeUser);
    }
  }
}
