/** The profile endpoint (`/api/profile`): GET returns the caller's user row, PATCH validates
    a partial update of five profile fields and writes it to that row. The session resolver,
    the user table and the URL parser are inputs: a `Session`, a `Store` and `isUrl`. */
module ProfileApi {
  import opened Options
  import opened JsString

  type UserId = string

  /** A row of the user table, restricted to the columns the endpoint reads or writes. */
  datatype UserRecord = UserRecord(
    id: UserId,
    name: string,
    email: string,
    role: Option<string>,
    location: Option<string>,
    website: Option<string>,
    bio: Option<string>,
    updatedAt: int)

  /** The kind of an exception thrown inside a handler: the catch blocks tell only a
      `SyntaxError` apart from everything else. */
  datatype Thrown = SyntaxError | OtherError

  /** The user table. `fault` is the exception the database call throws, if it throws. */
  datatype Store = Store(rows: map<UserId, UserRecord>, fault: Option<Thrown>) {
    const available: bool := fault.None?
  }

  /** What the session lookup yields: it throws, it finds no signed-in user, or it finds one. */
  datatype Session = SessionError(thrown: Thrown) | NoUser | SignedIn(userId: UserId)

  /** A parsed JSON value. Numbers are never inspected, so they carry no payload. */
  datatype Json =
    | JNull
    | JBool(b: bool)
    | JNumber
    | JString(s: string)
    | JArray(items: seq<Json>)
    | JObject(members: map<string, Json>)

  /** The request body: `request.json()` either throws (a SyntaxError for text that is not
      JSON, another error for a body that cannot be read) or yields a value. */
  datatype Body = Malformed(thrown: Thrown) | Parsed(json: Json)

  /** The `code` field of every error response. */
  datatype ErrorCode =
    | Unauthorized
    | UserNotFound
    | InvalidName
    | InvalidUrl
    | NoFieldsProvided
    | InvalidJson
    | InternalError

  datatype Response = Ok(record: UserRecord) | Failed(code: ErrorCode)

  /** The wire spelling of each error code. */
  function CodeText(c: ErrorCode): string {
    match c
    case Unauthorized => "UNAUTHORIZED"
    case UserNotFound => "USER_NOT_FOUND"
    case InvalidName => "INVALID_NAME"
    case InvalidUrl => "INVALID_URL"
    case NoFieldsProvided => "NO_FIELDS_PROVIDED"
    case InvalidJson => "INVALID_JSON"
    case InternalError => "INTERNAL_ERROR"
  }

  /** The HTTP status sent with a response. */
  function HttpStatus(r: Response): (status: int)
    ensures r.Ok? <==> status == 200
    ensures status == 400 <==> r.Failed? && r.code in {InvalidName, InvalidUrl, NoFieldsProvided, InvalidJson}
    ensures status == 401 <==> r == Failed(Unauthorized)
    ensures status == 404 <==> r == Failed(UserNotFound)
    ensures status == 500 <==> r == Failed(InternalError)
  {
    match r
    case Ok(_) => 200
    case Failed(Unauthorized) => 401
    case Failed(UserNotFound) => 404
    case Failed(InternalError) => 500
    case Failed(_) => 400
  }

  /** The seven codes have pairwise distinct wire spellings, so a client can tell them apart. */
  lemma CodeTextInjective()
    ensures forall a, b :: CodeText(a) == CodeText(b) ==> a == b
  {
  }

  /** GET's catch block: whatever was thrown, INTERNAL_ERROR. */
  function CaughtByGet(e: Thrown): (c: ErrorCode)
    ensures HttpStatus(Failed(c)) == 500
  {
    InternalError
  }

  /** PATCH's catch block: a SyntaxError, wherever inside the handler it was thrown, is
      INVALID_JSON (400); anything else is INTERNAL_ERROR (500). */
  function CaughtByPatch(e: Thrown): (c: ErrorCode)
    ensures c == InvalidJson <==> e.SyntaxError?
    ensures c == InternalError <==> e.OtherError?
  {
    match e
    case SyntaxError => InvalidJson
    case OtherError => InternalError
  }

  /** GET /api/profile. */
  function Get(session: Session, store: Store): (r: Response)
    ensures session.SessionError? ==> r == Failed(InternalError)
    ensures session.NoUser? ==> r == Failed(Unauthorized)
    ensures session.SignedIn? && !store.available ==> r == Failed(InternalError)
    ensures session.SignedIn? && store.available && session.userId !in store.rows ==> r == Failed(UserNotFound)
    ensures r.Ok? <==> session.SignedIn? && store.available && session.userId in store.rows
    ensures r.Ok? ==> r.record == store.rows[session.userId]
  {
    match session
    case SessionError(e) => Failed(CaughtByGet(e))
    case NoUser => Failed(Unauthorized)
    case SignedIn(id) =>
      if !store.available then Failed(CaughtByGet(store.fault.value))
      else if id !in store.rows then Failed(UserNotFound)
      else Ok(store.rows[id])
  }

  /** One step of body validation: it passes with a value or aborts the request with a code.
      A TypeError thrown inside the handler aborts with `InternalError`. */
  datatype Step<+T> = Pass(value: T) | Abort(code: ErrorCode) {
    predicate IsFailure() { Abort? }

    function PropagateFailure<U>(): Step<U>
      requires Abort?
    {
      Abort(code)
    }

    function Extract(): T
      requires Pass?
    {
      value
    }
  }

  /** `body[key]`: reading a property of `null` throws a TypeError; any other non-object
      has none of the five keys, so the read gives `undefined` (`None`). */
  function Property(body: Json, key: string): (r: Step<Option<Json>>)
    ensures body.JNull? <==> r == Abort(InternalError)
    ensures r.Pass? && r.value.Some? <==> body.JObject? && key in body.members
    ensures r.Pass? && r.value.Some? ==> r.value.value == body.members[key]
  {
    match body
    case JNull => Abort(InternalError)
    case JObject(m) => if key in m then Pass(Some(m[key])) else Pass(None)
    case _ => Pass(None)
  }

  /** `body[key] !== undefined ? body[key].trim() : undefined`: calling `trim` on anything
      but a string throws a TypeError. */
  function TrimmedField(body: Json, key: string): (r: Step<Option<string>>)
    ensures r.Abort? ==> r == Abort(InternalError)
    ensures r.Pass? && r.value.Some? ==> Trim(r.value.value) == r.value.value
  {
    var v :- Property(body, key);
    match v
    case None => Pass(None)
    case Some(JString(s)) =>
      TrimIdempotent(s);
      Pass(Some(Trim(s)))
    case Some(_) => Abort(InternalError)
  }

  /** The change PATCH makes to one nullable column. */
  datatype Assign = Keep | Put(value: Option<string>)

  /** The update set built from the body; `updatedAt` is added when it is written. */
  datatype ProfileUpdate = ProfileUpdate(
    name: Option<string>,
    role: Assign,
    location: Assign,
    website: Assign,
    bio: Assign)
  {
    predicate IsEmpty() {
      name.None? && role.Keep? && location.Keep? && website.Keep? && bio.Keep?
    }
  }

  /** `name`: a present name must be non-empty after trimming and is kept trimmed. */
  function NameUpdate(body: Json): (r: Step<Option<string>>)
    ensures r.Abort? ==> r.code == InvalidName || r.code == InternalError
    ensures r.Pass? && r.value.Some? ==> r.value.value != "" && Trim(r.value.value) == r.value.value
  {
    var t :- TrimmedField(body, "name");
    if t == Some("") then Abort(InvalidName)
    else Pass(t)
  }

  /** `role`, `location`, `bio`: trimmed, with the empty string stored as null, so a stored
      string is never empty and never has white space at either end. */
  function NullableUpdate(body: Json, key: string): (r: Step<Assign>)
    ensures r.Abort? ==> r == Abort(InternalError)
    ensures r.Pass? && r.value.Put? && r.value.value.Some? ==>
      r.value.value.value != "" && Trim(r.value.value.value) == r.value.value.value
  {
    var t :- TrimmedField(body, key);
    match t
    case None => Pass(Keep)
    case Some(s) => Pass(Put(OrNull(s)))
  }

  /** `website`: trimmed; empty clears it, anything else must parse as a URL and is then
      stored exactly as trimmed. */
  function WebsiteUpdate(body: Json, isUrl: string -> bool): (r: Step<Assign>)
    ensures r.Abort? ==> r.code == InvalidUrl || r.code == InternalError
    ensures r.Pass? && r.value.Put? && r.value.value.Some? ==>
      isUrl(r.value.value.value) && Trim(r.value.value.value) == r.value.value.value
  {
    var t :- TrimmedField(body, "website");
    match t
    case None => Pass(Keep)
    case Some(s) =>
      if s == "" then Pass(Put(None))
      else if isUrl(s) then Pass(Put(Some(s)))
      else Abort(InvalidUrl)
  }

  /** The five checks, in the order the handler runs them; the first failure wins. Validation
      fails only with INVALID_NAME, INVALID_URL or a thrown TypeError, and every value it
      passes on is trimmed, a name is never empty and a website is a URL. */
  function CollectUpdate(body: Json, isUrl: string -> bool): (r: Step<ProfileUpdate>)
    ensures r.Abort? ==> r.code in {InvalidName, InvalidUrl, InternalError}
    ensures r.Pass? && r.value.name.Some? ==>
      r.value.name.value != "" && Trim(r.value.name.value) == r.value.name.value
    ensures r.Pass? && r.value.website.Put? && r.value.website.value.Some? ==>
      isUrl(r.value.website.value.value) && Trim(r.value.website.value.value) == r.value.website.value.value
  {
    var name :- NameUpdate(body);
    var role :- NullableUpdate(body, "role");
    var location :- NullableUpdate(body, "location");
    var website :- WebsiteUpdate(body, isUrl);
    var bio :- NullableUpdate(body, "bio");
    Pass(ProfileUpdate(name, role, location, website, bio))
  }

  function AssignTo(a: Assign, current: Option<string>): Option<string> {
    match a
    case Keep => current
    case Put(v) => v
  }

  /** The row after `db.update(user).set(updates)`. */
  function Apply(rec: UserRecord, u: ProfileUpdate, now: int): (r: UserRecord)
    ensures r.id == rec.id && r.email == rec.email && r.updatedAt == now
  {
    rec.(
      name := if u.name.Some? then u.name.value else rec.name,
      role := AssignTo(u.role, rec.role),
      location := AssignTo(u.location, rec.location),
      website := AssignTo(u.website, rec.website),
      bio := AssignTo(u.bio, rec.bio),
      updatedAt := now)
  }

  /** The response together with the store as it stands afterwards. */
  datatype Outcome = Outcome(response: Response, store: Store)

  /** PATCH /api/profile. `now` is the clock reading taken for `updatedAt`. */
  function Patch(session: Session, body: Body, store: Store, now: int, isUrl: string -> bool): (r: Outcome)
    ensures r.response.Failed? ==> r.store == store
    ensures session.NoUser? ==> r.response == Failed(Unauthorized)
    ensures session.SessionError? ==> r.response == Failed(CaughtByPatch(session.thrown))
    ensures session.SignedIn? && body.Malformed? ==> r.response == Failed(CaughtByPatch(body.thrown))
    ensures r.store.rows.Keys == store.rows.Keys && r.store.fault == store.fault
    ensures r.response.Ok? ==>
      && session.SignedIn? && store.available && session.userId in store.rows
      && r.response.record.id == store.rows[session.userId].id
      && r.response.record.email == store.rows[session.userId].email
      && r.response.record.updatedAt == now
      && r.store.rows == store.rows[session.userId := r.response.record]
  {
    match session
    case SessionError(e) => Outcome(Failed(CaughtByPatch(e)), store)
    case NoUser => Outcome(Failed(Unauthorized), store)
    case SignedIn(id) =>
      match body
      case Malformed(e) => Outcome(Failed(CaughtByPatch(e)), store)
      case Parsed(json) =>
        match CollectUpdate(json, isUrl)
        case Abort(code) => Outcome(Failed(code), store)
        case Pass(u) =>
          if u.IsEmpty() then Outcome(Failed(NoFieldsProvided), store)
          else if !store.available then Outcome(Failed(CaughtByPatch(store.fault.value)), store)
          else if id !in store.rows then Outcome(Failed(UserNotFound), store)
          else
            var rec := Apply(store.rows[id], u, now);
            Outcome(Ok(rec), store.(rows := store.rows[id := rec]))
  }
}

/** Properties of the profile endpoint, stated over request bodies that are JSON objects
    (the only bodies with fields to update). */
module ProfileApiProperties {
  import opened Options
  import opened JsString
  import opened ProfileApi

  /** The body keys PATCH recognises, in the order it checks them. */
  const AllowedKeys: seq<string> := ["name", "role", "location", "website", "bio"]

  /** The stored value of the column a body key updates. */
  function Column(rec: UserRecord, key: string): Option<string> {
    if key == "name" then Some(rec.name)
    else if key == "role" then rec.role
    else if key == "location" then rec.location
    else if key == "website" then rec.website
    else if key == "bio" then rec.bio
    else None
  }

  /** What a present string field is stored as: the trimmed text, with an empty optional
      field stored as null. */
  function Normalised(key: string, s: string): Option<string> {
    if key == "name" then Some(Trim(s)) else OrNull(Trim(s))
  }

  /** A recognised field that passes validation, or is absent: it is a string, a name is
      not blank, and a non-blank website parses as a URL. */
  predicate FieldAcceptable(m: map<string, Json>, k: string, isUrl: string -> bool) {
    k in m ==>
      && m[k].JString?
      && (k == "name" ==> !IsBlank(m[k].s))
      && (k == "website" && !IsBlank(m[k].s) ==> isUrl(Trim(m[k].s)))
  }

  predicate AcceptableFields(m: map<string, Json>, isUrl: string -> bool) {
    forall k :: k in AllowedKeys ==> FieldAcceptable(m, k, isUrl)
  }

  predicate HasAllowedKey(m: map<string, Json>) {
    exists k :: k in AllowedKeys && k in m
  }

  lemma AllowedKeysListed(m: map<string, Json>, isUrl: string -> bool)
    ensures AcceptableFields(m, isUrl) <==>
      && FieldAcceptable(m, "name", isUrl) && FieldAcceptable(m, "role", isUrl)
      && FieldAcceptable(m, "location", isUrl) && FieldAcceptable(m, "website", isUrl)
      && FieldAcceptable(m, "bio", isUrl)
    ensures HasAllowedKey(m) <==>
      "name" in m || "role" in m || "location" in m || "website" in m || "bio" in m
  {
    assert AllowedKeys[0] == "name" && AllowedKeys[1] == "role" && AllowedKeys[2] == "location";
    assert AllowedKeys[3] == "website" && AllowedKeys[4] == "bio";
  }

  /** The assignment an accepted body makes to the column of key `k`. */
  function Assigned(m: map<string, Json>, k: string): Assign {
    if k in m && m[k].JString? then Put(Normalised(k, m[k].s)) else Keep
  }

  /** The update set an accepted object body yields. */
  function ExpectedUpdate(m: map<string, Json>): ProfileUpdate {
    ProfileUpdate(
      if "name" in m && m["name"].JString? then Some(Trim(m["name"].s)) else None,
      Assigned(m, "role"), Assigned(m, "location"), Assigned(m, "website"), Assigned(m, "bio"))
  }

  /** How one nullable field of an object body is turned into an assignment. */
  lemma NullableUpdateOfObject(m: map<string, Json>, key: string)
    ensures key !in m ==> NullableUpdate(JObject(m), key) == Pass(Keep)
    ensures key in m && m[key].JString? ==> NullableUpdate(JObject(m), key) == Pass(Put(OrNull(Trim(m[key].s))))
    ensures key in m && !m[key].JString? ==> NullableUpdate(JObject(m), key) == Abort(InternalError)
  {
  }

  lemma WebsiteUpdateOfObject(m: map<string, Json>, isUrl: string -> bool)
    ensures "website" !in m ==> WebsiteUpdate(JObject(m), isUrl) == Pass(Keep)
    ensures "website" in m && m["website"].JString? && IsBlank(m["website"].s) ==>
      WebsiteUpdate(JObject(m), isUrl) == Pass(Put(None))
    ensures "website" in m && m["website"].JString? && !IsBlank(m["website"].s) ==>
      WebsiteUpdate(JObject(m), isUrl) ==
        if isUrl(Trim(m["website"].s)) then Pass(Put(Some(Trim(m["website"].s)))) else Abort(InvalidUrl)
    ensures "website" in m && !m["website"].JString? ==> WebsiteUpdate(JObject(m), isUrl) == Abort(InternalError)
  {
  }

  lemma NameUpdateOfObject(m: map<string, Json>)
    ensures "name" !in m ==> NameUpdate(JObject(m)) == Pass(None)
    ensures "name" in m && m["name"].JString? ==>
      NameUpdate(JObject(m)) == if IsBlank(m["name"].s) then Abort(InvalidName) else Pass(Some(Trim(m["name"].s)))
    ensures "name" in m && !m["name"].JString? ==> NameUpdate(JObject(m)) == Abort(InternalError)
  {
  }

  /** Validation of an object body passes exactly when every recognised field is
      acceptable, and then yields the expected update set. */
  lemma CollectUpdateOfObject(m: map<string, Json>, isUrl: string -> bool)
    ensures CollectUpdate(JObject(m), isUrl).Pass? <==> AcceptableFields(m, isUrl)
    ensures CollectUpdate(JObject(m), isUrl).Pass? ==> CollectUpdate(JObject(m), isUrl).value == ExpectedUpdate(m)
  {
    var body := JObject(m);
    AllowedKeysListed(m, isUrl);
    NameUpdateOfObject(m);
    NullableUpdateOfObject(m, "role");
    NullableUpdateOfObject(m, "location");
    WebsiteUpdateOfObject(m, isUrl);
    NullableUpdateOfObject(m, "bio");
    if NameUpdate(body).Abort? {
      assert !FieldAcceptable(m, "name", isUrl);
    } else if NullableUpdate(body, "role").Abort? {
      assert !FieldAcceptable(m, "role", isUrl);
    } else if NullableUpdate(body, "location").Abort? {
      assert !FieldAcceptable(m, "location", isUrl);
    } else if WebsiteUpdate(body, isUrl).Abort? {
      assert !FieldAcceptable(m, "website", isUrl);
    } else if NullableUpdate(body, "bio").Abort? {
      assert !FieldAcceptable(m, "bio", isUrl);
    } else {
      assert CollectUpdate(body, isUrl) == Pass(ProfileUpdate(
        NameUpdate(body).value, NullableUpdate(body, "role").value, NullableUpdate(body, "location").value,
        WebsiteUpdate(body, isUrl).value, NullableUpdate(body, "bio").value));
    }
  }

  /** A present name that trims to empty is rejected with INVALID_NAME before anything else
      is looked at, whatever the other fields hold, and nothing is written. */
  lemma PatchRejectsBlankName(id: UserId, m: map<string, Json>, store: Store, now: int, isUrl: string -> bool)
    requires "name" in m && m["name"].JString? && IsBlank(m["name"].s)
    ensures Patch(SignedIn(id), Parsed(JObject(m)), store, now, isUrl) == Outcome(Failed(InvalidName), store)
  {
    NameUpdateOfObject(m);
  }

  /** A present website that trims to a non-URL is rejected with INVALID_URL, with nothing
      written, once the fields checked before it are acceptable. */
  lemma PatchRejectsBadWebsite(id: UserId, m: map<string, Json>, store: Store, now: int, isUrl: string -> bool)
    requires "website" in m && m["website"].JString?
    requires !IsBlank(m["website"].s) && !isUrl(Trim(m["website"].s))
    requires "name" in m ==> m["name"].JString? && !IsBlank(m["name"].s)
    requires "role" in m ==> m["role"].JString?
    requires "location" in m ==> m["location"].JString?
    ensures Patch(SignedIn(id), Parsed(JObject(m)), store, now, isUrl) == Outcome(Failed(InvalidUrl), store)
  {
    NameUpdateOfObject(m);
    NullableUpdateOfObject(m, "role");
    NullableUpdateOfObject(m, "location");
    WebsiteUpdateOfObject(m, isUrl);
  }

  /** A body with none of the five recognised keys (an empty object, an object of unknown
      keys, or a JSON value that is not an object and not null) is answered with
      NO_FIELDS_PROVIDED and nothing is written. */
  lemma PatchWithoutFields(id: UserId, json: Json, store: Store, now: int, isUrl: string -> bool)
    requires !json.JNull?
    requires json.JObject? ==> !HasAllowedKey(json.members)
    ensures Patch(SignedIn(id), Parsed(json), store, now, isUrl) == Outcome(Failed(NoFieldsProvided), store)
  {
    if json.JObject? {
      var m := json.members;
      assert AllowedKeys[0] !in m && AllowedKeys[1] !in m && AllowedKeys[2] !in m;
      assert AllowedKeys[3] !in m && AllowedKeys[4] !in m;
      NameUpdateOfObject(m);
      NullableUpdateOfObject(m, "role");
      NullableUpdateOfObject(m, "location");
      WebsiteUpdateOfObject(m, isUrl);
      NullableUpdateOfObject(m, "bio");
    }
  }

  /** The first recognised field present in the body that is not a string makes `trim`
      throw, which surfaces as INTERNAL_ERROR with nothing written; so does a body of
      JSON `null`. */
  lemma PatchNonStringField(id: UserId, m: map<string, Json>, k: nat, store: Store, now: int, isUrl: string -> bool)
    requires k < |AllowedKeys|
    requires forall j :: 0 <= j < k ==> AllowedKeys[j] in m ==> m[AllowedKeys[j]].JString?
    requires "name" in m && 0 < k ==> m["name"].JString? && !IsBlank(m["name"].s)
    requires "website" in m && 3 < k ==> m["website"].JString? && (!IsBlank(m["website"].s) ==> isUrl(Trim(m["website"].s)))
    requires AllowedKeys[k] in m && !m[AllowedKeys[k]].JString?
    ensures Patch(SignedIn(id), Parsed(JObject(m)), store, now, isUrl) == Outcome(Failed(InternalError), store)
    ensures Patch(SignedIn(id), Parsed(JNull), store, now, isUrl) == Outcome(Failed(InternalError), store)
  {
    NameUpdateOfObject(m);
    NullableUpdateOfObject(m, "role");
    NullableUpdateOfObject(m, "location");
    WebsiteUpdateOfObject(m, isUrl);
    NullableUpdateOfObject(m, "bio");
    if k > 0 { assert AllowedKeys[0] == "name"; }
    if k > 1 { assert AllowedKeys[1] == "role"; }
    if k > 2 { assert AllowedKeys[2] == "location"; }
    if k > 3 { assert AllowedKeys[3] == "website"; }
  }

  /** PATCH on an object body succeeds exactly when the store is reachable, the caller's row
      exists, some recognised field is present and every present one is acceptable; the
      row then holds the normalised value of every present field and its old value for
      every absent one, with `updatedAt` set to the clock reading. */
  lemma PatchSucceedsExactly(id: UserId, m: map<string, Json>, store: Store, now: int, isUrl: string -> bool)
    ensures Patch(SignedIn(id), Parsed(JObject(m)), store, now, isUrl).response.Ok? <==>
      store.available && id in store.rows && HasAllowedKey(m) && AcceptableFields(m, isUrl)
    ensures Patch(SignedIn(id), Parsed(JObject(m)), store, now, isUrl).response.Ok? ==>
      var before := store.rows[id];
      var after := Patch(SignedIn(id), Parsed(JObject(m)), store, now, isUrl).response.record;
      && after.id == before.id && after.email == before.email && after.updatedAt == now
      && forall k :: k in AllowedKeys ==>
           Column(after, k) == if k in m then Normalised(k, m[k].s) else Column(before, k)
  {
    var r := Patch(SignedIn(id), Parsed(JObject(m)), store, now, isUrl);
    var c := CollectUpdate(JObject(m), isUrl);
    CollectUpdateOfObject(m, isUrl);
    AllowedKeysListed(m, isUrl);
    if c.Pass? {
      assert c.value.IsEmpty() <==> !HasAllowedKey(m);
    }
    if r.response.Ok? {
      var before := store.rows[id];
      var after := r.response.record;
      assert after == Apply(before, ExpectedUpdate(m), now);
      forall k | k in AllowedKeys
        ensures Column(after, k) == if k in m then Normalised(k, m[k].s) else Column(before, k)
      {
        assert k == "name" || k == "role" || k == "location" || k == "website" || k == "bio";
      }
    }
  }

  /** An accepted update that reaches the store but matches no row is answered with
      USER_NOT_FOUND; a store that throws gives what PATCH's catch block makes of the
      exception: INVALID_JSON for a SyntaxError, INTERNAL_ERROR otherwise. Nothing is written. */
  lemma PatchStoreFailures(id: UserId, m: map<string, Json>, store: Store, now: int, isUrl: string -> bool)
    requires HasAllowedKey(m) && AcceptableFields(m, isUrl)
    ensures !store.available ==>
      Patch(SignedIn(id), Parsed(JObject(m)), store, now, isUrl) ==
        Outcome(Failed(CaughtByPatch(store.fault.value)), store)
    ensures store.available && id !in store.rows ==>
      Patch(SignedIn(id), Parsed(JObject(m)), store, now, isUrl) == Outcome(Failed(UserNotFound), store)
  {
    CollectUpdateOfObject(m, isUrl);
    AllowedKeysListed(m, isUrl);
    assert !CollectUpdate(JObject(m), isUrl).value.IsEmpty();
  }

  /** The two catch blocks part ways on a SyntaxError: thrown by the session lookup, GET
      answers INTERNAL_ERROR and PATCH answers INVALID_JSON, though the body was never read;
      thrown by the database on an accepted update, PATCH answers INVALID_JSON too. */
  lemma SyntaxErrorOutsideBodyParse(body: Body, id: UserId, m: map<string, Json>, store: Store, now: int,
                                    isUrl: string -> bool)
    ensures Get(SessionError(SyntaxError), store) == Failed(InternalError)
    ensures Patch(SessionError(SyntaxError), body, store, now, isUrl).response == Failed(InvalidJson)
    ensures HasAllowedKey(m) && AcceptableFields(m, isUrl) && store.fault == Some(SyntaxError) ==>
      Patch(SignedIn(id), Parsed(JObject(m)), store, now, isUrl).response == Failed(InvalidJson)
  {
    if HasAllowedKey(m) && AcceptableFields(m, isUrl) && store.fault == Some(SyntaxError) {
      PatchStoreFailures(id, m, store, now, isUrl);
    }
  }

  /** Only an object body can lead to a successful PATCH. */
  lemma PatchNeedsObjectBody(session: Session, body: Body, store: Store, now: int, isUrl: string -> bool)
    ensures Patch(session, body, store, now, isUrl).response.Ok? ==> body.Parsed? && body.json.JObject?
  {
    if session.SignedIn? && body.Parsed? && !body.json.JObject? && !body.json.JNull? {
      PatchWithoutFields(session.userId, body.json, store, now, isUrl);
    }
  }

  /** GET after a successful PATCH returns exactly the row the PATCH wrote. */
  lemma GetAfterPatch(session: Session, body: Body, store: Store, now: int, isUrl: string -> bool)
    requires Patch(session, body, store, now, isUrl).response.Ok?
    ensures Get(session, Patch(session, body, store, now, isUrl).store) ==
      Patch(session, body, store, now, isUrl).response
  {
  }

  /** Sending the same accepted body twice leaves the same field values; only `updatedAt`
      moves to the second clock reading. */
  lemma PatchTwice(session: Session, body: Body, store: Store, t1: int, t2: int, isUrl: string -> bool)
    requires Patch(session, body, store, t1, isUrl).response.Ok?
    ensures
      var first := Patch(session, body, store, t1, isUrl);
      var second := Patch(session, body, first.store, t2, isUrl);
      second.response == Ok(first.response.record.(updatedAt := t2))
  {
  }

  /** The invariants of a stored profile: the name is non-blank, and a website is a trimmed
      string that parses as a URL. */
  predicate WellFormed(rec: UserRecord, isUrl: string -> bool) {
    && !IsBlank(rec.name)
    && (rec.website.Some? ==> Trim(rec.website.value) == rec.website.value && isUrl(rec.website.value))
  }

  /** PATCH keeps every row of the store well formed. */
  lemma PatchPreservesWellFormed(session: Session, body: Body, store: Store, now: int, isUrl: string -> bool)
    requires forall id :: id in store.rows ==> WellFormed(store.rows[id], isUrl)
    ensures
      var after := Patch(session, body, store, now, isUrl).store;
      forall id :: id in after.rows ==> WellFormed(after.rows[id], isUrl)
  {
    var r := Patch(session, body, store, now, isUrl);
    if r.response.Ok? {
      var id := session.userId;
      var before := store.rows[id];
      var u := CollectUpdate(body.json, isUrl).value;
      var after := Apply(before, u, now);
      assert r.store.rows == store.rows[id := after];
      if u.name.Some? {
        assert Trim(after.name) == after.name != "";
      }
      assert WellFormed(after, isUrl);
    }
  }
}
