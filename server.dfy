/**
 * The FastAPI back end: its MongoDB collections and the handlers that read
 * and change them.
 *
 * Handlers that change a collection are methods of `Database`; those that
 * only read are functions of the collections they read. Each handler is
 * modelled from the point where its `Depends(get_current_user)` has produced
 * the caller (`CurrentUser`), whose `_id` it receives as `caller`. What the
 * handlers take from outside the model is passed in: fresh `uuid4` ids,
 * `datetime.utcnow().isoformat()` readings, bcrypt's `hash_password` result
 * and `verify_password`, and the outcome of `jwt.decode`.
 */
module Server {
  import opened Wrappers
  import opened Documents
  import Base64
  import Sorting

  datatype HttpError = HttpError(status: nat, detail: string)

  /** An access token of `create_access_token`, reduced to its `sub` claim. */
  datatype Token = Token(sub: Value)

  /** What `HTTPBearer` and `jwt.decode` made of the request's credentials. */
  datatype Credentials =
    | NoBearer                  // no `Authorization: Bearer` header
    | Expired                   // jwt.ExpiredSignatureError
    | Malformed                 // any other jwt.JWTError
    | Claims(sub: Option<Value>)

  // ---------------------------------------------------------------------
  // Request bodies (pydantic models); `.dict()` lists every field, None included
  // ---------------------------------------------------------------------

  function OptStr(o: Option<string>): Value {
    if o.Some? then Str(o.value) else Null
  }

  function OptInt(o: Option<int>): Value {
    if o.Some? then Int(o.value) else Null
  }

  function OptBool(o: Option<bool>): Value {
    if o.Some? then Bool(o.value) else Null
  }

  datatype UserUpdate = UserUpdate(fullName: Option<string>, avatarUrl: Option<string>) {
    function AsDict(): Doc {
      map["full_name" := OptStr(fullName), "avatar_url" := OptStr(avatarUrl)]
    }
  }

  datatype ChatUpdate = ChatUpdate(
    contactName: Option<string>, lastMessage: Option<string>, time: Option<string>,
    unreadCount: Option<int>, isOnline: Option<bool>)
  {
    function AsDict(): Doc {
      map["contact_name" := OptStr(contactName), "last_message" := OptStr(lastMessage),
          "time" := OptStr(time), "unread_count" := OptInt(unreadCount),
          "is_online" := OptBool(isOnline)]
    }
  }

  datatype TaskUpdate = TaskUpdate(
    title: Option<string>, description: Option<string>, status: Option<string>,
    startTime: Option<string>, endTime: Option<string>, duration: Option<int>)
  {
    function AsDict(): Doc {
      map["title" := OptStr(title), "description" := OptStr(description),
          "status" := OptStr(status), "start_time" := OptStr(startTime),
          "end_time" := OptStr(endTime), "duration" := OptInt(duration)]
    }
  }

  datatype OrderItem = OrderItem(productName: string, quantity: int)

  /** OrderCreate; `status` defaults to "processing". `total_items` is stored
      as sent, not checked against the items. */
  datatype OrderCreate = OrderCreate(orderNumber: string, status: Option<string>,
                                     items: seq<OrderItem>, totalItems: int)

  /** `item.dict()`. */
  function ItemValue(item: OrderItem): Value {
    Obj(map["product_name" := Str(item.productName), "quantity" := Int(item.quantity)])
  }

  function ItemsValue(items: seq<OrderItem>): (v: Value)
    ensures v.Arr? && |v.elems| == |items|
    ensures forall i :: 0 <= i < |items| ==> v.elems[i] == ItemValue(items[i])
  {
    Arr(seq(|items|, i requires 0 <= i < |items| => ItemValue(items[i])))
  }

  // ---------------------------------------------------------------------
  // Queries and the store invariant
  // ---------------------------------------------------------------------

  function IdQuery(id: Value): Query { map["_id" := id] }

  function OwnerQuery(caller: Value): Query { map["user_id" := caller] }

  /** `{"_id": id, "user_id": caller}`: the ownership-guarded update filter. */
  function OwnedQuery(id: Value, caller: Value): Query { map["_id" := id, "user_id" := caller] }

  function EmailQuery(email: string): Query { map["email" := Str(email)] }

  /** Every document has an `_id`, and no two share one (MongoDB's unique
      `_id` index). */
  ghost predicate UniqueIds(docs: seq<Doc>) {
    && (forall i :: 0 <= i < |docs| ==> "_id" in docs[i])
    && (forall i, j :: 0 <= i < |docs| && 0 <= j < |docs| && i != j ==> docs[i]["_id"] != docs[j]["_id"])
  }

  /** No document has `_id` equal to `id`: what a fresh `uuid4` gives. */
  predicate IdFree(docs: seq<Doc>, id: string) {
    forall i :: 0 <= i < |docs| ==> "_id" !in docs[i] || docs[i]["_id"] != Str(id)
  }

  lemma AppendKeepsUniqueIds(docs: seq<Doc>, d: Doc, id: string)
    requires UniqueIds(docs) && IdFree(docs, id) && "_id" in d && d["_id"] == Str(id)
    ensures UniqueIds(docs + [d])
  {
  }

  // ---------------------------------------------------------------------
  // Documents the handlers insert
  // ---------------------------------------------------------------------

  function NewUserDoc(id: string, email: string, passwordHash: string, fullName: string, now: string): Doc {
    map["_id" := Str(id), "email" := Str(email), "password" := Str(passwordHash),
        "full_name" := Str(fullName), "avatar_url" := Null, "created_date" := Str(now)]
  }

  function NewChatDoc(id: string, caller: Value, contactName: string, isOnline: bool, now: string): Doc {
    map["_id" := Str(id), "user_id" := caller, "contact_name" := Str(contactName),
        "is_online" := Bool(isOnline), "last_message" := Str(""), "time" := Str(""),
        "unread_count" := Int(0), "created_date" := Str(now)]
  }

  /** The served new chat: its `id`, owner, name and presence as given, an
      empty last message and time, and no unread messages. */
  lemma NewChatServed(id: string, caller: Value, contactName: string, isOnline: bool, now: string)
    ensures var r := Serialize(NewChatDoc(id, caller, contactName, isOnline, now));
      && "id" in r && r["id"] == Str(id) && "_id" !in r
      && "user_id" in r && r["user_id"] == caller
      && "contact_name" in r && r["contact_name"] == Str(contactName)
      && "is_online" in r && r["is_online"] == Bool(isOnline)
      && "last_message" in r && r["last_message"] == Str("")
      && "time" in r && r["time"] == Str("")
      && "unread_count" in r && r["unread_count"] == Int(0)
  {
    var d := NewChatDoc(id, caller, contactName, isOnline, now);
    assert "_id" in d && d["_id"] == Str(id);
    assert d["user_id"] == caller && d["contact_name"] == Str(contactName) && d["is_online"] == Bool(isOnline);
    assert d["last_message"] == Str("") && d["time"] == Str("") && d["unread_count"] == Int(0);
  }

  /** TaskCreate's `status` defaults to "pending" when the body leaves it out. */
  function NewTaskDoc(id: string, caller: Value, title: string, description: Option<string>,
                      status: Option<string>, now: string): Doc
  {
    map["_id" := Str(id), "user_id" := caller, "title" := Str(title),
        "description" := OptStr(description),
        "status" := Str(if status.Some? then status.value else "pending"),
        "start_time" := Null, "end_time" := Null, "duration" := Int(0),
        "created_date" := Str(now)]
  }

  /** The served new task: its `id` and owner as given, not started, with
      duration 0, and "pending" when no status was sent. */
  lemma NewTaskServed(id: string, caller: Value, title: string, description: Option<string>,
                      status: Option<string>, now: string)
    ensures var r := Serialize(NewTaskDoc(id, caller, title, description, status, now));
      && "id" in r && r["id"] == Str(id) && "_id" !in r
      && "user_id" in r && r["user_id"] == caller
      && "title" in r && r["title"] == Str(title)
      && "start_time" in r && r["start_time"] == Null
      && "end_time" in r && r["end_time"] == Null
      && "duration" in r && r["duration"] == Int(0)
      && "status" in r && r["status"] == Str(if status.Some? then status.value else "pending")
  {
    var d := NewTaskDoc(id, caller, title, description, status, now);
    assert "_id" in d && d["_id"] == Str(id);
    assert d["user_id"] == caller && d["title"] == Str(title);
    assert d["start_time"] == Null && d["end_time"] == Null && d["duration"] == Int(0);
    assert d["status"] == Str(if status.Some? then status.value else "pending");
  }

  /** The two `utcnow()` readings of `create_message` are separate clock reads. */
  function NewMessageDoc(id: string, chatId: string, senderName: string, text: string,
                         isOutgoing: bool, imageUrl: Option<string>, stamp: string, created: string): Doc
  {
    map["_id" := Str(id), "chat_id" := Str(chatId), "sender_name" := Str(senderName),
        "text" := Str(text), "is_outgoing" := Bool(isOutgoing), "image_url" := OptStr(imageUrl),
        "timestamp" := Str(stamp), "created_date" := Str(created)]
  }

  function NewOrderDoc(id: string, caller: Value, order: OrderCreate, now: string): Doc {
    map["_id" := Str(id), "user_id" := caller, "order_number" := Str(order.orderNumber),
        "status" := Str(if order.status.Some? then order.status.value else "processing"),
        "items" := ItemsValue(order.items), "total_items" := Int(order.totalItems),
        "created_date" := Str(now)]
  }

  /** The served new order: its `id`, owner, number, items and item count
      as sent, and "processing" when no status was sent. */
  lemma NewOrderServed(id: string, caller: Value, order: OrderCreate, now: string)
    ensures var r := Serialize(NewOrderDoc(id, caller, order, now));
      && "id" in r && r["id"] == Str(id) && "_id" !in r
      && "user_id" in r && r["user_id"] == caller
      && "order_number" in r && r["order_number"] == Str(order.orderNumber)
      && "items" in r && r["items"] == ItemsValue(order.items)
      && "total_items" in r && r["total_items"] == Int(order.totalItems)
      && "status" in r && r["status"] == Str(if order.status.Some? then order.status.value else "processing")
  {
    var d := NewOrderDoc(id, caller, order, now);
    assert "_id" in d && d["_id"] == Str(id);
    assert d["user_id"] == caller && d["order_number"] == Str(order.orderNumber);
    assert d["items"] == ItemsValue(order.items) && d["total_items"] == Int(order.totalItems);
    assert d["status"] == Str(if order.status.Some? then order.status.value else "processing");
  }

  /** SOSCreate's `status` defaults to "sent". */
  function NewSosDoc(id: string, caller: Value, location: Option<string>, status: Option<string>, now: string): Doc {
    map["_id" := Str(id), "user_id" := caller, "location" := OptStr(location),
        "status" := Str(if status.Some? then status.value else "sent"),
        "created_date" := Str(now)]
  }

  /** The served new alert: its `id`, owner and location as given, and
      "sent" when no status was sent. */
  lemma NewSosServed(id: string, caller: Value, location: Option<string>, status: Option<string>, now: string)
    ensures var r := Serialize(NewSosDoc(id, caller, location, status, now));
      && "id" in r && r["id"] == Str(id) && "_id" !in r
      && "user_id" in r && r["user_id"] == caller
      && "location" in r && r["location"] == OptStr(location)
      && "status" in r && r["status"] == Str(if status.Some? then status.value else "sent")
  {
    var d := NewSosDoc(id, caller, location, status, now);
    assert "_id" in d && d["_id"] == Str(id);
    assert d["user_id"] == caller && d["location"] == OptStr(location);
    assert d["status"] == Str(if status.Some? then status.value else "sent");
  }

  function NewFileDoc(id: string, filename: string, contentType: Option<string>,
                      contents: seq<Base64.byte>, caller: Value, now: string): Doc
  {
    map["_id" := Str(id), "filename" := Str(filename), "content_type" := OptStr(contentType),
        "data" := Str(Base64.Encode(contents)), "user_id" := caller, "created_date" := Str(now)]
  }

  // ---------------------------------------------------------------------
  // Partial updates
  // ---------------------------------------------------------------------

  /** A PATCH handler's write: drop the `None` fields, and `$set` the rest on
      the first document matching `q`, unless nothing is left. */
  function ApplyPatch(docs: seq<Doc>, q: Query, update: Doc): (r: seq<Doc>)
    ensures |r| == |docs|
  {
    var data := DropNone(update);
    if data == map[] then docs else UpdateOne(docs, q, data)
  }

  /** A patch writes nothing when every supplied field is `None`; otherwise the
      first matching document gets exactly the fields whose value is not
      `None`, keeps every other field, and every other document is unchanged. */
  lemma PatchFrame(docs: seq<Doc>, q: Query, update: Doc)
    ensures (forall k :: k in update ==> update[k] == Null) ==> ApplyPatch(docs, q, update) == docs
    ensures var r, m := ApplyPatch(docs, q, update), FirstMatch(docs, q);
      && (forall j :: 0 <= j < |docs| && j != m ==> r[j] == docs[j])
      && (m < |docs| ==>
            && r[m].Keys == docs[m].Keys + DropNone(update).Keys
            && (forall k :: k in update && update[k] != Null ==> r[m][k] == update[k])
            && (forall k :: k in docs[m] && (k !in update || update[k] == Null) ==> r[m][k] == docs[m][k]))
  {
    var data := DropNone(update);
    if forall k :: k in update ==> update[k] == Null {
      assert data == map[];
    }
    UpdateOneFrame(docs, q, data);
  }

  /** With unique ids, the document with `_id == id` is the one the
      id-and-owner filter can pick, and only when `caller` owns it. */
  lemma OwnedMatchIsById(docs: seq<Doc>, id: Value, caller: Value)
    requires UniqueIds(docs)
    ensures var k, m := FirstMatch(docs, IdQuery(id)), FirstMatch(docs, OwnedQuery(id, caller));
      && (m < |docs| ==> m == k)
      && (k < |docs| && "user_id" in docs[k] && docs[k]["user_id"] == caller ==> m == k)
  {
    var k, m := FirstMatch(docs, IdQuery(id)), FirstMatch(docs, OwnedQuery(id, caller));
    if m < |docs| {
      assert Matches(docs[m], IdQuery(id));
      assert k <= m;
      assert docs[k]["_id"] == docs[m]["_id"];
    }
    if k < |docs| && "user_id" in docs[k] && docs[k]["user_id"] == caller {
      assert Matches(docs[k], OwnedQuery(id, caller));
    }
  }

  /** Patching the first document with a given `_id` by fields other than
      `_id` keeps it the first one with that `_id`. */
  lemma PatchKeepsFirstById(docs: seq<Doc>, id: Value, data: Doc)
    requires FirstMatch(docs, IdQuery(id)) < |docs| && "_id" !in data
    ensures var m := FirstMatch(docs, IdQuery(id));
      FirstMatch(docs[m := SetFields(docs[m], data)], IdQuery(id)) == m
  {
    var m := FirstMatch(docs, IdQuery(id));
    var r := docs[m := SetFields(docs[m], data)];
    assert r[m]["_id"] == docs[m]["_id"];
    assert Matches(r[m], IdQuery(id));
    assert forall j :: 0 <= j < m ==> r[j] == docs[j];
    FirstMatchIs(r, IdQuery(id), m);
  }

  /** The guarded update of `update_chat`/`update_task`: a caller who does not
      own the document with that id changes nothing and gets that document
      back as it was; the owner gets it with the patch applied. */
  lemma GuardedPatchResponse(docs: seq<Doc>, id: Value, caller: Value, update: Doc)
    requires UniqueIds(docs) && "_id" !in update
    ensures var before, after := FindOne(docs, IdQuery(id)), FindOne(ApplyPatch(docs, OwnedQuery(id, caller), update), IdQuery(id));
      && (before.None? ==> ApplyPatch(docs, OwnedQuery(id, caller), update) == docs && after.None?)
      && (before.Some? && ("user_id" !in before.value || before.value["user_id"] != caller) ==>
            ApplyPatch(docs, OwnedQuery(id, caller), update) == docs && after == before)
      && (before.Some? && "user_id" in before.value && before.value["user_id"] == caller ==>
            after == Some(SetFields(before.value, DropNone(update))))
  {
    var q := OwnedQuery(id, caller);
    var k, m := FirstMatch(docs, IdQuery(id)), FirstMatch(docs, q);
    OwnedMatchIsById(docs, id, caller);
    var data := DropNone(update);
    var r := ApplyPatch(docs, q, update);
    if m == |docs| {
      assert r == docs;
    } else {
      assert m == k;
      assert "user_id" in q && q["user_id"] == caller;
      assert "user_id" in docs[m] && docs[m]["user_id"] == caller;
      if data != map[] {
        assert r == docs[m := SetFields(docs[m], data)];
        PatchKeepsFirstById(docs, id, data);
      } else {
        assert SetFields(docs[k], data) == docs[k];
      }
    }
  }

  /** `FirstMatch` is `m` when `docs[m]` matches and no earlier one does. */
  lemma {:induction false} FirstMatchIs(docs: seq<Doc>, q: Query, m: nat)
    requires m < |docs| && Matches(docs[m], q)
    requires forall j :: 0 <= j < m ==> !Matches(docs[j], q)
    ensures FirstMatch(docs, q) == m
  {
    if m > 0 { FirstMatchIs(docs[1..], q, m - 1); }
  }

  // ---------------------------------------------------------------------
  // get_current_user, login, get_me
  // ---------------------------------------------------------------------

  /** `get_current_user`: the caller's user document, with `id` set to its
      `_id`, or the 401 (403 without a bearer header) FastAPI answers with. */
  function CurrentUser(users: seq<Doc>, cred: Credentials): (r: Result<Doc, HttpError>)
    ensures r.Ok? <==> cred.Claims? && cred.sub.Some? && FindOne(users, IdQuery(cred.sub.value)).Some?
    ensures r.Ok? ==> var u := FindOne(users, IdQuery(cred.sub.value)).value;
      "_id" in u && r.value == u["id" := u["_id"]]
    ensures r.Err? ==> r.error.status == (if cred.NoBearer? then 403 else 401)
  {
    match cred
    case NoBearer => Err(HttpError(403, "Not authenticated"))
    case Expired => Err(HttpError(401, "Token expired"))
    case Malformed => Err(HttpError(401, "Invalid token"))
    case Claims(None) => Err(HttpError(401, "Invalid token"))
    case Claims(Some(sub)) =>
      var k := FirstMatch(users, IdQuery(sub));
      if k < |users| then
        assert "_id" in IdQuery(sub);
        Ok(users[k]["id" := users[k]["_id"]])
      else Err(HttpError(401, "User not found"))
  }

  /** `login`: 401 unless a user has the email and the password verifies
      against its stored hash; the token's subject is that user's `_id`. A
      stored user without `password` makes the handler fail with 500. */
  function Login(users: seq<Doc>, email: string, password: string, verify: (string, Value) -> bool)
    : (r: Result<Token, HttpError>)
    ensures FindOne(users, EmailQuery(email)).None? ==> r == Err(HttpError(401, "Invalid credentials"))
    ensures r.Ok? <==> (
      && FindOne(users, EmailQuery(email)).Some?
      && var u := FindOne(users, EmailQuery(email)).value;
         "password" in u && verify(password, u["password"]) && "_id" in u)
    ensures r.Ok? ==> r.value == Token(FindOne(users, EmailQuery(email)).value["_id"])
    ensures r.Err? ==> r.error.status in {401, 500}
  {
    match FindOne(users, EmailQuery(email))
    case None => Err(HttpError(401, "Invalid credentials"))
    case Some(u) =>
      if "password" !in u then Err(HttpError(500, "Internal Server Error"))
      else if !verify(password, u["password"]) then Err(HttpError(401, "Invalid credentials"))
      else if "_id" !in u then Err(HttpError(500, "Internal Server Error"))
      else Ok(Token(u["_id"]))
  }

  /** `get_me`: the serialized caller document, as stored. */
  function Me(users: seq<Doc>, cred: Credentials): Result<Doc, HttpError> {
    match CurrentUser(users, cred)
    case Err(e) => Err(e)
    case Ok(u) => Ok(Serialize(u))
  }

  /** `get_me` as written hands the stored bcrypt hash back to the client:
      right after registering, the profile holds the `password` field. */
  lemma MeRevealsPasswordHash(id: string, email: string, passwordHash: string, fullName: string, now: string)
    ensures var users := [NewUserDoc(id, email, passwordHash, fullName, now)];
      && Me(users, Claims(Some(Str(id)))).Ok?
      && "password" in Me(users, Claims(Some(Str(id)))).value
      && Me(users, Claims(Some(Str(id)))).value["password"] == Str(passwordHash)
  {
    var users := [NewUserDoc(id, email, passwordHash, fullName, now)];
    assert Matches(users[0], IdQuery(Str(id)));
  }

  /** The profile a client should get: `get_me`'s document without the
      password hash. */
  function PublicMe(users: seq<Doc>, cred: Credentials): (r: Result<Doc, HttpError>)
    ensures r.Ok? ==> "password" !in r.value
    ensures r.Ok? <==> Me(users, cred).Ok?
    ensures r.Ok? ==> forall k :: k in Me(users, cred).value && k != "password" ==>
      k in r.value && r.value[k] == Me(users, cred).value[k]
  {
    match Me(users, cred)
    case Err(e) => Err(e)
    case Ok(u) => Ok(u - {"password"})
  }

  // ---------------------------------------------------------------------
  // Registration and login together
  // ---------------------------------------------------------------------

  /** Once an email is registered, logging in with it succeeds exactly when
      the password verifies against the stored hash, and yields the new id. */
  lemma LoginAfterRegister(users: seq<Doc>, id: string, email: string, passwordHash: string,
                           fullName: string, now: string, password: string, verify: (string, Value) -> bool)
    requires FindOne(users, EmailQuery(email)).None?
    ensures var after := users + [NewUserDoc(id, email, passwordHash, fullName, now)];
      Login(after, email, password, verify)
        == if verify(password, Str(passwordHash)) then Ok(Token(Str(id)))
           else Err(HttpError(401, "Invalid credentials"))
  {
    var d := NewUserDoc(id, email, passwordHash, fullName, now);
    var after := users + [d];
    FindOneSpec(users, EmailQuery(email));
    assert Matches(d, EmailQuery(email));
    assert forall j :: 0 <= j < |users| ==> after[j] == users[j];
    FirstMatchIs(after, EmailQuery(email), |users|);
  }

  /** A second registration with the same email is rejected. */
  lemma RegisteredEmailTaken(users: seq<Doc>, id: string, email: string, passwordHash: string,
                             fullName: string, now: string)
    ensures FindOne(users + [NewUserDoc(id, email, passwordHash, fullName, now)], EmailQuery(email)).Some?
  {
    var after := users + [NewUserDoc(id, email, passwordHash, fullName, now)];
    assert Matches(after[|users|], EmailQuery(email));
    FindOneSpec(after, EmailQuery(email));
  }

  // ---------------------------------------------------------------------
  // List queries
  // ---------------------------------------------------------------------

  function SerializeAll(docs: seq<Doc>): (r: seq<Doc>)
    ensures |r| == |docs|
    ensures forall i :: 0 <= i < |r| ==> r[i] == Serialize(docs[i])
  {
    seq(|docs|, i requires 0 <= i < |docs| => Serialize(docs[i]))
  }

  /** `list_chats`, `list_tasks`, `list_orders`, `list_sos`: the caller's
      documents, newest `created_date` first, at most 100, serialized. */
  function ListOwned(docs: seq<Doc>, caller: Value): (r: seq<Doc>)
    ensures |r| == (if |Find(docs, OwnerQuery(caller))| < 100 then |Find(docs, OwnerQuery(caller))| else 100)
    ensures forall i :: 0 <= i < |r| ==> "user_id" in r[i] && r[i]["user_id"] == caller
    ensures forall i :: 0 <= i < |r| ==> "_id" !in r[i]
    ensures r == SerializeAll(Select(docs, OwnerQuery(caller), false, 100))
    ensures Sorting.Sorted(Select(docs, OwnerQuery(caller), false, 100), Order(false))
  {
    var q := OwnerQuery(caller);
    SerializedSelection(docs, q, false, 100);
    assert "user_id" in q && q["user_id"] == caller;
    SerializeAll(Select(docs, q, false, 100))
  }

  /** A serialized listing under an equality filter on fields other than
      `_id` and `id`: as many documents as `Find` and the limit allow, each
      still matching the filter and without `_id`, in sort order. */
  lemma SerializedSelection(docs: seq<Doc>, q: Query, ascending: bool, limit: nat)
    requires "_id" !in q && "id" !in q
    ensures var s := Select(docs, q, ascending, limit);
      && |SerializeAll(s)| == (if |Find(docs, q)| < limit then |Find(docs, q)| else limit)
      && (forall i :: 0 <= i < |s| ==> Matches(SerializeAll(s)[i], q) && "_id" !in SerializeAll(s)[i])
      && Sorting.Sorted(s, Order(ascending))
  {
    var s := Select(docs, q, ascending, limit);
    SelectFromMatches(docs, q, ascending, limit);
    SelectOrdered(docs, q, ascending, limit);
    SelectionMatches(s, q);
  }

  /** Serializing documents that match an equality filter on fields other
      than `_id` and `id` keeps them matching it. */
  lemma SelectionMatches(s: seq<Doc>, q: Query)
    requires forall d :: d in s ==> Matches(d, q)
    requires "_id" !in q && "id" !in q
    ensures forall i :: 0 <= i < |s| ==> Matches(Serialize(s[i]), q) && "_id" !in Serialize(s[i])
    ensures forall i :: 0 <= i < |s| ==> Matches(s[i], q)
  {
    forall i | 0 <= i < |s| ensures Matches(Serialize(s[i]), q) && Matches(s[i], q) {
      assert s[i] in s;
    }
  }

  /** The filter of `list_messages`: by `chat_id` only when one is given and
      non-empty; there is no owner filter. */
  function MessageQuery(chatId: Option<string>): Query {
    if chatId.Some? && chatId.value != "" then map["chat_id" := Str(chatId.value)] else map[]
  }

  /** `list_messages`: oldest `created_date` first, at most 1000, serialized. */
  function ListMessages(messages: seq<Doc>, chatId: Option<string>): (r: seq<Doc>)
    ensures |r| == (if |Find(messages, MessageQuery(chatId))| < 1000 then |Find(messages, MessageQuery(chatId))| else 1000)
    ensures chatId.Some? && chatId.value != "" ==>
      forall i :: 0 <= i < |r| ==> "chat_id" in r[i] && r[i]["chat_id"] == Str(chatId.value)
    ensures (chatId.None? || chatId == Some("")) ==> Find(messages, MessageQuery(chatId)) == messages
    ensures r == SerializeAll(Select(messages, MessageQuery(chatId), true, 1000))
    ensures Sorting.Sorted(Select(messages, MessageQuery(chatId), true, 1000), Order(true))
  {
    var q := MessageQuery(chatId);
    SerializedSelection(messages, q, true, 1000);
    FindAll(messages, q);
    SerializeAll(Select(messages, q, true, 1000))
  }

  /** The empty filter finds the whole collection, in order. */
  lemma {:induction false} FindAll(docs: seq<Doc>, q: Query)
    ensures q == map[] ==> Find(docs, q) == docs
  {
    if docs != [] && q == map[] {
      FindAll(docs[1..], q);
      assert docs == [docs[0]] + docs[1..];
    }
  }

  // ---------------------------------------------------------------------
  // Files
  // ---------------------------------------------------------------------

  /** The text after the last '.' of `s` (all of `s` when it has none). */
  function AfterLastDot(s: string): (r: string)
    ensures '.' !in r
    ensures '.' in s ==> |r| < |s|
    ensures |r| <= |s| && r == s[|s| - |r|..]
    ensures |r| < |s| ==> s[|s| - |r| - 1] == '.'
  {
    if s == [] then []
    else if s[|s| - 1] == '.' then []
    else
      var p := s[..|s| - 1];
      var front := AfterLastDot(p);
      assert s[|s| - 1 - |front|..] == p[|p| - |front|..] + [s[|s| - 1]];
      assert '.' in s ==> '.' in p by {
        if '.' in s {
          var i :| 0 <= i < |s| && s[i] == '.';
          assert p[i] == '.';
        }
      }
      front + [s[|s| - 1]]
  }

  /** `file.filename.split(".")[-1] if "." in file.filename else "jpg"`.
      `upload_file` computes it and then does not use it. */
  function FileExt(filename: string): (r: string)
    ensures '.' !in filename ==> r == "jpg"
    ensures '.' in filename ==>
      '.' !in r && |r| < |filename| && filename[|filename| - |r| - 1] == '.'
      && r == filename[|filename| - |r|..]
  {
    if '.' in filename then
      AfterLastDot(filename)
    else "jpg"
  }

  function FileUrl(id: string): string {
    "/api/files/" + id
  }

  datatype FileResponse = FileResponse(content: seq<Base64.byte>, mediaType: Value)

  /** `get_file`: 404 for an unknown id; the stored data base64-decoded. */
  function GetFile(files: seq<Doc>, fileId: string): (r: Result<FileResponse, HttpError>)
    ensures FindOne(files, IdQuery(Str(fileId))).None? ==> r == Err(HttpError(404, "File not found"))
    ensures r.Ok? ==> var d := FindOne(files, IdQuery(Str(fileId))).value;
      "data" in d && d["data"].Str? && Base64.Decode(d["data"].s) == Some(r.value.content)
    ensures r.Ok? ==> var d := FindOne(files, IdQuery(Str(fileId))).value;
      "content_type" in d && r.value.mediaType == d["content_type"]
    ensures FindOne(files, IdQuery(Str(fileId))).Some? ==> var d := FindOne(files, IdQuery(Str(fileId))).value;
      (r.Ok? <==> "data" in d && d["data"].Str? && "content_type" in d && Base64.Decode(d["data"].s).Some?)
  {
    match FindOne(files, IdQuery(Str(fileId)))
    case None => Err(HttpError(404, "File not found"))
    case Some(d) =>
      if "data" !in d || !d["data"].Str? || "content_type" !in d then Err(HttpError(500, "Internal Server Error"))
      else match Base64.Decode(d["data"].s)
        case None => Err(HttpError(500, "Internal Server Error"))
        case Some(bytes) => Ok(FileResponse(bytes, d["content_type"]))
  }

  /** A file stored by `upload_file` under a fresh id is served back by
      `get_file` with the uploaded bytes and content type. */
  lemma UploadedFileServed(files: seq<Doc>, id: string, filename: string, contentType: Option<string>,
                           contents: seq<Base64.byte>, caller: Value, now: string)
    requires IdFree(files, id)
    ensures GetFile(files + [NewFileDoc(id, filename, contentType, contents, caller, now)], id)
      == Ok(FileResponse(contents, OptStr(contentType)))
  {
    var d := NewFileDoc(id, filename, contentType, contents, caller, now);
    var after := files + [d];
    assert Matches(d, IdQuery(Str(id)));
    assert forall j :: 0 <= j < |files| ==> after[j] == files[j] && !Matches(files[j], IdQuery(Str(id)));
    FirstMatchIs(after, IdQuery(Str(id)), |files|);
    Base64.DecodeEncode(contents);
  }

  // ---------------------------------------------------------------------
  // The store and the handlers that change it
  // ---------------------------------------------------------------------

  class Database {
    var users: seq<Doc>
    var chats: seq<Doc>
    var messages: seq<Doc>
    var tasks: seq<Doc>
    var orders: seq<Doc>
    var sosAlerts: seq<Doc>
    var files: seq<Doc>

    ghost predicate Valid()
      reads this
    {
      && UniqueIds(users) && UniqueIds(chats) && UniqueIds(messages) && UniqueIds(tasks)
      && UniqueIds(orders) && UniqueIds(sosAlerts) && UniqueIds(files)
    }

    constructor ()
      ensures Valid()
      ensures users == [] && chats == [] && messages == [] && tasks == []
      ensures orders == [] && sosAlerts == [] && files == []
    {
      users, chats, messages, tasks := [], [], [], [];
      orders, sosAlerts, files := [], [], [];
    }

    /** `register`: 400 when the email is taken; otherwise the new user is
        stored and a token for its id returned. */
    method Register(email: string, passwordHash: string, fullName: string, id: string, now: string)
      returns (r: Result<Token, HttpError>)
      requires Valid() && IdFree(users, id)
      modifies this`users
      ensures Valid()
      ensures FindOne(old(users), EmailQuery(email)).Some? ==>
        r == Err(HttpError(400, "Email already registered")) && users == old(users)
      ensures FindOne(old(users), EmailQuery(email)).None? ==>
        r == Ok(Token(Str(id))) && users == old(users) + [NewUserDoc(id, email, passwordHash, fullName, now)]
    {
      if FindOne(users, EmailQuery(email)).Some? {
        return Err(HttpError(400, "Email already registered"));
      }
      var doc := NewUserDoc(id, email, passwordHash, fullName, now);
      AppendKeepsUniqueIds(users, doc, id);
      users := users + [doc];
      r := Ok(Token(Str(id)));
    }

    /** `update_me`: patch the caller's own document, then return it. */
    method UpdateMe(caller: Value, update: UserUpdate) returns (r: Option<Doc>)
      requires Valid()
      modifies this`users
      ensures Valid()
      ensures users == ApplyPatch(old(users), IdQuery(caller), update.AsDict())
      ensures r == SerializeFound(FindOne(users, IdQuery(caller)))
    {
      var data := DropNone(update.AsDict());
      if data != map[] {
        UpdateKeepsUniqueIds(users, IdQuery(caller), data);
        users := UpdateOne(users, IdQuery(caller), data);
      }
      r := SerializeFound(FindOne(users, IdQuery(caller)));
    }

    /** `update_chat`: the write is guarded by ownership, the read is not. */
    method UpdateChat(chatId: string, update: ChatUpdate, caller: Value) returns (r: Option<Doc>)
      requires Valid()
      modifies this`chats
      ensures Valid()
      ensures chats == ApplyPatch(old(chats), OwnedQuery(Str(chatId), caller), update.AsDict())
      ensures r == SerializeFound(FindOne(chats, IdQuery(Str(chatId))))
    {
      var data := DropNone(update.AsDict());
      if data != map[] {
        UpdateKeepsUniqueIds(chats, OwnedQuery(Str(chatId), caller), data);
        chats := UpdateOne(chats, OwnedQuery(Str(chatId), caller), data);
      }
      r := SerializeFound(FindOne(chats, IdQuery(Str(chatId))));
    }

    /** `update_task`: the write is guarded by ownership, the read is not. */
    method UpdateTask(taskId: string, update: TaskUpdate, caller: Value) returns (r: Option<Doc>)
      requires Valid()
      modifies this`tasks
      ensures Valid()
      ensures tasks == ApplyPatch(old(tasks), OwnedQuery(Str(taskId), caller), update.AsDict())
      ensures r == SerializeFound(FindOne(tasks, IdQuery(Str(taskId))))
    {
      var data := DropNone(update.AsDict());
      if data != map[] {
        UpdateKeepsUniqueIds(tasks, OwnedQuery(Str(taskId), caller), data);
        tasks := UpdateOne(tasks, OwnedQuery(Str(taskId), caller), data);
      }
      r := SerializeFound(FindOne(tasks, IdQuery(Str(taskId))));
    }

    /** `create_chat`: a chat owned by the caller, with no last message, no
        time and no unread messages. */
    method CreateChat(contactName: string, isOnline: bool, caller: Value, id: string, now: string)
      returns (r: Doc)
      requires Valid() && IdFree(chats, id)
      modifies this`chats
      ensures Valid()
      ensures chats == old(chats) + [NewChatDoc(id, caller, contactName, isOnline, now)]
      ensures r == Serialize(NewChatDoc(id, caller, contactName, isOnline, now))
    {
      var doc := NewChatDoc(id, caller, contactName, isOnline, now);
      AppendKeepsUniqueIds(chats, doc, id);
      chats := chats + [doc];
      r := Serialize(doc);
    }

    /** `create_task`: a task owned by the caller, not started, with duration 0. */
    method CreateTask(title: string, description: Option<string>, status: Option<string>,
                      caller: Value, id: string, now: string)
      returns (r: Doc)
      requires Valid() && IdFree(tasks, id)
      modifies this`tasks
      ensures Valid()
      ensures tasks == old(tasks) + [NewTaskDoc(id, caller, title, description, status, now)]
      ensures r == Serialize(NewTaskDoc(id, caller, title, description, status, now))
    {
      var doc := NewTaskDoc(id, caller, title, description, status, now);
      AppendKeepsUniqueIds(tasks, doc, id);
      tasks := tasks + [doc];
      r := Serialize(doc);
    }

    /** `create_message`: the message, stamped by the server. */
    method CreateMessage(chatId: string, senderName: string, text: string, isOutgoing: bool,
                         imageUrl: Option<string>, id: string, stamp: string, created: string)
      returns (r: Doc)
      requires Valid() && IdFree(messages, id)
      modifies this`messages
      ensures Valid()
      ensures messages == old(messages) + [NewMessageDoc(id, chatId, senderName, text, isOutgoing, imageUrl, stamp, created)]
      ensures r == Serialize(NewMessageDoc(id, chatId, senderName, text, isOutgoing, imageUrl, stamp, created))
    {
      var doc := NewMessageDoc(id, chatId, senderName, text, isOutgoing, imageUrl, stamp, created);
      AppendKeepsUniqueIds(messages, doc, id);
      messages := messages + [doc];
      r := Serialize(doc);
    }

    /** `create_order`: the order as sent, owned by the caller. */
    method CreateOrder(order: OrderCreate, caller: Value, id: string, now: string) returns (r: Doc)
      requires Valid() && IdFree(orders, id)
      modifies this`orders
      ensures Valid()
      ensures orders == old(orders) + [NewOrderDoc(id, caller, order, now)]
      ensures r == Serialize(NewOrderDoc(id, caller, order, now))
    {
      var doc := NewOrderDoc(id, caller, order, now);
      AppendKeepsUniqueIds(orders, doc, id);
      orders := orders + [doc];
      r := Serialize(doc);
    }

    /** `create_sos`: an alert owned by the caller. */
    method CreateSos(location: Option<string>, status: Option<string>, caller: Value, id: string, now: string)
      returns (r: Doc)
      requires Valid() && IdFree(sosAlerts, id)
      modifies this`sosAlerts
      ensures Valid()
      ensures sosAlerts == old(sosAlerts) + [NewSosDoc(id, caller, location, status, now)]
      ensures r == Serialize(NewSosDoc(id, caller, location, status, now))
    {
      var doc := NewSosDoc(id, caller, location, status, now);
      AppendKeepsUniqueIds(sosAlerts, doc, id);
      sosAlerts := sosAlerts + [doc];
      r := Serialize(doc);
    }

    /** `upload_file`: the bytes are stored base64-encoded under a fresh id,
        and the URL that serves them is returned. */
    method Upload(filename: string, contentType: Option<string>, contents: seq<Base64.byte>,
                  caller: Value, id: string, now: string)
      returns (r: Doc)
      requires Valid() && IdFree(files, id)
      modifies this`files
      ensures Valid()
      ensures files == old(files) + [NewFileDoc(id, filename, contentType, contents, caller, now)]
      ensures r == map["file_url" := Str(FileUrl(id))]
      ensures GetFile(files, id) == Ok(FileResponse(contents, OptStr(contentType)))
    {
      var doc := NewFileDoc(id, filename, contentType, contents, caller, now);
      AppendKeepsUniqueIds(files, doc, id);
      UploadedFileServed(files, id, filename, contentType, contents, caller, now);
      files := files + [doc];
      r := map["file_url" := Str(FileUrl(id))];
    }
  }

  /** `$set` never touches `_id` here (no update body has that field), so
      ids stay unique. */
  lemma UpdateKeepsUniqueIds(docs: seq<Doc>, q: Query, data: Doc)
    requires UniqueIds(docs) && "_id" !in data
    ensures UniqueIds(UpdateOne(docs, q, data))
  {
    UpdateOneFrame(docs, q, data);
  }
}
