/**
  The skill-profile store: an invocation event names an operation,
  `store_profile` writes a user's profile into a table keyed by `user_id`
  (overwriting any earlier one) and `get_profile` reads it back.

  The table is a map from user id to item held by a `ProfileTable` object;
  a table call that raises is the parameter `tableFails`, and the clock
  reading taken for a store is the parameter `now`. Responses carry a
  status code and an error kind; the wording of messages is not modelled.
 */
module ProfileStore {
  import opened JsonValues

  /** A stored profile. `createdAt` and `updatedAt` hold the timestamp of
      the store that wrote the item. */
  datatype Item = Item(userId: string, weakTopics: seq<Json>, strongTopics: seq<Json>,
                       totalSolved: int, createdAt: string, updatedAt: string)

  datatype Operation = StoreOp | GetOp

  datatype ProfileError =
    | InvalidOperation
    | UserIdRequired
    | ProfileDataRequired
    | WeakTopicsNotList
    | StrongTopicsNotList
    | TotalSolvedNotNumber
    | ProfileNotFound
    | StoreFailed
    | RetrieveFailed

  /** The errors a validation step reports with status 400. */
  predicate IsRequestError(e: ProfileError) {
    e in {InvalidOperation, UserIdRequired, ProfileDataRequired, WeakTopicsNotList,
          StrongTopicsNotList, TotalSolvedNotNumber}
  }

  datatype ProfileResponse =
    | Stored(userId: string, profile: Item)
    | Retrieved(userId: string, profile: Item)
    | Failed(status: int, error: ProfileError)
  {
    function StatusCode(): int {
      if Failed? then status else 200
    }
  }

  type Table = map<string, Item>

  function UserIdOf(event: map<string, Json>): Json {
    Get(event, "user_id", JNull)
  }

  /** The handler's dispatch on `event.get('operation')`. */
  function ParseOperation(event: map<string, Json>): (r: Option<Operation>)
    ensures r == Some(StoreOp) <==> Get(event, "operation", JNull) == JString("store_profile")
    ensures r == Some(GetOp) <==> Get(event, "operation", JNull) == JString("get_profile")
  {
    var op := Get(event, "operation", JNull);
    if op == JString("store_profile") then Some(StoreOp)
    else if op == JString("get_profile") then Some(GetOp)
    else None
  }

  /** A store request that passed validation. `userId` is still the raw
      value: whether the table accepts it as a key is decided by the put. */
  datatype StoreRequest = StoreRequest(userId: Json, weakTopics: seq<Json>, strongTopics: seq<Json>,
                                       totalSolved: int)

  function ProfileDataOf(event: map<string, Json>): Json {
    Get(event, "profile_data", JNull)
  }

  /** `profile_data.get(key)` once `profile_data` is known to be a dict. */
  function DataField(event: map<string, Json>, key: string): Json
    requires ProfileDataOf(event).JObject?
  {
    Get(ProfileDataOf(event).fields, key, JNull)
  }

  /** The event got past the two presence checks with a dict. */
  predicate DataPresent(event: map<string, Json>) {
    !Falsy(UserIdOf(event)) && !Falsy(ProfileDataOf(event)) && ProfileDataOf(event).JObject?
  }

  /** store_profile's validation, in the source's order. A truthy
      `profile_data` that is not an object has no `get`: the attribute error
      is caught by the store's handler and reported as a 500. */
  function ValidateStore(event: map<string, Json>): (r: Result<StoreRequest, ProfileError>)
    ensures Falsy(UserIdOf(event)) ==> r == Err(UserIdRequired)
    ensures !Falsy(UserIdOf(event)) && Falsy(ProfileDataOf(event)) ==> r == Err(ProfileDataRequired)
    ensures r.Err? && r.error == StoreFailed <==>
              !Falsy(UserIdOf(event)) && !Falsy(ProfileDataOf(event)) && !ProfileDataOf(event).JObject?
    // then the three type checks, in order
    ensures DataPresent(event) && !DataField(event, "weak_topics").JArray? ==> r == Err(WeakTopicsNotList)
    ensures (DataPresent(event) && DataField(event, "weak_topics").JArray?
             && !DataField(event, "strong_topics").JArray?) ==> r == Err(StrongTopicsNotList)
    ensures (DataPresent(event) && DataField(event, "weak_topics").JArray?
             && DataField(event, "strong_topics").JArray?
             && !IsNumber(DataField(event, "total_solved"))) ==> r == Err(TotalSolvedNotNumber)
    ensures r.Err? ==> IsRequestError(r.error) || r.error == StoreFailed
    ensures r.Ok? <==>
              && DataPresent(event)
              && DataField(event, "weak_topics").JArray?
              && DataField(event, "strong_topics").JArray?
              && IsNumber(DataField(event, "total_solved"))
    ensures r.Ok? ==>
              && r.value.userId == UserIdOf(event)
              && JArray(r.value.weakTopics) == DataField(event, "weak_topics")
              && JArray(r.value.strongTopics) == DataField(event, "strong_topics")
              && r.value.totalSolved == IntValue(DataField(event, "total_solved"))
  {
    var userId := UserIdOf(event);
    var data := ProfileDataOf(event);
    if Falsy(userId) then Err(UserIdRequired)
    else if Falsy(data) then Err(ProfileDataRequired)
    else if !data.JObject? then Err(StoreFailed)
    else
      var weak := Get(data.fields, "weak_topics", JNull);
      var strong := Get(data.fields, "strong_topics", JNull);
      var total := Get(data.fields, "total_solved", JNull);
      if !weak.JArray? then Err(WeakTopicsNotList)
      else if !strong.JArray? then Err(StrongTopicsNotList)
      else if !IsNumber(total) then Err(TotalSolvedNotNumber)
      else Ok(StoreRequest(userId, weak.elems, strong.elems, IntValue(total)))
  }

  /** The whole effect of store_profile on the table and the response. The
      key must be a string; any other truthy id is rejected by the table,
      like a failing put, with a 500 after validation has passed. */
  function StoreOutcome(table: Table, event: map<string, Json>, now: string, tableFails: bool)
    : (out: (ProfileResponse, Table))
    ensures ValidateStore(event).Err? ==>
              var e := ValidateStore(event).error;
              out == (Failed(if e == StoreFailed then 500 else 400, e), table)
    ensures out.0.Stored? <==> ValidateStore(event).Ok? && UserIdOf(event).JString? && !tableFails
    ensures !out.0.Stored? ==> out.1 == table && out.0.Failed?
    ensures out.0.Failed? ==> (out.0.status == 400 <==> IsRequestError(out.0.error))
    ensures out.0.Failed? ==> out.0.status in {400, 500}
    // a put that raises after validation is caught and reported as a 500
    ensures ValidateStore(event).Ok? && (tableFails || !UserIdOf(event).JString?) ==>
              out == (Failed(500, StoreFailed), table)
    // a successful store writes exactly the item it reports, under the id
    ensures out.0.Stored? ==>
              && JString(out.0.userId) == UserIdOf(event)
              && out.1 == table[out.0.userId := out.0.profile]
              && out.0.profile.userId == out.0.userId
    // the item is the validated request, stamped twice with this call's time
    ensures out.0.Stored? ==>
              var req := ValidateStore(event).value;
              && out.0.profile.weakTopics == req.weakTopics
              && out.0.profile.strongTopics == req.strongTopics
              && out.0.profile.totalSolved == req.totalSolved
              && out.0.profile.createdAt == now
              && out.0.profile.updatedAt == now
  {
    match ValidateStore(event)
    case Err(e) => (Failed(if e == StoreFailed then 500 else 400, e), table)
    case Ok(req) =>
      if !req.userId.JString? || tableFails then (Failed(500, StoreFailed), table)
      else
        var item := Item(req.userId.s, req.weakTopics, req.strongTopics, req.totalSolved, now, now);
        (Stored(req.userId.s, item), table[req.userId.s := item])
  }

  /** get_profile: a falsy id is a 400 before any lookup; a key the table
      rejects or a failing read is a 500; an absent key is a 404. */
  function LookupProfile(table: Table, event: map<string, Json>, tableFails: bool): (r: ProfileResponse)
    ensures Falsy(UserIdOf(event)) ==> r == Failed(400, UserIdRequired)
    ensures r.Retrieved? <==>
              !Falsy(UserIdOf(event)) && UserIdOf(event).JString? && !tableFails && UserIdOf(event).s in table
    ensures r.Retrieved? ==> JString(r.userId) == UserIdOf(event) && r.profile == table[r.userId]
    ensures r == Failed(404, ProfileNotFound) <==>
              !Falsy(UserIdOf(event)) && UserIdOf(event).JString? && !tableFails && UserIdOf(event).s !in table
    // a read that raises is caught and reported as a 500
    ensures !Falsy(UserIdOf(event)) && (tableFails || !UserIdOf(event).JString?) ==>
              r == Failed(500, RetrieveFailed)
    ensures r.Stored? == false
    ensures r.Failed? ==> r.status in {400, 404, 500}
  {
    var userId := UserIdOf(event);
    if Falsy(userId) then Failed(400, UserIdRequired)
    else if !userId.JString? || tableFails then Failed(500, RetrieveFailed)
    else if userId.s !in table then Failed(404, ProfileNotFound)
    else Retrieved(userId.s, table[userId.s])
  }

  /** get_profile as the source writes it. The table hands stored numbers
      back as `Decimal`, which `json.dumps` cannot serialise, and every item
      this store writes holds a `total_solved`: the TypeError is caught and
      a read that finds its item answers 500. LookupProfile is the read as
      evidently intended, and the one the rest of the model uses. */
  function LookupProfileAsWritten(table: Table, event: map<string, Json>, tableFails: bool): (r: ProfileResponse)
    ensures Falsy(UserIdOf(event)) ==> r == Failed(400, UserIdRequired)
    ensures !r.Retrieved? && !r.Stored?
    ensures r == Failed(500, RetrieveFailed) <==>
              !Falsy(UserIdOf(event)) && (tableFails || !UserIdOf(event).JString? || UserIdOf(event).s in table)
    ensures r == Failed(404, ProfileNotFound) <==>
              !Falsy(UserIdOf(event)) && UserIdOf(event).JString? && !tableFails && UserIdOf(event).s !in table
  {
    match LookupProfile(table, event, tableFails)
    case Retrieved(_, _) => Failed(500, RetrieveFailed)
    case other => other
  }

  /** lambda_handler: dispatch on the operation; anything else is a 400
      that leaves the table alone. */
  function HandleOutcome(table: Table, event: map<string, Json>, now: string, tableFails: bool)
    : (out: (ProfileResponse, Table))
    ensures ParseOperation(event).None? ==> out == (Failed(400, InvalidOperation), table)
    ensures ParseOperation(event) == Some(GetOp) ==> out == (LookupProfile(table, event, tableFails), table)
    ensures ParseOperation(event) == Some(StoreOp) ==> out == StoreOutcome(table, event, now, tableFails)
    ensures out.0.StatusCode() in {200, 400, 404, 500}
  {
    match ParseOperation(event)
    case None => (Failed(400, InvalidOperation), table)
    case Some(StoreOp) => StoreOutcome(table, event, now, tableFails)
    case Some(GetOp) => (LookupProfile(table, event, tableFails), table)
  }

  /** The table of stored profiles. */
  class ProfileTable {
    var items: Table

    constructor ()
      ensures items == map[]
    {
      items := map[];
    }

    /** store_profile: validate, then `put_item`, a full overwrite of the
        entry for that user. */
    method StoreProfile(event: map<string, Json>, now: string, tableFails: bool) returns (r: ProfileResponse)
      modifies this
      ensures (r, items) == StoreOutcome(old(items), event, now, tableFails)
      ensures r.Stored? ==> items == old(items)[r.userId := r.profile]
      ensures !r.Stored? ==> items == old(items)
    {
      match ValidateStore(event)
      case Err(e) =>
        r := Failed(if e == StoreFailed then 500 else 400, e);
      case Ok(req) =>
        if !req.userId.JString? || tableFails {
          r := Failed(500, StoreFailed);
        } else {
          var item := Item(req.userId.s, req.weakTopics, req.strongTopics, req.totalSolved, now, now);
          items := items[req.userId.s := item];
          r := Stored(req.userId.s, item);
        }
    }

    /** get_profile: a read that leaves the table as it is. */
    method GetProfile(event: map<string, Json>, tableFails: bool) returns (r: ProfileResponse)
      ensures r == LookupProfile(items, event, tableFails)
      ensures r.Retrieved? ==> r.userId in items && r.profile == items[r.userId]
    {
      var userId := UserIdOf(event);
      if Falsy(userId) {
        r := Failed(400, UserIdRequired);
      } else if !userId.JString? || tableFails {
        r := Failed(500, RetrieveFailed);
      } else if userId.s !in items {
        r := Failed(404, ProfileNotFound);
      } else {
        r := Retrieved(userId.s, items[userId.s]);
      }
    }

    /** lambda_handler. */
    method Handle(event: map<string, Json>, now: string, tableFails: bool) returns (r: ProfileResponse)
      modifies this
      ensures (r, items) == HandleOutcome(old(items), event, now, tableFails)
    {
      var op := ParseOperation(event);
      if op == Some(StoreOp) {
        r := StoreProfile(event, now, tableFails);
      } else if op == Some(GetOp) {
        r := GetProfile(event, tableFails);
      } else {
        r := Failed(400, InvalidOperation);
      }
    }
  }

  // ---------------------------------------------------------------------
  // Properties relating several calls

  /** Reading right after a successful store, with the same id, returns
      exactly the item the store reported. */
  lemma GetAfterStore(table: Table, event: map<string, Json>, now: string, query: map<string, Json>)
    requires StoreOutcome(table, event, now, false).0.Stored?
    requires UserIdOf(query) == UserIdOf(event)
    ensures var (r, after) := StoreOutcome(table, event, now, false);
            LookupProfile(after, query, false) == Retrieved(r.userId, r.profile)
  {
  }

  /** A store touches no other user's profile: every read of another id
      answers as it did before. */
  lemma StoreLeavesOtherProfiles(table: Table, event: map<string, Json>, now: string, tableFails: bool,
                                 query: map<string, Json>, readFails: bool)
    requires UserIdOf(query) != UserIdOf(event)
    ensures LookupProfile(StoreOutcome(table, event, now, tableFails).1, query, readFails)
         == LookupProfile(table, query, readFails)
  {
    var (r, after) := StoreOutcome(table, event, now, tableFails);
    if r.Stored? {
      var q := UserIdOf(query);
      if q.JString? {
        assert q.s != r.userId;
      }
    }
  }

  /** Storing again for the same user replaces the whole item: its
      creation time is the second store's, not the first's. */
  lemma StoreOverwritesCreatedAt(table: Table, first: map<string, Json>, second: map<string, Json>,
                                 t1: string, t2: string, query: map<string, Json>)
    requires StoreOutcome(table, first, t1, false).0.Stored?
    requires UserIdOf(second) == UserIdOf(first)
    requires StoreOutcome(StoreOutcome(table, first, t1, false).1, second, t2, false).0.Stored?
    requires UserIdOf(query) == UserIdOf(first)
    ensures var after := StoreOutcome(StoreOutcome(table, first, t1, false).1, second, t2, false).1;
            var r := LookupProfile(after, query, false);
            r.Retrieved? && r.profile.createdAt == t2 && r.profile.updatedAt == t2
  {
    var mid := StoreOutcome(table, first, t1, false).1;
    GetAfterStore(mid, second, t2, query);
  }

  /** Repeating a store with the same clock reading changes nothing further. */
  lemma StoreIdempotent(table: Table, event: map<string, Json>, now: string)
    ensures var (r, after) := StoreOutcome(table, event, now, false);
            StoreOutcome(after, event, now, false) == (r, after)
  {
    var (r, after) := StoreOutcome(table, event, now, false);
    if r.Stored? {
      assert after[r.userId := r.profile] == after;
    }
  }

  /** Whether a store request is rejected, and how, does not depend on the
      table's contents or on whether the table would fail. */
  lemma ValidationNeverTouchesTable(t1: Table, t2: Table, event: map<string, Json>,
                                    now1: string, now2: string, f1: bool, f2: bool)
    requires ValidateStore(event).Err?
    ensures StoreOutcome(t1, event, now1, f1).0 == StoreOutcome(t2, event, now2, f2).0
    ensures StoreOutcome(t1, event, now1, f1).1 == t1
  {
  }

  /** As written, a profile that was just stored cannot be read back: the
      read finds it and still answers 500, where the intended read returns
      it. */
  lemma StoredProfileUnreadable(table: Table, event: map<string, Json>, now: string, query: map<string, Json>)
    requires StoreOutcome(table, event, now, false).0.Stored?
    requires UserIdOf(query) == UserIdOf(event)
    ensures var after := StoreOutcome(table, event, now, false).1;
            && LookupProfileAsWritten(after, query, false) == Failed(500, RetrieveFailed)
            && LookupProfile(after, query, false).Retrieved?
  {
    GetAfterStore(table, event, now, query);
  }

  /** A fresh table has no profile for anyone: a well-formed read is a 404. */
  lemma NeverStoredIsNotFound(event: map<string, Json>)
    requires UserIdOf(event).JString? && UserIdOf(event).s != ""
    ensures LookupProfile(map[], event, false) == Failed(404, ProfileNotFound)
  {
  }

  /** The request {"operation": "store_profile", "user_id": "user123",
      "profile_data": {...}} followed by {"operation": "get_profile",
      "user_id": "user123"} reads back the stored lists and count. */
  lemma StoreThenGetScenario(table: Table, now: string, weak: seq<Json>, strong: seq<Json>)
    ensures var data := map["weak_topics" := JArray(weak), "strong_topics" := JArray(strong),
                             "total_solved" := JNumber(150)];
            var store := map["operation" := JString("store_profile"), "user_id" := JString("user123"),
                             "profile_data" := JObject(data)];
            var get := map["operation" := JString("get_profile"), "user_id" := JString("user123")];
            var (stored, after) := HandleOutcome(table, store, now, false);
            HandleOutcome(after, get, now, false).0
            == Retrieved("user123", Item("user123", weak, strong, 150, now, now))
  {
    var data := map["weak_topics" := JArray(weak), "strong_topics" := JArray(strong),
                    "total_solved" := JNumber(150)];
    var store := map["operation" := JString("store_profile"), "user_id" := JString("user123"),
                     "profile_data" := JObject(data)];
    var get := map["operation" := JString("get_profile"), "user_id" := JString("user123")];
    assert ParseOperation(store) == Some(StoreOp);
    assert ParseOperation(get) == Some(GetOp);
    assert UserIdOf(store) == JString("user123");
    assert Get(store, "profile_data", JNull) == JObject(data);
    assert Get(data, "weak_topics", JNull) == JArray(weak);
    assert Get(data, "strong_topics", JNull) == JArray(strong);
    assert Get(data, "total_solved", JNull) == JNumber(150);
    assert ValidateStore(store) == Ok(StoreRequest(JString("user123"), weak, strong, 150));
    GetAfterStore(table, store, now, get);
  }
}
