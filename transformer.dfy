/** The Transformer (services/processing/index.js): for each queue message of a batch it
    reads the raw payload, maps it to curated records by source, and writes each record to
    the curated table only if no record with its id exists. Any other write failure aborts
    the batch. The table is a `CuratedTable` object holding a map from id to record; reading
    the queue and the raw store, MD5 and the clock are inputs. */
module Transformer {
  import opened Outcomes
  import opened Json
  import opened Domain

  // ---------------------------------------------------------------------------
  // Record ids
  // ---------------------------------------------------------------------------

  /** `hash.substring(0, 8)`. */
  function HashPrefix(hash: string): (r: string)
    ensures r <= hash && |r| == if |hash| < 8 then |hash| else 8
  {
    if |hash| < 8 then hash else hash[..8]
  }

  /** `${source}-${itemKey}-${hash.substring(0, 8)}`. */
  function RecordId(source: string, itemKey: string, hash: string): string {
    source + "-" + itemKey + "-" + HashPrefix(hash)
  }

  /** An id starts with its source and a dash, and ends with the hash prefix. */
  lemma RecordIdShape(source: string, itemKey: string, hash: string)
    ensures source + "-" <= RecordId(source, itemKey, hash)
    ensures var id := RecordId(source, itemKey, hash);
      id[|id| - |HashPrefix(hash)|..] == HashPrefix(hash)
  {
  }

  /** Within one message (same source, same hash), different items get different ids. */
  lemma RecordIdInjective(source: string, key1: string, key2: string, hash: string)
    requires RecordId(source, key1, hash) == RecordId(source, key2, hash)
    ensures key1 == key2
  {
    var a, b := RecordId(source, key1, hash), RecordId(source, key2, hash);
    var n := |source| + 1;
    assert |key1| == |key2|;
    assert a[n..n + |key1|] == key1;
    assert b[n..n + |key2|] == key2;
  }

  // ---------------------------------------------------------------------------
  // Mapping a payload to records
  // ---------------------------------------------------------------------------

  /** `{ id, source, captured_at, title, body, userId, raw_s3_key, fingerprint, processed_at }`
      for one item of a `jsonplaceholder` payload. */
  function PostRecord(m: QueueMessage, item: Json, processedAt: string, digest: Json -> string): Result<Record> {
    match Member(Some(item), "id")
    case Err(e) => Err(e)
    case Ok(itemId) =>
      var title := OrElse(FieldOf(item, "title"), JStr(""));
      var body := OrElse(FieldOf(item, "body"), JStr(""));
      var userId := Stringify(OrElse(FieldOf(item, "userId"), JStr("")));
      Ok(Record(RecordId(m.source, ToStr(itemId), m.hash), m.source, Some(m.capturedAt), m.s3Key,
                digest(item), processedAt, PostFields(title, body, userId)))
  }

  /** `v.key` on a value already known not to be `null`. */
  function FieldOf(v: Json, key: string): (r: Option<Json>)
    ensures v != JNull ==> Member(Some(v), key) == Ok(r)
  {
    if v.JObj? then FieldValue(v.fields, key) else None
  }

  /** The record of one element of `results` in a `randomuser` payload. The properties are
      read in the order the object literal lists them, so the first missing one decides
      the error. */
  function UserRecord(m: QueueMessage, user: Json, processedAt: string, digest: Json -> string): Result<Record> {
    match Member(Some(user), "login")
    case Err(e) => Err(e)
    case Ok(login) =>
      match Member(login, "uuid")
      case Err(e) => Err(e)
      case Ok(uuid) =>
        match Member(FieldOf(user, "name"), "first")
        case Err(e) => Err(e)
        case Ok(first) =>
          var last := Member(FieldOf(user, "name"), "last").value;
          match Member(FieldOf(user, "location"), "country")
          case Err(e) => Err(e)
          case Ok(country) =>
            Ok(Record(RecordId(m.source, ToStr(uuid), m.hash), m.source, Some(m.capturedAt), m.s3Key,
                      digest(user), processedAt,
                      UserFields(ToStr(first) + " " + ToStr(last), FieldOf(user, "email"), country,
                                 FieldOf(user, "gender"))))
  }

  /** `items.map(f)` where `f` may throw: the first element that throws aborts the map. */
  function MapItems(items: seq<Json>, f: Json -> Result<Record>): Result<seq<Record>> {
    if items == [] then Ok([])
    else
      match f(items[0])
      case Err(e) => Err(e)
      case Ok(r) =>
        match MapItems(items[1..], f)
        case Err(e) => Err(e)
        case Ok(rs) => Ok([r] + rs)
  }

  /** The map succeeds exactly when no element throws, and then gives one record per
      element, in order. */
  lemma {:induction false} MapItemsShape(items: seq<Json>, f: Json -> Result<Record>)
    ensures MapItems(items, f).Ok? <==> forall i :: 0 <= i < |items| ==> f(items[i]).Ok?
    ensures MapItems(items, f).Ok? ==>
              |MapItems(items, f).value| == |items| &&
              forall i :: 0 <= i < |items| ==> Ok(MapItems(items, f).value[i]) == f(items[i])
  {
    if items != [] {
      MapItemsShape(items[1..], f);
      forall i | 0 < i < |items| ensures items[i] == items[1..][i - 1] { }
    }
  }

  /** The callbacks the two sources pass to `map`. */
  function PostMapper(m: QueueMessage, processedAt: string, digest: Json -> string): Json -> Result<Record> {
    item => PostRecord(m, item, processedAt, digest)
  }

  function UserMapper(m: QueueMessage, processedAt: string, digest: Json -> string): Json -> Result<Record> {
    user => UserRecord(m, user, processedAt, digest)
  }

  /** The message of the `TypeError` a truthy non-array `results` raises. */
  const NotMappable: string := "users.map is not a function"

  /** `processedRecords`: at most ten posts from an array payload, one user per element of
      `results || []`, nothing for any other source. */
  function Candidates(m: QueueMessage, raw: Json, processedAt: string, digest: Json -> string): Result<seq<Record>> {
    if m.source == "jsonplaceholder" then
      if raw.JArr? then
        MapItems(if |raw.elems| <= 10 then raw.elems else raw.elems[..10], PostMapper(m, processedAt, digest))
      else Ok([])
    else if m.source == "randomuser" then
      match Member(Some(raw), "results")
      case Err(e) => Err(e)
      case Ok(results) =>
        var users := OrElse(results, JArr([]));
        if users.JArr? then MapItems(users.elems, UserMapper(m, processedAt, digest))
        else Err(NotMappable)
    else Ok([])
  }

  /** A post is rejected only when its item is `null`. */
  lemma PostRecordOk(m: QueueMessage, item: Json, processedAt: string, digest: Json -> string)
    ensures PostRecord(m, item, processedAt, digest).Ok? <==> item != JNull
  {
  }

  /** Posts: from an array payload, one record per item of its first ten, in order, unless
      one of them is `null`; none from anything else. */
  lemma PostsCount(m: QueueMessage, raw: Json, processedAt: string, digest: Json -> string)
    requires m.source == "jsonplaceholder"
    ensures !raw.JArr? ==> Candidates(m, raw, processedAt, digest) == Ok([])
    ensures raw.JArr? ==>
              var n := if |raw.elems| <= 10 then |raw.elems| else 10;
              var c := Candidates(m, raw, processedAt, digest);
              (c.Ok? <==> JNull !in raw.elems[..n]) &&
              (c.Ok? ==> (|c.value| == n &&
                 forall i :: 0 <= i < n ==> Ok(c.value[i]) == PostRecord(m, raw.elems[i], processedAt, digest)))
  {
    if raw.JArr? {
      var items := if |raw.elems| <= 10 then raw.elems else raw.elems[..10];
      var f := PostMapper(m, processedAt, digest);
      MapItemsShape(items, f);
      assert items == raw.elems[..|items|];
      forall i | 0 <= i < |items| ensures f(items[i]).Ok? <==> items[i] != JNull {
        PostRecordOk(m, items[i], processedAt, digest);
      }
    }
  }

  /** The defaults of a post record: `title` and `body` are `''` when missing or falsy, and
      `userId` is `String(item.userId || '')`. */
  lemma PostDefaults(m: QueueMessage, item: Json, processedAt: string, digest: Json -> string)
    requires item.JObj?
    ensures PostRecord(m, item, processedAt, digest).Ok?
    ensures var r := PostRecord(m, item, processedAt, digest).value;
      r.id == RecordId(m.source, ToStr(FieldValue(item.fields, "id")), m.hash) &&
      r.source == m.source && r.capturedAt == Some(m.capturedAt) && r.rawKey == m.s3Key &&
      r.fingerprint == digest(item) && r.processedAt == processedAt &&
      (!Truthy(FieldValue(item.fields, "title")) ==> r.fields.title == JStr("")) &&
      (Truthy(FieldValue(item.fields, "title")) ==> Some(r.fields.title) == FieldValue(item.fields, "title")) &&
      (!Truthy(FieldValue(item.fields, "body")) ==> r.fields.body == JStr("")) &&
      (Truthy(FieldValue(item.fields, "body")) ==> Some(r.fields.body) == FieldValue(item.fields, "body")) &&
      (!Truthy(FieldValue(item.fields, "userId")) ==> r.fields.userId == "") &&
      (Truthy(FieldValue(item.fields, "userId")) ==> r.fields.userId == ToStr(FieldValue(item.fields, "userId")))
  {
  }

  /** Users: one record per element of `results`, in order, and none when `results` is
      missing or falsy; a truthy `results` that is not an array throws. */
  lemma UsersCount(m: QueueMessage, raw: Json, processedAt: string, digest: Json -> string)
    requires m.source == "randomuser" && raw.JObj?
    ensures !Truthy(FieldValue(raw.fields, "results")) ==> Candidates(m, raw, processedAt, digest) == Ok([])
    ensures Truthy(FieldValue(raw.fields, "results")) && !FieldValue(raw.fields, "results").value.JArr? ==>
              Candidates(m, raw, processedAt, digest) == Err(NotMappable)
  {
  }

  lemma UsersCandidates(m: QueueMessage, raw: Json, users: seq<Json>, processedAt: string, digest: Json -> string)
    requires m.source == "randomuser" && raw.JObj? && FieldValue(raw.fields, "results") == Some(JArr(users))
    ensures Candidates(m, raw, processedAt, digest) == MapItems(users, UserMapper(m, processedAt, digest))
  {
    assert Member(Some(raw), "results") == Ok(Some(JArr(users)));
    assert Truthy(Some(JArr(users)));
    assert OrElse(Some(JArr(users)), JArr([])) == JArr(users);
  }

  lemma UsersFromArray(m: QueueMessage, raw: Json, users: seq<Json>, processedAt: string, digest: Json -> string)
    requires m.source == "randomuser" && raw.JObj? && FieldValue(raw.fields, "results") == Some(JArr(users))
    ensures var c := Candidates(m, raw, processedAt, digest);
      (c.Ok? <==> forall i :: 0 <= i < |users| ==> UserRecord(m, users[i], processedAt, digest).Ok?) &&
      (c.Ok? ==> (|c.value| == |users| &&
         forall i :: 0 <= i < |users| ==> Ok(c.value[i]) == UserRecord(m, users[i], processedAt, digest)))
  {
    var f := UserMapper(m, processedAt, digest);
    UsersCandidates(m, raw, users, processedAt, digest);
    MapItemsShape(users, f);
    forall i | 0 <= i < |users| ensures f(users[i]) == UserRecord(m, users[i], processedAt, digest) { }
  }

  /** A record carries the message's source, capture time and raw key, the clock reading,
      and an id that starts with the source. */
  predicate FromMessage(r: Record, m: QueueMessage, processedAt: string) {
    r.source == m.source && r.capturedAt == Some(m.capturedAt) && r.rawKey == m.s3Key &&
    r.processedAt == processedAt && m.source + "-" <= r.id
  }

  lemma MapperFromMessage(m: QueueMessage, item: Json, processedAt: string, digest: Json -> string)
    ensures PostMapper(m, processedAt, digest)(item).Ok? ==>
              FromMessage(PostMapper(m, processedAt, digest)(item).value, m, processedAt)
    ensures UserMapper(m, processedAt, digest)(item).Ok? ==>
              FromMessage(UserMapper(m, processedAt, digest)(item).value, m, processedAt)
  {
    var p := PostRecord(m, item, processedAt, digest);
    if p.Ok? {
      RecordIdShape(m.source, ToStr(Member(Some(item), "id").value), m.hash);
    }
    var u := UserRecord(m, item, processedAt, digest);
    if u.Ok? {
      var uuid := Member(Member(Some(item), "login").value, "uuid").value;
      RecordIdShape(m.source, ToStr(uuid), m.hash);
    }
  }

  lemma MapItemsFromMessage(items: seq<Json>, f: Json -> Result<Record>, m: QueueMessage, processedAt: string,
                            digest: Json -> string)
    requires f == PostMapper(m, processedAt, digest) || f == UserMapper(m, processedAt, digest)
    requires MapItems(items, f).Ok?
    ensures forall r :: r in MapItems(items, f).value ==> FromMessage(r, m, processedAt)
  {
    MapItemsShape(items, f);
    var rs := MapItems(items, f).value;
    forall r | r in rs ensures FromMessage(r, m, processedAt) {
      var i :| 0 <= i < |rs| && rs[i] == r;
      MapperFromMessage(m, items[i], processedAt, digest);
    }
  }

  /** Every record a message maps to points back at the message and its raw object. */
  lemma CandidatesFromMessage(m: QueueMessage, raw: Json, processedAt: string, digest: Json -> string)
    requires Candidates(m, raw, processedAt, digest).Ok?
    ensures forall r :: r in Candidates(m, raw, processedAt, digest).value ==> FromMessage(r, m, processedAt)
  {
    if m.source == "jsonplaceholder" && raw.JArr? {
      MapItemsFromMessage(if |raw.elems| <= 10 then raw.elems else raw.elems[..10],
                          PostMapper(m, processedAt, digest), m, processedAt, digest);
    } else if m.source == "randomuser" {
      var users := OrElse(Member(Some(raw), "results").value, JArr([]));
      MapItemsFromMessage(users.elems, UserMapper(m, processedAt, digest), m, processedAt, digest);
    }
  }

  /** A value that is neither `undefined` nor `null`, so that reading a property of it does
      not throw. */
  predicate Readable(v: Option<Json>) {
    v.Some? && v.value != JNull
  }

  /** A user throws exactly when it is `null` or its `login`, `name` or `location` is
      `undefined` or `null`. */
  lemma UserRecordOk(m: QueueMessage, user: Json, processedAt: string, digest: Json -> string)
    ensures UserRecord(m, user, processedAt, digest).Ok? <==>
              user != JNull && Readable(FieldOf(user, "login")) && Readable(FieldOf(user, "name")) &&
              Readable(FieldOf(user, "location"))
  {
  }

  /** A user record's id is built from `login.uuid`, its name is first and last joined by a
      space. */
  lemma UserFieldsOf(m: QueueMessage, user: Json, processedAt: string, digest: Json -> string,
                     login: Json, name: Json, location: Json)
    requires user.JObj? && login.JObj? && name.JObj? && location.JObj?
    requires FieldValue(user.fields, "login") == Some(login)
    requires FieldValue(user.fields, "name") == Some(name)
    requires FieldValue(user.fields, "location") == Some(location)
    ensures UserRecord(m, user, processedAt, digest).Ok?
    ensures var r := UserRecord(m, user, processedAt, digest).value;
      r.id == RecordId(m.source, ToStr(FieldValue(login.fields, "uuid")), m.hash) &&
      r.fields.name == ToStr(FieldValue(name.fields, "first")) + " " + ToStr(FieldValue(name.fields, "last")) &&
      r.fields.email == FieldValue(user.fields, "email") &&
      r.fields.country == FieldValue(location.fields, "country") &&
      r.fields.gender == FieldValue(user.fields, "gender")
  {
  }

  /** A source other than the two known ones yields no records. */
  lemma UnknownSourceNoRecords(m: QueueMessage, raw: Json, processedAt: string, digest: Json -> string)
    requires m.source != "jsonplaceholder" && m.source != "randomuser"
    ensures Candidates(m, raw, processedAt, digest) == Ok([])
  {
  }

  /** Two results of mapping the same item that differ at most in the clock reading: the same
      error, or records equal once `processed_at` is set to `processedAt`. */
  predicate Restamped(a: Result<Record>, b: Result<Record>, processedAt: string) {
    (a.Err? ==> b == a) && (a.Ok? ==> b.Ok? && a.value == b.value.(processedAt := processedAt))
  }

  predicate RestampedAll(a: Result<seq<Record>>, b: Result<seq<Record>>, processedAt: string) {
    (a.Err? ==> b == a) &&
    (a.Ok? ==> b.Ok? && |a.value| == |b.value| &&
               forall i :: 0 <= i < |a.value| ==> a.value[i] == b.value[i].(processedAt := processedAt))
  }

  lemma {:induction false} MapItemsRestamped(items: seq<Json>, f: Json -> Result<Record>, g: Json -> Result<Record>,
                                             processedAt: string)
    requires forall i :: 0 <= i < |items| ==> Restamped(f(items[i]), g(items[i]), processedAt)
    ensures RestampedAll(MapItems(items, f), MapItems(items, g), processedAt)
  {
    if items != [] {
      assert Restamped(f(items[0]), g(items[0]), processedAt);
      forall i | 0 <= i < |items[1..]| ensures Restamped(f(items[1..][i]), g(items[1..][i]), processedAt) {
        assert items[1..][i] == items[i + 1];
      }
      MapItemsRestamped(items[1..], f, g, processedAt);
    }
  }

  lemma MappersRestamped(m: QueueMessage, item: Json, p1: string, p2: string, digest: Json -> string)
    ensures Restamped(PostMapper(m, p1, digest)(item), PostMapper(m, p2, digest)(item), p1)
    ensures Restamped(UserMapper(m, p1, digest)(item), UserMapper(m, p2, digest)(item), p1)
  {
  }

  /** The clock reading only sets `processed_at`: at another reading the same payload throws
      the same error, or maps to the same records, in the same order, with the same ids. */
  lemma CandidatesIgnoreClock(m: QueueMessage, raw: Json, p1: string, p2: string, digest: Json -> string)
    ensures RestampedAll(Candidates(m, raw, p1, digest), Candidates(m, raw, p2, digest), p1)
  {
    if m.source == "jsonplaceholder" && raw.JArr? {
      var items := if |raw.elems| <= 10 then raw.elems else raw.elems[..10];
      forall i | 0 <= i < |items|
        ensures Restamped(PostMapper(m, p1, digest)(items[i]), PostMapper(m, p2, digest)(items[i]), p1)
      {
        MappersRestamped(m, items[i], p1, p2, digest);
      }
      MapItemsRestamped(items, PostMapper(m, p1, digest), PostMapper(m, p2, digest), p1);
    } else if m.source == "randomuser" && Member(Some(raw), "results").Ok? {
      var users := OrElse(Member(Some(raw), "results").value, JArr([]));
      if users.JArr? {
        forall i | 0 <= i < |users.elems|
          ensures Restamped(UserMapper(m, p1, digest)(users.elems[i]), UserMapper(m, p2, digest)(users.elems[i]), p1)
        {
          MappersRestamped(m, users.elems[i], p1, p2, digest);
        }
        MapItemsRestamped(users.elems, UserMapper(m, p1, digest), UserMapper(m, p2, digest), p1);
      }
    }
  }

  // ---------------------------------------------------------------------------
  // The curated table
  // ---------------------------------------------------------------------------

  datatype PutOutcome = Stored | AlreadyExists | PutFailed(message: string)

  /** Every record is stored under its own id. */
  predicate Keyed(items: map<string, Record>) {
    forall k :: k in items ==> items[k].id == k
  }

  class CuratedTable {
    var items: map<string, Record>

    constructor(initial: map<string, Record>)
      ensures items == initial
    {
      items := initial;
    }

    /** `put` with `ConditionExpression: 'attribute_not_exists(id)'`; `fault` is a failure
        of the call itself, such as throttling. */
    method PutIfAbsent(r: Record, fault: Option<string>) returns (outcome: PutOutcome)
      modifies this
      ensures fault.Some? ==> outcome == PutFailed(fault.value) && items == old(items)
      ensures fault.None? && r.id in old(items) ==> outcome == AlreadyExists && items == old(items)
      ensures fault.None? && r.id !in old(items) ==> outcome == Stored && items == old(items)[r.id := r]
    {
      if fault.Some? {
        return PutFailed(fault.value);
      }
      if r.id in items {
        return AlreadyExists;
      }
      items := items[r.id := r];
      return Stored;
    }
  }

  /** The table after the puts of `records[i..]`, and the failure that stopped them, if any. */
  function PutRecords(store: map<string, Record>, records: seq<Record>, faults: map<nat, string>, i: nat)
    : (map<string, Record>, Option<string>)
    requires i <= |records|
    decreases |records| - i
  {
    if i == |records| then (store, None)
    else if i in faults then (store, Some(faults[i]))
    else
      var r := records[i];
      PutRecords(if r.id in store then store else store[r.id := r], records, faults, i + 1)
  }

  /** The puts only insert: a stored record is never changed or removed, and a new one is
      one of the records written, under its own id. */
  lemma {:induction false} PutRecordsInsertOnly(store: map<string, Record>, records: seq<Record>,
                                                 faults: map<nat, string>, i: nat)
    requires i <= |records|
    ensures var after := PutRecords(store, records, faults, i).0;
      (forall k :: k in store ==> k in after && after[k] == store[k]) &&
      (forall k :: k in after && k !in store ==> exists j :: i <= j < |records| && records[j] == after[k] && records[j].id == k)
    ensures Keyed(store) ==> Keyed(PutRecords(store, records, faults, i).0)
    decreases |records| - i
  {
    if i < |records| && i !in faults {
      var r := records[i];
      var next := if r.id in store then store else store[r.id := r];
      PutRecordsInsertOnly(next, records, faults, i + 1);
    }
  }

  /** When the puts all went through, every record's id is in the table. */
  lemma {:induction false} PutRecordsCover(store: map<string, Record>, records: seq<Record>,
                                           faults: map<nat, string>, i: nat)
    requires i <= |records| && PutRecords(store, records, faults, i).1.None?
    ensures forall j :: i <= j < |records| ==> records[j].id in PutRecords(store, records, faults, i).0
    decreases |records| - i
  {
    if i < |records| {
      var r := records[i];
      var next := if r.id in store then store else store[r.id := r];
      PutRecordsCover(next, records, faults, i + 1);
      PutRecordsInsertOnly(next, records, faults, i + 1);
    }
  }

  /** Putting records whose ids are all present changes nothing and fails nothing. */
  lemma {:induction false} PutRecordsNoop(store: map<string, Record>, records: seq<Record>,
                                          faults: map<nat, string>, i: nat)
    requires i <= |records|
    requires forall j :: i <= j < |records| ==> records[j].id in store && j !in faults
    ensures PutRecords(store, records, faults, i) == (store, None)
    decreases |records| - i
  {
    if i < |records| {
      PutRecordsNoop(store, records, faults, i + 1);
    }
  }

  // ---------------------------------------------------------------------------
  // One message, one batch
  // ---------------------------------------------------------------------------

  /** An SQS record as the handler receives it, with what happens when it is worked on:
      `message` is `JSON.parse(record.body)`, `raw` the parsed S3 object (`Err` when the
      read or the parse throws), `processedAt` the clock reading, and `putFaults[j]` the
      failure of the j-th put, if it fails for a reason other than the condition. */
  datatype Delivery = Delivery(
    messageId: string,
    message: Result<QueueMessage>,
    raw: Result<Json>,
    processedAt: string,
    putFaults: map<nat, string>)

  /** `{ source, status: 'success', processedCount }`. */
  datatype MessageResult = MessageResult(source: string, processedCount: nat)

  /** The handler returns the results of every message, or throws the first error. */
  datatype BatchOutcome = Completed(results: seq<MessageResult>) | Aborted(messageId: string, error: string)

  /** The table after one message, and its result or the error it throws. */
  function ProcessMessage(store: map<string, Record>, d: Delivery, digest: Json -> string)
    : (map<string, Record>, Result<MessageResult>)
  {
    match d.message
    case Err(e) => (store, Err(e))
    case Ok(m) =>
      match d.raw
      case Err(e) => (store, Err(e))
      case Ok(raw) =>
        match Candidates(m, raw, d.processedAt, digest)
        case Err(e) => (store, Err(e))
        case Ok(records) =>
          var (after, failure) := PutRecords(store, records, d.putFaults, 0);
          if failure.Some? then (after, Err(failure.value))
          else (after, Ok(MessageResult(m.source, |records|)))
  }

  /** The table and the outcome once the messages from `i` on have been handled. */
  function RunBatch(store: map<string, Record>, ds: seq<Delivery>, digest: Json -> string,
                    i: nat, results: seq<MessageResult>): (map<string, Record>, BatchOutcome)
    requires i <= |ds|
    decreases |ds| - i
  {
    if i == |ds| then (store, Completed(results))
    else
      var (after, result) := ProcessMessage(store, ds[i], digest);
      match result
      case Err(e) => (after, Aborted(ds[i].messageId, e))
      case Ok(r) => RunBatch(after, ds, digest, i + 1, results + [r])
  }

  /** `exports.handler`: an outer loop over the messages and an inner loop of conditional
      puts; the first failure that is not a failed condition ends the batch. */
  method HandleBatch(table: CuratedTable, ds: seq<Delivery>, digest: Json -> string) returns (outcome: BatchOutcome)
    modifies table
    ensures (table.items, outcome) == RunBatch(old(table.items), ds, digest, 0, [])
  {
    var results: seq<MessageResult> := [];
    for i := 0 to |ds|
      invariant RunBatch(old(table.items), ds, digest, 0, []) == RunBatch(table.items, ds, digest, i, results)
    {
      var d := ds[i];
      if d.message.Err? {
        return Aborted(d.messageId, d.message.message);
      }
      var m := d.message.value;
      if d.raw.Err? {
        return Aborted(d.messageId, d.raw.message);
      }
      var candidates := Candidates(m, d.raw.value, d.processedAt, digest);
      if candidates.Err? {
        return Aborted(d.messageId, candidates.message);
      }
      var records := candidates.value;
      ghost var start := table.items;
      for j := 0 to |records|
        invariant PutRecords(start, records, d.putFaults, 0) == PutRecords(table.items, records, d.putFaults, j)
      {
        var fault := if j in d.putFaults then Some(d.putFaults[j]) else None;
        var put := table.PutIfAbsent(records[j], fault);
        if put.PutFailed? {
          return Aborted(d.messageId, put.message);
        }
      }
      results := results + [MessageResult(m.source, |records|)];
    }
    return Completed(results);
  }

  // ---------------------------------------------------------------------------
  // What the Transformer promises
  // ---------------------------------------------------------------------------

  /** The table only grows: a message never changes or removes a stored record. */
  lemma ProcessMessageInsertOnly(store: map<string, Record>, d: Delivery, digest: Json -> string)
    ensures var after := ProcessMessage(store, d, digest).0;
      forall k :: k in store ==> k in after && after[k] == store[k]
    ensures Keyed(store) ==> Keyed(ProcessMessage(store, d, digest).0)
  {
    if d.message.Ok? && d.raw.Ok? {
      var c := Candidates(d.message.value, d.raw.value, d.processedAt, digest);
      if c.Ok? {
        PutRecordsInsertOnly(store, c.value, d.putFaults, 0);
      }
    }
  }

  /** A message is handled when its records' ids are all in the table. */
  predicate Covered(store: map<string, Record>, d: Delivery, digest: Json -> string) {
    d.message.Ok? && d.raw.Ok? &&
    var c := Candidates(d.message.value, d.raw.value, d.processedAt, digest);
    c.Ok? && forall r :: r in c.value ==> r.id in store
  }

  /** A message that succeeded leaves every one of its records' ids in the table, and counts
      all its records, the ones already present included. */
  lemma ProcessMessageCovers(store: map<string, Record>, d: Delivery, digest: Json -> string)
    requires ProcessMessage(store, d, digest).1.Ok?
    ensures Covered(ProcessMessage(store, d, digest).0, d, digest)
    ensures ProcessMessage(store, d, digest).1.value.processedCount ==
              |Candidates(d.message.value, d.raw.value, d.processedAt, digest).value|
  {
    var records := Candidates(d.message.value, d.raw.value, d.processedAt, digest).value;
    PutRecordsCover(store, records, d.putFaults, 0);
    forall r | r in records ensures r.id in ProcessMessage(store, d, digest).0 {
      var j :| 0 <= j < |records| && records[j] == r;
    }
  }

  /** The result a message whose records map without error reports. */
  function Counted(d: Delivery, digest: Json -> string): MessageResult
    requires d.message.Ok? && d.raw.Ok? && Candidates(d.message.value, d.raw.value, d.processedAt, digest).Ok?
  {
    MessageResult(d.message.value.source, |Candidates(d.message.value, d.raw.value, d.processedAt, digest).value|)
  }

  /** Delivering an already handled message again (with no put failing) changes nothing and
      reports the same result. */
  lemma ReplayIsNoop(store: map<string, Record>, d: Delivery, digest: Json -> string)
    requires Covered(store, d, digest) && d.putFaults == map[]
    ensures ProcessMessage(store, d, digest) == (store, Ok(Counted(d, digest)))
  {
    var records := Candidates(d.message.value, d.raw.value, d.processedAt, digest).value;
    forall j | 0 <= j < |records| ensures records[j].id in store && j !in d.putFaults {
      assert records[j] in records;
    }
    PutRecordsNoop(store, records, d.putFaults, 0);
  }

  /** Whether a message is handled does not depend on the clock reading it is handled at,
      and neither does the count it reports. */
  lemma CoveredAtAnyClock(store: map<string, Record>, d: Delivery, again: Delivery, digest: Json -> string)
    requires Covered(store, d, digest) && again.message == d.message && again.raw == d.raw
    ensures Covered(store, again, digest) && Counted(again, digest) == Counted(d, digest)
  {
    var m, raw := d.message.value, d.raw.value;
    CandidatesIgnoreClock(m, raw, d.processedAt, again.processedAt, digest);
    var rs, rs2 := Candidates(m, raw, d.processedAt, digest).value, Candidates(m, raw, again.processedAt, digest).value;
    forall r | r in rs2 ensures r.id in store {
      var i :| 0 <= i < |rs2| && rs2[i] == r;
      assert rs[i].id == r.id;
      assert rs[i] in rs;
    }
  }

  /** Handling a message again, at a later clock reading (with no put failing), leaves the
      table as handling it once did and reports the same result. */
  lemma ProcessTwiceSameAsOnce(store: map<string, Record>, d: Delivery, again: Delivery, digest: Json -> string)
    requires again.message == d.message && again.raw == d.raw && again.putFaults == map[]
    requires ProcessMessage(store, d, digest).1.Ok?
    ensures var once := ProcessMessage(store, d, digest);
      ProcessMessage(once.0, again, digest) == once
  {
    ProcessMessageCovers(store, d, digest);
    CoveredAtAnyClock(ProcessMessage(store, d, digest).0, d, again, digest);
    ReplayIsNoop(ProcessMessage(store, d, digest).0, again, digest);
  }

  lemma CoveredGrows(store: map<string, Record>, bigger: map<string, Record>, d: Delivery, digest: Json -> string)
    requires Covered(store, d, digest) && store.Keys <= bigger.Keys
    ensures Covered(bigger, d, digest)
  {
  }

  lemma CompletedStep(store: map<string, Record>, ds: seq<Delivery>, digest: Json -> string,
                      i: nat, results: seq<MessageResult>)
    requires i < |ds| && RunBatch(store, ds, digest, i, results).1.Completed?
    ensures ProcessMessage(store, ds[i], digest).1.Ok?
    ensures RunBatch(store, ds, digest, i, results) ==
              RunBatch(ProcessMessage(store, ds[i], digest).0, ds, digest, i + 1,
                       results + [ProcessMessage(store, ds[i], digest).1.value])
  {
  }

  /** A batch, whether it completes or is aborted by a rethrown error, never changes or
      removes a stored record, and keeps every record under its own id. */
  lemma {:induction false} RunBatchInsertOnly(store: map<string, Record>, ds: seq<Delivery>, digest: Json -> string,
                                              i: nat, results: seq<MessageResult>)
    requires i <= |ds|
    ensures var after := RunBatch(store, ds, digest, i, results).0;
      forall k :: k in store ==> k in after && after[k] == store[k]
    ensures Keyed(store) ==> Keyed(RunBatch(store, ds, digest, i, results).0)
    decreases |ds| - i
  {
    if i < |ds| {
      ProcessMessageInsertOnly(store, ds[i], digest);
      var (after, result) := ProcessMessage(store, ds[i], digest);
      if result.Ok? {
        RunBatchInsertOnly(after, ds, digest, i + 1, results + [result.value]);
      }
    }
  }

  /** A completed batch leaves every message of it handled, and every earlier record as
      it was. */
  lemma {:induction false} CompletedCoversAll(store: map<string, Record>, ds: seq<Delivery>, digest: Json -> string,
                                              i: nat, results: seq<MessageResult>)
    requires i <= |ds| && RunBatch(store, ds, digest, i, results).1.Completed?
    ensures forall j :: i <= j < |ds| ==> Covered(RunBatch(store, ds, digest, i, results).0, ds[j], digest)
    ensures var final := RunBatch(store, ds, digest, i, results).0;
      forall k :: k in store ==> k in final && final[k] == store[k]
    decreases |ds| - i
  {
    RunBatchInsertOnly(store, ds, digest, i, results);
    if i < |ds| {
      CompletedStep(store, ds, digest, i, results);
      var after := ProcessMessage(store, ds[i], digest).0;
      var next := results + [ProcessMessage(store, ds[i], digest).1.value];
      var final := RunBatch(after, ds, digest, i + 1, next).0;
      CompletedCoversAll(after, ds, digest, i + 1, next);
      ProcessMessageInsertOnly(store, ds[i], digest);
      ProcessMessageCovers(store, ds[i], digest);
      CoveredGrows(after, final, ds[i], digest);
      forall j | i <= j < |ds| ensures Covered(final, ds[j], digest) {
      }
    }
  }

  lemma ReplayStep(store: map<string, Record>, ds: seq<Delivery>, digest: Json -> string,
                   i: nat, results: seq<MessageResult>)
    requires i < |ds| && Covered(store, ds[i], digest) && ds[i].putFaults == map[]
    ensures RunBatch(store, ds, digest, i, results) == RunBatch(store, ds, digest, i + 1, results + [Counted(ds[i], digest)])
  {
    ReplayIsNoop(store, ds[i], digest);
  }

  /** The results of the messages from `i` on, as far as their records map without error:
      each message reports its source and the number of its records. */
  function ReplayResults(ds: seq<Delivery>, digest: Json -> string, i: nat): seq<MessageResult>
    requires i <= |ds|
    decreases |ds| - i
  {
    if i == |ds| then []
    else if ds[i].message.Ok? && ds[i].raw.Ok? &&
            Candidates(ds[i].message.value, ds[i].raw.value, ds[i].processedAt, digest).Ok?
    then [Counted(ds[i], digest)] + ReplayResults(ds, digest, i + 1)
    else []
  }

  /** Redelivering a completed batch (with no put failing) changes nothing and reports
      every message's full count. */
  lemma {:induction false} BatchReplayIsNoop(store: map<string, Record>, ds: seq<Delivery>, digest: Json -> string,
                                             i: nat, results: seq<MessageResult>)
    requires i <= |ds|
    requires forall j :: i <= j < |ds| ==> Covered(store, ds[j], digest) && ds[j].putFaults == map[]
    ensures RunBatch(store, ds, digest, i, results) == (store, Completed(results + ReplayResults(ds, digest, i)))
    ensures |ReplayResults(ds, digest, i)| == |ds| - i
    decreases |ds| - i
  {
    if i < |ds| {
      assert Covered(store, ds[i], digest);
      var next := results + [Counted(ds[i], digest)];
      ReplayStep(store, ds, digest, i, results);
      BatchReplayIsNoop(store, ds, digest, i + 1, next);
      assert ReplayResults(ds, digest, i) == [Counted(ds[i], digest)] + ReplayResults(ds, digest, i + 1);
      assert results + ReplayResults(ds, digest, i) == next + ReplayResults(ds, digest, i + 1);
    } else {
      assert results + ReplayResults(ds, digest, i) == results;
    }
  }

  /** A message that succeeded reports its source and the number of its records. */
  lemma ProcessMessageCounted(store: map<string, Record>, d: Delivery, digest: Json -> string)
    requires ProcessMessage(store, d, digest).1.Ok?
    ensures d.message.Ok? && d.raw.Ok? && Candidates(d.message.value, d.raw.value, d.processedAt, digest).Ok?
    ensures ProcessMessage(store, d, digest).1.value == Counted(d, digest)
  {
  }

  /** A completed batch reports, for every message, its source and its full count. */
  lemma {:induction false} CompletedResults(store: map<string, Record>, ds: seq<Delivery>, digest: Json -> string,
                                            i: nat, results: seq<MessageResult>)
    requires i <= |ds| && RunBatch(store, ds, digest, i, results).1.Completed?
    ensures RunBatch(store, ds, digest, i, results).1.results == results + ReplayResults(ds, digest, i)
    decreases |ds| - i
  {
    if i < |ds| {
      CompletedStep(store, ds, digest, i, results);
      ProcessMessageCounted(store, ds[i], digest);
      var after := ProcessMessage(store, ds[i], digest).0;
      var next := results + [Counted(ds[i], digest)];
      CompletedResults(after, ds, digest, i + 1, next);
      assert ReplayResults(ds, digest, i) == [Counted(ds[i], digest)] + ReplayResults(ds, digest, i + 1);
      assert results + ReplayResults(ds, digest, i) == next + ReplayResults(ds, digest, i + 1);
    } else {
      assert results + ReplayResults(ds, digest, i) == results;
    }
  }

  /** Two deliveries of the same messages that differ only in their clock readings. */
  predicate SameMessages(ds: seq<Delivery>, again: seq<Delivery>) {
    |again| == |ds| && forall j :: 0 <= j < |ds| ==> again[j].message == ds[j].message && again[j].raw == ds[j].raw
  }

  lemma {:induction false} ReplayResultsAtAnyClock(ds: seq<Delivery>, again: seq<Delivery>, digest: Json -> string, i: nat)
    requires SameMessages(ds, again) && i <= |ds|
    ensures ReplayResults(again, digest, i) == ReplayResults(ds, digest, i)
    decreases |ds| - i
  {
    if i < |ds| {
      var d, e := ds[i], again[i];
      if d.message.Ok? && d.raw.Ok? {
        CandidatesIgnoreClock(d.message.value, d.raw.value, d.processedAt, e.processedAt, digest);
      }
      ReplayResultsAtAnyClock(ds, again, digest, i + 1);
    }
  }

  /** Redelivering a completed batch, at new clock readings and with no put failing, leaves
      the table as the first delivery left it and reports the same results. */
  lemma BatchRedeliveryIsNoop(store: map<string, Record>, ds: seq<Delivery>, again: seq<Delivery>,
                              digest: Json -> string)
    requires RunBatch(store, ds, digest, 0, []).1.Completed?
    requires SameMessages(ds, again) && forall j :: 0 <= j < |again| ==> again[j].putFaults == map[]
    ensures var once := RunBatch(store, ds, digest, 0, []);
      RunBatch(once.0, again, digest, 0, []) == once
  {
    var once := RunBatch(store, ds, digest, 0, []);
    CompletedCoversAll(store, ds, digest, 0, []);
    forall j | 0 <= j < |again| ensures Covered(once.0, again[j], digest) && again[j].putFaults == map[] {
      CoveredAtAnyClock(once.0, ds[j], again[j], digest);
    }
    BatchReplayIsNoop(once.0, again, digest, 0, []);
    CompletedResults(store, ds, digest, 0, []);
    ReplayResultsAtAnyClock(ds, again, digest, 0);
    assert [] + ReplayResults(ds, digest, 0) == ReplayResults(ds, digest, 0);
  }

  /** Once a message throws, the messages after it are not looked at. */
  lemma {:induction false} AbortIgnoresRest(store: map<string, Record>, ds: seq<Delivery>, more: seq<Delivery>,
                                            digest: Json -> string, i: nat, results: seq<MessageResult>)
    requires i <= |ds| && RunBatch(store, ds, digest, i, results).1.Aborted?
    ensures RunBatch(store, ds + more, digest, i, results) == RunBatch(store, ds, digest, i, results)
    decreases |ds| - i
  {
    var all := ds + more;
    assert all[i] == ds[i];
    var (after, result) := ProcessMessage(store, ds[i], digest);
    if result.Ok? {
      AbortIgnoresRest(after, ds, more, digest, i + 1, results + [result.value]);
    }
  }

  /** A message from a source the Transformer does not know maps to no record: it succeeds
      with a count of zero and leaves the table as it was, whatever the table would answer
      to a put, since no put is made. */
  lemma UnknownSourceIsNoop(store: map<string, Record>, d: Delivery, digest: Json -> string)
    requires d.message.Ok? && d.raw.Ok?
    requires d.message.value.source != "jsonplaceholder" && d.message.value.source != "randomuser"
    ensures ProcessMessage(store, d, digest) == (store, Ok(MessageResult(d.message.value.source, 0)))
  {
  }
}
