/** The Ingestor (services/ingestion/index.js): for each configured source it fetches the
    payload, stores it in the raw bucket under a dated key, and then queues a message that
    points to it. A failing source is reported in the results and the next one is still
    tried. The bucket and the queue are objects; the network, the clock and MD5 are inputs. */
module Ingestor {
  import opened Outcomes
  import opened Text
  import opened Json
  import opened Domain
  import Transformer

  datatype DataSource = DataSource(name: string, url: string, kind: string)

  /** `DATA_SOURCES`, in the order the handler visits them. */
  const DataSources: seq<DataSource> := [
    DataSource("jsonplaceholder", "https://jsonplaceholder.typicode.com/posts", "posts"),
    DataSource("randomuser", "https://randomuser.me/api/?results=10", "users")
  ]

  // ---------------------------------------------------------------------------
  // Keys and counts
  // ---------------------------------------------------------------------------

  /** `raw/source=${name}/date=${date}/${timestamp}-${hash}.json`, where `date` is the part
      of the timestamp before the first `T`. */
  function S3Key(name: string, timestamp: string, hash: string): string {
    "raw/source=" + name + "/date=" + BeforeFirst(timestamp, 'T') + "/" + timestamp + "-" + hash + ".json"
  }

  /** The segments of a key, before they are joined with `/`. */
  function S3KeySegments(name: string, timestamp: string, hash: string): seq<string> {
    ["raw", "source=" + name, "date=" + BeforeFirst(timestamp, 'T'), timestamp + "-" + hash + ".json"]
  }

  /** A key is its segments joined with `/`. */
  lemma S3KeyJoined(name: string, timestamp: string, hash: string)
    ensures Join(S3KeySegments(name, timestamp, hash), "/") == S3Key(name, timestamp, hash)
  {
    var pieces := S3KeySegments(name, timestamp, hash);
    var source, date, file := pieces[1], pieces[2], pieces[3];
    assert pieces[1..][1..][1..] == [file];
    assert Join(pieces[1..][1..], "/") == date + "/" + file;
    assert Join(pieces[1..], "/") == source + "/" + (date + "/" + file);
    assert "raw/source=" == "raw" + "/" + "source=";
    assert "/date=" == "/" + "date=";
  }

  /** Segments built from slash-free parts hold no `/`. */
  lemma SegmentsWithoutSlash(name: string, timestamp: string, hash: string)
    requires '/' !in name && '/' !in timestamp && '/' !in hash
    ensures forall i :: 0 <= i < 4 ==> '/' !in S3KeySegments(name, timestamp, hash)[i]
  {
  }

  /** A key lies in the partition of its source and of its timestamp's date, and names a
      `.json` object. When the source name, the timestamp and the hash hold no `/`, the key
      parses back: its `/`-separated segments are `raw`, `source=<name>`, `date=<date>`
      and `<timestamp>-<hash>.json`. */
  lemma S3KeyPartition(name: string, timestamp: string, hash: string)
    ensures var key := S3Key(name, timestamp, hash);
      "raw/source=" + name + "/date=" + BeforeFirst(timestamp, 'T') + "/" <= key &&
      key[|key| - 5..] == ".json"
    ensures '/' !in name && '/' !in timestamp && '/' !in hash ==>
      Split(S3Key(name, timestamp, hash), '/') == S3KeySegments(name, timestamp, hash)
  {
    if '/' !in name && '/' !in timestamp && '/' !in hash {
      SegmentsWithoutSlash(name, timestamp, hash);
      S3KeyJoined(name, timestamp, hash);
      SplitJoin(S3KeySegments(name, timestamp, hash), '/');
    }
  }

  /** For an ISO-8601 timestamp (`YYYY-MM-DDTHH:mm:ss.sssZ`) the date partition is the
      calendar date, its first ten characters. */
  lemma IsoDate(timestamp: string)
    requires |timestamp| > 10 && timestamp[10] == 'T'
    requires forall k :: 0 <= k < 10 ==> timestamp[k] != 'T'
    ensures BeforeFirst(timestamp, 'T') == timestamp[..10]
  {
  }

  /** `v.length` on a defined, non-null value. */
  function LengthOf(v: Json): Option<Json> {
    match v
    case JArr(elems) => Some(JNum(|elems|))
    case JStr(s) => Some(JNum(|s|))
    case JObj(fields) => FieldValue(fields, "length")
    case _ => None
  }

  /** `Array.isArray(data) ? data.length : (data.results?.length || 1)`; reading `results`
      of `null` throws. */
  function RecordCount(data: Json): (r: Result<Json>)
    ensures r.Err? <==> data == JNull
  {
    if data.JArr? then Ok(JNum(|data.elems|))
    else
      match Member(Some(data), "results")
      case Err(e) => Err(e)
      case Ok(results) =>
        var length := if results.None? || results == Some(JNull) then None else LengthOf(results.value);
        Ok(OrElse(length, JNum(1)))
  }

  /** An array counts its elements; an object counts the elements of a non-empty `results`
      array, and is one record when `results` is missing or empty. */
  lemma RecordCountCases(data: Json)
    ensures data.JArr? ==> RecordCount(data) == Ok(JNum(|data.elems|))
    ensures data.JObj? && FieldValue(data.fields, "results").Some? &&
            FieldValue(data.fields, "results").value.JArr? ==>
              var n := |FieldValue(data.fields, "results").value.elems|;
              RecordCount(data) == Ok(JNum(if n == 0 then 1 else n))
    ensures data.JObj? && FieldValue(data.fields, "results").None? ==> RecordCount(data) == Ok(JNum(1))
  {
  }

  // ---------------------------------------------------------------------------
  // The raw bucket and the queue
  // ---------------------------------------------------------------------------

  /** An object of the raw bucket: the payload (as `JSON.stringify(data, null, 2)` writes
      it) and its metadata. */
  datatype RawObject = RawObject(data: Json, source: string, kind: string, capturedAt: string, hash: string)

  class RawBucket {
    const name: string
    var objects: map<string, RawObject>

    constructor(name: string, initial: map<string, RawObject>)
      ensures this.name == name && objects == initial
    {
      this.name := name;
      objects := initial;
    }

    /** `s3.putObject`: stores the object under `key`, replacing any object there, unless
        the call fails with `fault`. */
    method PutObject(key: string, obj: RawObject, fault: Option<string>) returns (failure: Option<string>)
      modifies this
      ensures failure == fault
      ensures objects == if fault.Some? then old(objects) else old(objects)[key := obj]
    {
      if fault.Some? {
        return fault;
      }
      objects := objects[key := obj];
      return None;
    }
  }

  class MessageQueue {
    var messages: seq<QueueMessage>

    constructor(initial: seq<QueueMessage>)
      ensures messages == initial
    {
      messages := initial;
    }

    /** `sqs.sendMessage`: appends the message unless the call fails with `fault`. */
    method Send(m: QueueMessage, fault: Option<string>) returns (failure: Option<string>)
      modifies this
      ensures failure == fault
      ensures messages == if fault.Some? then old(messages) else old(messages) + [m]
    {
      if fault.Some? {
        return fault;
      }
      messages := messages + [m];
      return None;
    }
  }

  // ---------------------------------------------------------------------------
  // One source, one run
  // ---------------------------------------------------------------------------

  /** What happens while one source is ingested: the outcome of `httpsGet` (the parsed
      payload, or the message of the network or parse error), the clock reading, and the
      failures of the two AWS calls, if they fail. */
  datatype SourceRun = SourceRun(
    fetched: Result<Json>,
    timestamp: string,
    putFault: Option<string>,
    sendFault: Option<string>)

  /** An entry of `results`. */
  datatype SourceResult =
    | Succeeded(source: string, s3Key: string, recordCount: Json)
    | Failed(source: string, error: string)

  /** The response: status 200 whatever happened, with the results and the final clock
      reading. */
  datatype IngestResponse = IngestResponse(statusCode: int, results: seq<SourceResult>, timestamp: string)

  /** The message queued for a payload stored under `key`. */
  function MessageFor(bucketName: string, source: DataSource, key: string, timestamp: string, hash: string,
                      count: Json): QueueMessage {
    QueueMessage(source.name, source.kind, bucketName, key, timestamp, hash, count)
  }

  /** The bucket, the queue and the result after one source: the fetch, the put, the
      count and the send happen in that order and the first that throws ends the source. */
  function IngestSource(objects: map<string, RawObject>, messages: seq<QueueMessage>, bucketName: string,
                        source: DataSource, run: SourceRun, digest: Json -> string)
    : (map<string, RawObject>, seq<QueueMessage>, SourceResult)
  {
    match run.fetched
    case Err(e) => (objects, messages, Failed(source.name, e))
    case Ok(data) =>
      var hash := digest(data);
      var key := S3Key(source.name, run.timestamp, hash);
      if run.putFault.Some? then (objects, messages, Failed(source.name, run.putFault.value))
      else
        var stored := objects[key := RawObject(data, source.name, source.kind, run.timestamp, hash)];
        match RecordCount(data)
        case Err(e) => (stored, messages, Failed(source.name, e))
        case Ok(count) =>
          if run.sendFault.Some? then (stored, messages, Failed(source.name, run.sendFault.value))
          else (stored, messages + [MessageFor(bucketName, source, key, run.timestamp, hash, count)],
                Succeeded(source.name, key, count))
  }

  /** The state and the results once the sources from `i` on have been ingested. */
  function IngestFrom(objects: map<string, RawObject>, messages: seq<QueueMessage>, bucketName: string,
                      runs: seq<SourceRun>, digest: Json -> string, i: nat, results: seq<SourceResult>)
    : (map<string, RawObject>, seq<QueueMessage>, seq<SourceResult>)
    requires |runs| == |DataSources| && i <= |DataSources|
    decreases |DataSources| - i
  {
    if i == |DataSources| then (objects, messages, results)
    else
      var (o, m, r) := IngestSource(objects, messages, bucketName, DataSources[i], runs[i], digest);
      IngestFrom(o, m, bucketName, runs, digest, i + 1, results + [r])
  }

  /** `exports.handler`. `runs[i]` is what happens to the i-th source and `finishedAt` the
      clock reading for the response. */
  method Ingest(bucket: RawBucket, queue: MessageQueue, runs: seq<SourceRun>, digest: Json -> string,
                finishedAt: string) returns (response: IngestResponse)
    requires |runs| == |DataSources|
    modifies bucket, queue
    ensures (bucket.objects, queue.messages, response.results) ==
              IngestFrom(old(bucket.objects), old(queue.messages), bucket.name, runs, digest, 0, [])
    ensures response.statusCode == 200 && response.timestamp == finishedAt
  {
    var results: seq<SourceResult> := [];
    for i := 0 to |DataSources|
      invariant IngestFrom(old(bucket.objects), old(queue.messages), bucket.name, runs, digest, 0, []) ==
                IngestFrom(bucket.objects, queue.messages, bucket.name, runs, digest, i, results)
    {
      var source := DataSources[i];
      var run := runs[i];
      var result: SourceResult;
      if run.fetched.Err? {
        result := Failed(source.name, run.fetched.message);
      } else {
        var data := run.fetched.value;
        var hash := digest(data);
        var key := S3Key(source.name, run.timestamp, hash);
        var putFailure := bucket.PutObject(key, RawObject(data, source.name, source.kind, run.timestamp, hash),
                                           run.putFault);
        if putFailure.Some? {
          result := Failed(source.name, putFailure.value);
        } else {
          var count := RecordCount(data);
          if count.Err? {
            result := Failed(source.name, count.message);
          } else {
            var sendFailure := queue.Send(MessageFor(bucket.name, source, key, run.timestamp, hash, count.value),
                                          run.sendFault);
            if sendFailure.Some? {
              result := Failed(source.name, sendFailure.value);
            } else {
              result := Succeeded(source.name, key, count.value);
            }
          }
        }
      }
      results := results + [result];
    }
    return IngestResponse(200, results, finishedAt);
  }

  // ---------------------------------------------------------------------------
  // What the Ingestor promises
  // ---------------------------------------------------------------------------

  /** A source succeeds exactly when the fetch, the put and the send all go through and the
      payload is not `null`; its result then names the key of the stored payload. */
  lemma SourceSucceeds(objects: map<string, RawObject>, messages: seq<QueueMessage>, bucketName: string,
                       source: DataSource, run: SourceRun, digest: Json -> string)
    ensures var (o, m, r) := IngestSource(objects, messages, bucketName, source, run, digest);
      r.source == source.name &&
      (r.Succeeded? <==> run.fetched.Ok? && run.fetched.value != JNull && run.putFault.None? && run.sendFault.None?) &&
      (r.Succeeded? ==> r.s3Key == S3Key(source.name, run.timestamp, digest(run.fetched.value)) && r.s3Key in o)
  {
  }

  /** The result of a source does not depend on what the bucket and the queue held before:
      one source's failure does not change the next one's outcome. */
  lemma SourceResultIsolated(objects1: map<string, RawObject>, messages1: seq<QueueMessage>,
                             objects2: map<string, RawObject>, messages2: seq<QueueMessage>,
                             bucketName: string, source: DataSource, run: SourceRun, digest: Json -> string)
    ensures IngestSource(objects1, messages1, bucketName, source, run, digest).2 ==
            IngestSource(objects2, messages2, bucketName, source, run, digest).2
  {
  }

  /** One result per source, in the order of `DataSources`, each the one the source would
      have had on its own. */
  lemma {:induction false} ResultsPerSource(objects: map<string, RawObject>, messages: seq<QueueMessage>,
                                            bucketName: string, runs: seq<SourceRun>, digest: Json -> string,
                                            i: nat, results: seq<SourceResult>)
    requires |runs| == |DataSources| && i <= |DataSources|
    ensures var rs := IngestFrom(objects, messages, bucketName, runs, digest, i, results).2;
      |rs| == |results| + |DataSources| - i && rs[..|results|] == results &&
      forall j :: i <= j < |DataSources| ==>
        rs[|results| + j - i] == IngestSource(map[], [], bucketName, DataSources[j], runs[j], digest).2
    decreases |DataSources| - i
  {
    if i < |DataSources| {
      var (o, m, r) := IngestSource(objects, messages, bucketName, DataSources[i], runs[i], digest);
      SourceResultIsolated(objects, messages, map[], [], bucketName, DataSources[i], runs[i], digest);
      ResultsPerSource(o, m, bucketName, runs, digest, i + 1, results + [r]);
      var rs := IngestFrom(objects, messages, bucketName, runs, digest, i, results).2;
      assert rs[..|results| + 1] == results + [r];
      assert rs[..|results|] == (results + [r])[..|results|];
    }
  }

  /** The handler answers with one result per source, in order, and status 200. */
  lemma IngestAnswers(objects: map<string, RawObject>, messages: seq<QueueMessage>, bucketName: string,
                      runs: seq<SourceRun>, digest: Json -> string)
    requires |runs| == |DataSources|
    ensures var rs := IngestFrom(objects, messages, bucketName, runs, digest, 0, []).2;
      |rs| == 2 && rs[0].source == "jsonplaceholder" && rs[1].source == "randomuser" &&
      rs[0] == IngestSource(map[], [], bucketName, DataSources[0], runs[0], digest).2 &&
      rs[1] == IngestSource(map[], [], bucketName, DataSources[1], runs[1], digest).2
  {
    ResultsPerSource(objects, messages, bucketName, runs, digest, 0, []);
    SourceSucceeds(map[], [], bucketName, DataSources[0], runs[0], digest);
    SourceSucceeds(map[], [], bucketName, DataSources[1], runs[1], digest);
  }

  /** Every queued message points to an object of the bucket. */
  predicate Backed(objects: map<string, RawObject>, messages: seq<QueueMessage>) {
    forall j :: 0 <= j < |messages| ==> messages[j].s3Key in objects
  }

  /** The bucket only gains keys, and a message is queued only after its payload was
      stored: the new message carries the run's clock reading and the payload's digest, names
      the key built from exactly these, and the object stored there is the fetched payload
      with the same source, timestamp and hash. */
  lemma PutThenSend(objects: map<string, RawObject>, messages: seq<QueueMessage>, bucketName: string,
                    source: DataSource, run: SourceRun, digest: Json -> string)
    ensures var (o, m, r) := IngestSource(objects, messages, bucketName, source, run, digest);
      objects.Keys <= o.Keys &&
      (m == messages || (|m| == |messages| + 1 && m[..|messages|] == messages &&
         var msg := m[|messages|];
         run.fetched.Ok? && msg.source == source.name && msg.kind == source.kind &&
         msg.capturedAt == run.timestamp && msg.hash == digest(run.fetched.value) &&
         msg.s3Key == S3Key(msg.source, msg.capturedAt, msg.hash) &&
         msg.s3Key in o && o[msg.s3Key] == RawObject(run.fetched.value, source.name, source.kind, run.timestamp, msg.hash) &&
         msg.bucket == bucketName && r == Succeeded(msg.source, msg.s3Key, msg.recordCount)))
    ensures var (o, m, r) := IngestSource(objects, messages, bucketName, source, run, digest);
      Backed(objects, messages) ==> Backed(o, m)
  {
    var (o, m, r) := IngestSource(objects, messages, bucketName, source, run, digest);
    if m != messages {
      assert m[..|messages|] == messages;
    }
  }

  /** A run keeps every queued message backed by a stored object. */
  lemma {:induction false} IngestKeepsBacked(objects: map<string, RawObject>, messages: seq<QueueMessage>,
                                             bucketName: string, runs: seq<SourceRun>, digest: Json -> string,
                                             i: nat, results: seq<SourceResult>)
    requires |runs| == |DataSources| && i <= |DataSources| && Backed(objects, messages)
    ensures var (o, m, _) := IngestFrom(objects, messages, bucketName, runs, digest, i, results);
      Backed(o, m) && objects.Keys <= o.Keys
    decreases |DataSources| - i
  {
    if i < |DataSources| {
      var (o, m, r) := IngestSource(objects, messages, bucketName, DataSources[i], runs[i], digest);
      PutThenSend(objects, messages, bucketName, DataSources[i], runs[i], digest);
      IngestKeepsBacked(o, m, bucketName, runs, digest, i + 1, results + [r]);
    }
  }

  /** A `null` payload is stored, but the count then throws, so no message is queued and
      the source is reported as failed. */
  lemma NullPayloadStoredNotQueued(objects: map<string, RawObject>, messages: seq<QueueMessage>, bucketName: string,
                                   source: DataSource, run: SourceRun, digest: Json -> string)
    requires run.fetched == Ok(JNull) && run.putFault.None?
    ensures var (o, m, r) := IngestSource(objects, messages, bucketName, source, run, digest);
      S3Key(source.name, run.timestamp, digest(JNull)) in o && m == messages &&
      r == Failed(source.name, ReadError("null", "results"))
  {
  }

  /** The Transformer, reading the payload a queued message points to, writes records
      whose raw key is that stored object's key and whose source is the message's. */
  lemma QueuedRecordsPointAtPayload(objects: map<string, RawObject>, messages: seq<QueueMessage>, bucketName: string,
                                    source: DataSource, run: SourceRun, digest: Json -> string,
                                    processedAt: string, fingerprint: Json -> string)
    ensures var (o, m, r) := IngestSource(objects, messages, bucketName, source, run, digest);
      r.Succeeded? ==>
        |m| > 0 && m[|m| - 1].s3Key in o &&
        var msg := m[|m| - 1];
        var c := Transformer.Candidates(msg, o[msg.s3Key].data, processedAt, fingerprint);
        c.Ok? ==> forall rec :: rec in c.value ==>
                    rec.rawKey == msg.s3Key && rec.rawKey in o && rec.source == source.name &&
                    o[rec.rawKey].capturedAt == msg.capturedAt && o[rec.rawKey].hash == msg.hash
  {
    var (o, m, r) := IngestSource(objects, messages, bucketName, source, run, digest);
    PutThenSend(objects, messages, bucketName, source, run, digest);
    if r.Succeeded? {
      var msg := m[|m| - 1];
      var c := Transformer.Candidates(msg, o[msg.s3Key].data, processedAt, fingerprint);
      if c.Ok? {
        Transformer.CandidatesFromMessage(msg, o[msg.s3Key].data, processedAt, fingerprint);
      }
    }
  }

  /** What the Transformer makes of a queued payload: a `jsonplaceholder` array of n posts
      gives min(n, 10) records while the message counts n; a `randomuser` object with a
      non-empty `results` array gives as many records as the message counts, and an empty
      one gives none while the message counts one. */
  lemma CountsAgree(data: Json, m: QueueMessage, processedAt: string, digest: Json -> string)
    requires m.source == "jsonplaceholder" || m.source == "randomuser"
    requires RecordCount(data) == Ok(m.recordCount)
    requires Transformer.Candidates(m, data, processedAt, digest).Ok?
    requires m.source == "jsonplaceholder" ==> data.JArr?
    requires m.source == "randomuser" ==>
               data.JObj? && FieldValue(data.fields, "results").Some? && FieldValue(data.fields, "results").value.JArr?
    ensures var n := |Transformer.Candidates(m, data, processedAt, digest).value|;
      (m.source == "jsonplaceholder" ==>
         m.recordCount == JNum(|data.elems|) && n == if |data.elems| <= 10 then |data.elems| else 10) &&
      (m.source == "randomuser" ==> (m.recordCount == JNum(if n == 0 then 1 else n)))
  {
    RecordCountCases(data);
    if m.source == "jsonplaceholder" {
      Transformer.PostsCount(m, data, processedAt, digest);
    } else {
      var users := FieldValue(data.fields, "results").value.elems;
      Transformer.UsersFromArray(m, data, users, processedAt, digest);
    }
  }
}
