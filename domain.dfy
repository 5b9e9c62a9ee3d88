/** The values the three handlers pass to one another: the queue message the Ingestor
    sends and the Transformer receives, and the curated record the Transformer writes and
    the query API reads. */
module Domain {
  import opened Outcomes
  import opened Json

  /** The body of a queue message (services/ingestion/index.js, the `message` object). */
  datatype QueueMessage = QueueMessage(
    source: string,
    kind: string,          // the source's `type`, "posts" or "users"
    bucket: string,        // `s3Bucket`
    s3Key: string,
    capturedAt: string,
    hash: string,
    recordCount: Json)     // any value: `data.results?.length || 1` need not be a number

  /** The fields each source kind adds to the common envelope of a curated record. */
  datatype Fields =
    | PostFields(title: Json, body: Json, userId: string)
    | UserFields(name: string, email: Option<Json>, country: Option<Json>, gender: Option<Json>)

  /** An item of the curated table, keyed by `id`. `capturedAt` is optional because the
      query API also reads items that lack `captured_at`. */
  datatype Record = Record(
    id: string,
    source: string,
    capturedAt: Option<string>,
    rawKey: string,        // `raw_s3_key`
    fingerprint: string,
    processedAt: string,
    fields: Fields)
}
