# donkey-iot-ingest, modelled in Dafny

`donkey-iot-ingest` is an AWS Lambda function. It turns the INSERT events of
a DynamoDB stream of donkeycar telemetry into objects in an S3 bucket. Each
INSERT whose image decodes becomes two objects, the image first:

- the decoded camera frame;
- a four-field JSON record.

An undecodable image is logged and skipped. A failed upload or marshal ends
the invocation.

Both go under a per-process run prefix, the "tub". When the process starts,
it writes a manifest (`meta.json`) describing the records, and only then
starts serving events.

This project models that pipeline and proves what it promises.

| file | module | what it holds |
|---|---|---|
| `wrappers.dfy` | `Wrappers` | `Option` |
| `decimal.dfy` | `Decimal` | Go's `%d` rendering of integers, its read-back and injectivity |
| `naming.dfy` | `Naming` | the run prefix `tub_{Y}-{M}-{D}_{h}{m}` and the image, record and manifest keys |
| `telemetry.dfy` | `Telemetry` | the change record and telemetry sample, the JSON record projection, the manifest body |
| `bucket.dfy` | `Bucket` | the S3 bucket as a class logging every put attempt with its outcome; the objects the log leaves behind |
| `handler.dfy` | `Handler` | the handler loop as an imperative method, proved against a specification function of the attempts it makes |
| `behaviour.dfy` | `Behaviour` | the handler's *plan*: the puts it means to make, independent of upload outcomes |
| `startup.dfy` | `Startup` | `generateMeta` and `main`: the manifest first, then the handler |

## How the model is built

The S3 uploader is a `Bucket` object. Every `Upload` appends an
`Attempt(key, body, ok)` to its log. The outcome of the `k`-th attempt is
`succeeds(k)`, a function fixed when the bucket is created. It stands for
the network and the S3 service. The objects the bucket holds are derived
from that log: a successful put replaces the key's body, and a failed one
changes nothing.

`log.Panic` ends the invocation: the methods return `panicked = true` and
make no further attempt. `log.Errorln` after a bad base64 image only skips
the record.

Two things are supplied from outside, as function parameters:

- base64 decoding (RFC 4648, section 4), as a `Decoder`;
- `json.Marshal`, as a `Marshaller`.

Each returns `None` where Go returns an error.

The handler's behaviour is stated twice, and the two statements are proved
equal:

- `Handler.BatchAttempts` follows the code: record by record, up to the first
  panic.
- `Behaviour.BatchPlan` is the list of puts the handler means to make.
  `Behaviour.Execute` carries out such a list, in order, until the first
  failure.

The handler writes the image before the JSON record. Any failure panics:
the image upload, the JSON marshal or the JSON upload
(`src/donkey-iot-ingest/main.go:68-73`, `:86-90`, `:97-102`). So a failed
image upload means no JSON record for that event and nothing for any later
event. The `return` at line 73 is never reached, because `log.Panic` does
not return.

## Model

| member | source | states |
|---|---|---|
| Decimal.NatToDecimal | src/donkey-iot-ingest/main.go:33 | `%d` of a natural is a non-empty string of digits with no leading zero (except `0` itself) |
| Decimal.DecimalRoundTrip | src/donkey-iot-ingest/main.go:33 | reading a rendered natural back as decimal digits gives the number |
| Decimal.NatToDecimalInjective | src/donkey-iot-ingest/main.go:33 | two naturals render alike if and only if they are equal |
| Decimal.IntToDecimal | src/donkey-iot-ingest/main.go:77 | `%d` of an `int64` starts with `-` exactly when it is negative; the digits that follow have no leading zero (except `0` itself) |
| Decimal.IntDecimalRoundTrip | src/donkey-iot-ingest/main.go:77 | reading a rendered integer back (sign, then decimal digits) gives the integer, whatever its sign |
| Decimal.IntToDecimalInjective | src/donkey-iot-ingest/main.go:77 | two integers of any signs render alike if and only if they are equal |
| Naming.RunPrefix | src/donkey-iot-ingest/main.go:33 | the run prefix `tub_{Y}-{M}-{D}_{h}{m}`, unpadded; its shape and collisions are stated by the three lemmas below |
| Naming.RunPrefixShape | src/donkey-iot-ingest/main.go:33 | the run prefix starts with `tub_` and contains no `/`, so it is one path segment |
| Naming.RunPrefixEquality | src/donkey-iot-ingest/main.go:33 | two clock readings give the same prefix exactly when they agree on year, month and day and on the concatenated hour and minute digits |
| Naming.RunPrefixCollision | src/donkey-iot-ingest/main.go:33 | the prefix is not injective: on any day, 01:15 and 11:05 are distinct valid readings with the same prefix |
| Naming.ImageKey | src/donkey-iot-ingest/main.go:62 | the image key lies under the run prefix, and what follows `{tub}/` is the record's `cam/image_array` |
| Naming.RecordKey | src/donkey-iot-ingest/main.go:77 | the JSON record key lies under the run prefix, and what follows `{tub}/` is the record's name |
| Naming.RecordNameReadsBack | src/donkey-iot-ingest/main.go:77 | a record's name is `record_`, a signed decimal, `.json`, and that decimal reads back as `current_ix` |
| Naming.MetaKey | src/donkey-iot-ingest/main.go:111 | the manifest key lies under the run prefix, and what follows `{tub}/` is `meta.json` |
| Naming.RecordKeyInjective | src/donkey-iot-ingest/main.go:77 | within a run, two JSON record keys are equal if and only if their `current_ix` values are equal |
| Naming.KeySplitsAtRun | src/donkey-iot-ingest/main.go:62 | a key `{tub}/{name}` determines both its run prefix and its name |
| Naming.RecordKeyIsNotMeta | src/donkey-iot-ingest/main.go:77 | a JSON record key is never the manifest key of its run |
| Naming.RecordKeyIsNotMetaKey | src/donkey-iot-ingest/main.go:111 | a JSON record key is never the manifest key of any run |
| Naming.ImageKeyCollisions | src/donkey-iot-ingest/main.go:62 | an image key is the manifest key, or the key of JSON record `i`, exactly when `cam/image_array` is `meta.json`, or `record_{i}.json` |
| Naming.RunOfKey | src/donkey-iot-ingest/main.go:33 | a key lies under at most one run prefix, so runs with different prefixes never write each other's keys |
| Telemetry.IsInsert | src/donkey-iot-ingest/main.go:41 | the event filter, `EventName == "INSERT"`; Behaviour.SkippedRecords and Behaviour.RunSkipsSilent state what it lets through |
| Telemetry.ToJsonRecord | src/donkey-iot-ingest/main.go:78-83 | the JSON record built from a sample; the two lemmas below state what it keeps |
| Telemetry.JsonRecordCopiesSample | src/donkey-iot-ingest/main.go:141-146 | the JSON record has exactly four members, in order `user/mode`, `cam/image_array`, `user/throttle`, `user/angle`; each holds the sample's value for that field |
| Telemetry.JsonRecordKeepsExactly | src/donkey-iot-ingest/main.go:130-146 | two samples give the same JSON record if and only if they agree on the four kept fields; `time`, `vehicleID`, `image` and `current_ix` are dropped |
| Telemetry.MetaIsRenderedManifest | src/donkey-iot-ingest/main.go:20 | the manifest body is the JSON document listing the types `image_array, float, float, str` and the inputs by their JSON tags |
| Telemetry.ManifestDescribesRecord | src/donkey-iot-ingest/main.go:20 | the manifest lists the JSON record's fields (as a multiset), one type per input: `float` exactly for the numeric fields, `str` for `user/mode`, `image_array` for `cam/image_array` |
| Telemetry.MetaIsAscii | src/donkey-iot-ingest/main.go:115 | the manifest is ASCII, so its UTF-8 bytes are its characters |
| Telemetry.AsciiBytes | src/donkey-iot-ingest/main.go:115 | the bytes of an ASCII string, read back one character per byte, are the string |
| Telemetry.MetaBody | src/donkey-iot-ingest/main.go:115 | `[]byte(meta)`, read back one character per byte, is the manifest text |
| Bucket.Stored | src/donkey-iot-ingest/main.go:63-67 | the objects a sequence of put attempts leaves; the three lemmas below state how |
| Bucket.LastWriteWins | src/donkey-iot-ingest/main.go:63-67 | a key holds the body of the last successful put to it |
| Bucket.UntouchedKey | src/donkey-iot-ingest/main.go:63-67 | a key that no successful put names keeps its previous contents (or absence) |
| Bucket.StoredAppend | src/donkey-iot-ingest/main.go:63-67 | the objects after two runs of puts are those after the first, updated by the second |
| Bucket.Bucket.constructor | src/donkey-iot-ingest/main.go:30 | a fresh uploader has made no attempt and the bucket holds its initial objects |
| Bucket.Bucket.Upload | src/donkey-iot-ingest/main.go:63-67 | a put is logged with the outcome for its position; on success the key holds the body, and on failure nothing changes |
| Handler.RecordAttempts | src/donkey-iot-ingest/main.go:41-105 | the uploads one record causes; Behaviour.RecordExecutesPlan and Behaviour.SkippedRecords state them as a plan carried out |
| Handler.HandleRecord | src/donkey-iot-ingest/main.go:41-105 | one record's uploads are those `RecordAttempts` describes: none for a non-INSERT or an undecodable image; else the image, then the JSON record only if the image put succeeded and the record marshalled; it panics on any failure |
| Handler.Run | src/donkey-iot-ingest/main.go:39-107 | the loop over records up to the first panic; Handler.RunSplit and Handler.RunStops state how it composes |
| Handler.BatchAttempts | src/donkey-iot-ingest/main.go:36-108 | the handler's uploads for a batch; Behaviour.BatchExecutesPlan and Behaviour.HandlerFollowsPlan state them |
| Handler.Handle | src/donkey-iot-ingest/main.go:36-108 | the handler's attempts and panic are `BatchAttempts` for the batch, numbered from the bucket's log; the bucket then holds what those attempts made of its old contents |
| Handler.RunSplit | src/donkey-iot-ingest/main.go:39 | the loop over `a + b` is the loop over `a`, followed (only if `a` did not panic) by the loop over `b`, numbered after it |
| Handler.RunStops | src/donkey-iot-ingest/main.go:39-107 | once a record panics, no later record is processed |
| Behaviour.RecordExecutesPlan | src/donkey-iot-ingest/main.go:57-102 | one record's uploads carry out its plan: image then JSON record, in order until the first failure |
| Behaviour.ExecuteIncomplete | src/donkey-iot-ingest/main.go:85-90 | a plan cut short by a failed marshal always ends in a panic, whatever the upload outcomes |
| Behaviour.RunExecutes | src/donkey-iot-ingest/main.go:39-107 | a loop whose records each carry out their plan carries out the concatenated plan, up to the first plan that cannot complete |
| Behaviour.BatchExecutesPlan | src/donkey-iot-ingest/main.go:36-108 | the handler's uploads for a batch are exactly the batch plan carried out in order until the first failure |
| Behaviour.ExecuteFollows | src/donkey-iot-ingest/main.go:63-102 | carrying out a plan issues a prefix of its puts; each outcome matches its attempt number; only the last attempt can fail; it stops early only after a failure; it panics exactly when a put failed or the plan cannot complete |
| Behaviour.HandlerFollowsPlan | src/donkey-iot-ingest/main.go:36-108 | the handler's uploads follow the batch plan in that sense |
| Behaviour.FollowsWhenClean | src/donkey-iot-ingest/main.go:36-108 | when no upload fails, exactly the planned puts are made, and the handler panics only if a JSON record failed to marshal |
| Behaviour.FollowsWhenFailed | src/donkey-iot-ingest/main.go:68-73 | a failed upload is the last upload of the invocation, which then panics |
| Behaviour.SkippedRecords | src/donkey-iot-ingest/main.go:39-60 | a record leads to no attempt and no panic, and plans no put, if and only if it is not an INSERT or its image does not decode |
| Behaviour.RunSkipsSilent | src/donkey-iot-ingest/main.go:39-41 | records that lead to no attempt can be dropped from the batch without changing what the loop does |
| Behaviour.OnlyKeptRecordsMatter | src/donkey-iot-ingest/main.go:39-60 | the handler does the same on the batch as on its INSERTs whose image decodes |
| Behaviour.BatchPlanKeys | src/donkey-iot-ingest/main.go:62-77 | every planned put lies under the run prefix; none is the manifest key when no INSERT of the batch whose image decodes names its image `meta.json` (the hypothesis covers the whole batch, records after a panic included) |
| Startup.GenerateMeta | src/donkey-iot-ingest/main.go:110-123 | one put of the manifest body at `{tub}/meta.json`; it panics exactly when that put fails; on success the key holds the manifest |
| Startup.ColdStartAttempts | src/donkey-iot-ingest/main.go:125-128 | the uploads of a fresh process and its first invocation; Startup.ColdStartExecutesPlan states them as a plan carried out |
| Startup.ColdStart | src/donkey-iot-ingest/main.go:125-128 | the manifest put comes first; the handler runs only if that put succeeded; the attempts, the panic and the bucket are those `ColdStartAttempts` describes |
| Startup.ColdStartExecutesPlan | src/donkey-iot-ingest/main.go:125-128 | a cold start carries out the plan of the manifest put followed by the batch plan |
| Startup.ColdStartStaysInRun | src/donkey-iot-ingest/main.go:32-33 | every upload of a process lies under the run prefix computed from its start-up clock |
| Startup.ManifestSurvives | src/donkey-iot-ingest/main.go:110-127 | after a successful manifest put, the manifest key still holds the manifest body at the end of the invocation, provided no INSERT of the batch whose image decodes names its image `meta.json` (the hypothesis covers the whole batch, records after a panic included) |

## Left out

- The AWS session, the `s3manager` uploader's construction, the `TARGET_BUCKET` variable and `lambda.Start` are not modelled. Uploads are `Bucket.Bucket.Upload` with an outcome supplied by `succeeds`.
- Bucket.Bucket.Upload: a failed put is assumed to leave the bucket unchanged. S3 puts are atomic per object, but the uploader's multipart behaviour is not modelled.
- Bucket.Bucket.Upload: outcomes depend only on the attempt's position in the log, not on the key or body. Any outcome sequence can still be expressed.
- logrus logging is not modelled. `Panic` is kept as the end of the invocation, and `Errorln` as continuing with the next record.
- `time.Now` is not modelled. The clock reading is a `Timestamp` parameter. Naming.RunPrefixCollision assumes a valid calendar reading, but `RunPrefix` does not require one.
- Base64 decoding is the `Decoder` parameter: the decoded bytes, or `None`. The RFC 4648 decoder itself is not modelled.
- `json.Marshal` is the `Marshaller` parameter: the bytes, or `None` on error. The JSON text is not modelled. Only the members, their order and their values are (`Telemetry.Members`).
- `float64` values are opaque 64-bit patterns, passed through unchanged and never computed with.
- The DynamoDB attribute accessors are not modelled. Their panics on missing or ill-typed attributes are not modelled either. A record carries the values they return when they return; their error results are discarded, as in the source.
- A process serves one invocation after start-up. Later invocations of a warm process share its run prefix, and what the runtime does after a handler panic is not modelled.
- Concurrent invocations are not modelled.
