# Synthetic-traffic generator: destination resolution and append logic

This project is a Dafny model of the core of a small Go program (`main.go`). The program loops forever, and each iteration:
1. draws a random sentence and encrypts it with KMS;
2. writes the base64 ciphertext as one event to a CloudWatch Logs stream;
3. appends the plaintext to a storage destination: an S3 object or a DynamoDB table.

The model covers the part of that loop that makes decisions:
- how the ARNs in the configuration are split into fields;
- how `STORAGE_ARN` picks the S3 or the DynamoDB branch by prefix;
- how the bucket, table and log-group names are read from fixed field indices;
- the S3 read-modify-write append, the DynamoDB insert, and log delivery with idempotent stream creation;
- the small pure pieces of `main`: the required-configuration check, the log-stream name and the sleep duration.

Modules, one file each:
- `wrappers.dfy` (`Wrappers`): `Option` and `Result`.
- `errors.dfy` (`Errors`): the errors the program can return, and `Effect`, a pair of an optional error and the state left behind.
- `go_strings.dfy` (`GoStrings`): Go's `strings.Split` with a one-character separator, its inverse `Join`, and `strings.ReplaceAll(s, pat, "")` as `RemoveAll`.
- `arn.dfy` (`Arn`): field extraction, `ResolveStorage` (the storage dispatch) and `LogGroupName`.
- `storage.dfy` (`Storage`): the S3 and DynamoDB services as classes with in-place state, `WriteToStorage`, and the function `Store` that specifies it.
- `logs.dfy` (`Logs`): the CloudWatch Logs service as a class, `WriteToCloudWatchLog`, and the function `Deliver` that specifies it.
- `driver.dfy` (`Driver`): the configuration check, the stream name and its inverse, the sleep duration, and one loop iteration.

Each AWS service is a class whose fields hold the stored state:
- `ObjectStore.objects`: S3 objects, keyed by (bucket, key).
- `KeyValueStore.tables`: DynamoDB rows per table, in insertion order.
- `LogService.streams`: log events per (group, stream), in submission order.

Each SDK call is a method on its class. Whether a call fails for a reason outside the program is an input `fault`. Two answers do not come from an input but from the stored state:
- NoSuchKey: the key is absent.
- already-exists: the stream is present.

The random identifier, the timestamp and the key service's answer are parameters too.

Two behaviours of the code that are easy to misread, and one deliberate departure from it:
- The DynamoDB table name is field 5 with every `table/` removed wherever it occurs (`strings.ReplaceAll`). It is not a strip of a leading `table/` only. `Arn.RemovesOccurrence` proves that each occurrence is removed in turn, and `Arn.TablePathRemovedEverywhere` shows `table/a/table/b` becoming `a/b`.
- The S3 bucket is always field 5. So `arn:aws:s3:::x:x:mybucket` resolves to bucket `x`, not `mybucket` (`Arn.BucketArnShapes`). The ordinary form `arn:aws:s3:::mybucket` resolves to `mybucket`.
- The departure: indexing a split ARN past its end panics in Go. The model returns the explicit error `ArnTooShort(index)` instead, and nothing is written.

## Model

| member | source | states |
|---|---|---|
| GoStrings.Split | main.go:61 | `strings.Split` on a colon gives one field more than there are separators, and no field contains the separator |
| GoStrings.JoinSplit | main.go:61 | joining the fields of a split with the separator gives back the original string, so no character is lost |
| GoStrings.SplitJoin | main.go:61 | splitting separator-free fields joined by the separator gives back exactly those fields (Split inverts Join) |
| GoStrings.RemoveAll | main.go:100 | `strings.ReplaceAll(s, "table/", "")` never lengthens its input and only keeps characters of its input |
| GoStrings.RemoveAllUnchangedIff | main.go:100 | the replacement leaves a field unchanged if and only if `table/` does not occur in it |
| Arn.Field | main.go:61 | field i exists exactly when the ARN has at least i colons (more than i fields); otherwise the error is ArnTooShort(i), where Go panics; a field never contains a colon |
| Arn.ResolveStorage | main.go:60-115 | invalid-storage-ARN error exactly when neither `arn:aws:s3` nor `arn:aws:dynamodb` is a prefix; a bucket exactly for the S3 prefix with at least 6 fields; a table exactly for the DynamoDB prefix with at least 6 fields |
| Arn.LogGroupName | main.go:120 | the log group exists exactly when the ARN has at least 7 fields; otherwise ArnTooShort(6) |
| Arn.FieldOfJoined | main.go:61 | field i of colon-joined fields is the i-th of them, whatever colon-led text follows |
| Arn.S3BucketIsFieldFive | main.go:60-61 | for every `arn:aws:s3...` ARN the bucket is exactly field 5, whatever follows it |
| Arn.DynamoTableIsFieldFive | main.go:98-100 | for every `arn:aws:dynamodb...` ARN the table is field 5 with every `table/` removed, whatever follows it |
| Arn.TablePathRemoved | main.go:100 | for a name that holds no `table/`, `table/<name>` gives `<name>` and the name alone is kept unchanged |
| Arn.RemovesOccurrence | main.go:100 | every `table/` is deleted: one that follows `table/`-free text is removed and that text is kept, for every text after it, so the removal reaches each occurrence in turn |
| Arn.TablePathRemovedEverywhere | main.go:100 | `table/` is removed in the middle of the field too, not only at its start |
| Arn.BucketArnShapes | main.go:60-61 | `arn:aws:s3:::<b>` resolves to bucket `<b>`; `arn:aws:s3:::<x>:<x>:<b>` resolves to `<x>` |
| Arn.TableArnWithPath | main.go:98-100 | `arn:aws:dynamodb:<region>:<account>:table/<name>` resolves to table `<name>`, for a name that holds no `table/` |
| Arn.TableArnWithoutPath | main.go:98-100 | `arn:aws:dynamodb:<region>:<account>:<name>` resolves to table `<name>`, for a name that holds no `table/` |
| Arn.ExampleInvalidArn | main.go:115 | every `arn:aws:sqs...` ARN is refused with the invalid-storage-ARN error |
| Arn.LogGroupIsFieldSix | main.go:120 | for `arn:aws:logs:<region>:<account>:log-group:<name>...` the log group is exactly `<name>` |
| Storage.ObjectStore.GetObject | main.go:69-75 | a present key yields its body, an absent key NoSuchKey, and any other failure an error |
| Storage.ObjectStore.PutObject | main.go:88-96 | the object at (bucket, key) is overwritten with the body and content type; a failed put changes nothing |
| Storage.KeyValueStore.PutItem | main.go:108-112 | exactly one row is appended to the table; a failed put changes nothing and returns the store's error |
| Storage.WriteToStorage | main.go:59-116 | the error returned and the new state of both services are those given by `Store` for the old state |
| Storage.StoreFailureChangesNothing | main.go:69-115 | on every error path neither the objects nor the tables change; an ARN with neither prefix gives the invalid-storage-ARN error and nothing else |
| Storage.AppendToObjectErrors | main.go:69-96 | the S3 append fails exactly when one of three things fails: GetObject with anything but NoSuchKey, the body read of an existing object, or PutObject; a GetObject failure is reported as such; a failure leaves the objects unchanged |
| Storage.AppendToObjectWrites | main.go:84-93 | a successful append sets (bucket, `index.html`) to old content + "\n" + message as `text/html`; a missing key counts as ""; no other object changes |
| Storage.AppendTwiceToMissingObject | main.go:68-93 | appending A then B to a missing object leaves exactly "\nA\nB" |
| Storage.AppendAllJournal | main.go:86 | successive appends extend the object by "\n" + message for each message, in order |
| Storage.AppendedLines | main.go:86 | an object built by appends of single-line messages, split into lines, is an empty first line followed by the messages in order |
| Storage.InsertRowAppendsOne | main.go:100-112 | a successful insert adds exactly one row {id, message} after the table's existing rows, and other tables are untouched; a failure returns the store's error as it is and changes nothing |
| Storage.InsertTwice | main.go:101-112 | two inserts of the same message under two different ids keep both rows, in order, each with its own id |
| Storage.AppendTwiceThroughS3 | main.go:59-97 | two calls of writeToStorage on `arn:aws:s3:::<bucket>` starting from nothing leave "\nA\nB" in `index.html` |
| Logs.LogService.CreateLogStream | main.go:123-134 | a new stream starts empty; an existing stream gives already-exists and is left alone; any other failure changes nothing |
| Logs.LogService.PutLogEvents | main.go:137-149 | the events are appended to an existing stream in order; a failed put changes nothing |
| Logs.WriteToCloudWatchLog | main.go:119-150 | the error returned and the new streams are those given by `Deliver` for the old streams |
| Logs.DeliverAppendsOneEvent | main.go:120-149 | a successful delivery appends exactly one event {timestamp, ciphertext} to the stream (field 6 of the ARN, stream name); no other stream changes |
| Logs.DeliverFailureAppendsNothing | main.go:123-149 | a failed delivery appends no event anywhere; a failed CreateLogStream (other than already-exists) changes nothing and is reported as such |
| Logs.ExistingStreamAccepted | main.go:127-134 | an already-existing stream is not an error: the event is appended after the events already there |
| Logs.DeliverTwice | main.go:119-150 | two deliveries to the same stream both succeed and leave the two events in call order |
| Logs.DeliverTwiceThroughCloudWatch | main.go:119-150 | two calls of writeToCloudWatchLog for one pod stream in a new log group leave exactly the two events, in order |
| Driver.CheckConfig | main.go:168-170 | startup fails with a configuration error exactly when one of the three ARNs is empty |
| Driver.PodVariablesOptional | main.go:168-178 | the pod namespace and IP play no part in the startup check |
| Driver.StreamNameRoundTrip | main.go:180 | the stream name `podIp + "-POD-" + podNamespace` reads back as the IP and namespace when the IP has no `-`, and any name that reads back was built that way |
| Driver.SleepDuration | main.go:205-208 | the sleep is between 30 and 60 whole seconds and fits time.Duration's int64 nanoseconds |
| Driver.SleepCoversRange | main.go:205-208 | every whole number of seconds from 30 to 60 is slept for exactly one random draw |
| Driver.RunIteration | main.go:182-203 | a failed encryption changes nothing; otherwise the ciphertext is delivered first; a log failure leaves storage untouched; else the plaintext is stored as `Store` gives |

## Left out

- KMS `Encrypt` and its base64 encoding of the ciphertext (`encryptMessage`): a call into the key service. Its answer is an input of `RunIteration`.
- `generateRandomSentence` (gofakeit seeded from `crypto/rand`), `gonanoid.New(10)` and the random draw for the sleep: randomness. Their results are parameters. The id is required to be 10 characters from the nanoid alphabet.
- `time.Now().UnixMilli()` and `time.Sleep`: the clock. The timestamp is an input, modelled as an unbounded integer rather than an int64.
- `config.LoadDefaultConfig`, client construction, `context.TODO()` and the network: each SDK call is a method on an abstract store whose failure is an input.
- `os.Getenv`, `log.Fatalf` process exit and all `fmt.Printf`/`log.Printf` output. The configuration is a record. A fatal error is the error value returned.
- The text of the `fmt.Errorf` messages: errors keep only which step failed and the service's cause.
- The infinite `for` loop of `main` as a whole. One iteration is modelled (`RunIteration`), and the sleep only as its duration.
- Whether buckets, tables and log groups exist: a missing one shows up as an injected fault. A table never written to reads as having no rows.
- DynamoDB's overwrite of an item whose `id` is already present: the rows are a sequence. With random 10-character ids a collision is not expected, and the program does not check for one.
- Concurrent writers to the same S3 object: the read-modify-write is sequential here. The lost update two writers could cause is not modelled.
- The `defer result.Body.Close()` of the fetched object: resource release only.
