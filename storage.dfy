/**
 * writeToStorage (main.go): append one plaintext message to the storage
 * destination named by STORAGE_ARN.
 *   - S3: read `index.html` from the bucket (a missing key reads as ""), and
 *     overwrite it with the old content, a newline and the message.
 *   - DynamoDB: insert one row {id, message} into the table.
 * The two services are classes whose fields are the stored state; each SDK
 * call is a method that takes the failure it may report as a parameter
 * (`fault`), since whether a network call fails is outside the program.
 * The whole operation is specified by the function Store, and the lemmas
 * below state what the program promises about it.
 */
module Storage {
  import opened Wrappers
  import opened Errors
  import opened GoStrings
  import opened Arn

  /** The only object key the program reads and writes. */
  const IndexKey := "index.html"
  const HtmlContentType := "text/html"
  /** The alphabet gonanoid draws identifiers from. */
  const NanoIdAlphabet := "_-0123456789abcdefghijklmnopqrstuvwxyzABCDEFGHIJKLMNOPQRSTUVWXYZ"

  datatype ObjectKey = ObjectKey(bucket: string, key: string)
  datatype StoredObject = StoredObject(body: string, contentType: string)
  type ObjectMap = map<ObjectKey, StoredObject>

  /** A DynamoDB item with the two string attributes the program writes. */
  datatype Row = Row(id: string, message: string)
  type TableMap = map<string, seq<Row>>

  /** What GetObject answers: the body, NoSuchKey, or another error. */
  datatype GetResult = Found(body: string) | NoSuchKey | GetError(cause: string)

  /** The failure, if any, each SDK call of writeToStorage reports. */
  datatype StorageFaults = StorageFaults(
    getObject: Option<string>,
    readBody: Option<string>,
    putObject: Option<string>,
    putItem: Option<string>)

  const NoStorageFaults := StorageFaults(None, None, None, None)

  /** The state of both storage services. */
  datatype Stores = Stores(objects: ObjectMap, tables: TableMap)

  /** A 10-character identifier over the nanoid alphabet, as gonanoid.New(10) returns. */
  predicate IsNanoId(id: string)
  {
    |id| == 10 && forall c :: c in id ==> c in NanoIdAlphabet
  }

  /** The S3 service: objects by (bucket, key). */
  class ObjectStore {
    var objects: ObjectMap

    constructor (initial: ObjectMap)
      ensures objects == initial
    {
      objects := initial;
    }

    /** GetObject: a present key yields its body, an absent one NoSuchKey,
        unless the call fails for another reason. */
    method GetObject(bucket: string, key: string, fault: Option<string>) returns (r: GetResult)
      ensures fault.Some? ==> r == GetError(fault.value)
      ensures fault.None? && ObjectKey(bucket, key) in objects ==> r == Found(objects[ObjectKey(bucket, key)].body)
      ensures fault.None? && ObjectKey(bucket, key) !in objects ==> r == NoSuchKey
    {
      if fault.Some? {
        r := GetError(fault.value);
      } else if ObjectKey(bucket, key) in objects {
        r := Found(objects[ObjectKey(bucket, key)].body);
      } else {
        r := NoSuchKey;
      }
    }

    /** PutObject: overwrite (or create) the object, unless the call fails. */
    method PutObject(bucket: string, key: string, body: string, contentType: string, fault: Option<string>)
      returns (err: Option<string>)
      modifies this
      ensures err == fault
      ensures fault.None? ==> objects == old(objects)[ObjectKey(bucket, key) := StoredObject(body, contentType)]
      ensures fault.Some? ==> objects == old(objects)
    {
      err := fault;
      if fault.None? {
        objects := objects[ObjectKey(bucket, key) := StoredObject(body, contentType)];
      }
    }
  }

  /** The rows of a table; a table never written to has none. */
  function Rows(tables: TableMap, name: string): seq<Row>
  {
    if name in tables then tables[name] else []
  }

  /** The DynamoDB service: rows by table name, in insertion order. */
  class KeyValueStore {
    var tables: TableMap

    constructor (initial: TableMap)
      ensures tables == initial
    {
      tables := initial;
    }

    /** PutItem: add one row to the table, unless the call fails. */
    method PutItem(table: string, item: Row, fault: Option<string>) returns (err: Option<string>)
      modifies this
      ensures err == fault
      ensures fault.None? ==> tables == old(tables)[table := Rows(old(tables), table) + [item]]
      ensures fault.Some? ==> tables == old(tables)
    {
      err := fault;
      if fault.None? {
        tables := tables[table := Rows(tables, table) + [item]];
      }
    }
  }

  /** The content of `index.html` in the bucket, "" when there is none. */
  function Existing(objects: ObjectMap, bucket: string): string
  {
    var k := ObjectKey(bucket, IndexKey);
    if k in objects then objects[k].body else ""
  }

  /** The new content written back: old content, a newline, the message. */
  function Appended(existing: string, message: string): string
  {
    existing + "\n" + message
  }

  /** The S3 branch of writeToStorage as a function of the old objects. */
  function AppendToObject(objects: ObjectMap, bucket: string, message: string, f: StorageFaults): Effect<ObjectMap>
  {
    var key := ObjectKey(bucket, IndexKey);
    if f.getObject.Some? then Effect(Some(GetObjectFailed(f.getObject.value)), objects)
    else if key in objects && f.readBody.Some? then Effect(Some(ReadBodyFailed(f.readBody.value)), objects)
    else if f.putObject.Some? then Effect(Some(PutObjectFailed(f.putObject.value)), objects)
    else Effect(None, objects[key := StoredObject(Appended(Existing(objects, bucket), message), HtmlContentType)])
  }

  /** The DynamoDB branch of writeToStorage as a function of the old tables. */
  function InsertRow(tables: TableMap, table: string, row: Row, fault: Option<string>): Effect<TableMap>
  {
    if fault.Some? then Effect(Some(PutItemFailed(fault.value)), tables)
    else Effect(None, tables[table := Rows(tables, table) + [row]])
  }

  /** writeToStorage as a function of the old state of both services. */
  function Store(st: Stores, arn: string, message: string, id: string, f: StorageFaults): Effect<Stores>
  {
    match ResolveStorage(arn)
    case Err(e) => Effect(Some(e), st)
    case Ok(Bucket(b)) =>
      var e := AppendToObject(st.objects, b, message, f);
      Effect(e.err, st.(objects := e.state))
    case Ok(Table(t)) =>
      var e := InsertRow(st.tables, t, Row(id, message), f.putItem);
      Effect(e.err, st.(tables := e.state))
  }

  /** writeToStorage. */
  method WriteToStorage(s3: ObjectStore, dynamo: KeyValueStore, arn: string, message: string,
                        id: string, f: StorageFaults)
    returns (err: Option<Error>)
    requires IsNanoId(id)
    modifies s3, dynamo
    ensures err == Store(Stores(old(s3.objects), old(dynamo.tables)), arn, message, id, f).err
    ensures Stores(s3.objects, dynamo.tables)
         == Store(Stores(old(s3.objects), old(dynamo.tables)), arn, message, id, f).state
  {
    if S3Prefix <= arn {
      var bucketField := Field(arn, BucketField);
      if bucketField.Err? {
        return Some(bucketField.error);
      }
      var bucket := bucketField.value;
      var existing := "";
      var got := s3.GetObject(bucket, IndexKey, f.getObject);
      match got {
        case GetError(cause) =>
          return Some(GetObjectFailed(cause));
        case NoSuchKey =>
        case Found(body) =>
          if f.readBody.Some? {
            return Some(ReadBodyFailed(f.readBody.value));
          }
          existing := body;
      }
      var putErr := s3.PutObject(bucket, IndexKey, Appended(existing, message), HtmlContentType, f.putObject);
      if putErr.Some? {
        return Some(PutObjectFailed(putErr.value));
      }
      return None;
    } else if DynamoPrefix <= arn {
      var tableField := Field(arn, TableField);
      if tableField.Err? {
        return Some(tableField.error);
      }
      var tableName := RemoveAll(tableField.value, TablePath);
      var putErr := dynamo.PutItem(tableName, Row(id, message), f.putItem);
      if putErr.Some? {
        return Some(PutItemFailed(putErr.value));
      }
      return None;
    }
    return Some(InvalidStorageArn);
  }

  /** Whatever the destination, a failed write changes neither service. */
  lemma {:induction false} StoreFailureChangesNothing(st: Stores, arn: string, message: string, id: string, f: StorageFaults)
    ensures Store(st, arn, message, id, f).err.Some? ==> Store(st, arn, message, id, f).state == st
    ensures ResolveStorage(arn) == Err(InvalidStorageArn) ==> Store(st, arn, message, id, f) == Effect(Some(InvalidStorageArn), st)
  {
  }

  /** The S3 branch fails exactly when a call fails: GetObject with anything but
      NoSuchKey, reading an existing body, or PutObject; the error names the failing
      step and carries its cause. */
  lemma {:induction false} AppendToObjectErrors(objects: ObjectMap, bucket: string, message: string, f: StorageFaults)
    ensures AppendToObject(objects, bucket, message, f).err.None?
        <==> f.getObject.None? && (ObjectKey(bucket, IndexKey) in objects ==> f.readBody.None?) && f.putObject.None?
    ensures f.getObject.Some? ==> AppendToObject(objects, bucket, message, f).err == Some(GetObjectFailed(f.getObject.value))
    ensures AppendToObject(objects, bucket, message, f).err.Some? ==> AppendToObject(objects, bucket, message, f).state == objects
  {
  }

  /** A successful S3 append sets `index.html` in the bucket to the old content
      (or "" if there was none), a newline and the message, as text/html, and
      leaves every other object as it was. */
  lemma {:induction false} AppendToObjectWrites(objects: ObjectMap, bucket: string, message: string, f: StorageFaults)
    requires AppendToObject(objects, bucket, message, f).err.None?
    ensures var after := AppendToObject(objects, bucket, message, f).state;
      && ObjectKey(bucket, IndexKey) in after
      && after[ObjectKey(bucket, IndexKey)].body == Existing(objects, bucket) + "\n" + message
      && after[ObjectKey(bucket, IndexKey)].contentType == "text/html"
      && after.Keys == objects.Keys + {ObjectKey(bucket, IndexKey)}
      && (forall k :: k in objects && k != ObjectKey(bucket, IndexKey) ==> after[k] == objects[k])
    ensures ObjectKey(bucket, IndexKey) !in objects ==>
      AppendToObject(objects, bucket, message, f).state[ObjectKey(bucket, IndexKey)].body == "\n" + message
  {
  }

  /** Appending A and then B to a bucket without `index.html` leaves exactly
      "\nA\nB": the leading newline is kept. */
  lemma {:induction false} AppendTwiceToMissingObject(objects: ObjectMap, bucket: string, a: string, b: string)
    requires ObjectKey(bucket, IndexKey) !in objects
    ensures var once := AppendToObject(objects, bucket, a, NoStorageFaults).state;
            Existing(AppendToObject(once, bucket, b, NoStorageFaults).state, bucket) == "\n" + a + "\n" + b
  {
  }

  /** The content built by appending the messages in order to an empty object:
      each message preceded by a newline. */
  function Journal(msgs: seq<string>): string
  {
    if msgs == [] then "" else "\n" + msgs[0] + Journal(msgs[1..])
  }

  /** The objects after appending every message in turn, with no call failing. */
  function AppendAll(objects: ObjectMap, bucket: string, msgs: seq<string>): ObjectMap
    decreases |msgs|
  {
    if msgs == [] then objects
    else AppendAll(AppendToObject(objects, bucket, msgs[0], NoStorageFaults).state, bucket, msgs[1..])
  }

  /** Successive appends extend the object by the journal of the messages. */
  lemma {:induction false} AppendAllJournal(objects: ObjectMap, bucket: string, msgs: seq<string>)
    ensures Existing(AppendAll(objects, bucket, msgs), bucket) == Existing(objects, bucket) + Journal(msgs)
    decreases |msgs|
  {
    if msgs != [] {
      var once := AppendToObject(objects, bucket, msgs[0], NoStorageFaults).state;
      AppendAllJournal(once, bucket, msgs[1..]);
      assert Existing(once, bucket) == Existing(objects, bucket) + "\n" + msgs[0];
    }
  }

  /** The journal is the messages joined by newlines after an empty first line. */
  lemma {:induction false} JournalIsJoin(msgs: seq<string>)
    ensures Journal(msgs) == Join([""] + msgs, '\n')
  {
    if msgs != [] {
      JournalIsJoin(msgs[1..]);
      assert ([""] + msgs)[1..] == msgs;
      if |msgs| > 1 {
        assert ([""] + msgs[1..])[1..] == msgs[1..];
        assert Join(msgs, '\n') == msgs[0] + "\n" + Join(msgs[1..], '\n');
        assert Journal(msgs[1..]) == "\n" + Join(msgs[1..], '\n');
      }
    }
  }

  /** Read line by line, an object built from nothing by successive appends of
      single-line messages is an empty line followed by the messages in order. */
  lemma {:induction false} AppendedLines(objects: ObjectMap, bucket: string, msgs: seq<string>)
    requires ObjectKey(bucket, IndexKey) !in objects
    requires forall i :: 0 <= i < |msgs| ==> '\n' !in msgs[i]
    ensures Split(Existing(AppendAll(objects, bucket, msgs), bucket), '\n') == [""] + msgs
  {
    AppendAllJournal(objects, bucket, msgs);
    assert Existing(objects, bucket) + Journal(msgs) == Journal(msgs);
    JournalIsJoin(msgs);
    assert SeparatorFree([""] + msgs, '\n') by {
      forall i | 0 <= i < |[""] + msgs| ensures '\n' !in ([""] + msgs)[i] {
        if i > 0 { assert ([""] + msgs)[i] == msgs[i - 1]; }
      }
    }
    SplitJoin([""] + msgs, '\n');
  }

  /** A successful DynamoDB insert adds exactly one row, {id, message}, after the
      existing rows of that table, and leaves every other table as it was; a
      failed one changes nothing and returns the store's error as it is. */
  lemma {:induction false} InsertRowAppendsOne(tables: TableMap, table: string, row: Row, fault: Option<string>)
    ensures var e := InsertRow(tables, table, row, fault);
      && (fault.None? ==> e.err.None? && Rows(e.state, table) == Rows(tables, table) + [row]
                          && |Rows(e.state, table)| == |Rows(tables, table)| + 1
                          && forall t :: t != table ==> Rows(e.state, t) == Rows(tables, t))
      && (fault.Some? ==> e.err == Some(PutItemFailed(fault.value)) && e.state == tables)
  {
  }

  /** Two successful inserts of the same message under two different
      identifiers keep both rows, in order, each with its own identifier. (With
      one identifier twice, DynamoDB would overwrite the first item.) */
  lemma {:induction false} InsertTwice(tables: TableMap, table: string, id1: string, id2: string, message: string)
    requires id1 != id2
    ensures var once := InsertRow(tables, table, Row(id1, message), None).state;
            Rows(InsertRow(once, table, Row(id2, message), None).state, table)
            == Rows(tables, table) + [Row(id1, message), Row(id2, message)]
  {
  }

  /** Two writes of A and B through writeToStorage to `arn:aws:s3:::<bucket>`,
      starting from an empty bucket, leave `index.html` holding "\nA\nB". */
  method AppendTwiceThroughS3(bucket: string, a: string, b: string, id1: string, id2: string)
    returns (content: string)
    requires ':' !in bucket
    requires IsNanoId(id1) && IsNanoId(id2)
    ensures content == "\n" + a + "\n" + b
  {
    var s3 := new ObjectStore(map[]);
    var dynamo := new KeyValueStore(map[]);
    var arn := "arn:aws:s3:::" + bucket;
    BucketArnShapes(bucket, bucket);
    var err1 := WriteToStorage(s3, dynamo, arn, a, id1, NoStorageFaults);
    var err2 := WriteToStorage(s3, dynamo, arn, b, id2, NoStorageFaults);
    AppendTwiceToMissingObject(map[], bucket, a, b);
    content := Existing(s3.objects, bucket);
  }
}
