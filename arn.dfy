/**
 * Resolving the destinations named by ARNs (main.go, writeToStorage and
 * writeToCloudWatchLog): the ARN is split on every colon, the storage backend
 * is chosen by prefix, and the resource name is read from a fixed field index.
 * Where the Go program indexes past the end of the split (a panic), the model
 * returns ArnTooShort with the index it tried.
 */
module Arn {
  import opened Wrappers
  import opened Errors
  import opened GoStrings

  const S3Prefix := "arn:aws:s3"
  const DynamoPrefix := "arn:aws:dynamodb"
  /** The text removed from the DynamoDB resource field wherever it occurs. */
  const TablePath := "table/"
  const BucketField := 5
  const TableField := 5
  const LogGroupField := 6

  /** A resolved storage destination. */
  datatype Destination = Bucket(name: string) | Table(name: string)

  /** strings.Split(arn, ":")[i], or ArnTooShort(i) where Go would panic. */
  function Field(arn: string, i: nat): (r: Result<string, Error>)
    ensures r.Ok? <==> i < Count(arn, ':') + 1
    ensures r.Ok? ==> ':' !in r.value
    ensures r.Err? ==> r.error == ArnTooShort(i)
  {
    var fields := Split(arn, ':');
    if i < |fields| then Ok(fields[i]) else Err(ArnTooShort(i))
  }

  /** The destination branch of writeToStorage: `arn:aws:s3` is tested first,
      then `arn:aws:dynamodb`; anything else is an invalid storage ARN. */
  function ResolveStorage(arn: string): (r: Result<Destination, Error>)
    ensures r == Err(InvalidStorageArn) <==> !(S3Prefix <= arn) && !(DynamoPrefix <= arn)
    ensures r.Ok? && r.value.Bucket? <==> S3Prefix <= arn && BucketField < Count(arn, ':') + 1
    ensures r.Ok? && r.value.Table? <==> DynamoPrefix <= arn && TableField < Count(arn, ':') + 1
    ensures r.Ok? ==> ':' !in r.value.name
  {
    if S3Prefix <= arn then
      assert arn[8] == 's';
      match Field(arn, BucketField)
      case Ok(bucket) => Ok(Bucket(bucket))
      case Err(e) => Err(e)
    else if DynamoPrefix <= arn then
      match Field(arn, TableField)
      case Ok(resource) => Ok(Table(RemoveAll(resource, TablePath)))
      case Err(e) => Err(e)
    else
      Err(InvalidStorageArn)
  }

  /** The log group name used by writeToCloudWatchLog: field 6 of the ARN. */
  function LogGroupName(arn: string): (r: Result<string, Error>)
    ensures r.Ok? <==> LogGroupField < Count(arn, ':') + 1
    ensures r.Err? ==> r.error == ArnTooShort(LogGroupField)
  {
    Field(arn, LogGroupField)
  }

  /** Field i of separator-free fields joined by colons is fields[i], whatever
      colon-led text follows them. */
  lemma {:induction false} FieldOfJoined(fields: seq<string>, tail: string, i: nat)
    requires |fields| >= 1 && SeparatorFree(fields, ':')
    requires i < |fields|
    requires tail == [] || tail[0] == ':'
    ensures Field(Join(fields, ':') + tail, i) == Ok(fields[i])
  {
    if tail == [] {
      assert Join(fields, ':') + tail == Join(fields, ':');
      SplitJoin(fields, ':');
    } else {
      assert Join(fields, ':') + tail == Join(fields, ':') + [':'] + tail[1..];
      SplitJoinThen(fields, ':', tail[1..]);
    }
  }

  /** The six leading fields of an ARN, joined back together. */
  lemma {:induction false} JoinSix(f0: string, f1: string, f2: string, f3: string, f4: string, f5: string)
    ensures Join([f0, f1, f2, f3, f4, f5], ':')
         == f0 + ":" + f1 + ":" + f2 + ":" + f3 + ":" + f4 + ":" + f5
  {
    var fields := [f0, f1, f2, f3, f4, f5];
    assert fields[1..][1..][1..][1..][1..] == [f5];
    assert Join(fields[4..], ':') == f4 + ":" + f5 by {
      assert fields[4..] == [f4, f5] && fields[4..][1..] == [f5];
    }
    assert Join(fields[3..], ':') == f3 + ":" + f4 + ":" + f5 by {
      assert fields[3..][1..] == fields[4..];
    }
    assert Join(fields[2..], ':') == f2 + ":" + f3 + ":" + f4 + ":" + f5 by {
      assert fields[2..][1..] == fields[3..];
    }
    assert Join(fields[1..], ':') == f1 + ":" + f2 + ":" + f3 + ":" + f4 + ":" + f5 by {
      assert fields[1..][1..] == fields[2..];
    }
  }

  /** Field 5 of `arn:aws:<service>:<region>:<account>:<resource>...` is the resource. */
  lemma {:induction false} ResourceIsFieldFive(service: string, region: string, account: string, resource: string, tail: string)
    requires ':' !in service && ':' !in region && ':' !in account && ':' !in resource
    requires tail == [] || tail[0] == ':'
    ensures Field("arn:aws:" + service + ":" + region + ":" + account + ":" + resource + tail, 5) == Ok(resource)
  {
    var fields := ["arn", "aws", service, region, account, resource];
    JoinSix("arn", "aws", service, region, account, resource);
    assert Join(fields, ':') + tail == "arn:aws:" + service + ":" + region + ":" + account + ":" + resource + tail;
    FieldOfJoined(fields, tail, 5);
  }

  /** An ARN whose service field starts with `p` starts with `arn:aws:` + `p`. */
  lemma {:induction false} ServicePrefix(p: string, service: string, rest: string)
    requires p <= service
    ensures "arn:aws:" + p <= "arn:aws:" + service + rest
  {
  }

  /** For an `arn:aws:s3...` ARN the bucket is exactly field 5, whatever follows it. */
  lemma {:induction false} S3BucketIsFieldFive(service: string, region: string, account: string, bucket: string, tail: string)
    requires "s3" <= service
    requires ':' !in service && ':' !in region && ':' !in account && ':' !in bucket
    requires tail == [] || tail[0] == ':'
    ensures ResolveStorage("arn:aws:" + service + ":" + region + ":" + account + ":" + bucket + tail)
         == Ok(Bucket(bucket))
  {
    ResourceIsFieldFive(service, region, account, bucket, tail);
    ServicePrefix("s3", service, ":" + region + ":" + account + ":" + bucket + tail);
    assert "arn:aws:" + "s3" == S3Prefix;
    assert "arn:aws:" + service + ":" + region + ":" + account + ":" + bucket + tail
        == "arn:aws:" + service + (":" + region + ":" + account + ":" + bucket + tail);
  }

  /** For an `arn:aws:dynamodb...` ARN the table is field 5 with every `table/`
      removed, whatever follows it. */
  lemma {:induction false} DynamoTableIsFieldFive(service: string, region: string, account: string, resource: string, tail: string)
    requires "dynamodb" <= service
    requires ':' !in service && ':' !in region && ':' !in account && ':' !in resource
    requires tail == [] || tail[0] == ':'
    ensures ResolveStorage("arn:aws:" + service + ":" + region + ":" + account + ":" + resource + tail)
         == Ok(Table(RemoveAll(resource, TablePath)))
  {
    var arn := "arn:aws:" + service + ":" + region + ":" + account + ":" + resource + tail;
    ResourceIsFieldFive(service, region, account, resource, tail);
    ServicePrefix("dynamodb", service, ":" + region + ":" + account + ":" + resource + tail);
    assert "arn:aws:" + "dynamodb" == DynamoPrefix;
    assert arn == "arn:aws:" + service + (":" + region + ":" + account + ":" + resource + tail);
    assert arn[8] == 'd';
  }

  /** A resource field written `table/<name>`, where the name holds no further
      `table/`, resolves to the bare name; a field without `table/` is kept as it is. */
  lemma {:induction false} TablePathRemoved(name: string)
    ensures !Contains(name, TablePath) ==> RemoveAll(TablePath + name, TablePath) == name
    ensures !Contains(name, TablePath) ==> RemoveAll(name, TablePath) == name
  {
    RemoveAllUnchangedIff(name, TablePath);
    assert (TablePath + name)[..|TablePath|] == TablePath;
    assert (TablePath + name)[|TablePath|..] == name;
  }

  /** The field that follows separator-free fields joined by colons is the text
      up to the next colon. */
  lemma {:induction false} FieldAfterJoined(fields: seq<string>, name: string, tail: string)
    requires |fields| >= 1 && SeparatorFree(fields, ':') && ':' !in name
    requires tail == [] || tail[0] == ':'
    ensures Field(Join(fields, ':') + [':'] + (name + tail), |fields|) == Ok(name)
  {
    SplitJoinThen(fields, ':', name + tail);
    if tail == [] {
      assert name + tail == name;
      SplitNoSeparator(name, ':');
    } else {
      assert name + tail == name + [':'] + tail[1..];
      SplitCons(name, ':', tail[1..]);
    }
  }

  /** `table/` cannot start at 0 when it also starts at some position 0 < k < 6:
      its last character `/` appears nowhere else in it. */
  lemma {:induction false} TablePathUnbordered(s: string, k: nat)
    requires 0 < k < |TablePath| && k + |TablePath| <= |s|
    requires s[k..k + |TablePath|] == TablePath
    ensures s[..|TablePath|] != TablePath
  {
    assert s[5] == s[k..k + |TablePath|][5 - k] == TablePath[5 - k];
    assert TablePath[5 - k] != '/';
  }

  /** ReplaceAll deletes every `table/`: an occurrence that follows text
      holding no `table/` is removed, and the text before it is kept. Applied
      again to the rest, this reaches each occurrence in turn. It rests on
      `table/` having no proper prefix that is also a suffix, so a match cannot
      start inside the text before it and run into the occurrence. */
  lemma {:induction false} RemovesOccurrence(a: string, b: string)
    requires !Contains(a, TablePath)
    ensures RemoveAll(a + TablePath + b, TablePath) == a + RemoveAll(b, TablePath)
    decreases |a|
  {
    var s := a + TablePath + b;
    if a == [] {
      assert s[..|TablePath|] == TablePath && s[|TablePath|..] == b;
    } else {
      assert s[..6] != TablePath by {
        if s[..6] == TablePath {
          if |a| >= 6 {
            assert a[0..0 + |TablePath|] == s[..6];
            assert OccursAt(a, TablePath, 0);
          } else {
            TablePathUnbordered(s, |a|);
          }
        }
      }
      ContainsShift(a, TablePath);
      assert s[1..] == a[1..] + TablePath + b;
      RemovesOccurrence(a[1..], b);
      assert [a[0]] + a[1..] == a;
    }
  }

  /** For a log-group ARN `arn:aws:logs:<region>:<account>:log-group:<name>...`
      the log group is exactly field 6. */
  lemma {:induction false} LogGroupIsFieldSix(region: string, account: string, name: string, tail: string)
    requires ':' !in region && ':' !in account && ':' !in name
    requires tail == [] || tail[0] == ':'
    ensures LogGroupName("arn:aws:logs:" + region + ":" + account + ":log-group:" + name + tail) == Ok(name)
  {
    LogGroupArnJoined(region, account, name, tail);
    FieldAfterJoined(["arn", "aws", "logs", region, account, "log-group"], name, tail);
  }

  /** A log-group ARN is its six leading fields joined, a colon, and the rest. */
  lemma {:induction false} LogGroupArnJoined(region: string, account: string, name: string, tail: string)
    ensures "arn:aws:logs:" + region + ":" + account + ":log-group:" + name + tail
         == Join(["arn", "aws", "logs", region, account, "log-group"], ':') + [':'] + (name + tail)
  {
    JoinSix("arn", "aws", "logs", region, account, "log-group");
  }

  /** The usual S3 bucket ARN `arn:aws:s3:::<bucket>` resolves to the bucket, and
      one with extra fields, `arn:aws:s3:::<x>:<x>:<bucket>`, resolves to field 5,
      `<x>`, not to its last field. */
  lemma {:induction false} BucketArnShapes(bucket: string, x: string)
    requires ':' !in bucket && ':' !in x
    ensures ResolveStorage("arn:aws:s3:::" + bucket) == Ok(Bucket(bucket))
    ensures ResolveStorage("arn:aws:s3:::" + x + ":" + x + ":" + bucket) == Ok(Bucket(x))
  {
    S3ArnFields(bucket, "");
    assert "arn:aws:s3:::" + bucket + "" == "arn:aws:s3:::" + bucket;
    S3BucketIsFieldFive("s3", "", "", bucket, "");
    var tail := ":" + x + ":" + bucket;
    S3ArnFields(x, tail);
    assert "arn:aws:s3:::" + x + tail == "arn:aws:s3:::" + x + ":" + x + ":" + bucket;
    S3BucketIsFieldFive("s3", "", "", x, tail);
  }

  /** `arn:aws:s3:::<bucket>` spelled field by field. */
  lemma {:induction false} S3ArnFields(bucket: string, tail: string)
    ensures "arn:aws:s3:::" + bucket + tail == "arn:aws:" + "s3" + ":" + "" + ":" + "" + ":" + bucket + tail
  {
  }

  /** `arn:aws:dynamodb:<region>:<account>:<resource>` spelled field by field. */
  lemma {:induction false} DynamoArnFields(region: string, account: string, resource: string)
    ensures "arn:aws:dynamodb:" + region + ":" + account + ":" + resource
         == "arn:aws:" + "dynamodb" + ":" + region + ":" + account + ":" + resource + ""
  {
  }

  /** A DynamoDB table ARN written `.../table/<name>` resolves to the bare table name. */
  lemma {:induction false} TableArnWithPath(region: string, account: string, name: string)
    requires ':' !in region && ':' !in account && ':' !in name
    requires !Contains(name, TablePath)
    ensures ResolveStorage("arn:aws:dynamodb:" + region + ":" + account + ":table/" + name) == Ok(Table(name))
  {
    var resource := TablePath + name;
    assert ':' !in resource by {
      assert forall c :: c in resource ==> c in TablePath || c in name;
    }
    DynamoArnFields(region, account, resource);
    assert "arn:aws:dynamodb:" + region + ":" + account + ":table/" + name
        == "arn:aws:dynamodb:" + region + ":" + account + ":" + resource;
    DynamoTableIsFieldFive("dynamodb", region, account, resource, "");
    TablePathRemoved(name);
  }

  /** A DynamoDB table ARN without `table/` resolves to its resource field unchanged. */
  lemma {:induction false} TableArnWithoutPath(region: string, account: string, name: string)
    requires ':' !in region && ':' !in account && ':' !in name
    requires !Contains(name, TablePath)
    ensures ResolveStorage("arn:aws:dynamodb:" + region + ":" + account + ":" + name) == Ok(Table(name))
  {
    DynamoArnFields(region, account, name);
    DynamoTableIsFieldFive("dynamodb", region, account, name, "");
    TablePathRemoved(name);
  }

  /** ReplaceAll removes `table/` wherever it stands, not only as a prefix. */
  lemma {:induction false} TablePathRemovedEverywhere()
    ensures RemoveAll("table/a/table/b", TablePath) == "a/b"
  {
    var s := "table/a/table/b";
    assert s[..6] == TablePath && s[6..] == "a/table/b";
    var t := "a/table/b";
    assert t[..6] != TablePath && t[1..] == "/table/b";
    assert t[1..][..6] != TablePath && t[1..][1..] == "table/b";
    assert "table/b"[..6] == TablePath && "table/b"[6..] == "b";
  }

  /** An ARN of another service, such as SQS, is refused. */
  lemma {:induction false} ExampleInvalidArn(rest: string)
    ensures ResolveStorage("arn:aws:sqs" + rest) == Err(InvalidStorageArn)
  {
    var arn := "arn:aws:sqs" + rest;
    assert arn[9] == 'q' && S3Prefix[9] == '3';
    assert arn[8] == 's' && DynamoPrefix[8] == 'd';
  }
}
