/**
 * The pieces of main (main.go) around the two delivery functions: the startup
 * check of the required configuration, the name of the pod's log stream, the
 * jittered sleep between iterations, and one iteration of the loop (encrypt,
 * then log the ciphertext, then store the plaintext, stopping at the first error).
 * Environment variables, the random sentence, the key service's answer, the
 * clock and the random draws are inputs.
 */
module Driver {
  import opened Wrappers
  import opened Errors
  import opened Storage
  import opened Logs

  /** The environment the program reads at startup. */
  datatype Config = Config(
    logGroupArn: string,   // AWS_LOG_GROUP_ARN
    kmsArn: string,        // AWS_KMS_ARN
    storageArn: string,    // STORAGE_ARN
    podNamespace: string,  // MY_POD_NAMESPACE
    podIp: string)         // MY_POD_IP

  /** The startup check: the three ARNs must be non-empty; the pod variables may be empty. */
  function CheckConfig(c: Config): (r: Option<Error>)
    ensures r.None? <==> c.logGroupArn != "" && c.kmsArn != "" && c.storageArn != ""
    ensures r.Some? ==> r.value == ConfigurationMissing
  {
    if c.logGroupArn == "" || c.kmsArn == "" || c.storageArn == "" then Some(ConfigurationMissing) else None
  }

  /** The pod variables play no part in the startup check. */
  lemma {:induction false} PodVariablesOptional(c: Config, namespace: string, ip: string)
    ensures CheckConfig(c.(podNamespace := namespace, podIp := ip)) == CheckConfig(c)
  {
  }

  const StreamSeparator := "-POD-"

  /** The log stream name: pod IP, `-POD-`, pod namespace. */
  function StreamName(podIp: string, podNamespace: string): string
  {
    podIp + StreamSeparator + podNamespace
  }

  /** The position of the first `c` in `s`, if any. */
  function FirstIndex(s: string, c: char): (r: Option<nat>)
    ensures r.Some? ==> r.value < |s| && s[r.value] == c && c !in s[..r.value]
    ensures r.None? ==> c !in s
  {
    if s == [] then None
    else if s[0] == c then Some(0)
    else match FirstIndex(s[1..], c)
      case None => None
      case Some(i) => assert s[..i + 1] == [s[0]] + s[1..][..i]; Some(i + 1)
  }

  /** Reads a stream name back as (pod IP, pod namespace), taking the IP to end
      at the first `-`. */
  function ParseStreamName(name: string): Option<(string, string)>
  {
    match FirstIndex(name, '-')
    case None => None
    case Some(i) =>
      if StreamSeparator <= name[i..] then Some((name[..i], name[i + |StreamSeparator|..])) else None
  }

  /** The first occurrence of a character absent from the prefix is in the suffix. */
  lemma {:induction false} FirstIndexAfter(a: string, b: string, c: char)
    requires c !in a && |b| > 0 && b[0] == c
    ensures FirstIndex(a + b, c) == Some(|a|)
  {
    if a != [] {
      assert (a + b)[1..] == a[1..] + b;
      FirstIndexAfter(a[1..], b, c);
    } else {
      assert a + b == b;
    }
  }

  /** A stream name built from an IP without `-` (every IPv4 or IPv6 address)
      reads back as that IP and namespace, and every name that reads back is
      built that way: the naming loses nothing. */
  lemma {:induction false} StreamNameRoundTrip(podIp: string, podNamespace: string, name: string)
    ensures '-' !in podIp ==> ParseStreamName(StreamName(podIp, podNamespace)) == Some((podIp, podNamespace))
    ensures ParseStreamName(name) == Some((podIp, podNamespace)) ==>
              '-' !in podIp && StreamName(podIp, podNamespace) == name
  {
    if '-' !in podIp {
      var s := StreamName(podIp, podNamespace);
      assert s == podIp + (StreamSeparator + podNamespace);
      FirstIndexAfter(podIp, StreamSeparator + podNamespace, '-');
      assert s[|podIp|..] == StreamSeparator + podNamespace;
      assert s[..|podIp|] == podIp;
      assert s[|podIp| + 5..] == podNamespace;
    }
    if ParseStreamName(name) == Some((podIp, podNamespace)) {
      var i := FirstIndex(name, '-').value;
      assert name[i..][..5] == StreamSeparator;
      assert name == name[..i] + name[i..][..5] + name[i + 5..];
    }
  }

  /** Nanoseconds in a second: time.Duration counts nanoseconds in an int64. */
  const Second := 1_000_000_000
  const MaxInt64 := 0x7FFF_FFFF_FFFF_FFFF

  /** The sleep after each iteration, time.Duration(30 + n) * time.Second, for the
      random draw n in [0, 31): between 30 and 60 whole seconds, and far from
      overflowing int64. */
  function SleepDuration(n: int): (d: int)
    requires 0 <= n < 31
    ensures 30 * Second <= d <= 60 * Second
    ensures d % Second == 0
    ensures d <= MaxInt64
  {
    (30 + n) * Second
  }

  /** Every whole number of seconds from 30 to 60 is slept for exactly one draw. */
  lemma {:induction false} SleepCoversRange(secs: int)
    requires 30 <= secs <= 60
    ensures exists n :: 0 <= n < 31 && SleepDuration(n) == secs * Second
    ensures forall n :: 0 <= n < 31 && SleepDuration(n) == secs * Second ==> n == secs - 30
  {
    assert SleepDuration(secs - 30) == secs * Second;
  }

  /** One iteration of the loop in main, after the random sentence is drawn:
      `encrypted` is the key service's answer for the sentence. The ciphertext
      goes to the log and the plaintext to storage, in that order, and the first
      error ends the iteration (the program then exits). */
  method RunIteration(cw: LogService, s3: ObjectStore, dynamo: KeyValueStore, cfg: Config,
                      sentence: string, encrypted: Result<string, string>, timestamp: int, id: string,
                      lf: LogFaults, sf: StorageFaults)
    returns (err: Option<Error>)
    requires IsNanoId(id)
    modifies cw, s3, dynamo
    ensures encrypted.Err? ==>
              && err == Some(EncryptFailed(encrypted.error))
              && cw.streams == old(cw.streams) && s3.objects == old(s3.objects) && dynamo.tables == old(dynamo.tables)
    ensures encrypted.Ok? ==>
              var log := Deliver(old(cw.streams), cfg.logGroupArn, StreamName(cfg.podIp, cfg.podNamespace),
                                 LogEvent(timestamp, encrypted.value), lf);
              && cw.streams == log.state
              && (log.err.Some? ==>
                    err == log.err && s3.objects == old(s3.objects) && dynamo.tables == old(dynamo.tables))
              && (log.err.None? ==>
                    var st := Store(Stores(old(s3.objects), old(dynamo.tables)), cfg.storageArn, sentence, id, sf);
                    err == st.err && Stores(s3.objects, dynamo.tables) == st.state)
  {
    if encrypted.Err? {
      return Some(EncryptFailed(encrypted.error));
    }
    var logStreamName := StreamName(cfg.podIp, cfg.podNamespace);
    err := WriteToCloudWatchLog(cw, cfg.logGroupArn, encrypted.value, logStreamName, timestamp, lf);
    if err.Some? {
      return;
    }
    err := WriteToStorage(s3, dynamo, cfg.storageArn, sentence, id, sf);
  }
}
