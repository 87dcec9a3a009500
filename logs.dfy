/**
 * writeToCloudWatchLog (main.go): deliver one ciphertext to the pod's log
 * stream. The log group is field 6 of AWS_LOG_GROUP_ARN; the stream is created
 * first, an already-existing stream is not an error, any other creation failure
 * ends the call, and then exactly one event {timestamp, ciphertext} is put.
 * The CloudWatch Logs service is a class whose field is the events of every
 * stream; the failure each SDK call may report is a parameter, and the
 * timestamp (time.Now().UnixMilli() in the program) is an input.
 */
module Logs {
  import opened Wrappers
  import opened Errors
  import opened Arn

  /** The error PutLogEvents reports for a stream that does not exist. */
  const StreamNotFound := "ResourceNotFoundException"

  datatype StreamKey = StreamKey(group: string, stream: string)
  /** One log event: milliseconds since the epoch and the message. */
  datatype LogEvent = LogEvent(timestamp: int, message: string)
  type StreamMap = map<StreamKey, seq<LogEvent>>

  /** What CreateLogStream answers. */
  datatype CreateResult = Created | AlreadyExists | CreateError(cause: string)

  /** The failure, if any, each SDK call of writeToCloudWatchLog reports
      (for CreateLogStream: a failure other than already-exists). */
  datatype LogFaults = LogFaults(createStream: Option<string>, putEvents: Option<string>)

  const NoLogFaults := LogFaults(None, None)

  /** The events of a stream; a stream that does not exist has none. */
  function Events(streams: StreamMap, key: StreamKey): seq<LogEvent>
  {
    if key in streams then streams[key] else []
  }

  /** The CloudWatch Logs service: the events of each stream, in submission order. */
  class LogService {
    var streams: StreamMap

    constructor (initial: StreamMap)
      ensures streams == initial
    {
      streams := initial;
    }

    /** CreateLogStream: a new stream starts empty; an existing one is reported
        as already existing and left alone. */
    method CreateLogStream(group: string, stream: string, fault: Option<string>) returns (r: CreateResult)
      modifies this
      ensures fault.Some? ==> r == CreateError(fault.value) && streams == old(streams)
      ensures fault.None? && StreamKey(group, stream) in old(streams) ==> r == AlreadyExists && streams == old(streams)
      ensures fault.None? && StreamKey(group, stream) !in old(streams) ==>
                r == Created && streams == old(streams)[StreamKey(group, stream) := []]
    {
      var key := StreamKey(group, stream);
      if fault.Some? {
        r := CreateError(fault.value);
      } else if key in streams {
        r := AlreadyExists;
      } else {
        r := Created;
        streams := streams[key := []];
      }
    }

    /** PutLogEvents: append the events to an existing stream, unless the call fails. */
    method PutLogEvents(group: string, stream: string, events: seq<LogEvent>, fault: Option<string>)
      returns (err: Option<string>)
      modifies this
      ensures fault.Some? ==> err == fault && streams == old(streams)
      ensures fault.None? && StreamKey(group, stream) !in old(streams) ==>
                err == Some(StreamNotFound) && streams == old(streams)
      ensures fault.None? && StreamKey(group, stream) in old(streams) ==>
                err.None? && streams == old(streams)[StreamKey(group, stream) := old(streams)[StreamKey(group, stream)] + events]
    {
      var key := StreamKey(group, stream);
      if fault.Some? {
        err := fault;
      } else if key !in streams {
        err := Some(StreamNotFound);
      } else {
        err := None;
        streams := streams[key := streams[key] + events];
      }
    }
  }

  /** writeToCloudWatchLog as a function of the old streams. */
  function Deliver(streams: StreamMap, logGroupArn: string, stream: string, event: LogEvent, f: LogFaults)
    : Effect<StreamMap>
  {
    match LogGroupName(logGroupArn)
    case Err(e) => Effect(Some(e), streams)
    case Ok(group) =>
      var key := StreamKey(group, stream);
      if f.createStream.Some? then Effect(Some(CreateLogStreamFailed(f.createStream.value)), streams)
      else
        var created := if key in streams then streams else streams[key := []];
        if f.putEvents.Some? then Effect(Some(PutLogEventsFailed(f.putEvents.value)), created)
        else Effect(None, created[key := created[key] + [event]])
  }

  /** writeToCloudWatchLog. */
  method WriteToCloudWatchLog(cw: LogService, logGroupArn: string, encryptedMessage: string,
                              logStream: string, timestamp: int, f: LogFaults)
    returns (err: Option<Error>)
    modifies cw
    ensures err == Deliver(old(cw.streams), logGroupArn, logStream, LogEvent(timestamp, encryptedMessage), f).err
    ensures cw.streams == Deliver(old(cw.streams), logGroupArn, logStream, LogEvent(timestamp, encryptedMessage), f).state
  {
    var groupField := LogGroupName(logGroupArn);
    if groupField.Err? {
      return Some(groupField.error);
    }
    var logGroupName := groupField.value;
    var created := cw.CreateLogStream(logGroupName, logStream, f.createStream);
    if created.CreateError? {
      return Some(CreateLogStreamFailed(created.cause));
    }
    var putErr := cw.PutLogEvents(logGroupName, logStream, [LogEvent(timestamp, encryptedMessage)], f.putEvents);
    if putErr.Some? {
      return Some(PutLogEventsFailed(putErr.value));
    }
    return None;
  }

  /** A successful delivery appends exactly the one event to the stream named by
      field 6 of the ARN and the stream name, and no other stream gains events. */
  lemma {:induction false} DeliverAppendsOneEvent(streams: StreamMap, logGroupArn: string, stream: string,
                                                  event: LogEvent, f: LogFaults)
    requires Deliver(streams, logGroupArn, stream, event, f).err.None?
    ensures LogGroupName(logGroupArn).Ok?
    ensures var after := Deliver(streams, logGroupArn, stream, event, f).state;
            var key := StreamKey(LogGroupName(logGroupArn).value, stream);
      && Events(after, key) == Events(streams, key) + [event]
      && after.Keys == streams.Keys + {key}
      && forall k :: k in streams && k != key ==> after[k] == streams[k]
  {
  }

  /** A failed delivery appends no event to any stream; when the failure is in
      CreateLogStream (or the ARN has no field 6) nothing changes at all. */
  lemma {:induction false} DeliverFailureAppendsNothing(streams: StreamMap, logGroupArn: string, stream: string,
                                                        event: LogEvent, f: LogFaults)
    requires Deliver(streams, logGroupArn, stream, event, f).err.Some?
    ensures forall k :: Events(Deliver(streams, logGroupArn, stream, event, f).state, k) == Events(streams, k)
    ensures f.createStream.Some? || LogGroupName(logGroupArn).Err? ==>
              Deliver(streams, logGroupArn, stream, event, f).state == streams
    ensures LogGroupName(logGroupArn).Ok? && f.createStream.Some? ==>
              Deliver(streams, logGroupArn, stream, event, f).err == Some(CreateLogStreamFailed(f.createStream.value))
  {
  }

  /** A stream that already exists is no obstacle: without failures the event is
      appended after the events already there. */
  lemma {:induction false} ExistingStreamAccepted(streams: StreamMap, logGroupArn: string, stream: string, event: LogEvent)
    requires LogGroupName(logGroupArn).Ok?
    requires StreamKey(LogGroupName(logGroupArn).value, stream) in streams
    ensures var e := Deliver(streams, logGroupArn, stream, event, NoLogFaults);
            var key := StreamKey(LogGroupName(logGroupArn).value, stream);
            e.err.None? && e.state == streams[key := streams[key] + [event]]
  {
  }

  /** Two deliveries to the same stream, with no call failing, both succeed and
      leave the two events in the order they were made. */
  lemma {:induction false} DeliverTwice(streams: StreamMap, logGroupArn: string, stream: string,
                                        first: LogEvent, second: LogEvent)
    requires LogGroupName(logGroupArn).Ok?
    ensures var once := Deliver(streams, logGroupArn, stream, first, NoLogFaults);
            var twice := Deliver(once.state, logGroupArn, stream, second, NoLogFaults);
            var key := StreamKey(LogGroupName(logGroupArn).value, stream);
      && once.err.None? && twice.err.None?
      && Events(twice.state, key) == Events(streams, key) + [first, second]
  {
  }

  /** Two calls of writeToCloudWatchLog for the same pod stream in a new log
      group leave that stream holding the two ciphertexts in call order. */
  method DeliverTwiceThroughCloudWatch(region: string, account: string, group: string, stream: string,
                                       c1: string, t1: int, c2: string, t2: int)
    returns (events: seq<LogEvent>)
    requires ':' !in region && ':' !in account && ':' !in group
    ensures events == [LogEvent(t1, c1), LogEvent(t2, c2)]
  {
    var cw := new LogService(map[]);
    var arn := "arn:aws:logs:" + region + ":" + account + ":log-group:" + group + ":*";
    LogGroupIsFieldSix(region, account, group, ":*");
    var err1 := WriteToCloudWatchLog(cw, arn, c1, stream, t1, NoLogFaults);
    var err2 := WriteToCloudWatchLog(cw, arn, c2, stream, t2, NoLogFaults);
    DeliverTwice(map[], arn, stream, LogEvent(t1, c1), LogEvent(t2, c2));
    events := Events(cw.streams, StreamKey(group, stream));
  }
}
