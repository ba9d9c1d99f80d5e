/** The producer-side task client: it resolves the metadata of a task,
    builds one record in the configured wire format and hands it to the
    producer. */
module ClientInternal {
  import opened Wrappers
  import opened Protocol
  import opened Producer

  /** The message of an exception thrown by a collaborator. */
  type Exception = string

  /** What protobuf throws when asked to copy a `null` byte array. */
  const NullPointerException: Exception := "java.lang.NullPointerException"

  /** Everything the client fixes at construction. The three function fields
      stand for collaborators whose code is not part of this model: the
      pluggable task serializer, the printable-ASCII key serializer (called
      with the topic and the key) and the routine that writes metadata into
      record headers. A serializer may throw, which is a `Failure`, or
      return `null`, which is `Success(None)`. */
  datatype ClientConfig<-T> = ClientConfig(
    topic: string,
    serializer: T -> Result<NullableBytes, Exception>,
    applicationId: string,
    instanceId: string,
    produceInOldFormat: bool,
    keySerializer: (string, string) -> Result<NullableBytes, Exception>,
    writeAsHeader: TaskMetadataProto -> seq<Header>)

  // ---------------------------------------------------------------------
  // Metadata resolution
  // ---------------------------------------------------------------------

  /** The metadata of a task submitted with an optional override, where `now`
      is the client's clock reading at the call. The source ids always come
      from the client; the override decides the timestamp when it carries
      one, and is the only source of a scheduled time. */
  function ConvertToTaskMetadataProto<T>(config: ClientConfig<T>, overrideTaskMetadata: Option<TaskMetadata>, now: Long)
    : (m: TaskMetadataProto)
    ensures m.sourceApplicationId == config.applicationId
    ensures m.sourceInstanceId == config.instanceId
    ensures overrideTaskMetadata.None? ==> m.timestampMillis == now && m.scheduledTimeMillis.None?
    ensures overrideTaskMetadata.Some? ==> m.timestampMillis == overrideTaskMetadata.value.timestamp.GetOr(now)
    ensures overrideTaskMetadata.Some? ==> m.scheduledTimeMillis == overrideTaskMetadata.value.scheduledTime
  {
    var builder := TaskMetadataProto(now, None, config.applicationId, config.instanceId);
    match overrideTaskMetadata
    case None => builder
    case Some(o) =>
      var stamped := if o.timestamp.Some? then builder.(timestampMillis := o.timestamp.value) else builder;
      if o.scheduledTime.Some? then stamped.(scheduledTimeMillis := Some(o.scheduledTime.value)) else stamped
  }

  /** The metadata of `put(key, task, timestamp)`: exactly that timestamp, the
      client's ids and no scheduled time. It is what an override carrying
      only that timestamp resolves to, whatever the clock says. */
  function MetadataAt<T>(config: ClientConfig<T>, timestamp: Long): (m: TaskMetadataProto)
    ensures m.timestampMillis == timestamp && m.scheduledTimeMillis.None?
    ensures m.sourceApplicationId == config.applicationId && m.sourceInstanceId == config.instanceId
    ensures forall now: Long ::
      m == ConvertToTaskMetadataProto(config, Some(TaskMetadata(Some(timestamp), None)), now)
  {
    TaskMetadataProto(timestamp, None, config.applicationId, config.instanceId)
  }

  /** A metadata value can come out of resolution, for some override, exactly
      when it carries the client's own source ids. */
  lemma MetadataReachable<T>(config: ClientConfig<T>, now: Long, m: TaskMetadataProto)
    ensures (exists o :: ConvertToTaskMetadataProto(config, o, now) == m)
        <==> m.sourceApplicationId == config.applicationId && m.sourceInstanceId == config.instanceId
  {
    if m.sourceApplicationId == config.applicationId && m.sourceInstanceId == config.instanceId {
      var o := Some(TaskMetadata(Some(m.timestampMillis), m.scheduledTimeMillis));
      assert ConvertToTaskMetadataProto(config, o, now) == m;
    }
  }

  /** The clock reading matters only when the override does not fix the
      timestamp, and then it changes the timestamp and nothing else. */
  lemma ClockOnlyAffectsTimestamp<T>(config: ClientConfig<T>, o: Option<TaskMetadata>, now1: Long, now2: Long)
    ensures o.Some? && o.value.timestamp.Some? ==>
      ConvertToTaskMetadataProto(config, o, now1) == ConvertToTaskMetadataProto(config, o, now2)
    ensures o.None? || o.value.timestamp.None? ==>
      ConvertToTaskMetadataProto(config, o, now2) == ConvertToTaskMetadataProto(config, o, now1).(timestampMillis := now2)
  {
  }

  // ---------------------------------------------------------------------
  // Record construction
  // ---------------------------------------------------------------------

  /** The shape every record of a client has: the client's topic, and the
      envelope exactly when the client produces the old format, in which case
      no header is written. */
  predicate Conforms<T>(config: ClientConfig<T>, r: Record) {
    && r.topic == config.topic
    && (r.value.Envelope? <==> config.produceInOldFormat)
    && (r.value.Envelope? ==> r.headers == [])
  }

  /** The record that `put` hands to the producer, or the exception that
      stops it. The key is serialized first, so its failure is the one
      reported when both serializers would throw. The old format copies the
      task bytes into the envelope, which throws when the serializer
      returned `null`; the new format sends a `null` value as it is. */
  function PrepareRecord<T>(config: ClientConfig<T>, key: string, task: T, md: TaskMetadataProto, partition: Option<Int32>)
    : (r: Result<Record, Exception>)
    ensures r.Success? <==>
      && config.keySerializer(config.topic, key).Success?
      && config.serializer(task).Success?
      && (config.produceInOldFormat ==> config.serializer(task).value.Some?)
    ensures config.keySerializer(config.topic, key).Failure? ==>
      r == Failure(config.keySerializer(config.topic, key).error)
    ensures config.keySerializer(config.topic, key).Success? && config.serializer(task).Failure? ==>
      r == Failure(config.serializer(task).error)
    ensures config.keySerializer(config.topic, key).Success? && config.serializer(task) == Success(None)
            && config.produceInOldFormat ==>
      r == Failure(NullPointerException)
    ensures r.Success? ==>
      var rec := r.value;
      && Conforms(config, rec)
      && rec.partition == partition
      && rec.key == config.keySerializer(config.topic, key).value
      && (config.produceInOldFormat ==>
            rec.value == Envelope(DecatonTaskRequest(md, config.serializer(task).value.value)))
      && (!config.produceInOldFormat ==>
            rec.value == Raw(config.serializer(task).value) && rec.headers == config.writeAsHeader(md))
  {
    var serializedKey :- config.keySerializer(config.topic, key);
    var serializedTask :- config.serializer(task);
    if config.produceInOldFormat then
      match serializedTask
      case None => Failure(NullPointerException)
      case Some(bytes) =>
        Success(Record(config.topic, partition, serializedKey, Envelope(DecatonTaskRequest(md, bytes)), []))
    else
      Success(Record(config.topic, partition, serializedKey, Raw(serializedTask), config.writeAsHeader(md)))
  }

  /** The task bytes and metadata a consumer recovers from a record, given a
      reader for the metadata headers; nothing when the value is `null` or
      the headers do not read back. */
  function Carried(r: Record, readHeaders: seq<Header> -> Option<TaskMetadataProto>): Option<(Bytes, TaskMetadataProto)> {
    match r.value
    case Envelope(request) => Some((request.serializedTask, request.metadata))
    case Raw(None) => None
    case Raw(Some(bytes)) =>
      match readHeaders(r.headers)
      case Some(m) => Some((bytes, m))
      case None => None
  }

  /** When the task serializer returns bytes, the two formats succeed or fail
      together and carry the same content: a consumer that can read the
      metadata headers back recovers identical task bytes and metadata from
      either. The records differ in the model's value tag and, on the wire,
      in their headers: the old format writes none, the new one whatever the
      header writer produces. */
  lemma FormatsCarrySameContent<T>(config: ClientConfig<T>, readHeaders: seq<Header> -> Option<TaskMetadataProto>,
                                   key: string, task: T, md: TaskMetadataProto, partition: Option<Int32>)
    requires forall m :: readHeaders(config.writeAsHeader(m)) == Some(m)
    requires config.serializer(task).Success? ==> config.serializer(task).value.Some?
    ensures
      var legacy := PrepareRecord(config.(produceInOldFormat := true), key, task, md, partition);
      var modern := PrepareRecord(config.(produceInOldFormat := false), key, task, md, partition);
      && legacy.Success? == modern.Success?
      && (legacy.Success? ==>
            && legacy.value.value.Envelope? && modern.value.value.Raw?
            && legacy.value.headers == [] && modern.value.headers == config.writeAsHeader(md)
            && Carried(legacy.value, readHeaders) == Carried(modern.value, readHeaders)
            == Some((config.serializer(task).value.value, md)))
  {
  }

  /** When the task serializer returns `null` and the key serializes, the
      formats part ways: the old format throws, the new one sends a record
      whose value is `null` and from which no task can be recovered. */
  lemma NullTaskDivergence<T>(config: ClientConfig<T>, readHeaders: seq<Header> -> Option<TaskMetadataProto>,
                              key: string, task: T, md: TaskMetadataProto, partition: Option<Int32>)
    requires config.keySerializer(config.topic, key).Success?
    requires config.serializer(task) == Success(None)
    ensures PrepareRecord(config.(produceInOldFormat := true), key, task, md, partition) == Failure(NullPointerException)
    ensures
      var modern := PrepareRecord(config.(produceInOldFormat := false), key, task, md, partition);
      && modern.Success? && modern.value.value == Raw(None)
      && Carried(modern.value, readHeaders).None?
  {
  }

  /** The log and the result of one `put`: exactly one record appended and a
      handle on it when the record could be built, otherwise the log as it
      was and the exception. */
  ghost predicate HandedOver(before: seq<Record>, after: seq<Record>, r: Result<Submitted, Exception>,
                             prepared: Result<Record, Exception>)
  {
    match prepared
    case Success(rec) => after == before + [rec] && r == Success(Submitted(|before|))
    case Failure(e) => after == before && r == Failure(e)
  }

  // ---------------------------------------------------------------------
  // The client
  // ---------------------------------------------------------------------

  class DecatonClientImpl<T> {
    const config: ClientConfig<T>
    const producer: DecatonTaskProducer

    /** Every record the producer has been handed has this client's shape. */
    ghost predicate Valid()
      reads producer
    {
      forall i | 0 <= i < |producer.sent| :: Conforms(config, producer.sent[i])
    }

    /** A client with an explicit format flag. */
    constructor (topic: string, serializer: T -> Result<NullableBytes, Exception>, applicationId: string, instanceId: string,
                 keySerializer: (string, string) -> Result<NullableBytes, Exception>,
                 writeAsHeader: TaskMetadataProto -> seq<Header>, produceInOldFormat: bool)
      ensures config == ClientConfig(topic, serializer, applicationId, instanceId, produceInOldFormat,
                                     keySerializer, writeAsHeader)
      ensures fresh(producer) && producer.sent == []
      ensures Valid()
    {
      config := ClientConfig(topic, serializer, applicationId, instanceId, produceInOldFormat,
                             keySerializer, writeAsHeader);
      producer := new DecatonTaskProducer();
    }

    /** A client that produces the header format. */
    constructor WithDefaultFormat(topic: string, serializer: T -> Result<NullableBytes, Exception>, applicationId: string,
                                  instanceId: string, keySerializer: (string, string) -> Result<NullableBytes, Exception>,
                                  writeAsHeader: TaskMetadataProto -> seq<Header>)
      ensures config == ClientConfig(topic, serializer, applicationId, instanceId, false,
                                     keySerializer, writeAsHeader)
      ensures fresh(producer) && producer.sent == []
      ensures Valid()
    {
      config := ClientConfig(topic, serializer, applicationId, instanceId, false,
                             keySerializer, writeAsHeader);
      producer := new DecatonTaskProducer();
    }

    /** Builds the record for a task whose metadata is resolved and hands it
        to the producer. */
    method PutRecord(key: string, task: T, taskMetadataProto: TaskMetadataProto, partition: Option<Int32>)
      returns (r: Result<Submitted, Exception>)
      requires Valid()
      modifies producer
      ensures Valid()
      ensures HandedOver(old(producer.sent), producer.sent, r,
                         PrepareRecord(config, key, task, taskMetadataProto, partition))
    {
      var serializedKey :- config.keySerializer(config.topic, key);
      var serializedTask :- config.serializer(task);
      var record: ProducerRecord;
      if config.produceInOldFormat {
        if serializedTask.None? {
          // copying a null array into the envelope throws
          return Failure(NullPointerException);
        }
        var request := DecatonTaskRequest(taskMetadataProto, serializedTask.value);
        record := new ProducerRecord(config.topic, partition, serializedKey, Envelope(request));
      } else {
        record := new ProducerRecord(config.topic, partition, serializedKey, Raw(serializedTask));
        record.headers.AddAll(config.writeAsHeader(taskMetadataProto));
      }
      ghost var prepared := PrepareRecord(config, key, task, taskMetadataProto, partition);
      assert record.Snapshot().value == prepared.value.value;
      assert record.Snapshot() == prepared.value;
      var submitted := producer.SendRequest(record);
      r := Success(submitted);
    }

    /** `put(key, task, timestamp)`: the given timestamp, no scheduled time,
        no explicit partition. */
    method PutAt(key: string, task: T, timestamp: Long) returns (r: Result<Submitted, Exception>)
      requires Valid()
      modifies producer
      ensures Valid()
      ensures HandedOver(old(producer.sent), producer.sent, r,
                         PrepareRecord(config, key, task, MetadataAt(config, timestamp), None))
    {
      var taskMetadata := MetadataAt(config, timestamp);
      r := PutRecord(key, task, taskMetadata, None);
    }

    /** `put(key, task)`: as `PutAt` with the clock reading `now`. */
    method Put(key: string, task: T, now: Long) returns (r: Result<Submitted, Exception>)
      requires Valid()
      modifies producer
      ensures Valid()
      ensures HandedOver(old(producer.sent), producer.sent, r,
                         PrepareRecord(config, key, task, MetadataAt(config, now), None))
    {
      r := PutAt(key, task, now);
    }

    /** `put(key, task, overrideTaskMetadata, partition)`, with the clock
        reading `now`. */
    method PutWithMetadataAndPartition(key: string, task: T, overrideTaskMetadata: Option<TaskMetadata>,
                                       partition: Option<Int32>, now: Long)
      returns (r: Result<Submitted, Exception>)
      requires Valid()
      modifies producer
      ensures Valid()
      ensures HandedOver(old(producer.sent), producer.sent, r,
                         PrepareRecord(config, key, task, ConvertToTaskMetadataProto(config, overrideTaskMetadata, now),
                                       partition))
    {
      var taskMetadata := ConvertToTaskMetadataProto(config, overrideTaskMetadata, now);
      r := PutRecord(key, task, taskMetadata, partition);
    }

    /** `put(key, task, overrideTaskMetadata)`: no explicit partition. */
    method PutWithMetadata(key: string, task: T, overrideTaskMetadata: Option<TaskMetadata>, now: Long)
      returns (r: Result<Submitted, Exception>)
      requires Valid()
      modifies producer
      ensures Valid()
      ensures HandedOver(old(producer.sent), producer.sent, r,
                         PrepareRecord(config, key, task, ConvertToTaskMetadataProto(config, overrideTaskMetadata, now),
                                       None))
    {
      r := PutWithMetadataAndPartition(key, task, overrideTaskMetadata, None, now);
    }
  }
}
