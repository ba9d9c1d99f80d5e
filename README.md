# Decaton task client: submission path

A Dafny model of `DecatonClientImpl`, the producer-side client of Decaton. A
caller submits a task under a key, optionally with a metadata override and an
explicit partition. The client resolves the task's metadata, serializes the
key and the task, builds one Kafka record in the configured wire format and
hands it to its task producer.

- `Protocol` holds the values: Java's `long` and `int` as bounded
  newtypes, the caller's `TaskMetadata` override (two nullable `Long`s),
  the resolved `TaskMetadataProto` and the legacy `DecatonTaskRequest`
  envelope.
- `Producer` holds the outbound side. `ProducerRecord` is a class whose
  header list (`RecordHeaders`) is filled in place after the record is
  created. `DecatonTaskProducer` is reduced to the log of records it was
  handed; `Submitted` stands for the future it returns.
- `ClientInternal` holds the client. `ClientConfig` is the configuration
  fixed at construction. `ConvertToTaskMetadataProto` and `MetadataAt`
  resolve metadata. `PrepareRecord` is the specification of the record that
  one `put` produces, or of the exception that stops it. The class
  `DecatonClientImpl` has the public `put` overloads and the private record
  builder `PutRecord`. Its invariant `Valid` says every record in the
  producer's log has the client's topic and format.

The clock (`timestampSupplier`) is read by the caller of the model: each
operation that reads it takes the reading as a parameter `now`. The three
collaborators whose code is not part of this model are function-valued fields
of `ClientConfig`: the task `Serializer`, the `PrintableAsciiStringSerializer`
key serializer and `TaskMetadataUtil.writeAsHeader`. A serializer that
throws returns `Failure`, and no record is sent; a serializer that returns
`null` returns `Success(None)`.

## Model

| member | source | states |
|---|---|---|
| `ClientInternal.ConvertToTaskMetadataProto` | client/src/main/java/com/linecorp/decaton/client/internal/DecatonClientImpl.java:145-164 | The source ids always come from the client. With no override the timestamp is the clock reading and there is no scheduled time. With an override the timestamp is the override's when it has one and the clock reading otherwise, and the scheduled time is present exactly when the override has one, with that value. |
| `ClientInternal.MetadataAt` | client/src/main/java/com/linecorp/decaton/client/internal/DecatonClientImpl.java:86-94 | The timestamp overload's metadata has exactly the given timestamp, the client's ids and no scheduled time, and equals what an override carrying only that timestamp resolves to, for every clock reading. |
| `ClientInternal.MetadataReachable` | client/src/main/java/com/linecorp/decaton/client/internal/DecatonClientImpl.java:145-164 | Some override resolves to a metadata value if and only if that value carries the client's application id and instance id. |
| `ClientInternal.ClockOnlyAffectsTimestamp` | client/src/main/java/com/linecorp/decaton/client/internal/DecatonClientImpl.java:150-158 | When the override fixes the timestamp, the clock reading does not matter. Otherwise two readings give metadata that differ only in the timestamp, which is the reading. |
| `ClientInternal.PrepareRecord` | client/src/main/java/com/linecorp/decaton/client/internal/DecatonClientImpl.java:123-140 | A record is built exactly when the key and the task serialize and, in the old format, the task bytes are not null; otherwise the key's exception, else the task's, else the null-pointer exception of copying a null task into the envelope is the result. The record has the client's topic, the caller's partition (absent stays absent) and the serialized key, null included. In the old format its value is the envelope of the resolved metadata and the task bytes, with no headers. In the new format its value is the serializer's output unchanged, null included, and its headers are the written metadata. |
| `ClientInternal.FormatsCarrySameContent` | client/src/main/java/com/linecorp/decaton/client/internal/DecatonClientImpl.java:128-140 | When the task serializer returns bytes, the two formats succeed or fail together; the old record has no headers and the new one has the written metadata as headers; and a consumer that can read those headers back recovers the same task bytes and metadata from either. |
| `ClientInternal.NullTaskDivergence` | client/src/main/java/com/linecorp/decaton/client/internal/DecatonClientImpl.java:128-139 | When the task serializer returns null, the old format throws a null-pointer exception while the new format sends a record whose value is null. |
| `ClientInternal.DecatonClientImpl.constructor` | client/src/main/java/com/linecorp/decaton/client/internal/DecatonClientImpl.java:47-73 | The configuration is exactly the given topic, serializer, ids and format flag; the producer is new and has been handed nothing. |
| `ClientInternal.DecatonClientImpl.WithDefaultFormat` | client/src/main/java/com/linecorp/decaton/client/internal/DecatonClientImpl.java:75-83 | As the constructor, with the format flag false (the header format). |
| `ClientInternal.DecatonClientImpl.PutRecord` | client/src/main/java/com/linecorp/decaton/client/internal/DecatonClientImpl.java:123-143 | Hands exactly one record, the one `PrepareRecord` describes, to the producer and returns the handle on it; when a serializer throws, or the old format meets a null task, the log is unchanged and the exception is returned. The configuration never changes and every logged record keeps the client's shape. |
| `ClientInternal.DecatonClientImpl.PutAt` | client/src/main/java/com/linecorp/decaton/client/internal/DecatonClientImpl.java:86-94 | Sends the record for `MetadataAt` of the given timestamp with no explicit partition. |
| `ClientInternal.DecatonClientImpl.Put` | client/src/main/java/com/linecorp/decaton/client/internal/DecatonClientImpl.java:109-111 | Sends the record for `MetadataAt` of the clock reading with no explicit partition. |
| `ClientInternal.DecatonClientImpl.PutWithMetadata` | client/src/main/java/com/linecorp/decaton/client/internal/DecatonClientImpl.java:97-99 | Sends the record for the resolved override with no explicit partition. |
| `ClientInternal.DecatonClientImpl.PutWithMetadataAndPartition` | client/src/main/java/com/linecorp/decaton/client/internal/DecatonClientImpl.java:102-106 | Sends the record for the resolved override to the caller's partition. |
| `Producer.DecatonTaskProducer.SendRequest` | client/src/main/java/com/linecorp/decaton/client/internal/DecatonClientImpl.java:142 | The producer's log grows by exactly the record as it stands when handed over, and the handle names its position. |

## Left out

- `close` (lines 118-121): it only closes the producer, which is network I/O. This class keeps no closed flag, so a `put` after `close` is not rejected here, and the model has no such check either.
- The `put` overload with an error callback (lines 113-116): it delegates to a four-argument `put` that is not defined in this class, so the future/callback bridge is not part of this model.
- The asynchronous outcome of a send: `Submitted` is only a handle on the logged record. Delivery coordinates, broker failures and the `CompletableFuture` are not modelled.
- Protobuf encoding: the envelope is the structured `DecatonTaskRequest` value, not its bytes. Protobuf cannot tell an unset `scheduled_time_millis` from one set to 0; the model keeps them apart with `Option`.
- `PrintableAsciiStringSerializer`, the task `Serializer` and `TaskMetadataUtil.writeAsHeader`: their code is not part of this model. They are function fields of `ClientConfig`. The key serializer is a fixed static instance in the source; here it is supplied at construction.
- The clock: `System::currentTimeMillis` and the injectable supplier are replaced by the reading `now` passed to each operation that reads the clock. The source reads the clock in `convertToTaskMetadataProto` even when the override fixes the timestamp; that reading has no effect on the result.
- The producer's configuration and supplier (constructor arguments `producerConfig`, `producerSupplier`): they only configure Kafka.
- Checks made by Kafka's `ProducerRecord` constructor (a null topic, a negative partition): that code is not part of this model.
- Null strings: the `NullPointerException` the protobuf setters throw for a null application id or instance id (lines 89-90, 148-149) is not modelled; strings here are never null. What a null key or task does is up to the serializers, whose code is not part of this model; their `null` results are modelled.
- Thread safety: concurrent callers are not modelled.
