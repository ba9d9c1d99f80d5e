/** The values the client builds and ships: the caller's metadata override,
    the resolved task metadata and the legacy request envelope. */
module Protocol {
  import opened Wrappers

  /** Java's `long`. */
  newtype Long = x: int | -0x8000_0000_0000_0000 <= x < 0x8000_0000_0000_0000

  /** Java's `int`, used for the explicit partition number. */
  newtype Int32 = x: int | -0x8000_0000 <= x < 0x8000_0000

  type Bytes = seq<bv8>

  /** A Java `byte[]` reference, which may be `null` (`None`). */
  type NullableBytes = Option<Bytes>

  /** The override a caller may pass to `put`: both fields are nullable `Long`s. */
  datatype TaskMetadata = TaskMetadata(timestamp: Option<Long>, scheduledTime: Option<Long>)

  /** The metadata that travels with every task. The timestamp is always set;
      the scheduled time is set only when a caller asked for it. */
  datatype TaskMetadataProto = TaskMetadataProto(
    timestampMillis: Long,
    scheduledTimeMillis: Option<Long>,
    sourceApplicationId: string,
    sourceInstanceId: string)

  /** The legacy envelope: metadata and task bytes bundled as one message value. */
  datatype DecatonTaskRequest = DecatonTaskRequest(metadata: TaskMetadataProto, serializedTask: Bytes)
}
