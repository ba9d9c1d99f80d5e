/** The outbound side: the record the client builds and the producer that
    takes it. The producer's network I/O is replaced by a log of what it was
    handed. */
module Producer {
  import opened Wrappers
  import opened Protocol

  /** One named header entry of a record. */
  datatype Header = Header(key: string, value: Bytes)

  /** The value of a record: the legacy envelope, or the task bytes as the
      serializer produced them, `null` included. The tag is the model's;
      on the wire both are byte arrays. */
  datatype RecordValue = Envelope(request: DecatonTaskRequest) | Raw(bytes: NullableBytes)

  /** A record as the producer received it. A missing partition lets the
      producer choose one. */
  datatype Record = Record(
    topic: string,
    partition: Option<Int32>,
    key: NullableBytes,
    value: RecordValue,
    headers: seq<Header>)

  /** The mutable header list every record owns. */
  class RecordHeaders {
    var entries: seq<Header>

    constructor ()
      ensures entries == []
    {
      entries := [];
    }

    /** Appends `hs`, in order, after the present entries. */
    method AddAll(hs: seq<Header>)
      modifies this
      ensures entries == old(entries) + hs
    {
      entries := entries + hs;
    }
  }

  /** A record under construction: everything but its headers is fixed when
      it is created; the headers start empty and may be added to. */
  class ProducerRecord {
    const topic: string
    const partition: Option<Int32>
    const key: NullableBytes
    const value: RecordValue
    const headers: RecordHeaders

    constructor (topic: string, partition: Option<Int32>, key: NullableBytes, value: RecordValue)
      ensures this.topic == topic && this.partition == partition
      ensures this.key == key && this.value == value
      ensures fresh(headers) && headers.entries == []
    {
      this.topic := topic;
      this.partition := partition;
      this.key := key;
      this.value := value;
      headers := new RecordHeaders();
    }

    /** The record as it stands now. */
    function Snapshot(): Record
      reads headers
    {
      Record(topic, partition, key, value, headers.entries)
    }
  }

  /** What `sendRequest` returns: a handle on the asynchronous outcome of the
      record at position `index` of the producer's log. */
  datatype Submitted = Submitted(index: nat)

  /** The task producer, seen only through the records it has been handed. */
  class DecatonTaskProducer {
    var sent: seq<Record>

    constructor ()
      ensures sent == []
    {
      sent := [];
    }

    method SendRequest(record: ProducerRecord) returns (f: Submitted)
      modifies this
      ensures sent == old(sent) + [record.Snapshot()]
      ensures f == Submitted(|old(sent)|)
    {
      f := Submitted(|sent|);
      sent := sent + [record.Snapshot()];
    }
  }
}
