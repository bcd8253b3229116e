/** The parts of the Kafka client library (sarama) that the subscriber touches, as oracles. */
module Sarama {
  import opened Go

  /** `sarama.ConsumerMessage`: one record read from a partition. */
  datatype ConsumerMessage = ConsumerMessage(
    topic: string,
    partition: int,
    offset: int,
    key: seq<byte>,
    value: seq<byte>,
    timestamp: Time)

  /** `sarama.ConsumerGroupClaim`: the records of one assigned partition, in log order. */
  datatype Claim = Claim(partition: int, messages: seq<ConsumerMessage>)

  /** One call of `MarkMessage`: the record marked as processed and its metadata. */
  datatype Mark = Mark(record: ConsumerMessage, metadata: string)

  /** `sarama.ConsumerGroupSession`: one generation of group membership.
      Its offset marks are kept as a log of `MarkMessage` calls. */
  class ConsumerGroupSession {
    var marks: seq<Mark>

    constructor ()
      ensures marks == []
    {
      marks := [];
    }

    /** Records that `record` is processed, in this session and no other. */
    method MarkMessage(record: ConsumerMessage, metadata: string)
      modifies this
      ensures marks == old(marks) + [Mark(record, metadata)]
    {
      marks := marks + [Mark(record, metadata)];
    }
  }

  /** `sarama.KafkaVersion`. */
  datatype KafkaVersion = KafkaVersion(major: nat, minor: nat, patch: nat, fix: nat)

  const V2_2_1_0: KafkaVersion := KafkaVersion(2, 2, 1, 0)

  /** Initial-offset policies (`sarama.OffsetNewest`, `sarama.OffsetOldest`). */
  const OffsetNewest: int := -1
  const OffsetOldest: int := -2

  /** The settings of `sarama.Config` that the subscriber sets. */
  datatype Config = Config(
    version: KafkaVersion,
    initialOffset: int,
    returnErrors: bool,
    sessionTimeoutMillis: nat)
}
