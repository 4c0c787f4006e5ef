// The Kafka-to-Elasticsearch sink of the describe scheduler
// (pkg/describe/kafka_es_sink.go), modelled sequentially: the message
// channel is the sequence of calls to Receive, and the commit channel is
// the `committed` sequence the sink appends to.

module KafkaEsSink {
  import opened Common

  type Bytes = seq<bv8>

  datatype KafkaHeader = KafkaHeader(key: string, value: Bytes)
  datatype KafkaMessage = KafkaMessage(key: Bytes, value: Bytes, headers: seq<KafkaHeader>)

  /** A document for Elasticsearch: target index, document id and body. */
  datatype EsResource = EsResource(index: Bytes, id: Bytes, body: Bytes)

  /** The buffer is flushed once it holds more than this many messages. */
  const FlushThreshold: nat := 1000

  const MissingIndexHeader: string := "missing index header"

  /** The value of the last header named `name`, or empty when there is none. */
  function LastHeaderValue(headers: seq<KafkaHeader>, name: string): Bytes
    decreases |headers|
  {
    if |headers| == 0 then []
    else if headers[|headers| - 1].key == name then headers[|headers| - 1].value
    else LastHeaderValue(headers[..|headers| - 1], name)
  }

  /** The header at `i` is the last one named `name`, so its value is the one kept. */
  lemma {:induction false} LastHeaderWins(headers: seq<KafkaHeader>, name: string, i: nat)
    requires i < |headers| && headers[i].key == name
    requires forall j | i < j < |headers| :: headers[j].key != name
    ensures LastHeaderValue(headers, name) == headers[i].value
    decreases |headers|
  {
    if i < |headers| - 1 {
      var init := headers[..|headers| - 1];
      assert forall j | i < j < |init| :: init[j] == headers[j];
      LastHeaderWins(init, name, i);
    }
  }

  /** With no header named `name` the value is empty. */
  lemma {:induction false} AbsentHeaderIsEmpty(headers: seq<KafkaHeader>, name: string)
    requires forall i | 0 <= i < |headers| :: headers[i].key != name
    ensures LastHeaderValue(headers, name) == []
    decreases |headers|
  {
    if |headers| > 0 {
      var init := headers[..|headers| - 1];
      assert forall i | 0 <= i < |init| :: init[i] == headers[i];
      AbsentHeaderIsEmpty(init, name);
    }
  }

  /**
   * newEsResourceFromKafkaMessage: the index is the last index header's
   * value, the id the message key and the body the message value; an
   * absent or empty index header is an error.
   */
  method NewEsResource(msg: KafkaMessage, esIndexHeader: string) returns (r: Result<EsResource>)
    ensures r.Err? <==> LastHeaderValue(msg.headers, esIndexHeader) == []
    ensures r.Err? ==> r.error == MissingIndexHeader
    ensures r.Ok? ==> r.value == EsResource(LastHeaderValue(msg.headers, esIndexHeader), msg.key, msg.value)
  {
    var index: Bytes := [];
    for i := 0 to |msg.headers|
      invariant index == LastHeaderValue(msg.headers[..i], esIndexHeader)
    {
      assert msg.headers[..i + 1][..i] == msg.headers[..i];
      if msg.headers[i].key == esIndexHeader {
        index := msg.headers[i].value;
      }
    }
    assert msg.headers[..|msg.headers|] == msg.headers;
    if index == [] {
      return Err(MissingIndexHeader);
    }
    r := Ok(EsResource(index, msg.key, msg.value));
  }

  class Sink {
    /** Messages received and not yet forwarded for commit. */
    var buffer: seq<KafkaMessage>
    /** Messages sent on the commit channel, in order. */
    var committed: seq<KafkaMessage>
    /** Every message received so far, in order. */
    ghost var received: seq<KafkaMessage>

    /** Nothing is lost or duplicated, and between steps the buffer holds at most the threshold. */
    ghost predicate Valid()
      reads this
    {
      committed + buffer == received && |buffer| <= FlushThreshold
    }

    constructor ()
      ensures Valid()
      ensures buffer == [] && committed == [] && received == []
    {
      buffer := [];
      committed := [];
      received := [];
    }

    /** flushESSinkBuffer: forward the buffer for commit in arrival order, then empty it. */
    method Flush()
      modifies this
      ensures committed == old(committed) + old(buffer)
      ensures buffer == []
      ensures received == old(received)
      ensures old(buffer) == [] ==> committed == old(committed)
    {
      if |buffer| == 0 {
        return;
      }
      var i := 0;
      while i < |buffer|
        invariant 0 <= i <= |buffer|
        invariant buffer == old(buffer) && received == old(received)
        invariant committed == old(committed) + buffer[..i]
      {
        assert buffer[..i + 1] == buffer[..i] + [buffer[i]];
        committed := committed + [buffer[i]];
        i := i + 1;
      }
      assert buffer[..i] == buffer;
      buffer := [];
    }

    /** One message from the channel: buffer it, and flush once the buffer exceeds the threshold. */
    method Receive(msg: KafkaMessage)
      requires Valid()
      modifies this
      ensures Valid()
      ensures received == old(received) + [msg]
      ensures |old(buffer)| + 1 > FlushThreshold ==> buffer == [] && committed == old(committed) + old(buffer) + [msg]
      ensures |old(buffer)| + 1 <= FlushThreshold ==> buffer == old(buffer) + [msg] && committed == old(committed)
    {
      buffer := buffer + [msg];
      received := received + [msg];
      if |buffer| > FlushThreshold {
        Flush();
      }
    }

    /** The thirty-second timer: flush whatever is buffered. */
    method Timeout()
      requires Valid()
      modifies this
      ensures Valid()
      ensures buffer == [] && committed == old(received) && received == old(received)
    {
      Flush();
    }
  }

  /** Whatever the sink has done, what it forwarded for commit is a prefix of what it received. */
  lemma CommittedIsPrefixOfReceived(committed: seq<KafkaMessage>, buffer: seq<KafkaMessage>, received: seq<KafkaMessage>)
    requires committed + buffer == received
    ensures committed <= received
    ensures received[|committed|..] == buffer
  {
    assert received[..|committed|] == committed;
  }
}
