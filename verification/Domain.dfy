/** The values that travel from the chain to the tables. */
module Domain {

  type Byte = x: nat | x < 256

  type Hash = h: seq<Byte> | |h| == 32 witness seq(32, _ => 0)

  type Address = a: seq<Byte> | |a| == 20 witness seq(20, _ => 0)

  /** The zero value of a hash or an address. */
  predicate IsZero(bytes: seq<Byte>) {
    forall i :: 0 <= i < |bytes| ==> bytes[i] == 0
  }

  /** JSON stays opaque: a text with the verdict of json.Valid, or the encoding of a raw log. */
  datatype Json = Text(body: string, wellFormed: bool) | RawLogOf(log: Log)

  predicate EmptyJson(j: Json) {
    j.Text? && j.body == ""
  }

  predicate ValidJson(j: Json) {
    j.Text? ==> j.wellFormed
  }

  datatype Log = Log(
    address: Address,
    topics: seq<Hash>,
    data: string,
    blockNumber: nat,
    blockHash: Hash,
    txHash: Hash,
    txIndex: nat,
    index: nat,
    removed: bool)

  datatype ScanBatch = ScanBatch(
    chainId: nat,
    chainName: string,
    network: string,
    monitor: string)

  datatype DecodedEvent = DecodedEvent(eventName: string, payload: Json)

  datatype EventEnvelope = EventEnvelope(
    eventKey: string,
    chainId: nat,
    chainName: string,
    network: string,
    monitor: string,
    eventName: string,
    blockNumber: nat,
    blockHash: Hash,
    txHash: Hash,
    txIndex: nat,
    logIndex: nat,
    contractAddress: Address,
    topic0: Hash,
    payload: Json,
    rawLog: Json,
    removed: bool)
}
