/** The records that Horizon and the Soroban RPC deliver, cut down to the fields the indexer reads. */
module Records {

  datatype Option<+T> = None | Some(value: T)

  datatype Result<+T> = Success(value: T) | Failure(error: string)

  /** What the SDK's decoder makes of one event topic: a string, or some other JavaScript value. */
  datatype Native = Text(text: string) | OtherValue(code: int)

  datatype EventRecord = EventRecord(
    id: string,
    ledger: nat,
    txHash: string,
    operationIndex: nat,
    contractId: Option<string>,
    topic: seq<Native>)

  datatype TxRecord = TxRecord(hash: string, sourceAccount: string)

  datatype OpRecord = OpRecord(id: string, transactionHash: string, opType: string, sourceAccount: string)

  datatype EffectRecord = EffectRecord(id: string, account: string, effectType: string)

  datatype LedgerRecord = LedgerRecord(sequence: nat)

  /** Everything fetched for one ledger. */
  datatype LedgerData = LedgerData(
    txs: seq<TxRecord>,
    ops: seq<OpRecord>,
    effects: seq<EffectRecord>,
    events: seq<EventRecord>)

  const INVOKE_HOST_FUNCTION := "invoke_host_function"

  /** A JavaScript optional string counts as given only when it is present and not empty. */
  predicate Truthy(s: Option<string>) {
    s.Some? && s.value != ""
  }
}
