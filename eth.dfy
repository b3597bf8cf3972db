/** The go-ethereum values the core handles. Key derivation, signing, RLP
    encoding and every RPC call stay outside the model: where the core calls
    them, the model takes their outcome as a parameter. */
module Eth {
  import opened Base

  /** `common.Address`: 20 bytes. */
  type Address = seq<uint8>

  /** `common.Hash`: 32 bytes. */
  type Hash = seq<uint8>

  /** `common.Hash{}`. */
  const ZeroHash: Hash := seq(32, _ => 0)

  /** An ECDSA private key, by its scalar's bytes. */
  datatype PrivKey = PrivKey(d: seq<uint8>)

  /** `types.BlobTxType`. */
  const BlobTxType: uint8 := 3

  /** The fields `types.NewTransaction` takes, in its order. */
  datatype Transaction = Transaction(
    nonce: uint64, to: Address, value: int, gas: uint64, gasPrice: int, data: seq<uint8>)

  /** A signed transaction: the transaction and the signature the signer gave it. */
  datatype SignedTx = SignedTx(tx: Transaction, signature: seq<uint8>)

  /** The receipt fields the accumulators read, as they stood at one moment. */
  datatype ReceiptValue = ReceiptValue(
    txType: uint8,
    blockNumber: int,
    gasUsed: uint64,
    effectiveGasPrice: int,
    blobGasUsed: uint64,
    blobGasPrice: int,
    l1GasUsed: int,
    l1Fee: int,
    l1GasPrice: int)

  /** A `*types.Receipt` returned by the endpoint. Its `big.Int` fields are
      pointers that a recorder can write through; of them the core only ever
      writes `EffectiveGasPrice`, so that is the one mutable field here. */
  class Receipt {
    const txType: uint8
    const blockNumber: int
    const gasUsed: uint64
    var effectiveGasPrice: int
    const blobGasUsed: uint64
    const blobGasPrice: int
    const l1GasUsed: int
    const l1Fee: int
    const l1GasPrice: int

    constructor (v: ReceiptValue)
      ensures Value() == v
    {
      txType, blockNumber, gasUsed, effectiveGasPrice := v.txType, v.blockNumber, v.gasUsed, v.effectiveGasPrice;
      blobGasUsed, blobGasPrice := v.blobGasUsed, v.blobGasPrice;
      l1GasUsed, l1Fee, l1GasPrice := v.l1GasUsed, v.l1Fee, v.l1GasPrice;
    }

    /** The receipt's fields as they stand now. */
    function Value(): ReceiptValue
      reads this`effectiveGasPrice
    {
      ReceiptValue(txType, blockNumber, gasUsed, effectiveGasPrice, blobGasUsed, blobGasPrice,
                   l1GasUsed, l1Fee, l1GasPrice)
    }
  }
}
