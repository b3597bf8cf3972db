/** The chain-cost accumulator of reporter/reporter.go: the `reports` record,
    its recorders, the average gas prices and the TPS figure. */
module Reporter {
  import opened Base
  import opened Eth

  /** The sum of `f` over the receipts, folded from the first. */
  function Total(xs: seq<ReceiptValue>, f: ReceiptValue -> int): int
  {
    if xs == [] then 0 else Total(xs[..|xs| - 1], f) + f(xs[|xs| - 1])
  }

  predicate IsBlob(r: ReceiptValue) { r.txType == BlobTxType }

  /** The blob-type receipts, in order. */
  function Blobs(xs: seq<ReceiptValue>): seq<ReceiptValue>
  {
    if xs == [] then []
    else Blobs(xs[..|xs| - 1]) + if IsBlob(xs[|xs| - 1]) then [xs[|xs| - 1]] else []
  }

  /** Field projections, the terms the accumulators sum. */
  function L1GasUsedOf(r: ReceiptValue): int { r.l1GasUsed }
  function GasUsedOf(r: ReceiptValue): int { r.gasUsed }
  function L1FeeOf(r: ReceiptValue): int { r.l1Fee }
  function L1GasPriceOf(r: ReceiptValue): int { r.l1GasPrice }
  function EffectiveGasPriceOf(r: ReceiptValue): int { r.effectiveGasPrice }
  function BlobGasUsedOf(r: ReceiptValue): int { r.blobGasUsed }
  function BlobGasPriceOf(r: ReceiptValue): int { r.blobGasPrice }

  /** The blob fee of one receipt: `BlobGasUsed * BlobGasPrice.Uint64()`, a product
      taken in `uint64` and so reduced modulo 2^64. */
  function BlobFeeOf(r: ReceiptValue): (fee: int)
    ensures 0 <= fee < U64
  {
    (r.blobGasUsed * Uint64Of(r.blobGasPrice)) % U64
  }

  /** The L2 fee of one receipt: effective gas price times gas used. */
  function L2FeeOf(r: ReceiptValue): int
  {
    r.effectiveGasPrice * r.gasUsed
  }

  /** The least block number among the receipts. */
  function MinBlock(xs: seq<ReceiptValue>): int
    requires xs != []
  {
    if |xs| == 1 then xs[0].blockNumber
    else Min(MinBlock(xs[..|xs| - 1]), xs[|xs| - 1].blockNumber)
  }

  /** The greatest block number among the receipts. */
  function MaxBlock(xs: seq<ReceiptValue>): int
    requires xs != []
  {
    if |xs| == 1 then xs[0].blockNumber
    else Max(MaxBlock(xs[..|xs| - 1]), xs[|xs| - 1].blockNumber)
  }

  /** What `endBlockNumber` holds after the receipts: it starts at 0, the first
      receipt leaves it alone, and every later one raises it to its block. */
  function EndBlockAsWritten(xs: seq<ReceiptValue>): int
  {
    if |xs| <= 1 then 0
    else Max(EndBlockAsWritten(xs[..|xs| - 1]), xs[|xs| - 1].blockNumber)
  }

  /** The `uint64` difference of two block timestamps, as `endBlock.Time() -
      startBlock.Time()` computes it: it wraps when the end is earlier. */
  function Elapsed(startTime: uint64, endTime: uint64): (d: uint64)
    ensures startTime <= endTime ==> d == endTime - startTime
    ensures startTime > endTime ==> d == endTime - startTime + U64
  {
    (endTime - startTime) % U64
  }

  /** The receipt-derived fields of `reports`, together. */
  datatype Totals = Totals(
    receiptCount: uint64,
    blobTxCount: uint64,
    l1GasUsed: int,
    l2GasUsed: int,
    blobGasUsed: int,
    blobFee: int,
    l1Fee: int,
    l2Fee: int,
    cumulativeL1GasPrice: int,
    cumulativeBlobGasPrice: int,
    cumulativeL2GasPrice: int,
    startBlockNumber: int,
    endBlockNumber: int,
    first: bool)

  /** Their values right after `InitReporter`. */
  const Initial: Totals := Totals(0, 0, 0, 0, 0, 0, 0, 0, 0, 0, 0, 0, 0, true)

  /** What `RecordReceipt` does to them for one receipt: count it, fold in
      the blob fields of a blob-type receipt, then the fields of every receipt. */
  function Record(t: Totals, r: ReceiptValue): Totals
  {
    var counted := t.(receiptCount := (t.receiptCount + 1) % U64);
    RecordCommon(if IsBlob(r) then RecordBlob(counted, r) else counted, r)
  }

  /** The blob-only part of `RecordReceipt`. */
  function RecordBlob(t: Totals, r: ReceiptValue): Totals
  {
    t.(blobTxCount := (t.blobTxCount + 1) % U64,
       cumulativeBlobGasPrice := t.cumulativeBlobGasPrice + r.blobGasPrice,
       blobGasUsed := t.blobGasUsed + r.blobGasUsed,
       blobFee := t.blobFee + BlobFeeOf(r))
  }

  /** The part of `RecordReceipt` every receipt goes through. */
  function RecordCommon(t: Totals, r: ReceiptValue): Totals
  {
    t.(startBlockNumber := if t.first then r.blockNumber else Min(t.startBlockNumber, r.blockNumber),
       endBlockNumber := if t.first then t.endBlockNumber else Max(t.endBlockNumber, r.blockNumber),
       first := false,
       l1GasUsed := t.l1GasUsed + r.l1GasUsed,
       l1Fee := t.l1Fee + r.l1Fee,
       l2GasUsed := t.l2GasUsed + r.gasUsed,
       l2Fee := t.l2Fee + L2FeeOf(r),
       cumulativeL1GasPrice := t.cumulativeL1GasPrice + r.l1GasPrice,
       cumulativeL2GasPrice := t.cumulativeL2GasPrice + r.effectiveGasPrice)
  }

  /** The fields after recording the receipts one by one from the zero state. */
  function Accumulate(xs: seq<ReceiptValue>): Totals
  {
    if xs == [] then Initial else Record(Accumulate(xs[..|xs| - 1]), xs[|xs| - 1])
  }

  /** Recording one more receipt is one more `Record` step. */
  lemma AccumulateSnoc(xs: seq<ReceiptValue>, r: ReceiptValue)
    ensures Accumulate(xs + [r]) == Record(Accumulate(xs), r)
  {
    assert (xs + [r])[..|xs|] == xs;
  }

  /** Each receipt raises `receiptCount` by one and `blobTxCount` only for a blob
      receipt: both count modulo 2^64, and there are never more blob receipts
      than receipts. */
  lemma {:induction false} AccumulateCounts(xs: seq<ReceiptValue>)
    ensures Accumulate(xs).receiptCount == |xs| % U64
    ensures Accumulate(xs).blobTxCount == |Blobs(xs)| % U64
    ensures |Blobs(xs)| <= |xs|
  {
    if xs != [] {
      var p, v := xs[..|xs| - 1], xs[|xs| - 1];
      AccumulateCounts(p);
      ModSucc(|p|, U64);
      if IsBlob(v) {
        ModSucc(|Blobs(p)|, U64);
      }
    }
  }

  /** Below 2^64 receipts neither counter wraps, so `blobTxCount` never
      exceeds `receiptCount`. */
  lemma BlobCountAtMostReceiptCount(xs: seq<ReceiptValue>)
    requires |xs| < U64
    ensures Accumulate(xs).blobTxCount <= Accumulate(xs).receiptCount
  {
    AccumulateCounts(xs);
    ModUnique(|xs|, U64, 0, |xs|);
    ModUnique(|Blobs(xs)|, U64, 0, |Blobs(xs)|);
  }

  /** Every accumulator is the sum of its field over the receipts; the blob
      accumulators over the blob receipts only. */
  lemma {:induction false} AccumulateSums(xs: seq<ReceiptValue>)
    ensures var t := Accumulate(xs);
      && t.l1GasUsed == Total(xs, L1GasUsedOf)
      && t.l2GasUsed == Total(xs, GasUsedOf)
      && t.l1Fee == Total(xs, L1FeeOf)
      && t.l2Fee == Total(xs, L2FeeOf)
      && t.cumulativeL1GasPrice == Total(xs, L1GasPriceOf)
      && t.cumulativeL2GasPrice == Total(xs, EffectiveGasPriceOf)
      && t.blobGasUsed == Total(Blobs(xs), BlobGasUsedOf)
      && t.blobFee == Total(Blobs(xs), BlobFeeOf)
      && t.cumulativeBlobGasPrice == Total(Blobs(xs), BlobGasPriceOf)
  {
    if xs != [] {
      var p, v := xs[..|xs| - 1], xs[|xs| - 1];
      AccumulateSums(p);
      if IsBlob(v) {
        var b := Blobs(xs);
        assert b == Blobs(p) + [v];
        assert b[..|b| - 1] == Blobs(p) && b[|b| - 1] == v;
      } else {
        assert Blobs(xs) == Blobs(p) + [];
        assert Blobs(xs) == Blobs(p);
      }
    }
  }

  /** `first` holds exactly until a receipt arrives; the start block is the least
      block seen; the end block is the greatest block of every receipt but the
      first, or 0. */
  lemma {:induction false} AccumulateBlockRange(xs: seq<ReceiptValue>)
    ensures Accumulate(xs).first <==> xs == []
    ensures xs == [] ==> Accumulate(xs).startBlockNumber == 0
    ensures xs != [] ==> Accumulate(xs).startBlockNumber == MinBlock(xs)
    ensures Accumulate(xs).endBlockNumber == EndBlockAsWritten(xs)
  {
    if xs != [] {
      AccumulateBlockRange(xs[..|xs| - 1]);
    }
  }

  /** The least block is one of the receipts' blocks and no block is smaller. */
  lemma {:induction false} MinBlockIsLeast(xs: seq<ReceiptValue>)
    requires xs != []
    ensures exists i :: 0 <= i < |xs| && xs[i].blockNumber == MinBlock(xs)
    ensures forall i :: 0 <= i < |xs| ==> MinBlock(xs) <= xs[i].blockNumber
  {
    if |xs| > 1 {
      var p := xs[..|xs| - 1];
      MinBlockIsLeast(p);
      var k :| 0 <= k < |p| && p[k].blockNumber == MinBlock(p);
      assert forall i :: 0 <= i < |p| ==> xs[i] == p[i];
      if MinBlock(p) <= xs[|xs| - 1].blockNumber {
        assert xs[k].blockNumber == MinBlock(xs);
      } else {
        assert xs[|xs| - 1].blockNumber == MinBlock(xs);
      }
    } else {
      assert xs[0].blockNumber == MinBlock(xs);
    }
  }

  /** The greatest block is one of the receipts' blocks and no block is larger. */
  lemma {:induction false} MaxBlockIsGreatest(xs: seq<ReceiptValue>)
    requires xs != []
    ensures exists i :: 0 <= i < |xs| && xs[i].blockNumber == MaxBlock(xs)
    ensures forall i :: 0 <= i < |xs| ==> xs[i].blockNumber <= MaxBlock(xs)
  {
    if |xs| > 1 {
      var p := xs[..|xs| - 1];
      MaxBlockIsGreatest(p);
      var k :| 0 <= k < |p| && p[k].blockNumber == MaxBlock(p);
      assert forall i :: 0 <= i < |p| ==> xs[i] == p[i];
      if MaxBlock(p) >= xs[|xs| - 1].blockNumber {
        assert xs[k].blockNumber == MaxBlock(xs);
      } else {
        assert xs[|xs| - 1].blockNumber == MaxBlock(xs);
      }
    } else {
      assert xs[0].blockNumber == MaxBlock(xs);
    }
  }

  /** The recorded end block bounds every receipt's block except the first's. */
  lemma {:induction false} EndBlockAsWrittenBounds(xs: seq<ReceiptValue>)
    ensures forall i :: 1 <= i < |xs| ==> xs[i].blockNumber <= EndBlockAsWritten(xs)
    ensures 0 <= EndBlockAsWritten(xs)
    ensures EndBlockAsWritten(xs) == 0
            || exists i :: 1 <= i < |xs| && xs[i].blockNumber == EndBlockAsWritten(xs)
  {
    if |xs| > 1 {
      var p := xs[..|xs| - 1];
      EndBlockAsWrittenBounds(p);
      assert forall i :: 1 <= i < |p| ==> xs[i] == p[i];
      var n := |xs| - 1;
      if EndBlockAsWritten(xs) == xs[n].blockNumber {
        assert 1 <= n;
      } else if EndBlockAsWritten(p) != 0 {
        var i :| 1 <= i < |p| && p[i].blockNumber == EndBlockAsWritten(p);
        assert xs[i].blockNumber == EndBlockAsWritten(xs);
      }
    }
  }

  /** Recording receipts 10 then 9 leaves the end block at 9: the first
      receipt's block never reaches `endBlockNumber`. */
  lemma EndBlockMissesFirstReceipt()
    ensures var a := ReceiptValue(2, 10, 21000, 1, 0, 0, 0, 0, 0);
            var b := a.(blockNumber := 9);
            Accumulate([a, b]).endBlockNumber == 9 && MaxBlock([a, b]) == 10
  {
    var a := ReceiptValue(2, 10, 21000, 1, 0, 0, 0, 0, 0);
    var b := a.(blockNumber := 9);
    assert [a, b][..1] == [a];
    assert [a][..0] == [];
    assert Accumulate([a]) == Record(Initial, a);
    assert Accumulate([a]).endBlockNumber == 0 && !Accumulate([a]).first;
    assert Accumulate([a, b]) == Record(Accumulate([a]), b);
    assert MaxBlock([a]) == 10;
  }

  /** The confirmed block range as the recorder evidently means it: the first
      receipt sets both ends, later ones widen the range. */
  function ConfirmedBlockRange(xs: seq<ReceiptValue>): (range: (int, int))
    requires xs != []
  {
    if |xs| == 1 then (xs[0].blockNumber, xs[0].blockNumber)
    else
      var (s, e) := ConfirmedBlockRange(xs[..|xs| - 1]);
      (Min(s, xs[|xs| - 1].blockNumber), Max(e, xs[|xs| - 1].blockNumber))
  }

  /** The corrected range runs from the least to the greatest confirmed block,
      so its first block never exceeds its last. */
  lemma {:induction false} ConfirmedBlockRangeIsMinMax(xs: seq<ReceiptValue>)
    requires xs != []
    ensures ConfirmedBlockRange(xs) == (MinBlock(xs), MaxBlock(xs))
    ensures ConfirmedBlockRange(xs).0 <= ConfirmedBlockRange(xs).1
  {
    if |xs| > 1 {
      ConfirmedBlockRangeIsMinMax(xs[..|xs| - 1]);
    }
  }

  /** Sums split over concatenation. */
  lemma {:induction false} TotalConcat(a: seq<ReceiptValue>, b: seq<ReceiptValue>, f: ReceiptValue -> int)
    ensures Total(a + b, f) == Total(a, f) + Total(b, f)
    decreases |b|
  {
    if b != [] {
      var p := b[..|b| - 1];
      assert (a + b)[..|a + b| - 1] == a + p && (a + b)[|a + b| - 1] == b[|b| - 1];
      TotalConcat(a, p, f);
    } else {
      assert a + b == a;
    }
  }

  /** The order in which two batches of receipts arrive does not change any sum. */
  lemma TotalOrderIndependent(a: seq<ReceiptValue>, b: seq<ReceiptValue>, f: ReceiptValue -> int)
    ensures Total(a + b, f) == Total(b + a, f)
  {
    TotalConcat(a, b, f);
    TotalConcat(b, a, f);
  }

  /** The blob receipts of two batches are those of the first, then those of
      the second. */
  lemma {:induction false} BlobsConcat(a: seq<ReceiptValue>, b: seq<ReceiptValue>)
    ensures Blobs(a + b) == Blobs(a) + Blobs(b)
    decreases |b|
  {
    if b != [] {
      var p := b[..|b| - 1];
      assert (a + b)[..|a + b| - 1] == a + p && (a + b)[|a + b| - 1] == b[|b| - 1];
      BlobsConcat(a, p);
    } else {
      assert a + b == a;
    }
  }

  /** The order in which two batches of receipts arrive changes none of the
      receipt-derived sums, average-price numerators or counters of the report;
      only the block range and `first` depend on the order. */
  lemma AccumulateOrderIndependent(a: seq<ReceiptValue>, b: seq<ReceiptValue>)
    ensures var ab, ba := Accumulate(a + b), Accumulate(b + a);
      && ab.receiptCount == ba.receiptCount
      && ab.blobTxCount == ba.blobTxCount
      && ab.l1GasUsed == ba.l1GasUsed
      && ab.l2GasUsed == ba.l2GasUsed
      && ab.l1Fee == ba.l1Fee
      && ab.l2Fee == ba.l2Fee
      && ab.cumulativeL1GasPrice == ba.cumulativeL1GasPrice
      && ab.cumulativeL2GasPrice == ba.cumulativeL2GasPrice
      && ab.blobGasUsed == ba.blobGasUsed
      && ab.blobFee == ba.blobFee
      && ab.cumulativeBlobGasPrice == ba.cumulativeBlobGasPrice
  {
    AccumulateCounts(a + b);
    AccumulateCounts(b + a);
    BlobsConcat(a, b);
    BlobsConcat(b, a);
    AccumulateSums(a + b);
    AccumulateSums(b + a);
    TotalOrderIndependent(a, b, L1GasUsedOf);
    TotalOrderIndependent(a, b, GasUsedOf);
    TotalOrderIndependent(a, b, L1FeeOf);
    TotalOrderIndependent(a, b, L2FeeOf);
    TotalOrderIndependent(a, b, L1GasPriceOf);
    TotalOrderIndependent(a, b, EffectiveGasPriceOf);
    var ba, bb := Blobs(a), Blobs(b);
    TotalOrderIndependent(ba, bb, BlobGasUsedOf);
    TotalOrderIndependent(ba, bb, BlobFeeOf);
    TotalOrderIndependent(ba, bb, BlobGasPriceOf);
  }

  class Reports {
    var tps: int
    var totalConfirmTransactions: int
    var l1GasPrice: int
    var blobGasPrice: int
    var l2GasPrice: int
    const l2BlockTime: int
    /** The receipt-derived fields, `receiptCount` through `endBlockNumber`, and
        the package-level flag `first`, which only these recorders use. */
    var totals: Totals
    /** Every receipt recorded so far, in order. */
    ghost var seen: seq<ReceiptValue>

    /** The receipt-derived fields are what recording `seen` from zero gives. */
    ghost predicate Valid()
      reads this`totals, this`seen
    {
      totals == Accumulate(seen)
    }

    constructor (l2BlockTime: int)
      ensures Valid() && seen == [] && totals == Initial
      ensures tps == 0 && totalConfirmTransactions == 0
      ensures l1GasPrice == 0 && blobGasPrice == 0 && l2GasPrice == 0
      ensures this.l2BlockTime == l2BlockTime
    {
      tps, totalConfirmTransactions := 0, 0;
      l1GasPrice, blobGasPrice, l2GasPrice := 0, 0, 0;
      this.l2BlockTime := l2BlockTime;
      totals := Initial;
      seen := [];
    }

    /** `RecordTPS`: `blockTime` stands for the client's view of each block's
        timestamp. Confirmed transactions per second between the first and last
        confirmed blocks, or per block time when that span is zero; a zero block
        time there is a division by zero in the source, so it is excluded. */
    method RecordTPS(blockTime: int -> uint64)
      requires Elapsed(blockTime(totals.startBlockNumber), blockTime(totals.endBlockNumber)) == 0
               ==> l2BlockTime != 0
      modifies this`tps
      ensures var d := Elapsed(blockTime(totals.startBlockNumber), blockTime(totals.endBlockNumber));
              tps == totalConfirmTransactions / (if d == 0 then l2BlockTime else d)
    {
      var startTime := blockTime(totals.startBlockNumber);
      var endTime := blockTime(totals.endBlockNumber);
      var d := (endTime - startTime) % U64;
      var tr := totalConfirmTransactions;
      if d == 0 {
        tps := tr / l2BlockTime;
        return;
      }
      tps := tr / d;
    }

    method RecordConfirmRequest()
      modifies this`totalConfirmTransactions
      ensures totalConfirmTransactions == old(totalConfirmTransactions) + 1
    {
      totalConfirmTransactions := totalConfirmTransactions + 1;
    }

    /** Folds one receipt into every accumulator; the blob ones only for a
        blob-type receipt. */
    method RecordReceipt(receipt: ReceiptValue)
      requires Valid()
      modifies this`totals, this`seen
      ensures Valid() && seen == old(seen) + [receipt]
      ensures totals == Record(old(totals), receipt)
    {
      totals := totals.(receiptCount := (totals.receiptCount + 1) % U64);
      ghost var counted := totals;
      if receipt.txType == BlobTxType {
        totals := totals.(blobTxCount := (totals.blobTxCount + 1) % U64);
        RecordBlobGasPrice(receipt);
        RecordBlobGasUsed(receipt);
        RecordBlobFee(receipt);
        assert totals == RecordBlob(counted, receipt);
      }
      ghost var blobbed := totals;
      assert Record(old(totals), receipt) == RecordCommon(blobbed, receipt);
      RecordStartToLastBlock(receipt);
      RecordL1GasUsed(receipt);
      RecordL1Fee(receipt);
      RecordL2GasUsed(receipt);
      RecordL2Fee(receipt);
      RecordL1GasPrice(receipt);
      RecordL2GasPrice(receipt);
      assert totals == RecordCommon(blobbed, receipt);
      AccumulateSnoc(seen, receipt);
      seen := seen + [receipt];
    }

    /** The first receipt sets the start block and clears `first`; later ones
        lower the start and raise the end. */
    method RecordStartToLastBlock(receipt: ReceiptValue)
      modifies this`totals
      ensures var t := old(totals);
        totals == t.(
          startBlockNumber := if t.first then receipt.blockNumber
                              else Min(t.startBlockNumber, receipt.blockNumber),
          endBlockNumber := if t.first then t.endBlockNumber
                            else Max(t.endBlockNumber, receipt.blockNumber),
          first := false)
    {
      if totals.first {
        totals := totals.(startBlockNumber := receipt.blockNumber, first := false);
        return;
      }
      if totals.startBlockNumber > receipt.blockNumber {
        totals := totals.(startBlockNumber := receipt.blockNumber);
      }
      if totals.endBlockNumber < receipt.blockNumber {
        totals := totals.(endBlockNumber := receipt.blockNumber);
      }
    }

    method RecordBlobGasUsed(receipt: ReceiptValue)
      modifies this`totals
      ensures totals == old(totals).(blobGasUsed := old(totals.blobGasUsed) + receipt.blobGasUsed)
    {
      totals := totals.(blobGasUsed := totals.blobGasUsed + receipt.blobGasUsed);
    }

    method RecordBlobFee(receipt: ReceiptValue)
      modifies this`totals
      ensures totals == old(totals).(blobFee := old(totals.blobFee) + BlobFeeOf(receipt))
    {
      var fee := (receipt.blobGasUsed * Uint64Of(receipt.blobGasPrice)) % U64;
      totals := totals.(blobFee := totals.blobFee + fee);
    }

    method RecordL1GasUsed(receipt: ReceiptValue)
      modifies this`totals
      ensures totals == old(totals).(l1GasUsed := old(totals.l1GasUsed) + receipt.l1GasUsed)
    {
      totals := totals.(l1GasUsed := totals.l1GasUsed + receipt.l1GasUsed);
    }

    method RecordL2GasUsed(receipt: ReceiptValue)
      modifies this`totals
      ensures totals == old(totals).(l2GasUsed := old(totals.l2GasUsed) + receipt.gasUsed)
    {
      totals := totals.(l2GasUsed := totals.l2GasUsed + receipt.gasUsed);
    }

    method RecordL1Fee(receipt: ReceiptValue)
      modifies this`totals
      ensures totals == old(totals).(l1Fee := old(totals.l1Fee) + receipt.l1Fee)
    {
      totals := totals.(l1Fee := totals.l1Fee + receipt.l1Fee);
    }

    /** The product goes into a fresh value: the receipt is only read. */
    method RecordL2Fee(receipt: ReceiptValue)
      modifies this`totals
      ensures totals == old(totals).(l2Fee := old(totals.l2Fee) + L2FeeOf(receipt))
    {
      var l2GasFee := receipt.effectiveGasPrice * receipt.gasUsed;
      totals := totals.(l2Fee := totals.l2Fee + l2GasFee);
    }

    method RecordL1GasPrice(receipt: ReceiptValue)
      modifies this`totals
      ensures totals == old(totals).(cumulativeL1GasPrice := old(totals.cumulativeL1GasPrice) + receipt.l1GasPrice)
    {
      totals := totals.(cumulativeL1GasPrice := totals.cumulativeL1GasPrice + receipt.l1GasPrice);
    }

    method RecordBlobGasPrice(receipt: ReceiptValue)
      modifies this`totals
      ensures totals == old(totals).(cumulativeBlobGasPrice := old(totals.cumulativeBlobGasPrice) + receipt.blobGasPrice)
    {
      totals := totals.(cumulativeBlobGasPrice := totals.cumulativeBlobGasPrice + receipt.blobGasPrice);
    }

    method RecordL2GasPrice(receipt: ReceiptValue)
      modifies this`totals
      ensures totals == old(totals).(cumulativeL2GasPrice := old(totals.cumulativeL2GasPrice) + receipt.effectiveGasPrice)
    {
      totals := totals.(cumulativeL2GasPrice := totals.cumulativeL2GasPrice + receipt.effectiveGasPrice);
    }

    /** The averages are settled when each one whose count is non-zero equals its
        cumulative total divided by that count. */
    ghost predicate AveragesSettled()
      reads this
    {
      && (totals.receiptCount > 0 ==>
            l1GasPrice == Quo(totals.cumulativeL1GasPrice, totals.receiptCount)
            && l2GasPrice == Quo(totals.cumulativeL2GasPrice, totals.receiptCount))
      && (totals.blobTxCount > 0 ==>
            blobGasPrice == Quo(totals.cumulativeBlobGasPrice, totals.blobTxCount))
    }

    /** `calcGasPrices`: truncating averages, each left as it was while its count
        is zero. It reads only fields it does not write, so a second call changes
        nothing. */
    method CalcGasPrices()
      modifies this`l1GasPrice, this`l2GasPrice, this`blobGasPrice
      ensures AveragesSettled()
      ensures totals.receiptCount == 0 ==> l1GasPrice == old(l1GasPrice) && l2GasPrice == old(l2GasPrice)
      ensures totals.blobTxCount == 0 ==> blobGasPrice == old(blobGasPrice)
      ensures old(AveragesSettled()) ==> unchanged(this)
    {
      var t := totals;
      if t.receiptCount > 0 {
        l1GasPrice := Quo(t.cumulativeL1GasPrice, t.receiptCount);
        l2GasPrice := Quo(t.cumulativeL2GasPrice, t.receiptCount);
      }
      if t.blobTxCount > 0 {
        blobGasPrice := Quo(t.cumulativeBlobGasPrice, t.blobTxCount);
      }
    }
  }

  /** The package state `InitReporter` sets up once: the shared record and the
      `sync.Once` that guards it. The report file is not part of this model. */
  class Package {
    var trunksReport: Reports?
    var initialised: bool

    constructor ()
      ensures trunksReport == null && !initialised
    {
      trunksReport := null;
      initialised := false;
    }

    method InitReporter(l2BlockTime: int)
      modifies this
      ensures initialised
      ensures old(initialised) ==> unchanged(this)
      ensures !old(initialised) ==>
        && trunksReport != null && fresh(trunksReport)
        && trunksReport.Valid() && trunksReport.seen == [] && trunksReport.totals == Initial
        && trunksReport.tps == 0 && trunksReport.totalConfirmTransactions == 0
        && trunksReport.l1GasPrice == 0 && trunksReport.blobGasPrice == 0 && trunksReport.l2GasPrice == 0
        && trunksReport.l2BlockTime == l2BlockTime
    {
      if !initialised {
        trunksReport := new Reports(l2BlockTime);
        initialised := true;
      }
    }
  }
}
