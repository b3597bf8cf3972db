/** The older accumulator of trunks/reporter.go: the `Reports` record the
    transaction attacker feeds, its public recorders, TPS and `weiToEther`. */
module TrunksReporter {
  import opened Base
  import opened Eth

  /** `params.Ether`: wei per ether. */
  const Ether: int := 1_000_000_000_000_000_000

  /** The least of `init` and the blocks, folded from the first block. */
  function Lowest(init: int, blocks: seq<int>): int
  {
    if blocks == [] then init else Min(Lowest(init, blocks[..|blocks| - 1]), blocks[|blocks| - 1])
  }

  /** The greatest of `init` and the blocks, folded from the first block. */
  function Highest(init: int, blocks: seq<int>): int
  {
    if blocks == [] then init else Max(Highest(init, blocks[..|blocks| - 1]), blocks[|blocks| - 1])
  }

  /** `Lowest` is a lower bound of `init` and of every block, and is one of them. */
  lemma {:induction false} LowestIsLeast(init: int, blocks: seq<int>)
    ensures Lowest(init, blocks) <= init
    ensures forall i :: 0 <= i < |blocks| ==> Lowest(init, blocks) <= blocks[i]
    ensures Lowest(init, blocks) == init || Lowest(init, blocks) in blocks
  {
    if blocks != [] {
      var p := blocks[..|blocks| - 1];
      LowestIsLeast(init, p);
      assert forall i :: 0 <= i < |p| ==> blocks[i] == p[i];
      assert forall x :: x in p ==> x in blocks;
    }
  }

  /** `Highest` is an upper bound of `init` and of every block, and is one of them. */
  lemma {:induction false} HighestIsGreatest(init: int, blocks: seq<int>)
    ensures init <= Highest(init, blocks)
    ensures forall i :: 0 <= i < |blocks| ==> blocks[i] <= Highest(init, blocks)
    ensures Highest(init, blocks) == init || Highest(init, blocks) in blocks
  {
    if blocks != [] {
      var p := blocks[..|blocks| - 1];
      HighestIsGreatest(init, p);
      assert forall i :: 0 <= i < |p| ==> blocks[i] == p[i];
      assert forall x :: x in p ==> x in blocks;
    }
  }

  /** Starting from 0, the start block can only go below 0, so for real (non-
      negative) block numbers it never leaves 0. */
  lemma {:induction false} StartStaysZero(blocks: seq<int>)
    requires forall i :: 0 <= i < |blocks| ==> blocks[i] >= 0
    ensures Lowest(0, blocks) == 0
  {
    LowestIsLeast(0, blocks);
  }

  /** One receipt in block 5 leaves the start block at 0 instead of 5. */
  lemma StartMissesFirstBlock()
    ensures Lowest(0, [5]) == 0 && FirstConfirmedBlock([5]) == 5
  {
    assert [5][..0] == [];
  }

  /** The start block as evidently intended: the first confirmed block seeds
      the minimum, later ones lower it. */
  function FirstConfirmedBlock(blocks: seq<int>): int
    requires blocks != []
  {
    Lowest(blocks[0], blocks[1..])
  }

  /** The corrected start block is the least confirmed block. */
  lemma FirstConfirmedBlockIsLeast(blocks: seq<int>)
    requires blocks != []
    ensures FirstConfirmedBlock(blocks) in blocks
    ensures forall i :: 0 <= i < |blocks| ==> FirstConfirmedBlock(blocks) <= blocks[i]
  {
    var rest := blocks[1..];
    LowestIsLeast(blocks[0], rest);
    assert forall i :: 1 <= i < |blocks| ==> blocks[i] == rest[i - 1];
    assert forall x :: x in rest ==> x in blocks;
  }

  /** `weiToEther`: whole ether, rounded down (`big.Int.Div` is Euclidean). */
  function WeiToEther(wei: int): (ether: int)
    ensures ether * Ether <= wei < ether * Ether + Ether
  {
    wei / Ether
  }

  /** The fields of `Reports` the recorders update. */
  datatype Totals = Totals(
    totalConfirmTransactions: int,
    l1GasUsed: int,
    l2GasUsed: int,
    l1GasFee: int,
    l2GasFee: int,
    startBlockNumber: int,
    endBlockNumber: int)

  const Zero: Totals := Totals(0, 0, 0, 0, 0, 0, 0)

  class Reports {
    var tps: int
    var totals: Totals
    var batcherConsumeEther: int
    var proposerConsumeEther: int
    var totalSequncerConsumeEther: int
    /** The block numbers passed to `RecordStartToLastBlock`, in order. */
    ghost var blocks: seq<int>

    /** The block range is the least and greatest of 0 and every recorded block. */
    ghost predicate Valid()
      reads this
    {
      && totals.startBlockNumber == Lowest(0, blocks)
      && totals.endBlockNumber == Highest(0, blocks)
    }

    /** The record `init` builds: every field 0. */
    constructor ()
      ensures Valid() && blocks == []
      ensures totals == Zero && tps == 0
      ensures batcherConsumeEther == 0 && proposerConsumeEther == 0 && totalSequncerConsumeEther == 0
    {
      tps := 0;
      totals := Zero;
      batcherConsumeEther, proposerConsumeEther, totalSequncerConsumeEther := 0, 0, 0;
      blocks := [];
    }

    /** Confirmed transactions per block-span second, rounded down. The span
        `(end - start) * l2BlockTime` must be non-zero: the source divides by it. */
    method RecordTPS(l2BlockTime: int)
      requires (totals.endBlockNumber - totals.startBlockNumber) * l2BlockTime != 0
      modifies this`tps
      ensures var d := (totals.endBlockNumber - totals.startBlockNumber) * l2BlockTime;
              tps * d <= totals.totalConfirmTransactions < tps * d + Abs(d)
    {
      var sb := totals.startBlockNumber;
      var eb := totals.endBlockNumber;
      var duration := (eb - sb) * l2BlockTime;
      var tr := totals.totalConfirmTransactions;
      tps := tr / duration;
    }

    method RecordConfirmRequest()
      modifies this`totals
      ensures totals == old(totals).(totalConfirmTransactions := old(totals.totalConfirmTransactions) + 1)
    {
      totals := totals.(totalConfirmTransactions := totals.totalConfirmTransactions + 1);
    }

    /** Lowers the start and raises the end to the receipt's block. */
    method RecordStartToLastBlock(receipt: Receipt)
      requires Valid()
      modifies this`totals, this`blocks
      ensures Valid() && blocks == old(blocks) + [receipt.blockNumber]
      ensures totals == old(totals).(
        startBlockNumber := Min(old(totals.startBlockNumber), receipt.blockNumber),
        endBlockNumber := Max(old(totals.endBlockNumber), receipt.blockNumber))
    {
      ghost var b := blocks + [receipt.blockNumber];
      assert b[..|b| - 1] == blocks;
      blocks := b;
      if totals.startBlockNumber > receipt.blockNumber {
        totals := totals.(startBlockNumber := receipt.blockNumber);
      }
      if totals.endBlockNumber < receipt.blockNumber {
        totals := totals.(endBlockNumber := receipt.blockNumber);
      }
    }

    method RecordL1GasUsed(receipt: Receipt)
      modifies this`totals
      ensures totals == old(totals).(l1GasUsed := old(totals.l1GasUsed) + receipt.l1GasUsed)
    {
      totals := totals.(l1GasUsed := totals.l1GasUsed + receipt.l1GasUsed);
    }

    method RecordL2GasUsed(receipt: Receipt)
      modifies this`totals
      ensures totals == old(totals).(l2GasUsed := old(totals.l2GasUsed) + receipt.gasUsed)
    {
      totals := totals.(l2GasUsed := totals.l2GasUsed + receipt.gasUsed);
    }

    method RecordL1GasFee(receipt: Receipt)
      modifies this`totals
      ensures totals == old(totals).(l1GasFee := old(totals.l1GasFee) + receipt.l1Fee)
    {
      totals := totals.(l1GasFee := totals.l1GasFee + receipt.l1Fee);
    }

    /** The product is computed into the receipt's own effective gas price, so
        the receipt afterwards carries the fee in place of the price. */
    method RecordL2GasFee(receipt: Receipt)
      modifies this`totals, receipt`effectiveGasPrice
      ensures receipt.effectiveGasPrice == old(receipt.effectiveGasPrice) * receipt.gasUsed
      ensures totals == old(totals).(l2GasFee := old(totals.l2GasFee) + receipt.effectiveGasPrice)
    {
      receipt.effectiveGasPrice := receipt.effectiveGasPrice * receipt.gasUsed;
      totals := totals.(l2GasFee := totals.l2GasFee + receipt.effectiveGasPrice);
    }
  }

  /** The package variable `ChainReporter`, set up by `init` when absent. */
  class Package {
    var chainReporter: Reports?

    constructor ()
      ensures chainReporter == null
    {
      chainReporter := null;
    }

    method Init()
      modifies this
      ensures chainReporter != null
      ensures old(chainReporter) != null ==> unchanged(this)
      ensures old(chainReporter) == null ==>
        && fresh(chainReporter) && chainReporter.Valid() && chainReporter.blocks == []
        && chainReporter.totals == Zero && chainReporter.tps == 0
        && chainReporter.batcherConsumeEther == 0 && chainReporter.proposerConsumeEther == 0
        && chainReporter.totalSequncerConsumeEther == 0
    {
      if chainReporter == null {
        chainReporter := new Reports();
      }
    }
  }
}
