/** The transaction attack of trunks/attacker.go, taken one result at a time:
    reading the transaction hash out of the endpoint's reply, waiting for the
    receipt and recording it, and deciding which results are passed on. */
module Attacker {
  import opened Base
  import opened Eth
  import opened TrunksReporter

  /** A value of the decoded reply body: a JSON string, or anything else. */
  datatype JsonValue = JString(s: string) | JOther

  /** The error `txHashFromResult` returns when the reply carries an error. */
  const ErrNotExistResult: string := "not exist result"

  /** The bounds of a `time.Duration`, in nanoseconds. */
  const MaxDuration: int := 0x7fff_ffff_ffff_ffff
  const MinDuration: int := -0x8000_0000_0000_0000

  /** A `vegeta.Result`: when its request left, the decoded reply body, and
      the two fields the attack writes. */
  class AttackResult {
    /** The dispatch time, in nanoseconds since the Unix epoch. */
    const timestamp: int
    const body: map<string, JsonValue>
    var error: string
    var latency: int

    constructor (timestamp: int, body: map<string, JsonValue>)
      ensures this.timestamp == timestamp && this.body == body && error == "" && latency == 0
    {
      this.timestamp, this.body := timestamp, body;
      error, latency := "", 0;
    }
  }

  /** The reply bodies `txHashFromResult` can read: one with an `error` key,
      or one whose `result` is a string (anything else makes the source's type
      assertion panic). */
  predicate HashReadable(body: map<string, JsonValue>)
  {
    "error" in body || ("result" in body && body["result"].JString?)
  }

  /** `txHashFromResult`: a reply with an `error` key gives the zero hash and
      an error whatever else it holds; otherwise the hash parsed (by
      `hexToHash`, `common.HexToHash`) from its `result` string. */
  function TxHashFromResult(body: map<string, JsonValue>, hexToHash: string -> Hash): (r: (Hash, Option<string>))
    requires HashReadable(body)
    ensures r.1.Some? <==> "error" in body
    ensures r.1.Some? ==> r == (ZeroHash, Some(ErrNotExistResult))
    ensures r.1.None? ==> r.0 == hexToHash(body["result"].s)
  {
    if "error" in body then (ZeroHash, Some(ErrNotExistResult))
    else (hexToHash(body["result"].s), None)
  }

  /** `int64(x)` of a `uint64`: the same bits read as two's complement. */
  function Int64Of(x: uint64): (r: int)
    ensures MinDuration <= r <= MaxDuration
    ensures (r - x) % U64 == 0
    ensures x <= MaxDuration ==> r == x
  {
    if x <= MaxDuration then x else x - U64
  }

  /** The seconds from year 1 to the Unix epoch, which `time.Unix` adds to its
      argument in an `int64`. */
  const UnixToInternal: int := 62_135_596_800

  /** The Unix seconds `time.Unix(int64(blockTime), 0)` stands for: the block
      time read as an `int64`, shifted back by 2^64 when adding
      `UnixToInternal` to it overflows. */
  function UnixSeconds(blockTime: uint64): (s: int)
    ensures Int64Of(blockTime) <= MaxDuration - UnixToInternal ==> s == Int64Of(blockTime)
    ensures Int64Of(blockTime) > MaxDuration - UnixToInternal ==> s < MinDuration
  {
    var internal := Int64Of(blockTime) + UnixToInternal;
    (if internal > MaxDuration then internal - U64 else internal) - UnixToInternal
  }

  /** `time.Unix(int64(blockTime), 0).Sub(timestamp)`: the nanoseconds from the
      dispatch to the block time, held at the `Duration` bounds when they
      overflow. A block time so large that `time.Unix` overflows lands before
      year 1, so the latency is then the least `Duration`. */
  function Latency(blockTime: uint64, timestamp: int): (d: int)
    ensures MinDuration <= d <= MaxDuration
    ensures var exact := UnixSeconds(blockTime) * 1_000_000_000 - timestamp;
      && (MinDuration <= exact <= MaxDuration ==> d == exact)
      && (exact > MaxDuration ==> d == MaxDuration)
      && (exact < MinDuration ==> d == MinDuration)
    ensures Int64Of(blockTime) <= MaxDuration - UnixToInternal ==>
      var exact := Int64Of(blockTime) * 1_000_000_000 - timestamp;
      d == if exact > MaxDuration then MaxDuration else if exact < MinDuration then MinDuration else exact
    ensures Int64Of(blockTime) > MaxDuration - UnixToInternal && timestamp >= MinDuration ==> d == MinDuration
  {
    var exact := UnixSeconds(blockTime) * 1_000_000_000 - timestamp;
    if exact > MaxDuration then MaxDuration else if exact < MinDuration then MinDuration else exact
  }

  /** The effect of the six recorders `waitTxConfirm` calls on a receipt with
      these fields: the block range widened to its block, its L1 gas and fee
      and its L2 gas added, its price times gas added as L2 fee, and one more
      confirmed transaction. */
  function Confirmed(t: Totals, r: ReceiptValue): (c: Totals)
    ensures c.totalConfirmTransactions == t.totalConfirmTransactions + 1
    ensures c.startBlockNumber == Min(t.startBlockNumber, r.blockNumber)
    ensures c.endBlockNumber == Max(t.endBlockNumber, r.blockNumber)
    ensures c.l2GasFee - t.l2GasFee == r.effectiveGasPrice * r.gasUsed
    ensures c.l1GasUsed - t.l1GasUsed == r.l1GasUsed && c.l1GasFee - t.l1GasFee == r.l1Fee
    ensures c.l2GasUsed - t.l2GasUsed == r.gasUsed
  {
    Totals(
      totalConfirmTransactions := t.totalConfirmTransactions + 1,
      l1GasUsed := t.l1GasUsed + r.l1GasUsed,
      l2GasUsed := t.l2GasUsed + r.gasUsed,
      l1GasFee := t.l1GasFee + r.l1Fee,
      l2GasFee := t.l2GasFee + r.effectiveGasPrice * r.gasUsed,
      startBlockNumber := Min(t.startBlockNumber, r.blockNumber),
      endBlockNumber := Max(t.endBlockNumber, r.blockNumber))
  }

  /** Two confirmations recorded in either order leave the same totals, so
      the order in which the attack's goroutines finish does not matter to
      the reporter. */
  lemma ConfirmedCommute(t: Totals, a: ReceiptValue, b: ReceiptValue)
    ensures Confirmed(Confirmed(t, a), b) == Confirmed(Confirmed(t, b), a)
  {
  }

  /** Some poll returns a receipt. */
  predicate Answered(polls: seq<Receipt?>)
  {
    exists i :: 0 <= i < |polls| && polls[i] != null
  }

  /** The poll that first returns a receipt. */
  function FirstReceipt(polls: seq<Receipt?>): (j: nat)
    requires Answered(polls)
    ensures j < |polls| && polls[j] != null
    ensures forall k :: 0 <= k < j ==> polls[k] == null
  {
    if polls[0] != null then 0
    else
      assert Answered(polls[1..]) by {
        var i :| 0 <= i < |polls| && polls[i] != null;
        assert polls[1..][i - 1] == polls[i];
      }
      1 + FirstReceipt(polls[1..])
  }

  /** The receipt the first answered poll returns. */
  function FirstReceiptOf(polls: seq<Receipt?>): Receipt
    requires Answered(polls)
  {
    polls[FirstReceipt(polls)]
  }

  /** `waitTxConfirm`: polls for the receipt (`polls[i]` is the `i`-th poll's
      receipt, `null` when the poll failed) until one arrives; records it with
      the six recorders; then looks up its block's time (`blockTime`). A failed
      lookup is returned and leaves the latency alone, but the receipt has
      already been recorded. The source polls forever when no receipt comes,
      so one is required to come. */
  method WaitTxConfirm(reports: Reports, result: AttackResult, polls: seq<Receipt?>, blockTime: int -> Result<uint64>)
    returns (err: Option<string>)
    requires reports.Valid()
    requires Answered(polls)
    modifies reports`totals, reports`blocks, FirstReceiptOf(polls)`effectiveGasPrice, result`latency
    ensures var receipt := FirstReceiptOf(polls);
      && reports.Valid() && reports.blocks == old(reports.blocks) + [receipt.blockNumber]
      && reports.totals == Confirmed(old(reports.totals), old(receipt.Value()))
      && receipt.effectiveGasPrice == old(receipt.effectiveGasPrice) * receipt.gasUsed
      && (blockTime(receipt.blockNumber).Err? ==>
            err == Some(blockTime(receipt.blockNumber).error) && result.latency == old(result.latency))
      && (blockTime(receipt.blockNumber).Ok? ==>
            err == None && result.latency == Latency(blockTime(receipt.blockNumber).value, result.timestamp))
  {
    ghost var j := FirstReceipt(polls);
    var i := 0;
    while polls[i] == null
      invariant 0 <= i <= j
      decreases j - i
    {
      i := i + 1;
    }
    var receipt := polls[i];
    var blockNumber := receipt.blockNumber;
    reports.RecordStartToLastBlock(receipt);
    reports.RecordL1GasUsed(receipt);
    reports.RecordL1GasFee(receipt);
    reports.RecordL2GasUsed(receipt);
    reports.RecordL2GasFee(receipt);
    reports.RecordConfirmRequest();

    var block := blockTime(blockNumber);
    if block.Err? {
      return Some(block.error);
    }
    result.latency := Latency(block.value, result.timestamp);
    err := None;
  }

  /** Whether `TransactionAttacker.Attack` passes result `i` on: its reply
      carries no error and its block's time is found. */
  predicate Passed(r: AttackResult, polls: seq<Receipt?>, blockTime: int -> Result<uint64>)
    requires "error" !in r.body ==> Answered(polls)
  {
    "error" !in r.body && blockTime(polls[FirstReceipt(polls)].blockNumber).Ok?
  }

  /** The results `Attack` passes on, in order. */
  function Emitted(results: seq<AttackResult>, pollsOf: seq<seq<Receipt?>>, blockTime: int -> Result<uint64>): (e: seq<AttackResult>)
    requires |pollsOf| == |results|
    requires forall i :: 0 <= i < |results| && "error" !in results[i].body ==> Answered(pollsOf[i])
    ensures forall r <- e :: r in results && "error" !in r.body
    ensures |e| <= |results|
  {
    if results == [] then []
    else
      var n := |results| - 1;
      Emitted(results[..n], pollsOf[..n], blockTime)
        + if Passed(results[n], pollsOf[n], blockTime) then [results[n]] else []
  }

  /** A result is passed on exactly when its reply carries no error and its
      confirmation finds the block; dropped results never reappear. */
  lemma {:induction false} EmittedExactly(results: seq<AttackResult>, pollsOf: seq<seq<Receipt?>>, blockTime: int -> Result<uint64>)
    requires |pollsOf| == |results|
    requires forall i :: 0 <= i < |results| && "error" !in results[i].body ==> Answered(pollsOf[i])
    ensures forall i :: 0 <= i < |results| && Passed(results[i], pollsOf[i], blockTime) ==>
      results[i] in Emitted(results, pollsOf, blockTime)
    ensures forall r <- Emitted(results, pollsOf, blockTime) ::
      exists i :: 0 <= i < |results| && results[i] == r && Passed(r, pollsOf[i], blockTime)
  {
    if results != [] {
      var n := |results| - 1;
      var rs, ps := results[..n], pollsOf[..n];
      EmittedExactly(rs, ps, blockTime);
      assert forall i :: 0 <= i < n ==> rs[i] == results[i] && ps[i] == pollsOf[i];
    }
  }

  /** Looking at one more result extends what is passed on by that result,
      exactly when it passes. */
  lemma EmittedStep(results: seq<AttackResult>, pollsOf: seq<seq<Receipt?>>, blockTime: int -> Result<uint64>, i: nat)
    requires |pollsOf| == |results| && i < |results|
    requires forall i :: 0 <= i < |results| && "error" !in results[i].body ==> Answered(pollsOf[i])
    ensures Emitted(results[..i + 1], pollsOf[..i + 1], blockTime)
      == Emitted(results[..i], pollsOf[..i], blockTime)
         + if Passed(results[i], pollsOf[i], blockTime) then [results[i]] else []
  {
    assert results[..i + 1][..i] == results[..i];
    assert pollsOf[..i + 1][..i] == pollsOf[..i];
  }

  /** All receipt objects the polls can return. */
  function Receipts(pollsOf: seq<seq<Receipt?>>): set<object>
  {
    set i, k | 0 <= i < |pollsOf| && 0 <= k < |pollsOf[i]| && pollsOf[i][k] != null :: pollsOf[i][k]
  }

  /** The receipt `WaitTxConfirm` records, if any poll returns one. */
  function AnswerOf(polls: seq<Receipt?>): set<Receipt>
  {
    if Answered(polls) then {FirstReceiptOf(polls)} else {}
  }

  /** One turn of `TransactionAttacker.Attack`'s loop: a result whose reply
      carries an error gets that error and is dropped; any other one is
      confirmed with `WaitTxConfirm` (the source's goroutine) and passed on
      only when that succeeds. */
  method HandleResult(
    reports: Reports, res: AttackResult, polls: seq<Receipt?>,
    hexToHash: string -> Hash, blockTime: int -> Result<uint64>)
    returns (passed: bool)
    requires reports.Valid() && HashReadable(res.body)
    requires "error" !in res.body ==> Answered(polls)
    modifies reports`totals, reports`blocks, res`error, res`latency, AnswerOf(polls)`effectiveGasPrice
    ensures reports.Valid()
    ensures passed == Passed(res, polls, blockTime)
    ensures "error" in res.body ==>
      && res.error == ErrNotExistResult && res.latency == old(res.latency)
      && reports.totals == old(reports.totals) && reports.blocks == old(reports.blocks)
    ensures "error" in res.body && Answered(polls) ==>
      FirstReceiptOf(polls).effectiveGasPrice == old(FirstReceiptOf(polls).effectiveGasPrice)
    ensures "error" !in res.body ==> res.error == old(res.error)
    ensures "error" !in res.body ==> var receipt := FirstReceiptOf(polls);
      && reports.blocks == old(reports.blocks) + [receipt.blockNumber]
      && reports.totals == Confirmed(old(reports.totals), old(receipt.Value()))
      && receipt.effectiveGasPrice == old(receipt.effectiveGasPrice) * receipt.gasUsed
      && (blockTime(receipt.blockNumber).Err? ==> res.latency == old(res.latency))
      && (blockTime(receipt.blockNumber).Ok? ==>
            res.latency == Latency(blockTime(receipt.blockNumber).value, res.timestamp))
  {
    var (txHash, hashErr) := TxHashFromResult(res.body, hexToHash);
    if hashErr.Some? {
      res.error := hashErr.value;
      return false;
    }
    var err := WaitTxConfirm(reports, res, polls, blockTime);
    passed := err.None?;
  }

  /** `TransactionAttacker.Attack`, one result after another (the source hands
      each confirmation to its own goroutine). `pollsOf[i]` are the receipt
      polls for result `i`'s transaction. */
  method Attack(
    reports: Reports, results: seq<AttackResult>, pollsOf: seq<seq<Receipt?>>,
    hexToHash: string -> Hash, blockTime: int -> Result<uint64>)
    returns (emitted: seq<AttackResult>)
    requires reports.Valid()
    requires |pollsOf| == |results|
    requires forall i :: 0 <= i < |results| ==> HashReadable(results[i].body)
    requires forall i :: 0 <= i < |results| && "error" !in results[i].body ==> Answered(pollsOf[i])
    modifies reports`totals, reports`blocks, (set r <- results :: r), Receipts(pollsOf)
    ensures reports.Valid()
    ensures emitted == Emitted(results, pollsOf, blockTime)
  {
    emitted := [];
    for i := 0 to |results|
      invariant reports.Valid()
      invariant emitted == Emitted(results[..i], pollsOf[..i], blockTime)
    {
      var res := results[i];
      assert res in results;
      assert "error" !in res.body ==> FirstReceiptOf(pollsOf[i]) in Receipts(pollsOf);
      EmittedStep(results, pollsOf, blockTime, i);
      var passed := HandleResult(reports, res, pollsOf[i], hexToHash, blockTime);
      if passed {
        emitted := emitted + [res];
      }
    }
    assert results[..|results|] == results && pollsOf[..|results|] == pollsOf;
  }
}
