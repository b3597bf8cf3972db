# tokamak-trunks in Dafny

tokamak-trunks is a load generator for an Optimism-style L2 devnet. It funds
tester accounts from ten distributors and fires call or transaction attacks
at the L2 endpoint. It waits for each transaction's receipt and accumulates
gas, fee, block-range and throughput figures into reporters.

This project models the bookkeeping at the core of that tool:

- the two reporters and their accumulators (`reporter/reporter.go`,
  `trunks/reporter.go`);
- how the faucet splits testers among distributors, and each distributor's
  nonce counter (`account/manager.go`);
- the key file: path, line format and round trip (`account/account.go`);
- the tester accounts and their nonce cache (`trunks/accounts.go`);
- the two request builders (`trunks/targets.go`);
- the per-result logic of the transaction attack (`trunks/attacker.go`);
- pace selection (`trunks/scenario.go`);
- environment variable naming (`utils/utils.go`).

The model has one module per source file, plus three shared modules:

- `Base`: Go's `uint64`, truncating `big.Int.Quo`, and `(value, error)` results.
- `Hex`: `encoding/hex` and `hexutil.Encode`.
- `Eth`: go-ethereum's values.

Go's `big.Int.Div` is Euclidean, like Dafny's `/`. `Quo` and Go's integer
`/` truncate, and the model writes that out. `uint64` arithmetic is written
modulo 2^64 where the source wraps.

Objects the source updates in place are classes. These are:

- the reporters, the distributor, the key-file disk and the nonce cache;
- the targeters' captured variables, and `vegeta.Target` / `vegeta.Result`;
- the receipt, whose `EffectiveGasPrice` one recorder overwrites.

Loops stay loops, with invariants. Everything else is functions over
datatypes.

The model takes as parameters everything it does not see. Some of these
parameters can fail and some are total.

These return a `Result` (or an `Option` error, or `null`), so their failure
paths are modelled:

- creating the key file (`os.Create`, `createError` in `Accounts.Disk.Write`)
  and opening it (a missing file in `Accounts.Disk.Read`);
- the RPC outcomes: dial, pending nonce, suggested gas price, network id,
  send (`submit`), and the attacker's block lookups (`blockTime`);
- each receipt poll, where `null` is a failed poll;
- signing, transaction encoding (`marshal`), and key parsing
  (`crypto.HexToECDSA`);
- key generation in `Manager.GenerateAccounts`, and `time.ParseDuration`.

These are total functions, and the model treats them as never failing:

- `common.HexToHash`, `common.HexToAddress` and address derivation
  (`addressOf`);
- `Address.Hex` (`hexOf`) and the signed transaction's hash (`hashOf`);
- key generation in `TrunksAccounts.GenerateAccounts`;
- the reporter's block times in `Reporter.Reports.RecordTPS`.

## Model

| member | source | states |
|---|---|---|
| Base.Quo | reporter/reporter.go:165-173 | `big.Int.Quo` truncates: the quotient's magnitude is the magnitudes' quotient, and it is negative only when the signs differ |
| Base.Uint64Of | reporter/reporter.go:126-128 | `big.Int.Uint64` keeps the value when it fits in 64 bits and is congruent to the magnitude modulo 2^64 |
| Hex.Encode | trunks/targets.go:119 | two lower-case hex digits per byte |
| Hex.DecodeEncode | trunks/targets.go:119-123 | decoding the hex text gives back the bytes |
| Hex.PrefixedEncode | account/manager.go:161 | `hexutil.Encode` is `0x` followed by hex digits only |
| Reporter.BlobFeeOf | reporter/reporter.go:126-129 | the blob fee increment is a `uint64`: the product taken modulo 2^64 |
| Reporter.Elapsed | reporter/reporter.go:75-76 | the block-time difference is the plain difference, or that plus 2^64 when the end is earlier |
| Reporter.AccumulateCounts | reporter/reporter.go:91-98 | after any receipts, `receiptCount` is their number and `blobTxCount` the number of blob-type ones, both mod 2^64; there are never more blob-type receipts than receipts |
| Reporter.BlobCountAtMostReceiptCount | reporter/reporter.go:91-98 | below 2^64 receipts neither counter wraps, so `blobTxCount <= receiptCount` |
| Reporter.AccumulateSnoc | reporter/reporter.go:91-106 | recording one more receipt is one more fold step on the totals so far |
| Reporter.AccumulateSums | reporter/reporter.go:93-105 | each accumulator is the sum of its field over all receipts; the blob gas, blob fee and blob price sums range over blob-type receipts only |
| Reporter.AccumulateBlockRange | reporter/reporter.go:108-120 | `first` holds exactly while no receipt was seen; the start block is 0 until then and the least block seen afterwards; the end block is the greatest block of every receipt but the first |
| Reporter.MinBlockIsLeast | reporter/reporter.go:114-116 | the least block is one of the receipts' blocks and no receipt's block is lower |
| Reporter.MaxBlockIsGreatest | reporter/reporter.go:117-119 | the greatest block is one of the receipts' blocks and no receipt's block is higher |
| Reporter.EndBlockAsWrittenBounds | reporter/reporter.go:108-120 | the recorded end block is at least 0 and at least every block but the first; it is 0 or the block of some receipt after the first |
| Reporter.EndBlockMissesFirstReceipt | reporter/reporter.go:109-112 | receipts at blocks 10 then 9 leave the end block at 9 while the greatest block is 10 |
| Reporter.ConfirmedBlockRangeIsMinMax | reporter/reporter.go:108-120 | the corrected range is (least block, greatest block), so start <= end |
| Reporter.TotalOrderIndependent | reporter/reporter.go:131-163 | swapping two batches of receipts does not change the sum of any field over them |
| Reporter.BlobsConcat | reporter/reporter.go:92-97 | the blob receipts of two batches are those of the first followed by those of the second |
| Reporter.AccumulateOrderIndependent | reporter/reporter.go:90-105 | the order of two batches of receipts changes none of the report's sums, price numerators, receipt count or blob count |
| Reporter.Reports.constructor | reporter/reporter.go:192-216 | every accumulator starts at 0 and `first` starts true |
| Reporter.Reports.RecordTPS | reporter/reporter.go:71-85 | TPS is confirmed transactions divided (Euclidean) by the wrapped block-time span, or by the L2 block time when the span is 0 |
| Reporter.Reports.RecordConfirmRequest | reporter/reporter.go:87-89 | the confirmed count rises by exactly 1 and nothing else changes |
| Reporter.Reports.RecordReceipt | reporter/reporter.go:91-106 | the record stays the fold of all receipts seen, with this one appended |
| Reporter.Reports.RecordStartToLastBlock | reporter/reporter.go:108-120 | the first receipt sets the start and clears `first` without touching the end; later ones lower the start and raise the end |
| Reporter.Reports.RecordBlobGasUsed | reporter/reporter.go:122-124 | only the blob gas total grows, by the receipt's blob gas |
| Reporter.Reports.RecordBlobFee | reporter/reporter.go:126-129 | only the blob fee total grows, by the wrapped product |
| Reporter.Reports.RecordL1GasUsed | reporter/reporter.go:131-133 | only the L1 gas total grows, by the receipt's L1 gas |
| Reporter.Reports.RecordL2GasUsed | reporter/reporter.go:135-137 | only the L2 gas total grows, by the receipt's gas used |
| Reporter.Reports.RecordL1Fee | reporter/reporter.go:139-141 | only the L1 fee total grows, by the receipt's L1 fee |
| Reporter.Reports.RecordL2Fee | reporter/reporter.go:143-151 | only the L2 fee total grows, by price times gas; the receipt is a value and is not changed |
| Reporter.Reports.RecordL1GasPrice | reporter/reporter.go:153-155 | only the cumulative L1 price grows |
| Reporter.Reports.RecordBlobGasPrice | reporter/reporter.go:157-159 | only the cumulative blob price grows |
| Reporter.Reports.RecordL2GasPrice | reporter/reporter.go:161-163 | only the cumulative L2 price grows, by the effective price |
| Reporter.Reports.CalcGasPrices | reporter/reporter.go:165-173 | averages become truncated quotients when their count is non-zero and are kept otherwise; a second call changes nothing |
| Reporter.Package.InitReporter | reporter/reporter.go:190-219 | the first call builds the zero record; later calls change nothing |
| TrunksReporter.LowestIsLeast | trunks/reporter.go:44-47 | the start block is at most its initial value and every recorded block, and is one of them |
| TrunksReporter.HighestIsGreatest | trunks/reporter.go:48-50 | the end block is at least its initial value and every recorded block, and is one of them |
| TrunksReporter.StartStaysZero | trunks/reporter.go:44-47 | from the initial 0, non-negative blocks leave the start block at 0 |
| TrunksReporter.StartMissesFirstBlock | trunks/reporter.go:44-47 | one receipt at block 5 leaves the start at 0 while the first confirmed block is 5 |
| TrunksReporter.FirstConfirmedBlockIsLeast | trunks/reporter.go:44-47 | the corrected start is a recorded block and no recorded block is lower |
| TrunksReporter.WeiToEther | trunks/reporter.go:70-72 | ether is wei divided by 10^18, rounded down |
| TrunksReporter.Reports.constructor | trunks/reporter.go:78-90 | every field starts at 0 |
| TrunksReporter.Reports.RecordTPS | trunks/reporter.go:30-38 | TPS is the Euclidean quotient of confirmed transactions by (end - start) * block time, which must be non-zero |
| TrunksReporter.Reports.RecordConfirmRequest | trunks/reporter.go:40-42 | the confirmed count rises by exactly 1 and nothing else changes |
| TrunksReporter.Reports.RecordStartToLastBlock | trunks/reporter.go:44-51 | the start only falls and the end only rises, to the receipt's block; they stay the least and greatest of 0 and all blocks |
| TrunksReporter.Reports.RecordL1GasUsed | trunks/reporter.go:53-55 | only the L1 gas total grows, by the receipt's L1 gas |
| TrunksReporter.Reports.RecordL2GasUsed | trunks/reporter.go:57-59 | only the L2 gas total grows, by the receipt's gas used |
| TrunksReporter.Reports.RecordL1GasFee | trunks/reporter.go:61-63 | only the L1 fee total grows, by the receipt's L1 fee |
| TrunksReporter.Reports.RecordL2GasFee | trunks/reporter.go:65-68 | the receipt's effective price is overwritten with price times gas, and the L2 fee grows by that product |
| TrunksReporter.Package.Init | trunks/reporter.go:74-95 | builds the zero record only when none exists |
| Manager.MakePool | account/manager.go:273-284 | the loop yields exactly `n+10, n+20, ...` below `l`, at most `l/10` of them |
| Manager.PoolShape | account/manager.go:275-282 | pool elements are `n + 10*(i+1)`, below `l`, in steps of 10, at most `l/10` of them |
| Manager.PoolMembership | account/manager.go:276-281 | for `n` in 0..9, `x` is in pool `n` iff `10 <= x < l` and `x mod 10 == n` |
| Manager.PoolsPartition | account/manager.go:185-191 | the ten pools cover exactly the testers `[10, l)`, and no index is in two pools |
| Manager.GeneratedKeys | account/manager.go:155-162 | a successful run holds exactly `count` keys |
| Manager.GeneratedKeysMeaning | account/manager.go:155-162 | either all `count` generated keys, in order, or an error some generation returned |
| Manager.GeneratedKeysOfSuccesses | account/manager.go:155-162 | when every generation succeeds, the run's keys are exactly the generated ones |
| Manager.GeneratedKeysFirstFailure | account/manager.go:156-159 | the first failing generation's error is the run's error, however many keys were asked for |
| Manager.GenerateKeyLines | account/manager.go:155-162 | the loop returns the first generation error, or one key line per generated key, in order |
| Manager.GenerateAccounts | account/manager.go:153-165 | a generation failure is returned before the file is touched; otherwise the file holds one key line per key, or the create error is returned |
| Manager.Distributor.SendTx | account/manager.go:80-100 | the transfer uses the current nonce, gas 21000 and the fixed price; a signing failure returns the signing error and a send failure the send error, both with the zero hash and the nonce kept; success advances the nonce by one (mod 2^64) and returns the signed hash |
| Manager.SentNoncesDistinct | account/manager.go:82-95 | a distributor's sent transactions never share a nonce below 2^64 sends |
| Manager.NewDistributor | account/manager.go:54-108 | errors are returned in the order dial, pending nonce, gas price, network id; when all four succeed a distributor is returned, its nonce starting at the pending nonce, gas at 21000 and the price at the suggestion |
| Accounts.AccountFilePath | account/account.go:105-108 | the key file is `accounts` in `.tokamak-trunks` below the home directory: home + `/.tokamak-trunks/accounts` |
| Accounts.AccountFilePathShape | account/account.go:105-108 | the key file is `home + "/.tokamak-trunks/accounts"`, so different homes never share one |
| Accounts.ScanLinesOfLines | account/account.go:59-103 | reading gives back exactly the strings written, when none holds a newline or ends in a carriage return |
| Accounts.Disk.Write | account/account.go:81-103 | the file becomes each string followed by one newline; a create failure leaves the disk alone |
| Accounts.Disk.Read | account/account.go:59-79 | the loop splits the file into the lines `bufio.ScanLines` gives, or an error for a missing file |
| Accounts.Disk.GetAccounts | account/account.go:22-35 | one account per key line, in order: parsed key and derived address; none when the file is missing |
| Accounts.AccountOf | account/account.go:26-31 | an account's key is the line parsed without its first two characters, and its address is derived from that key |
| Accounts.StringToPrivateKey | account/account.go:50-57 | the key after its first two characters, whatever they are, is handed to `HexToECDSA`, and its error is returned exactly when that parse fails |
| Accounts.StringToPrivateKeyOfKeyLine | account/account.go:50-57 | dropping two characters from a `0x`-prefixed key line hands the parser exactly the key's hex digits |
| Accounts.KeyLineIsLine | account/manager.go:161 | key lines hold no newline or carriage return |
| Accounts.KeyLines | account/manager.go:160-161 | one key line per key, in order |
| Accounts.KeyLinesSnoc | account/manager.go:160-161 | one more key appends exactly its key line |
| Accounts.KeyFileRoundTrip | account/manager.go:153-176 | keys written by the generator are read back line for line and parse back to the same keys |
| Accounts.GetAddresses | account/account.go:37-43 | the addresses, same length and order as the accounts |
| TrunksAccounts.GenerateAccounts | trunks/accounts.go:21-33 | exactly `count` accounts, the `i`-th from the `i`-th generated key |
| TrunksAccounts.FirstFailure | trunks/accounts.go:45-49 | the first account whose nonce lookup fails, if any |
| TrunksAccounts.CacheOfKeys | trunks/accounts.go:43-52 | the cache's keys are exactly the accounts' address texts |
| TrunksAccounts.CacheOfContents | trunks/accounts.go:43-52 | each account's address text is in the cache, mapped to that account's pending nonce |
| TrunksAccounts.FirstFailureAt | trunks/accounts.go:45-49 | the first lookup that fails, after only successes, is the first failure |
| TrunksAccounts.NonceCache.InitNonceCache | trunks/accounts.go:43-53 | old entries are discarded; on success the cache covers every account; on the first failure that error is returned and only earlier accounts are cached |
| Targets.CallBodyNamesMethod | trunks/targets.go:53-56 | a call body names exactly the method it was built for |
| Targets.CallTargeter.Target | trunks/targets.go:39-59 | a nil target gives `nil target` and leaves the cursor alone; otherwise the k-th target is a POST to the RPC URL with the JSON header, calling method k mod 3 |
| Targets.Receiver | trunks/targets.go:92-97 | with a configured destination the receiver is its parsed address; otherwise the next account in the list, wrapping from the last to the first |
| Targets.ReceiverIsNotSender | trunks/targets.go:92-97 | with no destination and at least two distinct accounts, nobody sends to themself |
| Targets.RawTxBodyCarriesTx | trunks/targets.go:119-123 | the submit body's `0x` parameter decodes to the encoded transaction |
| Targets.RequestSubmitsTransfer | trunks/targets.go:102-123 | errors come in the order nonce, signature, encoding; success submits the encoding of the signed transfer of 10^12 wei |
| Targets.TransactionTargeter.Advance | trunks/targets.go:81-84 | the k-th advance (from 0) moves the cursor to account k mod n and returns that index |
| Targets.TransactionTargeter.Target | trunks/targets.go:65-133 | the k-th non-nil call sends from account k mod n and moves the cursor even on failure; a zero gas limit becomes 300000 for good once the gas price is known; failures leave the target alone |
| Attacker.TxHashFromResult | trunks/attacker.go:111-122 | an `error` key gives the zero hash and `not exist result`, whatever `result` holds; otherwise the parsed `result` string |
| Attacker.Int64Of | trunks/attacker.go:104 | `int64` of a `uint64` is congruent mod 2^64, and equal below 2^63 |
| Attacker.Latency | trunks/attacker.go:103-106 | latency is the block time in nanoseconds minus the dispatch time, held at the `Duration` bounds; a block time so large that `time.Unix` overflows its `int64` gives the least `Duration` |
| Attacker.Confirmed | trunks/attacker.go:86-95 | the six recorders together add one confirmation and the receipt's gas and fees; the start block becomes the lesser and the end block the greater of the old value and the receipt's block |
| Attacker.ConfirmedCommute | trunks/attacker.go:67-73 | two confirmations recorded in either order leave the same totals, so the order in which the goroutines finish does not matter to the reporter |
| Attacker.FirstReceipt | trunks/attacker.go:85-98 | the first poll that returned a receipt |
| Attacker.WaitTxConfirm | trunks/attacker.go:81-109 | the first receipt is recorded by all six recorders; a failed block lookup is returned with latency unchanged, otherwise latency is set |
| Attacker.Emitted | trunks/attacker.go:59-76 | only results without an `error` key are passed on, at most one per result |
| Attacker.EmittedExactly | trunks/attacker.go:59-76 | a result is passed on iff its reply has no error and its confirmation succeeds |
| Attacker.EmittedStep | trunks/attacker.go:59-76 | one more result extends what is passed on by that result exactly when it passes |
| Attacker.HandleResult | trunks/attacker.go:59-74 | a reply with an error marks the result `not exist result`, drops it, and leaves the reporter, the receipt and the latency alone; otherwise the receipt is recorded as one confirmation, the latency is set when the block time is found, and the result is passed on iff that lookup succeeds |
| Attacker.Attack | trunks/attacker.go:50-79 | the results passed on are exactly those whose reply has no error and whose confirmation succeeds, in input order, as the model serialises them |
| Scenario.DurationOf | trunks/scenario.go:25 | an unparsable period becomes a zero duration |
| Scenario.GetPace | trunks/scenario.go:23-39 | a rate pacer iff a rate is given; a linear one iff only a linear pace is given; none otherwise |
| Scenario.RateTakesPrecedence | trunks/scenario.go:24-28 | with a rate given, the linear part does not affect the pacer |
| Scenario.GetPaceCopiesSettings | trunks/scenario.go:25-36 | frequencies and slope are copied without checks, with the parsed period |
| Utils.PrefixEnvVars | utils/utils.go:5-7 | one variable: the prefix, an underscore, then the name |
| Utils.PrefixEnvVarsInjective | utils/utils.go:5-7 | under one prefix, different names give different variables |
| Utils.L1RpcVariable | cmd/flags/flags.go:19-24 | the L1 endpoint flag reads `TOKAMAK_TRUNKS_L1_RPC` |

## Left out

- Reporter.Reports.RecordReceipt takes the receipt's field values, not a pointer. This recorder only reads the receipt.
- The reporter accumulators the receipt recorders update are grouped in one `totals` record. The package flag `first` is part of that record, since only those recorders and `InitReporter` use it.
- Reporter.Reports.RecordTPS and TrunksReporter.Reports.RecordTPS require a non-zero divisor. The source does not ensure one and panics on a division by zero: when the confirmed span is 0 and the L2 block time is 0 (its flag has no default), and in the trunks reporter whenever the start and end blocks are equal or the block time is 0. The model does not include that panic.
- Reporter.Reports.RecordTPS: the block lookups' errors are ignored in the source (a failed lookup dereferences nil). The model takes each block's time as a parameter.
- The float conversions `weiToEther` and `weiToGwei` in reporter/reporter.go are not modelled: they use floating point. Neither are `report` and `PrintReport`, which only format output.
- The report file and the `reportManager` are I/O.
- Concurrency is not modelled. This covers the attack's semaphore, goroutines, wait group and result channel, and the targeter's mutex. Attacker.Attack handles results one after another, which gives the per-result effects only.
- Attacker.WaitTxConfirm requires a poll that returns a receipt. The source polls every two seconds forever when none comes.
- Attacker.Attack does not state the reporter totals after a whole attack. Attacker.HandleResult states each result's effect on them, from Attacker.WaitTxConfirm's contract.
- Attacker.Attack does not restate, over the whole batch, that every erroring result is marked `not exist result`. Attacker.HandleResult states it for each result.
- The JSON decoding of a reply body is not modelled: `TxHashFromResult` takes the decoded map. An undecodable body leaves that map empty, which makes the source panic.
- `CallAttacker.Attack` only forwards results and is not modelled.
- The `faucet` transfer loop and the ticker-based `waitTransaction` in account/manager.go are RPC and timing. Only the pools they use (`makePool`) and the distributors' send behaviour are modelled.
- Accounts.Disk.Write: a write or flush failure after the file was created is not modelled. A `bufio.Scanner` error on lines over 64 KiB is not modelled either.
- Accounts.Disk.GetAccounts requires every key line to parse. The source ignores the parse error and then dereferences a nil key.
- TrunksAccounts.GenerateAccounts: the key generator's error is ignored in the source (the nil key is then dereferenced). The generator is modelled as always succeeding here.
- TrunksAccounts.CacheOfContents assumes that different addresses have different texts, as `Address.Hex` gives. The map key is that text.
- `ConvertToAbsPath` in utils/utils.go resolves against the working directory, which is I/O.
- `trunks/accounts.go` `GetAddresses` is the same code as `account/account.go` `GetAddresses`. Both are modelled by Accounts.GetAddresses, and both packages' `Account` records by Accounts.Account.
- `HexToECDSA` range checks, `HexToHash`, `HexToAddress` and `Address.Hex` are go-ethereum's and are parameters.
- Scenario: the pacing arithmetic of vegeta's pacers is not part of this model. The float slope is carried as a real and only copied.

## Findings

| source | as written | input that shows it | evidently intended | confidence | as-written member | corrected member |
|---|---|---|---|---|---|---|
| reporter/reporter.go:108-120 | the first receipt sets `startBlockNumber` and returns, so `endBlockNumber` (initially 0) never sees it | receipts at blocks 10 then 9 leave the range at 9..9 | the first receipt sets both ends; the range is least..greatest block | not executed | Reporter.EndBlockMissesFirstReceipt | Reporter.ConfirmedBlockRangeIsMinMax |
| trunks/reporter.go:44-47, 87 | `startBlockNumber` starts at 0 and is only ever lowered | one receipt at block 5 leaves the start at 0 | the start is the least confirmed block | not executed | TrunksReporter.StartMissesFirstBlock | TrunksReporter.FirstConfirmedBlockIsLeast |
