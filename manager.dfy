/** The faucet bookkeeping of account/manager.go: how `makePool` splits the
    testers among ten distributors, and the nonce counter each distributor's
    `sendTransaction` closure keeps. */
module Manager {
  import opened Base
  import opened Eth
  import opened Accounts

  /** The gas limit every distributor transfer carries. */
  const TransferGas: uint64 := 21000

  /** How many indices `makePool(n, l)` yields: the steps `m` from 1 up to
      `l / 10` (truncated) for which `n + 10 * m` stays below `l`. */
  function PoolLength(n: int, l: int): nat
  {
    var k := Quo(l, 10);
    var fit := (l - n - 1) / 10;
    if k <= 0 || fit <= 0 then 0 else Min(k, fit)
  }

  /** The indices `makePool(n, l)` yields: `n + 10`, `n + 20`, ... */
  function Pool(n: int, l: int): seq<int>
  {
    seq(PoolLength(n, l), i => n + 10 * (i + 1))
  }

  /** `makePool`: steps `m` from 1 to `l / 10` and stops at the first index
      `n + 10 * m` that reaches `l`. */
  method MakePool(n: int, l: int) returns (pool: seq<int>)
    ensures pool == Pool(n, l)
  {
    pool := [];
    var k := Quo(l, 10);
    var m := 1;
    ghost var stopped := false;
    while m <= k
      invariant 1 <= m
      invariant k <= 0 ==> m == 1
      invariant k > 0 ==> m <= k + 1
      invariant pool == seq(m - 1, i => n + 10 * (i + 1))
      invariant m > 1 ==> n + 10 * (m - 1) < l
      invariant stopped ==> n + 10 * m >= l && m <= k
      decreases k - m
    {
      var index := n + 10 * m;
      if index >= l {
        stopped := true;
        break;
      }
      pool := pool + [index];
      m := m + 1;
    }
    var fit := (l - n - 1) / 10;
    if m > 1 {
      assert m - 1 <= fit;
    }
    if stopped {
      assert fit < m;
    } else {
      assert m == k + 1 || k <= 0;
    }
  }

  /** Each pool runs `n + 10`, `n + 20`, ... in steps of 10, stays below `l`,
      and is no longer than `l / 10`. */
  lemma PoolShape(n: int, l: int)
    ensures forall i :: 0 <= i < |Pool(n, l)| ==> Pool(n, l)[i] == n + 10 * (i + 1)
    ensures forall i :: 0 <= i < |Pool(n, l)| ==> Pool(n, l)[i] < l
    ensures forall i :: 0 < i < |Pool(n, l)| ==> Pool(n, l)[i] == Pool(n, l)[i - 1] + 10
    ensures l >= 0 ==> |Pool(n, l)| <= l / 10
  {
    var p := Pool(n, l);
    forall i | 0 <= i < |p|
      ensures p[i] < l
    {
      assert i + 1 <= (l - n - 1) / 10;
    }
  }

  /** For a distributor index `n` in 0..9, an index belongs to its pool exactly
      when it is a tester index (10 or more, below `l`) ending in digit `n`. */
  lemma PoolMembership(n: int, l: int, x: int)
    requires 0 <= n < 10
    ensures x in Pool(n, l) <==> 10 <= x < l && x % 10 == n
  {
    var p := Pool(n, l);
    if x in p {
      var i :| 0 <= i < |p| && p[i] == x;
      assert i + 1 <= (l - n - 1) / 10;
    }
    if 10 <= x < l && x % 10 == n {
      var m := x / 10;
      assert x == n + 10 * m;
      assert 1 <= m <= (l - n - 1) / 10;
      assert m <= Quo(l, 10);
      assert p[m - 1] == x;
    }
  }

  /** The ten pools split the testers: every index from 10 up to `l` lies in
      exactly one of them, and none holds a distributor's own index. */
  lemma PoolsPartition(l: int, x: int)
    ensures (exists n :: 0 <= n < 10 && x in Pool(n, l)) <==> 10 <= x < l
    ensures forall n1, n2 :: 0 <= n1 < 10 && 0 <= n2 < 10 && x in Pool(n1, l) && x in Pool(n2, l)
                             ==> n1 == n2
  {
    forall n | 0 <= n < 10
      ensures x in Pool(n, l) <==> 10 <= x < l && x % 10 == n
    {
      PoolMembership(n, l, x);
    }
    if 10 <= x < l {
      assert x in Pool(x % 10, l);
    }
  }

  /** The keys the generator hands out for `count` accounts (`generate(i)` is
      the `i`-th outcome of `crypto.GenerateKey`), or the first failure. */
  function GeneratedKeys(count: nat, generate: nat -> Result<PrivKey>): (r: Result<seq<PrivKey>>)
    ensures r.Ok? ==> |r.value| == count
  {
    if count == 0 then Ok([])
    else match GeneratedKeys(count - 1, generate)
      case Err(e) => Err(e)
      case Ok(ks) =>
        match generate(count - 1)
        case Err(e) => Err(e)
        case Ok(k) => Ok(ks + [k])
  }

  /** The keys are all `count` generated keys, in order, or the run fails with
      an error one of the generations returned. */
  lemma {:induction false} GeneratedKeysMeaning(count: nat, generate: nat -> Result<PrivKey>)
    ensures var r := GeneratedKeys(count, generate);
      && (r.Ok? ==> forall i :: 0 <= i < count ==> generate(i) == Ok(r.value[i]))
      && (r.Err? ==> exists i :: 0 <= i < count && generate(i) == Err(r.error))
  {
    if count > 0 {
      GeneratedKeysMeaning(count - 1, generate);
    }
  }

  /** Once a key fails, asking for more keys gives the same failure. */
  lemma {:induction false} GeneratedKeysFailureSticks(i: nat, n: nat, generate: nat -> Result<PrivKey>)
    requires i <= n && GeneratedKeys(i, generate).Err?
    ensures GeneratedKeys(n, generate) == GeneratedKeys(i, generate)
    decreases n - i
  {
    if i < n {
      GeneratedKeysFailureSticks(i, n - 1, generate);
    }
  }

  /** When every generation succeeds, the keys are exactly the generated ones. */
  lemma {:induction false} GeneratedKeysOfSuccesses(ks: seq<PrivKey>, generate: nat -> Result<PrivKey>)
    requires forall j :: 0 <= j < |ks| ==> generate(j) == Ok(ks[j])
    ensures GeneratedKeys(|ks|, generate) == Ok(ks)
  {
    if ks != [] {
      var p := ks[..|ks| - 1];
      GeneratedKeysOfSuccesses(p, generate);
      assert p + [ks[|ks| - 1]] == ks;
    }
  }

  /** The first generation to fail decides the outcome of every longer run. */
  lemma GeneratedKeysFirstFailure(i: nat, n: nat, generate: nat -> Result<PrivKey>)
    requires i < n && generate(i).Err?
    requires forall j :: 0 <= j < i ==> generate(j).Ok?
    ensures GeneratedKeys(n, generate) == Err(generate(i).error)
  {
    var ks := seq(i, j requires 0 <= j < i => generate(j).value);
    GeneratedKeysOfSuccesses(ks, generate);
    GeneratedKeysFailureSticks(i + 1, n, generate);
  }

  /** The loop of `generateAccounts`: generates `count` keys one by one and
      collects their key lines, stopping at the first failure. */
  method GenerateKeyLines(count: int, generate: nat -> Result<PrivKey>)
    returns (keys: seq<string>, err: Option<string>)
    ensures var r := GeneratedKeys(Max(count, 0), generate);
      && (r.Err? ==> err == Some(r.error))
      && (r.Ok? ==> err == None && keys == KeyLines(r.value))
  {
    keys := [];
    ghost var ks: seq<PrivKey> := [];
    var i := 0;
    while i < count
      invariant 0 <= i <= Max(count, 0) && |ks| == i
      invariant forall j :: 0 <= j < i ==> generate(j) == Ok(ks[j])
      invariant keys == KeyLines(ks)
    {
      var newPrivKey := generate(i);
      if newPrivKey.Err? {
        GeneratedKeysFirstFailure(i, count, generate);
        return keys, Some(newPrivKey.error);
      }
      KeyLinesSnoc(ks, newPrivKey.value);
      keys := keys + [KeyLine(newPrivKey.value)];
      ks := ks + [newPrivKey.value];
      i := i + 1;
    }
    assert |ks| == Max(count, 0);
    GeneratedKeysOfSuccesses(ks, generate);
    assert GeneratedKeys(Max(count, 0), generate).value == ks;
    err := None;
  }

  /** `generateAccounts`: generates the keys and, unless one fails, writes
      their key lines to the key file. A generator failure is returned before
      the file is touched. */
  method GenerateAccounts(disk: Disk, file: string, count: int, generate: nat -> Result<PrivKey>, createError: Option<string>)
    returns (err: Option<string>)
    modifies disk`files
    ensures var r := GeneratedKeys(Max(count, 0), generate);
      && (r.Err? ==> err == Some(r.error) && disk.files == old(disk.files))
      && (r.Ok? ==> err == createError)
      && (r.Ok? && createError.Some? ==> disk.files == old(disk.files))
      && (r.Ok? && createError.None? ==> disk.files == old(disk.files)[file := Lines(KeyLines(r.value))])
  {
    var keys, genErr := GenerateKeyLines(count, generate);
    if genErr.Some? {
      return genErr;
    }
    err := disk.Write(file, keys, createError);
  }

  /** A distributor: the key it signs with, the fixed gas settings it sends
      with, and the nonce the `sendTransaction` closure captures. */
  class Distributor {
    const name: string
    const address: Address
    const privKey: PrivKey
    const chainId: int
    const gasLimit: uint64
    const gasPrice: int
    var nonce: uint64
    /** The pending nonce read at construction. */
    ghost const initialNonce: uint64
    /** The transactions sent so far, in order. */
    ghost var sent: seq<Transaction>

    /** Sent transactions carry consecutive nonces from the initial one, the
        fixed gas settings and no data; `nonce` is the next one. */
    ghost predicate Valid()
      reads this
    {
      && nonce == (initialNonce + |sent|) % U64
      && forall i :: 0 <= i < |sent| ==>
           && sent[i].nonce == (initialNonce + i) % U64
           && sent[i].gas == gasLimit && sent[i].gasPrice == gasPrice && sent[i].data == []
    }

    constructor (name: string, address: Address, privKey: PrivKey, chainId: int, gasPrice: int, nonce: uint64)
      ensures Valid() && sent == []
      ensures this.name == name && this.address == address && this.privKey == privKey
      ensures this.chainId == chainId && this.gasLimit == TransferGas && this.gasPrice == gasPrice
      ensures this.nonce == nonce && initialNonce == nonce
    {
      this.name, this.address, this.privKey := name, address, privKey;
      this.chainId, this.gasLimit, this.gasPrice := chainId, TransferGas, gasPrice;
      this.nonce, initialNonce := nonce, nonce;
      sent := [];
    }

    /** `sendTransaction`: builds a transfer at the current nonce, signs it with
        `sign` and submits it with `submit` (`None` for success). Either failure
        returns the zero hash and leaves the nonce alone; success advances it. */
    method SendTx(
      to: Address, amount: int,
      sign: (Transaction, int, PrivKey) -> Result<SignedTx>,
      submit: SignedTx -> Option<string>,
      hashOf: SignedTx -> Hash)
      returns (hash: Hash, err: Option<string>)
      requires Valid()
      modifies this`nonce, this`sent
      ensures Valid()
      ensures var tx := Transaction(old(nonce), to, amount, gasLimit, gasPrice, []);
        && (err.None? <==> sign(tx, chainId, privKey).Ok? && submit(sign(tx, chainId, privKey).value).None?)
        && (err.None? ==> hash == hashOf(sign(tx, chainId, privKey).value) && sent == old(sent) + [tx])
      ensures err.Some? ==> hash == ZeroHash && nonce == old(nonce) && sent == old(sent)
      ensures var signed := sign(Transaction(old(nonce), to, amount, gasLimit, gasPrice, []), chainId, privKey);
        && (signed.Err? ==> err == Some(signed.error))
        && (signed.Ok? ==> err == submit(signed.value))
      ensures err.None? ==> nonce == (old(nonce) + 1) % U64
    {
      var data := [];
      var tx := Transaction(nonce, to, amount, gasLimit, gasPrice, data);
      var signed := sign(tx, chainId, privKey);
      if signed.Err? {
        return ZeroHash, Some(signed.error);
      }
      var sendErr := submit(signed.value);
      if sendErr.Some? {
        return ZeroHash, sendErr;
      }
      ModSucc(initialNonce + |sent|, U64);
      nonce := (nonce + 1) % U64;
      sent := sent + [tx];
      hash := hashOf(signed.value);
      err := None;
    }
  }

  /** Fewer than 2^64 consecutive nonces from any start are pairwise distinct. */
  lemma ConsecutiveNoncesDistinct(start: int, i: int, j: int)
    requires 0 <= i < j < U64
    ensures (start + i) % U64 != (start + j) % U64
  {
    var d := j - i;
    var a := start + i;
    assert a + d == start + j;
    if a % U64 + d < U64 {
      assert (a + d) % U64 == a % U64 + d;
    } else {
      assert (a + d) % U64 == a % U64 + d - U64;
    }
  }

  /** A distributor never reuses a nonce while it has sent fewer than 2^64
      transactions. */
  lemma SentNoncesDistinct(d: Distributor, i: int, j: int)
    requires d.Valid() && 0 <= i < j < |d.sent| && |d.sent| <= U64
    ensures d.sent[i].nonce != d.sent[j].nonce
  {
    ConsecutiveNoncesDistinct(d.initialNonce, i, j);
  }

  /** `newDistributor`: the RPC outcomes it consults, in its order, are the
      dial, the pending nonce of the key's address, the suggested gas price and
      the network id; the first failure is returned. */
  method NewDistributor(
    name: string, privKey: PrivKey,
    addressOf: PrivKey -> Address,
    dial: Option<string>,
    pendingNonce: Address -> Result<uint64>,
    suggestGasPrice: Result<int>,
    networkId: Result<int>)
    returns (r: Result<Distributor>)
    ensures dial.Some? ==> r == Err(dial.value)
    ensures dial.None? && pendingNonce(addressOf(privKey)).Err? ==> r == Err(pendingNonce(addressOf(privKey)).error)
    ensures dial.None? && pendingNonce(addressOf(privKey)).Ok? && suggestGasPrice.Err? ==> r == Err(suggestGasPrice.error)
    ensures dial.None? && pendingNonce(addressOf(privKey)).Ok? && suggestGasPrice.Ok? && networkId.Err?
            ==> r == Err(networkId.error)
    ensures dial.None? && pendingNonce(addressOf(privKey)).Ok? && suggestGasPrice.Ok? && networkId.Ok? ==> r.Ok?
    ensures r.Ok? ==>
      && fresh(r.value) && r.value.Valid() && r.value.sent == []
      && r.value.name == name && r.value.privKey == privKey && r.value.address == addressOf(privKey)
      && r.value.nonce == pendingNonce(addressOf(privKey)).value
      && r.value.gasLimit == TransferGas && r.value.gasPrice == suggestGasPrice.value
      && r.value.chainId == networkId.value
  {
    if dial.Some? {
      return Err(dial.value);
    }
    var fromAddress := addressOf(privKey);
    var nonce := pendingNonce(fromAddress);
    if nonce.Err? {
      return Err(nonce.error);
    }
    var gasPrice := suggestGasPrice;
    if gasPrice.Err? {
      return Err(gasPrice.error);
    }
    var chainId := networkId;
    if chainId.Err? {
      return Err(chainId.error);
    }
    var d := new Distributor(name, fromAddress, privKey, chainId.value, gasPrice.value, nonce.value);
    return Ok(d);
  }
}
