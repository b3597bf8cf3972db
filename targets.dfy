/** The request builders of trunks/targets.go. Each targeter is a closure with
    its own round-robin cursor; here each is a class whose fields are the
    captured variables, and whose `Target` method is the closure's body. */
module Targets {
  import opened Base
  import opened Eth
  import Hex
  import opened Accounts

  /** `CALL_METHOD`: the read-only calls the call attack cycles through. */
  const CallMethods: seq<string> := ["eth_blockNumber", "eth_chainId", "eth_gasPrice"]

  /** The message of `vegeta.ErrNilTarget`. */
  const ErrNilTarget: string := "nil target"

  /** The one header every request carries. */
  const JsonHeader: map<string, seq<string>> := map["Content-type" := ["application/json"]]

  /** The amount every transfer carries: 10^12 wei. */
  const TxValue: int := 1_000_000_000_000

  /** The gas limit used when the option leaves it at zero. */
  const DefaultGasLimit: uint64 := 300000

  /** A `vegeta.Target`: the request an attack sends. */
  class Target {
    var httpMethod: string
    var url: string
    var header: map<string, seq<string>>
    var body: string

    constructor ()
      ensures httpMethod == "" && url == "" && header == map[] && body == ""
    {
      httpMethod, url, header, body := "", "", map[], "";
    }
  }

  const CallBodyHead: string := "{\"jsonrpc\": \"2.0\", \"method\":\""
  const CallBodyTail: string := "\", \"params\": [], \"id\": 0}"

  /** The JSON-RPC body of a parameterless call of `m`. */
  function CallBody(m: string): string
  {
    CallBodyHead + m + CallBodyTail
  }

  /** The method named in a call body, if the text has a call body's shape. */
  function CallBodyMethod(b: string): Option<string>
  {
    if |b| >= |CallBodyHead| + |CallBodyTail| && b[..|CallBodyHead|] == CallBodyHead
       && b[|b| - |CallBodyTail|..] == CallBodyTail
    then Some(b[|CallBodyHead|..|b| - |CallBodyTail|])
    else None
  }

  /** A call body names exactly the method it was built for. */
  lemma CallBodyNamesMethod(m: string)
    ensures CallBodyMethod(CallBody(m)) == Some(m)
  {
    var b := CallBody(m);
    assert b[..|CallBodyHead|] == CallBodyHead;
    assert b[|b| - |CallBodyTail|..] == CallBodyTail;
    assert b[|CallBodyHead|..|b| - |CallBodyTail|] == m;
  }

  const RawTxBodyHead: string := "{\"jsonrpc\":\"2.0\",\"method\":\"eth_sendRawTransaction\",\"params\":[\"0x"
  const RawTxBodyTail: string := "\"],\"id\":1}"

  /** The JSON-RPC body that submits a raw transaction given as hex text. */
  function RawTxBody(rawHex: string): string
  {
    RawTxBodyHead + rawHex + RawTxBodyTail
  }

  /** The raw transaction bytes a submit body carries, if it has that shape
      and its parameter is hex. */
  function RawTxOf(b: string): Option<seq<uint8>>
  {
    if |b| >= |RawTxBodyHead| + |RawTxBodyTail| && b[..|RawTxBodyHead|] == RawTxBodyHead
       && b[|b| - |RawTxBodyTail|..] == RawTxBodyTail
    then Hex.Decode(b[|RawTxBodyHead|..|b| - |RawTxBodyTail|])
    else None
  }

  /** The submit body carries the marshalled transaction byte for byte. */
  lemma RawTxBodyCarriesTx(raw: seq<uint8>)
    ensures RawTxOf(RawTxBody(Hex.Encode(raw))) == Some(raw)
  {
    var h := Hex.Encode(raw);
    var b := RawTxBody(h);
    assert b[..|RawTxBodyHead|] == RawTxBodyHead;
    assert b[|b| - |RawTxBodyTail|..] == RawTxBodyTail;
    assert b[|RawTxBodyHead|..|b| - |RawTxBodyTail|] == h;
    Hex.DecodeEncode(raw);
  }

  /** `CallTargeter`: the RPC URL and the cursor the closure captures. */
  class CallTargeter {
    const rpc: string
    var roundRobin: int
    /** How many targets have been built so far. */
    ghost var built: nat

    ghost predicate Valid()
      reads this
    {
      roundRobin == if built == 0 then -1 else (built - 1) % |CallMethods|
    }

    constructor (rpc: string)
      ensures Valid() && built == 0 && this.rpc == rpc
    {
      this.rpc := rpc;
      roundRobin := -1;
      built := 0;
    }

    /** Fills in a target: a nil target is refused with the cursor left alone;
        otherwise the `k`-th target built (from 0) calls `CallMethods[k % 3]`. */
    method Target(tgt: Target?) returns (err: Option<string>)
      requires Valid()
      modifies this`roundRobin, this`built, tgt
      ensures Valid()
      ensures tgt == null ==> err == Some(ErrNilTarget) && roundRobin == old(roundRobin) && built == old(built)
      ensures tgt != null ==>
        && err == None && built == old(built) + 1
        && tgt.httpMethod == "POST" && tgt.url == rpc && tgt.header == JsonHeader
        && tgt.body == CallBody(CallMethods[old(built) % |CallMethods|])
    {
      if tgt == null {
        return Some(ErrNilTarget);
      }
      tgt.httpMethod := "POST";
      tgt.url := rpc;
      tgt.header := JsonHeader;
      roundRobin := (roundRobin + 1) % |CallMethods|;
      built := built + 1;
      tgt.body := CallBody(CallMethods[roundRobin]);
      err := None;
    }
  }

  /** The receiver of the transfer sent from account `k`: the next account in
      the list when no destination is configured, else the configured one. */
  function Receiver(list: seq<Account>, k: nat, to: string, hexToAddress: string -> Address): (r: Address)
    requires k < |list|
    ensures to != "" ==> r == hexToAddress(to)
    ensures to == "" && k + 1 < |list| ==> r == list[k + 1].address
    ensures to == "" && k + 1 == |list| ==> r == list[0].address
  {
    if to == "" then list[(k + 1) % |list|].address else hexToAddress(to)
  }

  /** With no destination configured and at least two accounts of distinct
      addresses, no account sends to itself. */
  lemma ReceiverIsNotSender(list: seq<Account>, k: nat, hexToAddress: string -> Address)
    requires |list| >= 2 && k < |list|
    requires forall i, j :: 0 <= i < j < |list| ==> list[i].address != list[j].address
    ensures Receiver(list, k, "", hexToAddress) != list[k].address
  {
    var r := (k + 1) % |list|;
    if k + 1 < |list| {
      assert r == k + 1;
    } else {
      assert r == 0 && 0 < k;
    }
  }

  /** `TransactionTargeter`: the options it captures, the gas limit (which
      the closure overwrites) and the cursor over the sending accounts. */
  class TransactionTargeter {
    const rpc: string
    const chainId: int
    const to: string
    const list: seq<Account>
    const data: seq<uint8>
    var gasLimit: uint64
    var roundRobin: int
    /** How many non-nil targets have been asked for so far. */
    ghost var invocations: nat

    ghost predicate Valid()
      reads this`roundRobin, this`invocations
    {
      && (invocations == 0 ==> roundRobin == -1)
      && (invocations > 0 ==> |list| > 0 && roundRobin == (invocations - 1) % |list|)
    }

    constructor (rpc: string, chainId: int, to: string, list: seq<Account>, data: seq<uint8>, gasLimit: uint64)
      ensures Valid() && invocations == 0
      ensures this.rpc == rpc && this.chainId == chainId && this.to == to && this.list == list
      ensures this.data == data && this.gasLimit == gasLimit
    {
      this.rpc, this.chainId, this.to, this.list, this.data := rpc, chainId, to, list, data;
      this.gasLimit := gasLimit;
      roundRobin := -1;
      invocations := 0;
    }

    /** The locked step of the targeter: moves the cursor to the next
        account and hands back its index, the `k`-th call (from 0) giving
        `k % |list|`. */
    method Advance() returns (k: nat)
      requires Valid() && |list| > 0
      modifies this`roundRobin, this`invocations
      ensures Valid() && invocations == old(invocations) + 1
      ensures k == roundRobin == old(invocations) % |list|
    {
      ModSucc(invocations - 1, |list|);
      roundRobin := (roundRobin + 1) % |list|;
      invocations := invocations + 1;
      k := roundRobin;
    }

    /** Builds one signed transfer. The `k`-th non-nil call (from 0) sends from
        account `k % |list|`, and the cursor moves even if a later step fails.
        The gas price, the pending nonce, the signature and the encoding are
        the endpoint's and the signer's outcomes; the first that fails is
        returned and the target is left alone. A zero gas limit becomes
        300000 once the gas price is known, for this and all later calls. */
    method Target(
      tgt: Target?,
      suggestGasPrice: Result<int>,
      pendingNonce: Address -> Result<uint64>,
      hexToAddress: string -> Address,
      sign: (Transaction, int, PrivKey) -> Result<SignedTx>,
      marshal: SignedTx -> Result<seq<uint8>>)
      returns (err: Option<string>)
      requires Valid() && |list| > 0
      modifies this`roundRobin, this`invocations, this`gasLimit, tgt
      ensures Valid()
      ensures tgt == null ==>
        err == Some(ErrNilTarget) && roundRobin == old(roundRobin) && invocations == old(invocations)
        && gasLimit == old(gasLimit)
      ensures tgt != null ==> invocations == old(invocations) + 1
      ensures tgt != null && suggestGasPrice.Err? ==>
        err == Some(suggestGasPrice.error) && gasLimit == old(gasLimit) && unchanged(tgt)
      ensures tgt != null && suggestGasPrice.Ok? ==>
        var k := old(invocations) % |list|;
        var gas := if old(gasLimit) == 0 then DefaultGasLimit else old(gasLimit);
        var req := Request(list[k], Receiver(list, k, to, hexToAddress), gas, suggestGasPrice.value,
                           chainId, data, pendingNonce, sign, marshal);
        && gasLimit == gas
        && (req.Err? ==> err == Some(req.error) && unchanged(tgt))
        && (req.Ok? ==> err == None && tgt.httpMethod == "POST" && tgt.url == rpc && tgt.header == JsonHeader
                        && tgt.body == req.value)
    {
      if tgt == null {
        return Some(ErrNilTarget);
      }
      var localRoundRobin := Advance();

      if suggestGasPrice.Err? {
        return Some(suggestGasPrice.error);
      }
      var gasPrice := suggestGasPrice.value;

      var from := list[localRoundRobin];
      var receiver := Receiver(list, localRoundRobin, to, hexToAddress);

      if gasLimit == 0 {
        gasLimit := DefaultGasLimit;
      }
      ghost var req := Request(from, receiver, gasLimit, gasPrice, chainId, data, pendingNonce, sign, marshal);
      var nonce := pendingNonce(from.address);
      if nonce.Err? {
        return Some(nonce.error);
      }

      var tx := Transaction(nonce.value, receiver, TxValue, gasLimit, gasPrice, data);
      var signedTx := sign(tx, chainId, from.privKey);
      if signedTx.Err? {
        return Some(signedTx.error);
      }
      var rawTxBytes := marshal(signedTx.value);
      if rawTxBytes.Err? {
        return Some(rawTxBytes.error);
      }

      var rawTxHex := Hex.Encode(rawTxBytes.value);
      assert req == Ok(RawTxBody(rawTxHex));
      tgt.httpMethod := "POST";
      tgt.url := rpc;
      tgt.header := JsonHeader;
      tgt.body := RawTxBody(rawTxHex);
      err := None;
    }
  }

  /** The request body a transfer from `from` to `receiver` gets once the gas
      price is known, or the first failing step's error: the sender's pending
      nonce, then the signature, then the encoding. */
  function Request(
    from: Account, receiver: Address, gas: uint64, gasPrice: int, chainId: int, data: seq<uint8>,
    pendingNonce: Address -> Result<uint64>,
    sign: (Transaction, int, PrivKey) -> Result<SignedTx>,
    marshal: SignedTx -> Result<seq<uint8>>): Result<string>
  {
    match pendingNonce(from.address)
    case Err(e) => Err(e)
    case Ok(nonce) =>
      match sign(Transaction(nonce, receiver, TxValue, gas, gasPrice, data), chainId, from.privKey)
      case Err(e) => Err(e)
      case Ok(signed) =>
        match marshal(signed)
        case Err(e) => Err(e)
        case Ok(raw) => Ok(RawTxBody(Hex.Encode(raw)))
  }

  /** A request succeeds exactly when every step does, and then its body
      submits the encoding of the transfer of `TxValue` at the sender's
      pending nonce, with the given gas, signed by the sender's key. */
  lemma RequestSubmitsTransfer(
    from: Account, receiver: Address, gas: uint64, gasPrice: int, chainId: int, data: seq<uint8>,
    pendingNonce: Address -> Result<uint64>,
    sign: (Transaction, int, PrivKey) -> Result<SignedTx>,
    marshal: SignedTx -> Result<seq<uint8>>)
    ensures var req := Request(from, receiver, gas, gasPrice, chainId, data, pendingNonce, sign, marshal);
      var nonce := pendingNonce(from.address);
      && (nonce.Err? ==> req == Err(nonce.error))
      && (nonce.Ok? ==>
            var signed := sign(Transaction(nonce.value, receiver, TxValue, gas, gasPrice, data), chainId, from.privKey);
            && (signed.Err? ==> req == Err(signed.error))
            && (signed.Ok? ==>
                  && (marshal(signed.value).Err? ==> req == Err(marshal(signed.value).error))
                  && (marshal(signed.value).Ok? ==> req.Ok? && RawTxOf(req.value) == Some(marshal(signed.value).value))))
  {
    var nonce := pendingNonce(from.address);
    if nonce.Ok? {
      var signed := sign(Transaction(nonce.value, receiver, TxValue, gas, gasPrice, data), chainId, from.privKey);
      if signed.Ok? && marshal(signed.value).Ok? {
        RawTxBodyCarriesTx(marshal(signed.value).value);
      }
    }
  }
}
