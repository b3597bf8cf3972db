/** The tester accounts of trunks/accounts.go: generating them, listing their
    addresses, and the package-wide cache of their pending nonces. */
module TrunksAccounts {
  import opened Base
  import opened Eth
  import opened Accounts

  /** `GenerateAccounts`: `count` fresh accounts; the `i`-th key the generator
      hands out is `generate(i)`, and its address is derived with `addressOf`. */
  method GenerateAccounts(count: nat, generate: nat -> PrivKey, addressOf: PrivKey -> Address)
    returns (list: seq<Account>)
    ensures |list| == count
    ensures forall i :: 0 <= i < count ==> list[i] == Account(addressOf(generate(i)), generate(i))
  {
    list := [];
    var i := 0;
    while i < count
      invariant 0 <= i <= count
      invariant |list| == i
      invariant forall j :: 0 <= j < i ==> list[j] == Account(addressOf(generate(j)), generate(j))
    {
      var newPrivKey := generate(i);
      list := list + [Account(addressOf(newPrivKey), newPrivKey)];
      i := i + 1;
    }
  }

  /** The cache `InitNonceCache` builds from the accounts when every lookup
      succeeds: each account's address text mapped to its pending nonce. */
  function CacheOf(list: seq<Account>, pendingNonce: Address -> Result<uint64>, hexOf: Address -> string): map<string, uint64>
    requires forall i :: 0 <= i < |list| ==> pendingNonce(list[i].address).Ok?
  {
    if list == [] then map[]
    else
      var a := list[|list| - 1].address;
      CacheOf(list[..|list| - 1], pendingNonce, hexOf)[hexOf(a) := pendingNonce(a).value]
  }

  /** The index of the first account whose nonce lookup fails, if any. */
  function FirstFailure(list: seq<Account>, pendingNonce: Address -> Result<uint64>): (j: Option<nat>)
    ensures j.None? <==> forall i :: 0 <= i < |list| ==> pendingNonce(list[i].address).Ok?
    ensures j.Some? ==> j.value < |list| && pendingNonce(list[j.value].address).Err?
    ensures j.Some? ==> forall i :: 0 <= i < j.value ==> pendingNonce(list[i].address).Ok?
  {
    if list == [] then None
    else if pendingNonce(list[0].address).Err? then Some(0)
    else match FirstFailure(list[1..], pendingNonce)
      case None => None
      case Some(k) => Some(k + 1)
  }

  /** The cache's keys are exactly the accounts' address texts. */
  lemma {:induction false} CacheOfKeys(list: seq<Account>, pendingNonce: Address -> Result<uint64>, hexOf: Address -> string)
    requires forall i :: 0 <= i < |list| ==> pendingNonce(list[i].address).Ok?
    ensures CacheOf(list, pendingNonce, hexOf).Keys == set i | 0 <= i < |list| :: hexOf(list[i].address)
  {
    if list != [] {
      var p := list[..|list| - 1];
      CacheOfKeys(p, pendingNonce, hexOf);
      assert forall i :: 0 <= i < |p| ==> list[i] == p[i];
    }
  }

  /** Each account's address text maps to the nonce the endpoint reports for
      that account (address texts name their addresses one to one, as
      `Address.Hex` does). */
  lemma {:induction false} CacheOfContents(list: seq<Account>, pendingNonce: Address -> Result<uint64>, hexOf: Address -> string)
    requires forall i :: 0 <= i < |list| ==> pendingNonce(list[i].address).Ok?
    requires forall i, j :: 0 <= i < |list| && 0 <= j < |list| && hexOf(list[i].address) == hexOf(list[j].address)
                            ==> list[i].address == list[j].address
    ensures forall i :: 0 <= i < |list| ==>
      var c := CacheOf(list, pendingNonce, hexOf);
      hexOf(list[i].address) in c && c[hexOf(list[i].address)] == pendingNonce(list[i].address).value
  {
    if list != [] {
      var p := list[..|list| - 1];
      var a := list[|list| - 1].address;
      CacheOfContents(p, pendingNonce, hexOf);
      var c := CacheOf(list, pendingNonce, hexOf);
      forall i | 0 <= i < |list|
        ensures hexOf(list[i].address) in c && c[hexOf(list[i].address)] == pendingNonce(list[i].address).value
      {
        if hexOf(list[i].address) != hexOf(a) {
          assert i < |p| && list[i] == p[i];
        }
      }
    }
  }

  /** `NonceCache`: the package-wide map from address text to nonce. */
  class NonceCache {
    var cache: map<string, uint64>

    constructor ()
      ensures cache == map[]
    {
      cache := map[];
    }

    /** `InitNonceCache`: empties the cache, then asks the endpoint for each
        account's pending nonce in list order. The first failing lookup's error
        is returned, leaving entries for the accounts before it only. */
    method InitNonceCache(list: seq<Account>, pendingNonce: Address -> Result<uint64>, hexOf: Address -> string)
      returns (err: Option<string>)
      modifies this`cache
      ensures var j := FirstFailure(list, pendingNonce);
        && (j.None? ==> err == None && cache == CacheOf(list, pendingNonce, hexOf))
        && (j.Some? ==> err == Some(pendingNonce(list[j.value].address).error)
                        && cache == CacheOf(list[..j.value], pendingNonce, hexOf))
    {
      cache := map[];
      for i := 0 to |list|
        invariant forall k :: 0 <= k < i ==> pendingNonce(list[k].address).Ok?
        invariant cache == CacheOf(list[..i], pendingNonce, hexOf)
      {
        var nonce := pendingNonce(list[i].address);
        if nonce.Err? {
          FirstFailureAt(list, pendingNonce, i);
          return Some(nonce.error);
        }
        assert list[..i + 1][..i] == list[..i];
        cache := cache[hexOf(list[i].address) := nonce.value];
      }
      assert list[..|list|] == list;
      err := None;
    }
  }

  /** The first lookup to fail is the first failure. */
  lemma {:induction false} FirstFailureAt(list: seq<Account>, pendingNonce: Address -> Result<uint64>, i: nat)
    requires i < |list| && pendingNonce(list[i].address).Err?
    requires forall k :: 0 <= k < i ==> pendingNonce(list[k].address).Ok?
    ensures FirstFailure(list, pendingNonce) == Some(i)
  {
    if i > 0 {
      FirstFailureAt(list[1..], pendingNonce, i - 1);
    }
  }
}
