/** The key file of account/account.go: where it lives, how `write` lays the
    keys out one per line, how `read` splits them back with `bufio.ScanLines`,
    and how `GetAccounts` turns the lines into accounts. */
module Accounts {
  import opened Base
  import opened Eth
  import Hex

  /** An account: its address and its private key. */
  datatype Account = Account(address: Address, privKey: PrivKey)

  /** The key file's path below the home directory `home`. */
  function AccountFilePath(home: string): (path: string)
    ensures path == home + "/.tokamak-trunks/accounts"
  {
    home + "/" + ".tokamak-trunks" + "/" + "accounts"
  }

  /** The path keeps the home directory as its prefix, so two homes never
      share a key file, and it always ends in the same tail. */
  lemma AccountFilePathShape(home1: string, home2: string)
    ensures AccountFilePath(home1)[..|home1|] == home1
    ensures AccountFilePath(home1)[|home1|..] == "/.tokamak-trunks/accounts"
    ensures AccountFilePath(home1) == AccountFilePath(home2) ==> home1 == home2
  {
    var p1, p2 := AccountFilePath(home1), AccountFilePath(home2);
    assert p1 == home1 + "/.tokamak-trunks/accounts";
    assert p2 == home2 + "/.tokamak-trunks/accounts";
    if p1 == p2 {
      assert |home1| == |home2|;
      assert home1 == p1[..|home1|];
    }
  }

  /** What `write` puts in the file: every string followed by one newline. */
  function Lines(xs: seq<string>): string
  {
    if xs == [] then "" else xs[0] + "\n" + Lines(xs[1..])
  }

  /** Appending one string to the list appends its line to the text. */
  lemma {:induction false} LinesSnoc(xs: seq<string>, x: string)
    ensures Lines(xs + [x]) == Lines(xs) + x + "\n"
  {
    if xs == [] {
      assert [x][1..] == [];
    } else {
      assert (xs + [x])[1..] == xs[1..] + [x];
      LinesSnoc(xs[1..], x);
    }
  }

  /** The length of the first line of `s`: the index of its first newline, or
      `|s|` when it has none. */
  function LineEnd(s: string): (i: nat)
    ensures i <= |s|
    ensures i < |s| ==> s[i] == '\n'
    ensures forall j :: 0 <= j < i ==> s[j] != '\n'
  {
    if s == [] || s[0] == '\n' then 0 else 1 + LineEnd(s[1..])
  }

  /** `dropCR`: one trailing carriage return is not part of the line. */
  function DropCR(s: string): (t: string)
    ensures t == s || (s == t + "\r")
  {
    if |s| > 0 && s[|s| - 1] == '\r' then s[..|s| - 1] else s
  }

  /** `bufio.ScanLines`: the text split at each newline, a carriage return
      before the newline dropped, and no empty token after a final newline. */
  function ScanLines(s: string): seq<string>
    decreases |s|
  {
    if s == [] then []
    else
      var i := LineEnd(s);
      [DropCR(s[..i])] + if i == |s| then [] else ScanLines(s[i + 1..])
  }

  /** A string `write` and `read` carry unchanged: no newline in it, and no
      carriage return at its end. */
  predicate IsLine(x: string)
  {
    '\n' !in x && (x == [] || x[|x| - 1] != '\r')
  }

  /** `read` gives back what `write` wrote, when every string is a line. */
  lemma {:induction false} ScanLinesOfLines(xs: seq<string>)
    requires forall i :: 0 <= i < |xs| ==> IsLine(xs[i])
    ensures ScanLines(Lines(xs)) == xs
  {
    if xs != [] {
      var x := xs[0];
      var s := Lines(xs);
      assert s == x + ("\n" + Lines(xs[1..]));
      LineEndOfLine(x, "\n" + Lines(xs[1..]));
      assert s[..|x|] == x;
      assert s[|x| + 1..] == Lines(xs[1..]);
      ScanLinesOfLines(xs[1..]);
    }
  }

  /** A line followed by a newline ends at the newline. */
  lemma {:induction false} LineEndOfLine(x: string, rest: string)
    requires '\n' !in x && rest != [] && rest[0] == '\n'
    ensures LineEnd(x + rest) == |x|
  {
    if x != [] {
      assert (x + rest)[1..] == x[1..] + rest;
      LineEndOfLine(x[1..], rest);
    } else {
      assert x + rest == rest;
    }
  }

  /** The key file's disk: a map from path to contents. */
  class Disk {
    var files: map<string, string>

    constructor (files: map<string, string>)
      ensures this.files == files
    {
      this.files := files;
    }

    /** `write`: creates (or truncates) the file and writes each string and a
        newline. When the file cannot be created (`createError`), that error is
        returned and the disk is left alone. */
    method Write(path: string, data: seq<string>, createError: Option<string>) returns (err: Option<string>)
      modifies this`files
      ensures err == createError
      ensures createError.Some? ==> files == old(files)
      ensures createError.None? ==> files == old(files)[path := Lines(data)]
    {
      if createError.Some? {
        return createError;
      }
      files := files[path := ""];
      var i := 0;
      while i < |data|
        invariant 0 <= i <= |data|
        invariant files == old(files)[path := Lines(data[..i])]
      {
        LinesSnoc(data[..i], data[i]);
        assert data[..i + 1] == data[..i] + [data[i]];
        files := files[path := files[path] + data[i] + "\n"];
        i := i + 1;
      }
      assert data[..i] == data;
      err := None;
    }

    /** `read`: the lines of the file, or the error `os.Open` gives for a
        missing file. */
    method Read(path: string) returns (r: Result<seq<string>>)
      ensures path in files ==> r == Ok(ScanLines(files[path]))
      ensures path !in files ==> r.Err?
    {
      if path !in files {
        return Err("open " + path + ": no such file or directory");
      }
      var data := [];
      var rest := files[path];
      while rest != []
        invariant ScanLines(files[path]) == data + ScanLines(rest)
        decreases |rest|
      {
        var i := LineEnd(rest);
        data := data + [DropCR(rest[..i])];
        rest := if i == |rest| then [] else rest[i + 1..];
      }
      assert ScanLines(rest) == [];
      assert ScanLines(files[path]) == data;
      r := Ok(data);
    }

    /** `GetAccounts`: reads the key file below `home` and builds one account
        per key line, in order. A missing file gives no accounts. A line that
        does not parse would crash the source when it derives the address, so
        every line is required to parse. */
    method GetAccounts(home: string, hexToECDSA: string -> Result<PrivKey>, addressOf: PrivKey -> Address)
      returns (accounts: seq<Account>)
      requires AccountFilePath(home) in files ==> AllParse(ScanLines(files[AccountFilePath(home)]), hexToECDSA)
      ensures AccountFilePath(home) !in files ==> accounts == []
      ensures AccountFilePath(home) in files ==>
        var keys := ScanLines(files[AccountFilePath(home)]);
        && |accounts| == |keys|
        && forall i :: 0 <= i < |keys| ==> accounts[i] == AccountOf(keys[i], hexToECDSA, addressOf)
    {
      accounts := [];
      var read := Read(AccountFilePath(home));
      if read.Err? {
        return;
      }
      var keys := read.value;
      for i := 0 to |keys|
        invariant |accounts| == i
        invariant forall j :: 0 <= j < i ==> accounts[j] == AccountOf(keys[j], hexToECDSA, addressOf)
      {
        accounts := accounts + [AccountOf(keys[i], hexToECDSA, addressOf)];
      }
    }
  }

  /** Every key line is long enough to strip and parses to a key. */
  predicate AllParse(keys: seq<string>, hexToECDSA: string -> Result<PrivKey>)
  {
    forall i :: 0 <= i < |keys| ==> |keys[i]| >= 2 && StringToPrivateKey(keys[i], hexToECDSA).Ok?
  }

  /** The account of one key line: the parsed key and the address derived
      from it. */
  function AccountOf(key: string, hexToECDSA: string -> Result<PrivKey>, addressOf: PrivKey -> Address): (a: Account)
    requires |key| >= 2 && StringToPrivateKey(key, hexToECDSA).Ok?
    ensures a.privKey == hexToECDSA(key[2..]).value && a.address == addressOf(a.privKey)
  {
    var k := StringToPrivateKey(key, hexToECDSA).value;
    Account(addressOf(k), k)
  }

  /** `stringToPrivateKey`: drops the first two characters, whatever they are,
      and parses the rest with `crypto.HexToECDSA` (the `hexToECDSA`
      parameter). */
  function StringToPrivateKey(key: string, hexToECDSA: string -> Result<PrivKey>): (r: Result<PrivKey>)
    requires |key| >= 2
    ensures forall prefix: string :: |prefix| == 2 ==> r == hexToECDSA((prefix + key[2..])[2..])
    ensures r.Err? <==> hexToECDSA(key[2..]).Err?
  {
    hexToECDSA(key[2..])
  }

  /** The line the key generator writes for a key: `hexutil.Encode` of its
      bytes. */
  function KeyLine(k: PrivKey): string
  {
    Hex.PrefixedEncode(k.d)
  }

  /** Stripping two characters from a key line leaves exactly the hex digits of
      the key, which is what the parser is given. */
  lemma StringToPrivateKeyOfKeyLine(k: PrivKey, hexToECDSA: string -> Result<PrivKey>)
    ensures |KeyLine(k)| >= 2
    ensures StringToPrivateKey(KeyLine(k), hexToECDSA) == hexToECDSA(Hex.Encode(k.d))
  {
    assert KeyLine(k)[2..] == Hex.Encode(k.d);
  }

  /** Key lines contain only `0x` and hex digits, so they survive the file. */
  lemma KeyLineIsLine(k: PrivKey)
    ensures IsLine(KeyLine(k))
  {
    var s := KeyLine(k);
    forall i | 0 <= i < |s|
      ensures s[i] != '\n' && s[i] != '\r'
    {
      if i >= 2 {
        assert Hex.IsDigit(s[i]);
      } else {
        assert s[..2] == "0x";
        assert s[i] == s[..2][i];
      }
    }
  }

  /** The lines the key generator writes for its keys, in order. */
  function KeyLines(ks: seq<PrivKey>): (lines: seq<string>)
    ensures |lines| == |ks|
    ensures forall i :: 0 <= i < |ks| ==> lines[i] == KeyLine(ks[i])
  {
    if ks == [] then [] else KeyLines(ks[..|ks| - 1]) + [KeyLine(ks[|ks| - 1])]
  }

  /** One more key appends its key line. */
  lemma KeyLinesSnoc(ks: seq<PrivKey>, k: PrivKey)
    ensures KeyLines(ks + [k]) == KeyLines(ks) + [KeyLine(k)]
  {
    assert (ks + [k])[..|ks|] == ks;
  }

  /** The key file round trip: the generator's key lines are read back as the
      same lines, and each parses back to its key when the parser accepts the
      key's own hex text. */
  lemma KeyFileRoundTrip(ks: seq<PrivKey>, hexToECDSA: string -> Result<PrivKey>)
    requires forall k <- ks :: hexToECDSA(Hex.Encode(k.d)) == Ok(k)
    ensures ScanLines(Lines(KeyLines(ks))) == KeyLines(ks)
    ensures forall i :: 0 <= i < |ks| ==> StringToPrivateKey(KeyLines(ks)[i], hexToECDSA) == Ok(ks[i])
  {
    var lines := KeyLines(ks);
    forall i | 0 <= i < |lines|
      ensures IsLine(lines[i])
    {
      KeyLineIsLine(ks[i]);
    }
    ScanLinesOfLines(lines);
    forall i | 0 <= i < |ks|
      ensures StringToPrivateKey(lines[i], hexToECDSA) == Ok(ks[i])
    {
      StringToPrivateKeyOfKeyLine(ks[i], hexToECDSA);
    }
  }

  /** `GetAddresses`: the accounts' addresses, in order. */
  method GetAddresses(list: seq<Account>) returns (addresses: seq<Address>)
    ensures |addresses| == |list|
    ensures forall i :: 0 <= i < |list| ==> addresses[i] == list[i].address
  {
    addresses := [];
    for i := 0 to |list|
      invariant |addresses| == i
      invariant forall j :: 0 <= j < i ==> addresses[j] == list[j].address
    {
      addresses := addresses + [list[i].address];
    }
  }
}
