/** The environment-variable naming of utils/utils.go. */
module Utils {

  /** `PrefixEnvVars`: the one variable name for flag `name` under `prefix`,
      the two joined by an underscore. */
  function PrefixEnvVars(prefix: string, name: string): (vars: seq<string>)
    ensures |vars| == 1
    ensures |vars[0]| == |prefix| + 1 + |name|
    ensures vars[0][..|prefix|] == prefix && vars[0][|prefix|] == '_' && vars[0][|prefix| + 1..] == name
  {
    [prefix + "_" + name]
  }

  /** Under one prefix, different flag names give different variables. */
  lemma PrefixEnvVarsInjective(prefix: string, name1: string, name2: string)
    ensures PrefixEnvVars(prefix, name1) == PrefixEnvVars(prefix, name2) ==> name1 == name2
  {
    var v1, v2 := PrefixEnvVars(prefix, name1)[0], PrefixEnvVars(prefix, name2)[0];
    if v1 == v2 {
      assert name1 == v1[|prefix| + 1..];
    }
  }

  /** The L1 endpoint flag reads `TOKAMAK_TRUNKS_L1_RPC`. */
  lemma L1RpcVariable()
    ensures PrefixEnvVars("TOKAMAK_TRUNKS", "L1_RPC") == ["TOKAMAK_TRUNKS_L1_RPC"]
  {
    assert "TOKAMAK_TRUNKS" + "_" + "L1_RPC" == "TOKAMAK_TRUNKS_L1_RPC";
  }
}
