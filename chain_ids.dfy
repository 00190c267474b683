/**
 * The fixed table from explorer directory names to chain identifiers, and
 * its case-insensitive lookup.
 */
module ChainIds {
  import opened Values
  import opened Ascii

  /** Explorer directory name (lower case) to chain ID. */
  const ChainIdMapping: map<string, int> := map[
    "etherscan" := 1,
    "arbiscan" := 42161,
    "basescan" := 8453,
    "bscscan" := 56,
    "celo" := 42220,
    "gnosis" := 100,
    "optimism" := 10
  ]

  /** The chain ID for a grandparent directory name; `None` is the
      `undefined` a missing key yields, never an error. */
  function LookupChainId(grandparent: string): (r: Option<int>)
    ensures r == Some(1) <==> ToLower(grandparent) == "etherscan"
    ensures r == Some(42161) <==> ToLower(grandparent) == "arbiscan"
    ensures r == Some(8453) <==> ToLower(grandparent) == "basescan"
    ensures r == Some(56) <==> ToLower(grandparent) == "bscscan"
    ensures r == Some(42220) <==> ToLower(grandparent) == "celo"
    ensures r == Some(100) <==> ToLower(grandparent) == "gnosis"
    ensures r == Some(10) <==> ToLower(grandparent) == "optimism"
    ensures r.Some? ==> r.value in {1, 42161, 8453, 56, 42220, 100, 10}
  {
    var key := ToLower(grandparent);
    if key in ChainIdMapping then Some(ChainIdMapping[key]) else None
  }

  /** The lookup does not see case: names equal ignoring case resolve alike,
      and a name resolves exactly as its lower-cased form does. */
  lemma LookupIgnoresCase(a: string, b: string)
    requires EqualIgnoringCase(a, b)
    ensures LookupChainId(a) == LookupChainId(b)
    ensures LookupChainId(a) == LookupChainId(ToLower(a))
  {
    ToLowerSameIffEqualIgnoringCase(a, b);
    ToLowerIdempotent(a);
  }

  /** Every spelling of a table key, in any mix of cases, resolves to it. */
  lemma AnyCaseOfKeyResolves(name: string, key: string)
    requires key in ChainIdMapping
    requires EqualIgnoringCase(name, key)
    ensures LookupChainId(name) == Some(ChainIdMapping[key])
  {
    LookupIgnoresCase(name, key);
    ToLowerFixesLowerKey(key);
  }

  /** A name outside the table (ignoring case) gives no chain ID. */
  lemma LookupMiss(name: string)
    requires forall key :: key in ChainIdMapping ==> !EqualIgnoringCase(name, key)
    ensures LookupChainId(name) == None
  {
    var l := ToLower(name);
    if l in ChainIdMapping {
      ToLowerFixesLowerKey(l);
      ToLowerSameIffEqualIgnoringCase(name, l);
      assert false;
    }
  }

  /** The table keys are already lower case. */
  lemma ToLowerFixesLowerKey(key: string)
    requires key in ChainIdMapping
    ensures ToLower(key) == key
  {
  }

  lemma EtherscanInAnyCase()
    ensures LookupChainId("etherscan") == Some(1)
    ensures LookupChainId("Etherscan") == Some(1)
    ensures LookupChainId("ETHERSCAN") == Some(1)
  {
    AnyCaseOfKeyResolves("Etherscan", "etherscan");
    AnyCaseOfKeyResolves("ETHERSCAN", "etherscan");
    ToLowerFixesLowerKey("etherscan");
  }
}
