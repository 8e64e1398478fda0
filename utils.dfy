/** The explorer link builder of the web client (`getBaseScanUrl` in
    src/lib/utils.ts). */
module Utils {
  import opened Wrappers

  /** The network assumed when the caller names none. */
  const DefaultNetwork: string := "base-sepolia"
  const MainnetExplorer: string := "https://basescan.org"
  const TestnetExplorer: string := "https://sepolia.basescan.org"

  /** The explorer for a network: mainnet only for `base-mainnet`, the
      Sepolia explorer for every other name. */
  function BaseScanPrefix(network: string): (r: string)
    ensures r == MainnetExplorer <==> network == "base-mainnet"
    ensures r == MainnetExplorer || r == TestnetExplorer
  {
    if network == "base-mainnet" then MainnetExplorer else TestnetExplorer
  }

  /** `getBaseScanUrl(hash, network = 'base-sepolia')`: the transaction page;
      the hash is an exact suffix after `/tx/`. */
  function GetBaseScanUrl(hash: string, network: string := DefaultNetwork): (r: string)
    ensures |r| == |BaseScanPrefix(network)| + 4 + |hash|
    ensures r[..|r| - |hash|] == BaseScanPrefix(network) + "/tx/"
    ensures r[|r| - |hash|..] == hash
  {
    BaseScanPrefix(network) + "/tx/" + hash
  }

  /** Reads a transaction link back: the hash after one of the two explorer
      prefixes, or nothing for any other text. */
  function TxHashOf(url: string): (r: Option<string>)
  {
    var main := MainnetExplorer + "/tx/";
    var test := TestnetExplorer + "/tx/";
    if |main| <= |url| && url[..|main|] == main then Some(url[|main|..])
    else if |test| <= |url| && url[..|test|] == test then Some(url[|test|..])
    else None
  }

  /** The link always leads back to the hash it was built from. */
  lemma TxHashRoundTrip(hash: string, network: string)
    ensures TxHashOf(GetBaseScanUrl(hash, network)) == Some(hash)
  {
    var url := GetBaseScanUrl(hash, network);
    var main := MainnetExplorer + "/tx/";
    var test := TestnetExplorer + "/tx/";
    if network == "base-mainnet" {
      assert url[..|main|] == main;
      assert url[|main|..] == hash;
    } else {
      assert url[8] == 's' && main[8] == 'b';
      assert url[..|test|] == test;
      assert url[|test|..] == hash;
    }
  }

  /** Leaving out the network gives a Sepolia link. */
  lemma DefaultIsTestnet(hash: string)
    ensures GetBaseScanUrl(hash) == TestnetExplorer + "/tx/" + hash
  {
  }
}
