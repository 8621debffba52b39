/** The service configuration of internal/config/config.go and its two derived values. */
module Config {
  import opened GoLib

  /** Config, as read from the environment; the log level is kept as its name. */
  datatype Config = Config(
    port: string, host: string, clientHost: string, mode: string, serviceName: string,
    logLevel: string, storageDsn: string, internalApiUser: string, internalApiPassword: string)

  /** HostWithoutProtocol: drop one leading "http://", then one leading "https://". */
  function HostWithoutProtocol(c: Config): (r: string) {
    TrimPrefix(TrimPrefix(c.host, "http://"), "https://")
  }

  /** The result is a suffix of the host, shorter by 0, 7, 8 or 15 characters. */
  lemma HostWithoutProtocolSuffix(c: Config)
    ensures |HostWithoutProtocol(c)| <= |c.host|
    ensures HostWithoutProtocol(c) == c.host[|c.host| - |HostWithoutProtocol(c)|..]
    ensures |c.host| - |HostWithoutProtocol(c)| in {0, 7, 8, 15}
  {
    var wo := TrimPrefix(c.host, "http://");
    var r := TrimPrefix(wo, "https://");
    if HasPrefix(c.host, "http://") {
      assert c.host == "http://" + wo;
      assert wo == c.host[7..];
      if HasPrefix(wo, "https://") {
        assert wo == "https://" + r;
        assert r == c.host[15..];
      }
    } else if HasPrefix(wo, "https://") {
      assert r == c.host[8..];
    }
  }

  /** A host with neither prefix comes back unchanged. */
  lemma HostWithoutPrefixUnchanged(c: Config)
    requires !HasPrefix(c.host, "http://") && !HasPrefix(c.host, "https://")
    ensures HostWithoutProtocol(c) == c.host
  {
  }

  /** Each prefix goes at most once, and "http://" only before "https://": the function is not idempotent. */
  lemma HostWithoutProtocolExamples(c: Config)
    ensures HostWithoutProtocol(c.(host := "http://http://h")) == "http://h"
    ensures HostWithoutProtocol(c.(host := "http://h")) == "h"
    ensures HostWithoutProtocol(c.(host := "http://https://h")) == "h"
    ensures HostWithoutProtocol(c.(host := "https://http://h")) == "http://h"
  {
    assert HasPrefix("http://http://h", "http://");
    assert !HasPrefix("http://h", "https://") by { assert "http://h"[..8][4] == ':'; }
    assert HasPrefix("http://h", "http://");
    assert !HasPrefix("h", "https://");
    assert HasPrefix("http://https://h", "http://");
    assert HasPrefix("https://h", "https://");
    assert !HasPrefix("https://http://h", "http://") by { assert "https://http://h"[..7][4] == 's'; }
    assert HasPrefix("https://http://h", "https://");
  }

  /** IsNoop: the mode is the development mode (its value is not part of this model, so it is a parameter). */
  predicate IsNoop(c: Config, modeDev: string) {
    c.mode == modeDev
  }

  /** The modes the `oneof` validation rule on Mode admits. */
  const ValidModes: set<string> := {"local", "development", "staging", "production"}

  /**
   * IsNoop looks at the mode only: two configurations with the same mode
   * agree, and all no-op configurations share one mode.
   */
  lemma IsNoopDependsOnlyOnMode(c: Config, d: Config, modeDev: string)
    ensures c.mode == d.mode ==> (IsNoop(c, modeDev) <==> IsNoop(d, modeDev))
    ensures IsNoop(c, modeDev) && IsNoop(d, modeDev) ==> c.mode == d.mode
  {
  }

  /** A validated configuration can be a no-op one only when the dev mode is one of the admitted modes. */
  lemma IsNoopNeedsValidDevMode(c: Config, modeDev: string)
    requires c.mode in ValidModes
    ensures IsNoop(c, modeDev) ==> modeDev in ValidModes
    ensures IsNoop(c.(mode := modeDev), modeDev)
  {
  }
}

