/**
  The configuration of the price monitor and `loadConfig`: built-in defaults,
  overlaid with whatever keys `config.json` sets.
*/
module AppConfig {
  import opened Wrappers

  datatype ProxyConfig = ProxyConfig(enabled: bool, address: string)

  /** `updateInterval` is in seconds. */
  datatype Config = Config(proxy: ProxyConfig, updateInterval: int)

  const DefaultInterval: int := 10
  const DefaultProxyAddress: string := "http://127.0.0.1:7897"

  /** The configuration used when there is no usable `config.json`. */
  const Defaults: Config := Config(ProxyConfig(true, DefaultProxyAddress), DefaultInterval)

  /** The keys a decoded `proxy` object sets; an absent key is None. */
  datatype ProxyKeys = ProxyKeys(enabled: Option<bool>, address: Option<string>)

  /**
    What reading and decoding `config.json` produced: no file, a file that
    does not decode, or the keys that the decoded JSON object sets.
  */
  datatype ConfigFile =
    | Missing
    | Malformed
    | Decoded(proxy: Option<ProxyKeys>, updateInterval: Option<int>)

  /** Decoding into the pre-filled struct: a key present in the file replaces the default, an absent one keeps it. */
  function LoadConfig(file: ConfigFile): (c: Config)
    ensures !file.Decoded? ==> c == Defaults
  {
    match file
    case Missing => Defaults
    case Malformed => Defaults
    case Decoded(proxy, interval) =>
      var keys := proxy.GetOr(ProxyKeys(None, None));
      Config(ProxyConfig(keys.enabled.GetOr(Defaults.proxy.enabled),
                         keys.address.GetOr(Defaults.proxy.address)),
             interval.GetOr(Defaults.updateInterval))
  }

  /** Without a config file: a 10-second interval, and the proxy enabled at the local Clash port. */
  lemma MissingFileDefaults()
    ensures LoadConfig(Missing).updateInterval == 10
    ensures LoadConfig(Missing).proxy.enabled
    ensures LoadConfig(Missing).proxy.address == "http://127.0.0.1:7897"
    ensures LoadConfig(Malformed) == LoadConfig(Missing)
  {
  }

  /** An empty JSON object, or an empty `proxy` object, changes nothing. */
  lemma EmptyFileIsDefaults()
    ensures LoadConfig(Decoded(None, None)) == Defaults
    ensures LoadConfig(Decoded(Some(ProxyKeys(None, None)), None)) == Defaults
  {
  }

  /** Every key is decoded on its own: a key the file sets wins, the others keep their defaults. */
  lemma KeysOverrideIndependently(file: ConfigFile)
    requires file.Decoded?
    ensures LoadConfig(file).updateInterval ==
              if file.updateInterval.Some? then file.updateInterval.value else DefaultInterval
    ensures file.proxy.Some? && file.proxy.value.enabled.Some? ==>
              LoadConfig(file).proxy.enabled == file.proxy.value.enabled.value
    ensures (file.proxy.None? || file.proxy.value.enabled.None?) ==> LoadConfig(file).proxy.enabled
    ensures file.proxy.Some? && file.proxy.value.address.Some? ==>
              LoadConfig(file).proxy.address == file.proxy.value.address.value
    ensures (file.proxy.None? || file.proxy.value.address.None?) ==>
              LoadConfig(file).proxy.address == DefaultProxyAddress
  {
  }
}
