/**
  The proxy decision of `getHTTPClient`: HTTP_PROXY, then HTTPS_PROXY, then
  the configured proxy, then none. The first source that is set is the only
  one consulted; if its URL does not parse, the client goes without a proxy.
  `parses` stands for "`url.Parse` returns no error".
*/
module Proxy {
  import opened Wrappers
  import opened AppConfig

  /** The configured proxy address when the config exists, enables it and gives a non-empty address. */
  function ConfiguredAddress(config: Option<Config>): (a: Option<string>)
    ensures a.Some? <==> config.Some? && config.value.proxy.enabled && config.value.proxy.address != ""
    ensures a.Some? ==> a.value == config.value.proxy.address
  {
    if config.Some? && config.value.proxy.enabled && config.value.proxy.address != ""
    then Some(config.value.proxy.address)
    else None
  }

  /**
    The proxy URL the HTTP client is given, or None for a direct connection.
    `config` is None when the App has no config (Go's nil pointer).
  */
  function SelectProxy(httpEnv: string, httpsEnv: string, config: Option<Config>,
                       parses: string -> bool): (r: Option<string>)
    ensures r.Some? ==> parses(r.value) && r.value != ""
    ensures r.Some? ==> r.value == httpEnv || r.value == httpsEnv || Some(r.value) == ConfiguredAddress(config)
  {
    if httpEnv != "" then
      if parses(httpEnv) then Some(httpEnv) else None
    else if httpsEnv != "" then
      if parses(httpsEnv) then Some(httpsEnv) else None
    else if ConfiguredAddress(config).Some? then
      var address := ConfiguredAddress(config).value;
      if parses(address) then Some(address) else None
    else None
  }

  // Reference definition: a priority list of candidate sources, the first
  // present one chosen, and the choice kept only if it parses.

  /** The candidate sources in priority order; an unset environment variable is None. */
  function Candidates(httpEnv: string, httpsEnv: string, config: Option<Config>): seq<Option<string>> {
    [if httpEnv != "" then Some(httpEnv) else None,
     if httpsEnv != "" then Some(httpsEnv) else None,
     ConfiguredAddress(config)]
  }

  /** The first present entry of `cs`. */
  function FirstPresent(cs: seq<Option<string>>): (r: Option<string>)
    ensures r.Some? <==> exists i :: 0 <= i < |cs| && cs[i].Some?
    ensures r.Some? ==> exists i :: 0 <= i < |cs| && cs[i] == r && forall j :: 0 <= j < i ==> cs[j].None?
  {
    if cs == [] then None
    else if cs[0].Some? then cs[0]
    else
      var r := FirstPresent(cs[1..]);
      assert forall i :: 0 < i < |cs| ==> cs[i] == cs[1..][i - 1];
      r
  }

  /** Keep a chosen URL only if it parses. */
  function KeepIfParses(choice: Option<string>, parses: string -> bool): Option<string> {
    if choice.Some? && parses(choice.value) then choice else None
  }

  /** `getHTTPClient` agrees with "first source that is set, kept only if it parses". */
  lemma SelectProxyIsFirstCandidate(httpEnv: string, httpsEnv: string, config: Option<Config>,
                                    parses: string -> bool)
    ensures SelectProxy(httpEnv, httpsEnv, config, parses)
         == KeepIfParses(FirstPresent(Candidates(httpEnv, httpsEnv, config)), parses)
  {
    var cs := Candidates(httpEnv, httpsEnv, config);
    assert cs[1..][1..] == [cs[2]];
    assert cs[1..][1..][1..] == [];
  }

  /** A non-empty HTTP_PROXY decides alone: HTTPS_PROXY and the config are not looked at. */
  lemma HttpProxyShadowsLowerSources(httpEnv: string, httpsEnv: string, httpsEnv': string,
                                     config: Option<Config>, config': Option<Config>,
                                     parses: string -> bool)
    requires httpEnv != ""
    ensures SelectProxy(httpEnv, httpsEnv, config, parses) == SelectProxy(httpEnv, httpsEnv', config', parses)
    ensures SelectProxy(httpEnv, httpsEnv, config, parses) == if parses(httpEnv) then Some(httpEnv) else None
  {
  }

  /** With HTTP_PROXY unset, a non-empty HTTPS_PROXY decides alone: the config is not looked at. */
  lemma HttpsProxyShadowsConfig(httpsEnv: string, config: Option<Config>, config': Option<Config>,
                                parses: string -> bool)
    requires httpsEnv != ""
    ensures SelectProxy("", httpsEnv, config, parses) == SelectProxy("", httpsEnv, config', parses)
    ensures SelectProxy("", httpsEnv, config, parses) == if parses(httpsEnv) then Some(httpsEnv) else None
  {
  }

  /** With both variables unset, the config proxy is used exactly when it is enabled, non-empty and parses. */
  lemma ConfigProxyIsLastResort(config: Option<Config>, parses: string -> bool)
    ensures SelectProxy("", "", config, parses).Some? <==>
              config.Some? && config.value.proxy.enabled && config.value.proxy.address != ""
              && parses(config.value.proxy.address)
    ensures SelectProxy("", "", config, parses).Some? ==>
              SelectProxy("", "", config, parses).value == config.value.proxy.address
  {
  }

  /** The selected source failing to parse means no proxy, even when a lower source would parse. */
  lemma NoFallbackOnParseFailure(httpEnv: string, httpsEnv: string, config: Option<Config>,
                                 parses: string -> bool)
    requires FirstPresent(Candidates(httpEnv, httpsEnv, config)).Some?
    requires !parses(FirstPresent(Candidates(httpEnv, httpsEnv, config)).value)
    ensures SelectProxy(httpEnv, httpsEnv, config, parses) == None
  {
    SelectProxyIsFirstCandidate(httpEnv, httpsEnv, config, parses);
  }
}
