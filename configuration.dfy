/** The configuration the cache and the routes share: the repository, the
    optional access token that turns on proxy mode, this server's public base
    URL, the refresh interval and whether prereleases count as the latest
    release. Every field is what the environment gave, so each may be
    absent. */
module Configuration {
  import opened Strings

  datatype Config = Config(
    account: Option<string>,
    repository: Option<string>,
    token: Option<string>,
    url: Option<string>,
    /** refresh interval in minutes */
    interval: Option<nat>,
    pre: Option<string>)

  /** The error the cache constructor throws: its `code` and its message. */
  datatype ConfigIssue = ConfigIssue(code: string, message: string)

  const MissingProperties := "missing_configuration_properties"

  /** The checks of the cache constructor, in order: the repository must be
      named, and a token needs a base URL to build proxy links from. */
  function ConfigError(c: Config): (e: Option<ConfigIssue>)
    ensures e.Some? ==> e.value.code == MissingProperties
    ensures e.None? <==> Truthy(c.account) && Truthy(c.repository) && (Truthy(c.token) ==> Truthy(c.url))
  {
    if !Truthy(c.account) || !Truthy(c.repository) then
      Some(ConfigIssue(MissingProperties, "Neither ACCOUNT, nor REPOSITORY are defined"))
    else if Truthy(c.token) && !Truthy(c.url) then
      Some(ConfigIssue(MissingProperties, "Neither VERCEL_URL, nor URL are defined, which are mandatory for private repo mode"))
    else
      None
  }

  /** Downloads go through the server when the token is a non-empty string. */
  predicate ProxyMode(c: Config)
  {
    Truthy(c.token)
  }

  /** `${config.url}` in a template literal: an undefined URL renders as the
      text "undefined". */
  function UrlText(c: Config): string
  {
    if c.url.Some? then c.url.value else "undefined"
  }

  /** `ms(`${interval}m`)`, with the default of 15 minutes. */
  function IntervalMs(c: Config): (ms: nat)
    ensures c.interval.None? ==> ms == 900000
    ensures c.interval.Some? ==> ms == c.interval.value * 60000
  {
    (if c.interval.Some? then c.interval.value else 15) * 60000
  }

  /** A configuration the constructor accepts never builds a proxy link on
      the "undefined" base: in proxy mode the base URL is the configured,
      non-empty one. */
  lemma ProxyModeHasBaseUrl(c: Config)
    requires ConfigError(c).None? && ProxyMode(c)
    ensures c.url.Some? && UrlText(c) == c.url.value && UrlText(c) != ""
  {
  }
}
