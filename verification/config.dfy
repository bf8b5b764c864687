/**
 * Service configuration as `config.Load` leaves it once the YAML file has
 * been read and decoded: surrounding white space is trimmed, a blank port
 * falls back to the default, and the API key and secret are required.
 */
module Config {
  import opened Wrappers
  import opened Strings

  datatype Config = Config(port: string, shopifyApiKey: string, shopifyApiSecret: string)

  /** The port used when the file leaves it blank. */
  const DefaultPort: string := "9998"

  /** The one error `Load` raises after decoding. */
  datatype LoadError = MissingCredentials

  /** Go's `(Config, error)` pair: on error the configuration is the zero value. */
  datatype Loaded = Loaded(cfg: Config, err: Option<LoadError>)

  /** The fields as the service will use them: non-empty and without surrounding white space. */
  predicate Usable(cfg: Config) {
    && cfg.port != "" && Trimmed(cfg.port)
    && cfg.shopifyApiKey != "" && Trimmed(cfg.shopifyApiKey)
    && cfg.shopifyApiSecret != "" && Trimmed(cfg.shopifyApiSecret)
  }

  /** The trimming, defaulting and validation `Load` applies to the decoded file. */
  function Load(decoded: Config): (r: Loaded)
    ensures r.err.Some? <==> AllSpace(decoded.shopifyApiKey) || AllSpace(decoded.shopifyApiSecret)
    ensures r.err.Some? ==> r == Loaded(Config("", "", ""), Some(MissingCredentials))
    ensures r.err.None? ==> Usable(r.cfg)
    ensures r.err.None? && AllSpace(decoded.port) ==> r.cfg.port == DefaultPort
    ensures r.err.None? && !AllSpace(decoded.port) ==> r.cfg.port == TrimSpace(decoded.port)
    ensures r.err.None? ==> r.cfg.shopifyApiKey == TrimSpace(decoded.shopifyApiKey)
    ensures r.err.None? ==> r.cfg.shopifyApiSecret == TrimSpace(decoded.shopifyApiSecret)
  {
    TrimSpaceBlank(decoded.port);
    TrimSpaceBlank(decoded.shopifyApiKey);
    TrimSpaceBlank(decoded.shopifyApiSecret);
    var trimmedPort := TrimSpace(decoded.port);
    var port := if trimmedPort == "" then DefaultPort else trimmedPort;
    var key := TrimSpace(decoded.shopifyApiKey);
    var secret := TrimSpace(decoded.shopifyApiSecret);
    if key == "" || secret == "" then
      Loaded(Config("", "", ""), Some(MissingCredentials))
    else
      Loaded(Config(port, key, secret), None)
  }

  /** A configuration that is already usable passes through `Load` unchanged. */
  lemma LoadKeepsUsable(cfg: Config)
    requires Usable(cfg)
    ensures Load(cfg) == Loaded(cfg, None)
  {
    assert [] + cfg.port + [] == cfg.port;
    assert [] + cfg.shopifyApiKey + [] == cfg.shopifyApiKey;
    assert [] + cfg.shopifyApiSecret + [] == cfg.shopifyApiSecret;
    TrimSpaceOfPadded([], cfg.port, []);
    TrimSpaceOfPadded([], cfg.shopifyApiKey, []);
    TrimSpaceOfPadded([], cfg.shopifyApiSecret, []);
  }

  /**
   * Loading is idempotent: a configuration `Load` accepted is accepted again
   * unchanged, and the zero configuration a refusal returns is refused again.
   */
  lemma LoadIdempotent(decoded: Config)
    ensures Load(Load(decoded).cfg) == Load(decoded)
  {
    if Load(decoded).err.None? {
      LoadKeepsUsable(Load(decoded).cfg);
    }
  }

  /**
   * Values padded with white space in the file, each with its own padding,
   * are loaded as the bare values; a blank port becomes the default.
   */
  lemma LoadStripsPadding(port: string, key: string, secret: string,
                          pa: string, pb: string, ka: string, kb: string, sa: string, sb: string)
    requires AllSpace(pa) && AllSpace(pb) && AllSpace(ka) && AllSpace(kb) && AllSpace(sa) && AllSpace(sb)
    requires Trimmed(port) && Trimmed(key) && Trimmed(secret)
    requires key != "" && secret != ""
    ensures Load(Config(pa + port + pb, ka + key + kb, sa + secret + sb))
         == Loaded(Config(if port == "" then DefaultPort else port, key, secret), None)
  {
    TrimSpaceOfPadded(pa, port, pb);
    TrimSpaceOfPadded(ka, key, kb);
    TrimSpaceOfPadded(sa, secret, sb);
  }
}
