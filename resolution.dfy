/**
 * `getProxyConfig`: the configuration for a domain, layered from the global
 * default, the template the domain's record names, and the domain's record.
 * Reading and decoding the record under `conf.d/<domain>` is abstracted to a
 * three-way `LoadResult`.
 */
module Resolution {
  import opened Wrappers
  import opened ProxyTypes

  /** What reading and decoding a domain's record gave. */
  datatype LoadResult = ReadFailed | DecodeFailed | Decoded(record: ProxyConfig)

  /** The global configuration: the default and the named templates. */
  datatype GlobalConfig = GlobalConfig(default: ProxyConfig, templates: map<string, ProxyConfig>)

  /** A resolved configuration and an error message, "" for none. */
  datatype Loaded = Loaded(config: ProxyConfig, err: string)

  const DecodeError: string := "unable to load proxy config"

  /** The record names a template and that template exists. */
  predicate TemplateApplies(g: GlobalConfig, record: ProxyConfig) {
    record.template != "" && record.template in g.templates
  }

  /**
   * The layer order for one protocol, stated independently of `Apply`: the
   * record's entry if it sets one, else the applicable template's if it sets
   * one, else the default's.
   */
  function LayeredEntry(g: GlobalConfig, record: ProxyConfig, p: Protocol): Option<Target> {
    if Entry(record, p).Some? then Entry(record, p)
    else if TemplateApplies(g, record) && Entry(g.templates[record.template], p).Some? then
      Entry(g.templates[record.template], p)
    else Entry(g.default, p)
  }

  function GetProxyConfig(g: GlobalConfig, load: LoadResult): (r: Loaded)
    // an unreadable record is no error: the default answers
    ensures load.ReadFailed? ==> r == Loaded(g.default, "")
    // a record that does not decode is an error
    ensures load.DecodeFailed? ==> r == Loaded(g.default, DecodeError)
    // otherwise: no error, the layer order per protocol, the default's template and timeout
    ensures load.Decoded? ==>
      && r.err == ""
      && (forall p :: Entry(r.config, p) == LayeredEntry(g, load.record, p))
      && r.config.template == g.default.template
      && r.config.timeout == g.default.timeout
    // layers never unset an entry: a complete default stays complete under usable layers
    ensures Complete(g.default)
      && (load.Decoded? ==> SetsOnlyUsable(load.record))
      && (load.Decoded? && TemplateApplies(g, load.record) ==> SetsOnlyUsable(g.templates[load.record.template]))
      ==> Complete(r.config)
  {
    match load
    case ReadFailed => Loaded(g.default, "")
    case DecodeFailed => Loaded(g.default, DecodeError)
    case Decoded(record) =>
      var base := if TemplateApplies(g, record) then Apply(g.default, g.templates[record.template]) else g.default;
      Loaded(Apply(base, record), "")
  }

  /** A template name that does not exist is ignored silently: it resolves as if none were named. */
  lemma MissingTemplateIgnored(g: GlobalConfig, record: ProxyConfig)
    requires record.template !in g.templates
    ensures GetProxyConfig(g, Decoded(record)) == GetProxyConfig(g, Decoded(record.(template := "")))
  {
  }

  /** The three-layer example: the record's imap, the template's pop3, the default's smtp. */
  lemma TemplateExample()
    ensures
      var default := ProxyConfig("", Some(Target("10.0.0.1", 143)), Some(Target("10.0.0.1", 110)), Some(Target("10.0.0.1", 25)), 0);
      var biz := ProxyConfig("", None, Some(Target("10.0.0.5", 110)), None, 0);
      var record := ProxyConfig("biz", Some(Target("10.0.0.9", 143)), None, None, 0);
      var r := GetProxyConfig(GlobalConfig(default, map["biz" := biz]), Decoded(record));
      && r.err == ""
      && r.config.imapTarget == Some(Target("10.0.0.9", 143))
      && r.config.pop3Target == Some(Target("10.0.0.5", 110))
      && r.config.smtpTarget == Some(Target("10.0.0.1", 25))
  {
  }
}
