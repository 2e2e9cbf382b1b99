/**
 * The proxy configuration record of the service's `types` package.
 *
 * That package is not part of this model; its record is modelled here on these
 * assumptions: a configuration holds one optional backend target per mail
 * protocol (imap, pop3, smtp), a template name and a timeout instant; `Apply`
 * overwrites exactly the protocol entries the other record sets; `IP` and
 * `Port` answer "" and 0 for an unknown protocol name or an unset entry.
 */
module ProxyTypes {
  import opened Wrappers

  /** A backend host and port. */
  datatype Target = Target(ip: string, port: int)

  datatype Protocol = Imap | Pop3 | Smtp

  /** A proxy configuration; `timeout` is the instant a cached copy expires. */
  datatype ProxyConfig = ProxyConfig(
    template: string,
    imapTarget: Option<Target>,
    pop3Target: Option<Target>,
    smtpTarget: Option<Target>,
    timeout: int)

  /** The protocol an `Auth-Protocol` value names, if it is one of the three. */
  function ProtocolNamed(name: string): Option<Protocol> {
    if name == "imap" then Some(Imap)
    else if name == "pop3" then Some(Pop3)
    else if name == "smtp" then Some(Smtp)
    else None
  }

  /** The entry a configuration holds for one protocol. */
  function Entry(c: ProxyConfig, p: Protocol): Option<Target> {
    match p
    case Imap => c.imapTarget
    case Pop3 => c.pop3Target
    case Smtp => c.smtpTarget
  }

  /** Both configurations hold the same entry for every protocol. */
  predicate SameTargets(a: ProxyConfig, b: ProxyConfig) {
    forall p :: Entry(a, p) == Entry(b, p)
  }

  function Overwrite(lower: Option<Target>, upper: Option<Target>): Option<Target> {
    if upper.Some? then upper else lower
  }

  /**
   * `c.Apply(o)`: every protocol entry that `o` sets replaces `c`'s; every
   * entry `o` leaves unset, and `c`'s template and timeout, stay as they are.
   */
  function Apply(c: ProxyConfig, o: ProxyConfig): (r: ProxyConfig)
    ensures forall p :: Entry(o, p).Some? ==> Entry(r, p) == Entry(o, p)
    ensures forall p :: Entry(o, p).None? ==> Entry(r, p) == Entry(c, p)
    ensures r.template == c.template && r.timeout == c.timeout
  {
    c.(imapTarget := Overwrite(c.imapTarget, o.imapTarget),
       pop3Target := Overwrite(c.pop3Target, o.pop3Target),
       smtpTarget := Overwrite(c.smtpTarget, o.smtpTarget))
  }

  /** `c.IP(protocol)`: the host for the named protocol, "" if unknown or unset. */
  function IP(c: ProxyConfig, protocol: string): string {
    match ProtocolNamed(protocol)
    case None => ""
    case Some(p) => if Entry(c, p).Some? then Entry(c, p).value.ip else ""
  }

  /** `c.Port(protocol)`: the port for the named protocol, 0 if unknown or unset. */
  function Port(c: ProxyConfig, protocol: string): int {
    match ProtocolNamed(protocol)
    case None => 0
    case Some(p) => if Entry(c, p).Some? then Entry(c, p).value.port else 0
  }

  /**
   * After a layer is applied, the host and port for a protocol come from the
   * layer exactly when it sets that protocol's entry, and from below otherwise.
   */
  lemma ApplyTargets(c: ProxyConfig, o: ProxyConfig, protocol: string)
    ensures ProtocolNamed(protocol).Some? && Entry(o, ProtocolNamed(protocol).value).Some? ==>
      IP(Apply(c, o), protocol) == IP(o, protocol) && Port(Apply(c, o), protocol) == Port(o, protocol)
    ensures !(ProtocolNamed(protocol).Some? && Entry(o, ProtocolNamed(protocol).value).Some?) ==>
      IP(Apply(c, o), protocol) == IP(c, protocol) && Port(Apply(c, o), protocol) == Port(c, protocol)
  {
  }

  /** A target the lookup accepts: a non-empty host and a port other than 0. */
  predicate Usable(t: Target) {
    t.ip != "" && t.port != 0
  }

  /** Every protocol has a usable target. */
  predicate Complete(c: ProxyConfig) {
    forall p :: Entry(c, p).Some? && Usable(Entry(c, p).value)
  }

  /** Every protocol entry the configuration sets is usable. */
  predicate SetsOnlyUsable(c: ProxyConfig) {
    forall p :: Entry(c, p).Some? ==> Usable(Entry(c, p).value)
  }

  /** A complete configuration answers every known protocol with a host and a non-zero port. */
  lemma CompleteServesKnownProtocols(c: ProxyConfig, protocol: string)
    requires Complete(c)
    ensures ProtocolNamed(protocol).Some? <==> IP(c, protocol) != "" && Port(c, protocol) != 0
  {
    match ProtocolNamed(protocol)
    case None =>
    case Some(p) => assert Entry(c, p).Some? && Usable(Entry(c, p).value);
  }
}
