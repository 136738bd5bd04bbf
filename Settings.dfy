/** The configuration side of the program: notification payloads as the user writes them, the
    checked form handed to the native notifier, and the loaded configuration with its one-time
    normalisation of urgencies. */
module Settings {
  import opened Wrappers
  import opened Ints

  datatype Urgency = Low | Normal | Critical

  /** A payload as written in the configuration file. */
  datatype NotificationConfig = NotificationConfig(
    summary: string,
    body: Option<string>,
    icon: Option<string>,
    urgency: Option<Urgency>)

  /** A string that can cross into C: it holds no NUL character. */
  type CString = s: string | NulFree(s)

  /** The string holds no NUL character. */
  predicate NulFree(s: string) {
    '\0' !in s
  }

  predicate OptionalNulFree(s: Option<string>) {
    s.None? || NulFree(s.value)
  }

  /** A payload ready to be sent: every string is a C string. */
  datatype Notification = Notification(
    summary: CString,
    body: Option<CString>,
    icon: Option<CString>,
    urgency: Option<Urgency>)

  function ToCString(s: string): (r: Result<CString>)
    ensures r.Ok? <==> NulFree(s)
    ensures r.Ok? ==> r.value == s
    ensures r.Err? ==> r.error == "NulError"
  {
    if NulFree(s) then Ok(s) else Err("NulError")
  }

  function OptionalCString(s: Option<string>): (r: Result<Option<CString>>)
    ensures r.Ok? <==> OptionalNulFree(s)
    ensures r.Ok? ==> r.value.None? == s.None? && (s.Some? ==> r.value.value == s.value)
    ensures r.Err? ==> r.error == "NulError"
  {
    match s
    case None => Ok(None)
    case Some(v) =>
      match ToCString(v)
      case Ok(c) => Ok(Some(c))
      case Err(e) => Err(e)
  }

  /** Conversion of a configured payload: it fails with "NulError" when the summary, the body or
      the icon holds a NUL character, and otherwise keeps all four fields as they are. */
  function TryFrom(config: NotificationConfig): (r: Result<Notification>)
    ensures r.Ok? <==> NulFree(config.summary) && OptionalNulFree(config.body) && OptionalNulFree(config.icon)
    ensures r.Ok? ==> Configured(r.value) == config
    ensures r.Err? ==> r.error == "NulError"
  {
    match ToCString(config.summary)
    case Err(e) => Err(e)
    case Ok(summary) =>
      match OptionalCString(config.body)
      case Err(e) => Err(e)
      case Ok(body) =>
        match OptionalCString(config.icon)
        case Err(e) => Err(e)
        case Ok(icon) => Ok(Notification(summary, body, icon, config.urgency))
  }

  /** The configured form a checked payload came from. */
  function Configured(n: Notification): NotificationConfig {
    NotificationConfig(
      n.summary,
      if n.body.Some? then Some(n.body.value) else None,
      if n.icon.Some? then Some(n.icon.value) else None,
      n.urgency)
  }

  /** Every checked payload is accepted back unchanged. */
  lemma TryFromConfigured(n: Notification)
    ensures TryFrom(Configured(n)) == Ok(n)
  {
  }

  /** The urgency a present payload gets when the user gave none. */
  function WithDefaultUrgency(n: Option<Notification>, default: Urgency): (r: Option<Notification>)
    ensures r.Some? <==> n.Some?
    ensures r.Some? ==> r.value.urgency.Some?
    ensures r.Some? ==> r.value.(urgency := n.value.urgency) == n.value
    ensures n.Some? && n.value.urgency.Some? ==> r == n
    ensures n.Some? && n.value.urgency.None? ==> r.value.urgency == Some(default)
  {
    match n
    case None => None
    case Some(v) => if v.urgency.None? then Some(v.(urgency := Some(default))) else n
  }

  /** Supplying default urgencies a second time changes nothing. */
  lemma WithDefaultUrgencyIdempotent(n: Option<Notification>, default: Urgency)
    ensures WithDefaultUrgency(WithDefaultUrgency(n, default), default) == WithDefaultUrgency(n, default)
  {
  }

  /** The loaded configuration. Loading it (environment, file, YAML) is not part of this model;
      the constructor stands for the record the loader builds. */
  class Config {
    var tickRate: Option<U32>
    var batName: Option<string>
    var lowLevel: U32
    var criticalLevel: U32
    var fullDesign: Option<bool>
    var critical: Option<Notification>
    var low: Option<Notification>
    var full: Option<Notification>
    var charging: Option<Notification>
    var discharging: Option<Notification>

    constructor (tickRate: Option<U32>, batName: Option<string>, lowLevel: U32, criticalLevel: U32,
                 fullDesign: Option<bool>, critical: Option<Notification>, low: Option<Notification>,
                 full: Option<Notification>, charging: Option<Notification>, discharging: Option<Notification>)
      ensures this.tickRate == tickRate && this.batName == batName
      ensures this.lowLevel == lowLevel && this.criticalLevel == criticalLevel
      ensures this.fullDesign == fullDesign
      ensures this.critical == critical && this.low == low && this.full == full
      ensures this.charging == charging && this.discharging == discharging
    {
      this.tickRate := tickRate;
      this.batName := batName;
      this.lowLevel := lowLevel;
      this.criticalLevel := criticalLevel;
      this.fullDesign := fullDesign;
      this.critical := critical;
      this.low := low;
      this.full := full;
      this.charging := charging;
      this.discharging := discharging;
    }

    /** A critical payload without urgency becomes Critical, a low or full one Normal; payloads
        that have an urgency, and the charging and discharging payloads, are left alone. Only the
        three payload fields may change. */
    method Normalize()
      modifies this`critical, this`low, this`full
      ensures critical == WithDefaultUrgency(old(critical), Urgency.Critical)
      ensures low == WithDefaultUrgency(old(low), Urgency.Normal)
      ensures full == WithDefaultUrgency(old(full), Urgency.Normal)
      ensures charging == old(charging) && discharging == old(discharging)
    {
      if critical.Some? && critical.value.urgency.None? {
        critical := Some(critical.value.(urgency := Some(Urgency.Critical)));
      }
      if low.Some? && low.value.urgency.None? {
        low := Some(low.value.(urgency := Some(Urgency.Normal)));
      }
      if full.Some? && full.value.urgency.None? {
        full := Some(full.value.(urgency := Some(Urgency.Normal)));
      }
    }
  }
}
