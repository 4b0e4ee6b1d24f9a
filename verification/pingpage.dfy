/** The ping services page: the interval bounds the admin form applies,
    the tag input, and the colour of a status chip. */
module PingPage {
  import opened Wrappers
  import opened Strs
  import ProjectForm

  const MinInterval: real := 120.0
  const MaxInterval: real := 3600.0

  /** `Math.max(MIN, Math.min(MAX, value))`. */
  function Clamp(v: real): (r: real)
    ensures MinInterval <= r <= MaxInterval
    ensures MinInterval <= v <= MaxInterval ==> r == v
    ensures v < MinInterval ==> r == MinInterval
    ensures v > MaxInterval ==> r == MaxInterval
  {
    if v > MaxInterval then MaxInterval else if v < MinInterval then MinInterval else v
  }

  /** The dialog's fields; `interval` is the number shown. */
  datatype ServiceForm = ServiceForm(name: string, url: string, interval: real, telegramTags: string)

  datatype ServicePayload = ServicePayload(name: string, url: string, interval: real, telegramTags: seq<string>)

  /** The body of a create or an update: the interval clamped, the tags
      parsed. */
  function Payload(f: ServiceForm): (p: ServicePayload)
    ensures p.name == f.name && p.url == f.url
    ensures MinInterval <= p.interval <= MaxInterval
    ensures p.telegramTags == ProjectForm.ParseTags(f.telegramTags)
  {
    ServicePayload(f.name, f.url, Clamp(f.interval), ProjectForm.ParseTags(f.telegramTags))
  }

  /** `handleIntervalChange`; `value` is `Number(input)`, `None` for NaN,
      which leaves the form as it was. */
  function IntervalChange(f: ServiceForm, value: Option<real>): (r: ServiceForm)
    ensures value.None? ==> r == f
    ensures value.Some? ==> r == f.(interval := Clamp(value.value))
  {
    if value.None? then f else f.(interval := Clamp(value.value))
  }

  /** Opening a stored service for editing: only the lower bound is
      applied, and the tags are shown joined by `, `. */
  function EditForm(name: string, url: string, interval: real, tags: seq<string>): (f: ServiceForm)
    ensures f.interval >= MinInterval
    ensures interval >= MinInterval ==> f.interval == interval
  {
    ServiceForm(name, url, if interval > MinInterval then interval else MinInterval, Join(tags, ", "))
  }

  /** Clamping twice is clamping once. */
  lemma ClampIdempotent(v: real)
    ensures Clamp(Clamp(v)) == Clamp(v)
  {
  }

  /** Saving an unedited edit form sends the stored service back: the
      interval only clamped (so unchanged when in range) and the same
      tags. */
  lemma UneditedSaveKeepsService(name: string, url: string, interval: real, tags: seq<string>)
    requires ProjectForm.TagList(tags)
    ensures var p := Payload(EditForm(name, url, interval, tags));
      p.interval == Clamp(interval) && p.telegramTags == tags && p.name == name && p.url == url
    ensures MinInterval <= interval <= MaxInterval ==> Payload(EditForm(name, url, interval, tags)).interval == interval
  {
    ProjectForm.ParseTagsEditRoundTrip(tags);
  }

  datatype Color = Success | Warning | Error | Info

  /** `getStatusMeta`'s colour; `None` is a service never checked, and any
      unexpected status text is shown as unknown. */
  function StatusColor(status: Option<string>): (c: Color)
    ensures c == Color.Success <==> status == Some("ok")
    ensures c == Warning <==> status == Some("degraded")
    ensures c == Error <==> status == Some("down")
  {
    match status.GetOr("unknown")
    case "ok" => Color.Success
    case "degraded" => Warning
    case "down" => Error
    case _ => Info
  }

  /** Everything that is not one of the three statuses is `info`. */
  lemma UnknownIsInfo(status: Option<string>)
    requires status !in {Some("ok"), Some("degraded"), Some("down")}
    ensures StatusColor(status) == Info
  {
  }
}
