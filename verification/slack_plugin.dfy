/**
 `notify`, which turns a dictionary of event values into the text that is
 posted: it derives the decorated entries, stores the link under
 "ticket_link", picks a template and formats it.

 `notify` is modelled twice. `NotifyAsWritten` follows the source exactly: the
 link is stored as a `%(...)s` template in `values['ticket_link']` and the
 message is formatted in one pass, so the link's own directives reach the text
 unexpanded. `Notify` formats the link first and substitutes the result, which
 is what the templates evidently intend. The event handlers are modelled with
 each of the two.
 */
module SlackPlugin {
  import opened PyCore
  import opened PyStr
  import opened PyFormat
  import opened SlackTemplates
  import opened SlackDecor

  // ---------------------------------------------------------------------------
  // notify

  /** The keys `notify` itself reads before it picks a template. */
  const DecoratedKeys: set<string> := {"author", "action", "status", "owner"}

  /** The keys `notify` writes before it picks a template. */
  const WrittenKeys: set<string> := {"author", "emoji", "maybe_status", "maybe_owner"}

  /** The entries `notify` derives before it picks a template, reading the keys in the
      order the source reads them: the cleaned author, the icon and the two clauses. */
  function Decorate(values: map<string, string>): (r: Result<map<string, string>>)
    ensures r.Ok? <==> DecoratedKeys <= values.Keys
    ensures r.Err? ==> r.error.KeyError? && r.error.key in DecoratedKeys && r.error.key !in values
  {
    if "author" !in values then Err(KeyError("author"))
    else if "action" !in values then Err(KeyError("action"))
    else if "status" !in values then Err(KeyError("status"))
    else if "owner" !in values then Err(KeyError("owner"))
    else
      var action := values["action"];
      Ok(values["author" := CleanAuthor(values["author"])]
               ["emoji" := Emoji(action)]
               ["maybe_status" := MaybeStatus(action, values["status"])]
               ["maybe_owner" := MaybeOwner(values["owner"])])
  }

  /** What decorating writes: the cleaned author, the icon for the action and the
      two clauses; every other entry is kept. */
  lemma DecorateEntries(values: map<string, string>)
    requires DecoratedKeys <= values.Keys
    ensures var v := Decorate(values).value;
      && v.Keys == values.Keys + WrittenKeys
      && AgreeOn(v, values, values.Keys - WrittenKeys)
      && v["action"] == values["action"]
      && v["author"] == CleanAuthor(values["author"])
      && v["emoji"] == Emoji(values["action"])
      && v["maybe_status"] == MaybeStatus(values["action"], values["status"])
      && v["maybe_owner"] == MaybeOwner(values["owner"])
  {
  }

  /** Decorating keeps the action: the one fact of `DecorateEntries` that unfolding
      `notify` needs, stated alone so that it stays cheap. */
  lemma DecorateAction(values: map<string, string>)
    requires DecoratedKeys <= values.Keys
    ensures "action" in Decorate(values).value && Decorate(values).value["action"] == values["action"]
  {
  }

  /** The final `strip()` of a formatted message; the message is UTF-8 encoded
      first, so only ASCII whitespace is stripped. */
  function StripMessage(r: Result<string>): Result<string> {
    match r
    case Ok(m) => Ok(Strip(m, IsAsciiSpace))
    case Err(e) => Err(e)
  }

  /** A creation message, given what is stored under "ticket_link". */
  function CreatedMessage(link: Result<string>, v: map<string, string>): Result<string> {
    match link
    case Err(e) => Err(e)
    case Ok(l) => StripMessage(Format(CreatedTemplate, v["ticket_link" := l]))
  }

  /** Any other event's message, given what is stored under "ticket_link"; the
      comment is looked up to pick the template. */
  function ChangedMessage(link: Result<string>, v: map<string, string>): Result<string> {
    match link
    case Err(e) => Err(e)
    case Ok(l) =>
      if "comment" !in v then Err(KeyError("comment"))
      else StripMessage(Format(ChangedTemplateFor(v["comment"]), v["ticket_link" := l]))
  }

  /** The template `notify` stores under "ticket_link". */
  function LinkTemplate(v: map<string, string>): string
    requires "action" in v
  {
    if v["action"] == "created" then CreatedLinkTemplate else ChangedLinkTemplate
  }

  /** The message, given what is stored under "ticket_link". */
  function Message(link: Result<string>, v: map<string, string>): Result<string>
    requires "action" in v
  {
    if v["action"] == "created" then CreatedMessage(link, v) else ChangedMessage(link, v)
  }

  /** `notify` as the source writes it: the link template is stored under
      "ticket_link" unformatted, so it reaches the message as literal text. */
  function NotifyAsWritten(values: map<string, string>): Result<string> {
    match Decorate(values)
    case Err(e) => Err(e)
    case Ok(v) => Message(Ok(LinkTemplate(v)), v)
  }

  /** `notify` with the link formatted from the values before it is stored. */
  function Notify(values: map<string, string>): Result<string> {
    match Decorate(values)
    case Err(e) => Err(e)
    case Ok(v) => Message(Format(LinkTemplate(v), v), v)
  }

  /** Whether `Notify` finds every key it needs. */
  predicate NotifyReady(values: map<string, string>) {
    && DecoratedKeys <= values.Keys
    && "url" in values && "id" in values
    && (values["action"] == "created" ==> "type" in values && "summary" in values)
    && (values["action"] != "created" ==> "comment" in values)
  }

  /** Whether the source's own `notify` finds every key it reads: the four it
      decorates from and, for any event but a creation, the comment. */
  predicate NotifyAsWrittenReady(values: map<string, string>) {
    && DecoratedKeys <= values.Keys
    && (values["action"] != "created" ==> "comment" in values)
  }

  /** Every key a message can depend on. */
  const MessageKeys: set<string> := DecoratedKeys + {"url", "type", "id", "summary", "comment"}

  /** Every key a message of the source's own `notify` can depend on. */
  const AsWrittenKeys: set<string> := DecoratedKeys + {"comment"}
}
