# Trac Slack notification plugin: the message it posts

The plugin listens to ticket events in Trac. When a ticket is created or changed,
it builds a dictionary of values from the ticket and the event. `notify` then
formats that dictionary into a one-line chat message, which is posted to a Slack
incoming webhook. This project models everything up to the posted text:

- the values a ticket event starts from (`prepare_ticket_values`) and the
  length-bounded cut with its " _etc._" marker (`truncate`);
- `notify`: the author with any " <address>" removed, the icon for the action,
  the optional status and owner clauses, the two message templates, Python's
  one-pass `template % values` formatting and the final `strip()`;
- `ticket_created` and `ticket_changed`: the action of a change, the first
  non-blank line of the comment, and the field and change listings.

Modules:

- `PyCore`: `Option`, `Result` and the `KeyError` / `ValueError` exceptions.
- `PyStr`: the Python string built-ins the plugin uses: `strip` (with `TrimRight`,
  its right half), `splitlines`, `split`, `join`, `s[:n]`, `str(int)`.
- `PyFormat`: `%`-formatting with a dictionary. Templates are also described
  as pieces, so each template's expansion can be proved.
- `SlackNotification`: the module-level definitions.
- `SlackTemplates`: the message templates and what they expand to.
- `SlackDecor`: the icons, the author clean-up and the optional clauses.
- `SlackPlugin`: `notify`.
- `SlackMessages`: the resulting messages.
- `TicketListener`: the two event handlers.

A ticket is its integer id, its URL (computed by the host) and a map from
field name to string. The `fields` option is passed in as a string. A handler
yields either the message that would be posted or the exception that stops it.

`notify` and the two handlers are each modelled twice (see "## Findings").
`SlackPlugin.NotifyAsWritten`, `TicketListener.TicketCreatedAsWritten` and
`TicketListener.TicketChangedAsWritten` compute what the code computes: the
link template reaches the message as literal text. `SlackPlugin.Notify`,
`TicketListener.TicketCreated` and `TicketListener.TicketChanged` are the
corrected versions, which show the ticket's link.

Two behaviours of the code are worth stating, since a reader might expect
otherwise:

- A configured field the ticket does not have is not omitted from the field
  listing. `ticket[field]` is `None` for it, `None != ''` holds, and the line
  reads "None".
- A missing "reporter" (creation) or a missing "status" or "owner" (any event)
  is not treated as empty. The source raises `KeyError`, and the model returns
  `Err(KeyError(...))`. A missing "status" in the previous values is the one
  case the source catches.

## Model

| member | source | states |
|---|---|---|
| SlackNotification.TicketId | slack_notification/__init__.py:15 | The id is written as "#" followed by a canonical numeral (no leading zero, no "-0") that parses back to the ticket's id. |
| SlackNotification.PrepareTicketValues | slack_notification/__init__.py:13-21 | The prepared values are the ticket's fields plus "id", "action", "url", "attrib" and "changes". Every other field keeps the ticket's value. The listings start empty. |
| SlackNotification.Truncate | slack_notification/__init__.py:24-26 | A value of at most n characters is returned unchanged. A longer one becomes a prefix of the value followed by " _etc._", exactly n characters long when n is at least the marker's length. |
| PyStr.SliceTo | slack_notification/__init__.py:26 | `s[:stop]` is a prefix of s. Its length follows Python's clamping, and a negative stop counts from the end. |
| PyStr.Strip | slack_notification/__init__.py:75 | The stripped text neither starts nor ends with whitespace. It is empty exactly when the text is all whitespace. |
| PyStr.StripCharacterization | slack_notification/__init__.py:75 | Stripping whitespace padding around a core that neither starts nor ends with whitespace gives that core back. |
| PyStr.TrimRight | slack_notification/__init__.py:75 | The result is a prefix of the text. Only whitespace was cut, and the result does not end in whitespace. |
| PyStr.StripAfterHead | slack_notification/__init__.py:75 | A message whose head starts and ends with non-whitespace loses only the tail's trailing whitespace when stripped. |
| PyStr.SplitLines | slack_notification/__init__.py:107 | There are no lines exactly when the text is empty, and no line contains a line boundary. Their contents are fixed by `JoinSplitLinesAll`. |
| PyStr.SplitLinesBlank | slack_notification/__init__.py:107 | Every line is blank exactly when the whole text is whitespace. |
| PyStr.SplitLinesBlankFor | slack_notification/__init__.py:107 | Every line is blank exactly when the whole text is blank, for any whitespace notion that covers the line boundaries. |
| PyStr.JoinSplitLinesAll | slack_notification/__init__.py:107 | For every text, joining its lines with "\n" gives the text with each line boundary written "\n" ("\r\n" counting as one boundary) and a final boundary dropped. |
| PyStr.JoinSplitLines | slack_notification/__init__.py:107 | Text whose only line boundary is "\n", and which does not end in one, is recovered by joining its lines with "\n". |
| PyStr.Split | slack_notification/__init__.py:88 | `split(',')` yields at least one part, and no part contains the separator. |
| PyStr.JoinSplit | slack_notification/__init__.py:88 | Joining the parts of a split with the separator gives the text back. |
| PyStr.SplitJoin | slack_notification/__init__.py:88 | Splitting a join of separator-free parts gives the parts back. |
| PyStr.Join | slack_notification/__init__.py:95 | Defines `sep.join(parts)`: the parts with the separator between each two. `JoinSplit`, `SplitJoin`, `JoinSplitLinesAll` and `TicketListener.ListingEmpty` state its properties. |
| PyStr.IntToStr | slack_notification/__init__.py:15 | `str(n)` is a canonical numeral: no leading zero unless it is "0", no "-0", and a sign exactly when n is negative. |
| PyStr.StrIntRoundTrip | slack_notification/__init__.py:15 | Every canonical numeral is `str` of the integer it denotes, so `str(n)` is the one canonical numeral of n. |
| PyStr.IntToStrRoundTrip | slack_notification/__init__.py:15 | `str(n)` is a numeral that reads back as n, for negative n too. |
| PyFormat.Format | slack_notification/__init__.py:71 | Defines one-pass `template % values`: `%%` and `%(key)s` read left to right, a substituted value never rescanned. `FormatText`, `FormatDirective` and `FormatSpelled` state what it computes. |
| PyFormat.FormatSpelled | slack_notification/__init__.py:71 | On a template of literal text without "%" and `%(key)s` directives, one-pass `%`-formatting is substituting each directive in turn. |
| PyFormat.FormatText | slack_notification/__init__.py:71 | Literal text without "%" is copied to the output unchanged. |
| PyFormat.FormatDirective | slack_notification/__init__.py:71 | `%(key)s` is replaced by the key's value, or raises `KeyError` when the key is missing. |
| PyFormat.FillSucceeds | slack_notification/__init__.py:71 | Substitution succeeds exactly when every named key is present. |
| PyFormat.FillReadsSlotsOnly | slack_notification/__init__.py:71 | Substitution depends on nothing but the values of the keys the template names. |
| SlackTemplates.CreatedLinkExpands | slack_notification/__init__.py:63 | The creation link template expands to "<url\|type id summary>". |
| SlackTemplates.ChangedLinkExpands | slack_notification/__init__.py:66 | The change link template expands to "<url\|id>". |
| SlackTemplates.CreatedExpands | slack_notification/__init__.py:64 | The creation template expands to ":icon: link created by @author". |
| SlackTemplates.ChangedExpands | slack_notification/__init__.py:67-69 | The change template expands to ":icon: owner-clause status-clause link action by @author", with a space before the link. ": comment" follows only when the comment is not empty. |
| SlackTemplates.CreatedLinkDefined | slack_notification/__init__.py:63 | The creation link formats exactly when "url", "type", "id" and "summary" are present. |
| SlackTemplates.ChangedLinkDefined | slack_notification/__init__.py:66 | The change link formats exactly when "url" and "id" are present. |
| SlackTemplates.FormatReadsSlotsOnly | slack_notification/__init__.py:71 | Formatting a template reads nothing but the keys it names. |
| SlackTemplates.LinkTemplatesOpen | slack_notification/__init__.py:63-66 | Both stored link templates begin "<%", with a directive right after the bracket. |
| SlackTemplates.LinkTemplatesNoHash | slack_notification/__init__.py:63-66 | Neither stored link template contains "#", so neither can be mistaken for a formatted ticket link, which always holds "#<id>". |
| SlackDecor.Emoji | slack_notification/__init__.py:31-40 | A listed action gets its own icon. "incoming_envelope" is given exactly to the actions that are not listed. |
| SlackDecor.MovedActionEmoji | slack_notification/__init__.py:52-53 | A "moved to ..." action always gets the default icon. |
| SlackDecor.CleanAuthor | slack_notification/__init__.py:51 | The cleaned author contains no " <", is no longer than the author, and starts as the author does (or at a newline). |
| SlackDecor.CleanAuthorKeeps | slack_notification/__init__.py:51 | An author without " <" is left unchanged. |
| SlackDecor.CleanAuthorCut | slack_notification/__init__.py:51 | On one line, the clean-up keeps exactly what precedes the first " <". |
| SlackDecor.CleanAuthorIdempotent | slack_notification/__init__.py:51 | Cleaning twice is cleaning once. |
| SlackDecor.FirstMarker | slack_notification/__init__.py:51 | The position found is the first " <" in the text, or its length when there is none. |
| SlackDecor.MaybeStatus | slack_notification/__init__.py:54-57 | The status clause is empty exactly when the action equals the status. Otherwise it is the status followed by a space. |
| SlackDecor.MaybeOwner | slack_notification/__init__.py:58-60 | The owner clause is empty exactly when the owner is empty. Otherwise it is the owner followed by "’s ". |
| SlackPlugin.Decorate | slack_notification/__init__.py:51-60 | Decorating succeeds exactly when "author", "action", "status" and "owner" are all present. Otherwise it raises `KeyError` naming one of them that is missing. |
| SlackPlugin.DecorateEntries | slack_notification/__init__.py:51-60 | Decorating writes the cleaned author, the icon for the action and the two clauses. It keeps every other entry, the action included. |
| SlackMessages.NotifyCreatedText | slack_notification/__init__.py:62-64 | For the corrected `notify` (see "## Findings"): a creation message is ":pushpin: <url\|type id summary> created by @" followed by the cleaned author, with its trailing whitespace stripped. |
| SlackMessages.NotifyChangedText | slack_notification/__init__.py:65-76 | For the corrected `notify`: any other message is ":icon: " + owner clause + status clause + " <url\|id> " + action + " by @" + cleaned author. ": comment" follows when there is a comment, and trailing whitespace is stripped. |
| SlackMessages.NotifyAsWrittenCreatedText | slack_notification/__init__.py:62-64 | As the source is written, the creation message contains the literal "<%(url)s\|%(type)s %(id)s %(summary)s>" in place of the link. |
| SlackMessages.NotifyAsWrittenChangedText | slack_notification/__init__.py:65-71 | As the source is written, every other message contains the literal "<%(url)s\|%(id)s>" in place of the link. |
| SlackPlugin.NotifyAsWritten | slack_notification/__init__.py:50-71 | Defines `notify` as written: decorate, store the link template unformatted, format the chosen template once, strip. `SlackMessages.NotifyAsWrittenFails`, `NotifyAsWrittenCreatedText`, `NotifyAsWrittenChangedText` and `NotifyAsWrittenReadsOnly` state what it computes. |
| SlackPlugin.Notify | slack_notification/__init__.py:50-71 | Defines the corrected `notify` (see "## Findings"): as `NotifyAsWritten`, but the link is formatted before it is stored. `SlackMessages.NotifyFails`, `NotifyCreatedText`, `NotifyChangedText` and `NotifyReadsOnly` state what it computes. |
| SlackMessages.NotifyAsWrittenFails | slack_notification/__init__.py:50-71 | The source's `notify` raises exactly when "author", "action", "status" or "owner" is missing, or the comment is missing on an event other than a creation. The exception is a `KeyError` naming a missing key. |
| SlackMessages.NotifyAsWrittenReadsOnly | slack_notification/__init__.py:50-71 | The source's message depends only on "author", "action", "status", "owner" and "comment", not on the URL, id, type or summary its link was meant to show. |
| SlackMessages.NotifyFails | slack_notification/__init__.py:50-71 | For the corrected `notify` (see "## Findings"): it raises exactly when a key the chosen templates, the link's included, need is missing. |
| SlackMessages.NotifyReadsOnly | slack_notification/__init__.py:50-71 | For the corrected `notify`: the message depends only on "author", "action", "status", "owner", "url", "type", "id", "summary" and "comment". |
| SlackMessages.CreatedLinkLeaks | slack_notification/__init__.py:62-64 | For every creation whose URL does not begin with "%", the source's message differs from the intended one, and both are produced without error. |
| SlackMessages.ChangedLinkLeaks | slack_notification/__init__.py:65-71 | The same holds for every other event. |
| SlackMessages.HeadKeepsStrip | slack_notification/__init__.py:75 | The final strip leaves a message's ":icon: ... by @" head intact and trims only the end. |
| TicketListener.FieldNames | slack_notification/__init__.py:48 | The configured field names are at least one comma-free name, and they join back with "," to the option. |
| TicketListener.ChangedAction | slack_notification/__init__.py:100-105 | Defines the action of a change. `ChangedActionMoves`, `ChangedActionNotCreation` and `ChangedActionIcon` state its properties. |
| TicketListener.ChangedActionMoves | slack_notification/__init__.py:100-105 | A change is "moved to " + the new status exactly when the ticket and the previous values both have a status and they differ. Otherwise it is "changed", and a missing previous status raises nothing. |
| TicketListener.ChangedActionNotCreation | slack_notification/__init__.py:100-105 | A change never gets the creation template. |
| TicketListener.ChangedActionIcon | slack_notification/__init__.py:52-53 | A plain change gets "pencil2", and a move gets the default icon. |
| TicketListener.MovedShowsStatus | slack_notification/__init__.py:54-57 | A move always shows the new status clause. |
| TicketListener.FirstNonBlank | slack_notification/__init__.py:107-108 | The first non-blank line, stripped, is empty exactly when every line is blank. Otherwise it neither starts nor ends with whitespace. |
| TicketListener.FirstNonBlankIndex | slack_notification/__init__.py:107-108 | Every line before the found position is blank, and the line at it is not. |
| TicketListener.ExtractComment | slack_notification/__init__.py:107-108 | The comment in a change message is at most 100 characters. |
| TicketListener.ExtractCommentBlank | slack_notification/__init__.py:107-110 | The comment is "" exactly when the comment text is all whitespace, empty text included. |
| TicketListener.ExtractCommentLength | slack_notification/__init__.py:107-108 | A first line of at most 100 characters is kept whole. A longer one is cut to 100 characters ending in " _etc._", and what precedes the marker is a prefix of the line. |
| TicketListener.FieldValue | slack_notification/__init__.py:92-93 | Defines `ticket[field]`: the value, or `None` for a field the ticket lacks. `AttribLinesSound` and `AttribLinesComplete` state how it reaches the listing. |
| TicketListener.AttribLine | slack_notification/__init__.py:93 | Defines one line of the field listing, "  * field: value", `None` written "None". `AttribLinesSound` and `AttribLinesComplete` state which lines occur. |
| TicketListener.ChangeLine | slack_notification/__init__.py:127-128 | Defines one line of the change listing, "  * field: previous => new". `ChangeLinesSound` and `ChangeLinesComplete` state which lines occur. |
| TicketListener.AttribLines | slack_notification/__init__.py:91-93 | There are no more lines than configured fields. |
| TicketListener.AttribLinesSound | slack_notification/__init__.py:91-93 | Every line of the field listing is "  * f: value" for a configured field f whose value is not "". |
| TicketListener.AttribLinesComplete | slack_notification/__init__.py:91-93 | Every configured field whose value is not "" has its line in the listing. |
| TicketListener.AttribLinesEmpty | slack_notification/__init__.py:91-95 | The field listing is empty exactly when no configured field is listed. |
| TicketListener.AttribLinesAppend | slack_notification/__init__.py:91-93 | Lines follow the configured order: listing two field lists one after the other lists their concatenation. |
| TicketListener.ChangeLines | slack_notification/__init__.py:126-128 | There are no more change lines than configured fields. |
| TicketListener.ChangeLinesSound | slack_notification/__init__.py:126-128 | Every change line is "  * f: previous => new" for a configured field f that has a previous value. |
| TicketListener.ChangeLinesComplete | slack_notification/__init__.py:126-128 | Every configured field with a previous value has its change line. |
| TicketListener.ChangeLinesEmpty | slack_notification/__init__.py:126-131 | The change listing is empty exactly when no configured field has a previous value. |
| TicketListener.ChangeLinesAppend | slack_notification/__init__.py:126-128 | Change lines follow the configured order. |
| TicketListener.ListingEmpty | slack_notification/__init__.py:95 | Non-empty lines joined with newlines give "" exactly when there are no lines, so `or ''` changes nothing. |
| TicketListener.CreatedMap | slack_notification/__init__.py:85-95 | A creation's dictionary has the ticket's fields plus the event's entries: action "created", the reporter as author, no comment, and the listing. |
| TicketListener.CreatedMapKeep | slack_notification/__init__.py:85-87 | Every entry a creation does not set is the ticket's own. |
| TicketListener.CreatedMapReadyAsWritten | slack_notification/__init__.py:85-97 | A creation's dictionary has every key the source's `notify` reads exactly when the ticket has "status" and "owner". |
| TicketListener.CreatedMapReady | slack_notification/__init__.py:85-97 | For the corrected `notify` (see "## Findings"): a creation's dictionary has all it needs exactly when the ticket has "status", "owner", "type" and "summary". |
| TicketListener.CreatedValues | slack_notification/__init__.py:85-86 | Preparing a creation fails exactly when the ticket has no reporter, and it raises `KeyError("reporter")`. |
| TicketListener.TicketCreatedAsWritten | slack_notification/__init__.py:84-97 | Defines `ticket_created` as written: the creation dictionary handed to the source's `notify`. The lemmas below state what it computes. |
| TicketListener.TicketCreatedAsWrittenFails | slack_notification/__init__.py:84-97 | A creation raises exactly when the ticket lacks "reporter", "status" or "owner", with `KeyError` for the first missing one in that order. The type and the summary are never read. |
| TicketListener.TicketCreatedAsWrittenText | slack_notification/__init__.py:84-97 | A new ticket's message is ":pushpin: <%(url)s\|%(type)s %(id)s %(summary)s> created by @" + the cleaned reporter, with the link template as literal text. |
| TicketListener.TicketCreatedAsWrittenIgnoresFields | slack_notification/__init__.py:88-97 | The `fields` option never changes a creation message. |
| TicketListener.TicketCreatedLeaks | slack_notification/__init__.py:84-97 | For every new ticket with a type and a summary, the message posted differs from the intended one, and both are produced without error. |
| TicketListener.TicketCreated | slack_notification/__init__.py:84-97 | Defines `ticket_created` with the corrected `notify` (see "## Findings"). |
| TicketListener.TicketCreatedFails | slack_notification/__init__.py:84-97 | For the corrected `notify`: a creation raises exactly when the ticket lacks one of "reporter", "status", "owner", "type" and "summary". The reporter is checked first. |
| TicketListener.TicketCreatedText | slack_notification/__init__.py:84-97 | For the corrected `notify`: a new ticket's message is ":pushpin: <url\|type #id summary> created by @" + the cleaned reporter. |
| TicketListener.TicketCreatedIgnoresFields | slack_notification/__init__.py:88-97 | For the corrected `notify`: the `fields` option never changes a creation message. |
| TicketListener.ChangedMap | slack_notification/__init__.py:106-131 | A change's dictionary has the ticket's fields plus the action, comment, author and listings. "description" is "" when the previous values have none. |
| TicketListener.ChangedMapKeep | slack_notification/__init__.py:106-116 | Every entry a change does not set is the ticket's own. |
| TicketListener.ChangedMapReady | slack_notification/__init__.py:106-133 | A change's dictionary has all that either `notify` needs exactly when the ticket has a status and an owner. |
| TicketListener.TicketChangedAsWritten | slack_notification/__init__.py:99-133 | Defines `ticket_changed` as written: the change dictionary handed to the source's `notify`. The lemmas below state what it computes. |
| TicketListener.TicketChangedAsWrittenFails | slack_notification/__init__.py:99-133 | A change raises exactly when the ticket lacks a status or an owner, with `KeyError("status")` before `KeyError("owner")`. |
| TicketListener.TicketChangedAsWrittenText | slack_notification/__init__.py:99-133 | A change's message is ":icon: " + owner clause + status clause + " <%(url)s\|%(id)s> " + action + " by @" + cleaned author, with the link template as literal text. A ": " and the comment's first non-blank line follow when there is one. |
| TicketListener.TicketChangedAsWrittenIgnoresFields | slack_notification/__init__.py:118-133 | The `fields` option never changes a change message. |
| TicketListener.TicketChangedLeaks | slack_notification/__init__.py:99-133 | For every change to a ticket with a status and an owner, the message posted differs from the intended one, and both are produced without error. |
| TicketListener.TicketChanged | slack_notification/__init__.py:99-133 | Defines `ticket_changed` with the corrected `notify` (see "## Findings"). |
| TicketListener.TicketChangedFails | slack_notification/__init__.py:99-133 | For the corrected `notify`: a change raises exactly when the ticket lacks a status or an owner. |
| TicketListener.TicketChangedText | slack_notification/__init__.py:99-133 | For the corrected `notify`: a change's message is ":icon: " + owner clause + status clause + " <url\|#id> " + action + " by @" + cleaned author. A ": " and the comment's first non-blank line follow when there is one. |
| TicketListener.TicketChangedIgnoresFields | slack_notification/__init__.py:118-133 | For the corrected `notify`: the `fields` option never changes a change message. |

## Left out

- The HTTP POST of the message, its JSON payload and the `True`/`False` result
  (slack_notification/__init__.py:72-82) are network I/O. The model ends at the
  stripped text.
- The channel, username and webhook options (slack_notification/__init__.py:41-47)
  only reach the POST. The `fields` option is a parameter, and its default is
  `TicketListener.DefaultFields`.
- `values['project']` (slack_notification/__init__.py:18) comes from the host's
  environment. No template names it, and `SlackMessages.NotifyAsWrittenReadsOnly`
  shows that the message does not depend on it.
- Storing `old_values` in the values (slack_notification/__init__.py:112) puts a
  dictionary among strings. No template names it, and by
  `NotifyAsWrittenReadsOnly` it does not affect the message.
- `ticket_deleted` does nothing, and the wiki hooks are commented out
  (slack_notification/__init__.py:135-141).
- The Trac component machinery and `abs_href` are host objects. The URL is a
  plain input.
- UTF-8 encoding and `unicode()` are not modelled: strings are sequences of code
  points. The one effect that matters is modelled: the final `strip()` runs on
  bytes, so it strips ASCII whitespace only.
- Ticket field values and the author are strings. A `None` author becomes "" as
  `author or ''` gives. Non-string field values are not modelled.
- `%`-formatting covers `%%` and `%(key)s`. Every other conversion is reported
  as a `ValueError`, and the plugin's templates use none.
- SlackMessages.CreatedLinkLeaks: requires that the URL not begin with "%". A URL
  that does could make the two messages coincide, so the lemma claims nothing
  about it.
- SlackMessages.ChangedLinkLeaks: requires that the URL not begin with "%", for
  the same reason. For a ticket event the id is "#<id>", and
  `TicketListener.TicketCreatedLeaks` and `TicketChangedLeaks` need no such
  restriction.

## Findings

| source | as written | input that shows it | evidently intended | confidence | as-written member | corrected member |
|---|---|---|---|---|---|---|
| slack_notification/__init__.py:62-71 | `values['ticket_link']` is itself a `%(...)s` template. `template % values` substitutes it in one pass, so the link reaches the message unexpanded, as "<%(url)s\|%(id)s>" or "<%(url)s\|%(type)s %(id)s %(summary)s>". | Any ticket event with the keys `notify` reads, such as action "changed", url "http://t/1", id "#1". | The link shows the ticket's URL and id: "<http://t/1\|#1>". | not executed | SlackPlugin.NotifyAsWritten, TicketListener.TicketCreatedAsWritten and TicketListener.TicketChangedAsWritten, with SlackMessages.CreatedLinkLeaks, SlackMessages.ChangedLinkLeaks, TicketListener.TicketCreatedLeaks and TicketListener.TicketChangedLeaks | SlackPlugin.Notify, TicketListener.TicketCreated and TicketListener.TicketChanged, with SlackMessages.NotifyCreatedText, SlackMessages.NotifyChangedText, TicketListener.TicketCreatedText and TicketListener.TicketChangedText |
