/**
 The two ticket events the plugin listens to. A creation and a change each build
 a dictionary of values from the ticket -- the action, the author, the first
 line of the comment, and listings of configured fields -- and hand it to
 `notify`. Each handler is modelled twice, as `notify` is: `TicketCreatedAsWritten`
 and `TicketChangedAsWritten` hand the dictionary to the source's own `notify`,
 and yield the message it posts, with the link template left as literal text,
 or the exception that stops it; `TicketCreated` and `TicketChanged` hand it to
 the corrected `notify`, which shows the ticket's link.
 */
module TicketListener {
  import opened PyCore
  import opened PyStr
  import opened PyFormat
  import opened SlackNotification
  import opened SlackTemplates
  import opened SlackDecor
  import opened SlackPlugin
  import opened SlackMessages

  /** The `fields` option's default: the fields listed in a notification. */
  const DefaultFields: string := "type,component,resolution"

  /** The field names of a `fields` option: split at every comma, nothing stripped. */
  function FieldNames(option: string): (names: seq<string>)
    ensures |names| >= 1
    ensures forall i :: 0 <= i < |names| ==> ',' !in names[i]
    ensures Join(names, ",") == option
  {
    JoinSplit(option, ',');
    Split(option, ',')
  }

  // ---------------------------------------------------------------------------
  // The action of a change

  /** `ticket_changed`'s action: "moved to <status>" when the status changed, else "changed". */
  function ChangedAction(current: map<string, string>, previous: map<string, string>): string {
    if "status" in current && "status" in previous && current["status"] != previous["status"] then
      "moved to " + current["status"]
    else
      "changed"
  }

  /** A change moves the ticket exactly when both the ticket and the previous values
      have a status and they differ; a status missing on either side (the `KeyError`
      the source catches) is no move. */
  lemma ChangedActionMoves(current: map<string, string>, previous: map<string, string>)
    ensures var a := ChangedAction(current, previous);
      && (a != "changed" <==> "status" in current && "status" in previous && current["status"] != previous["status"])
      && (a != "changed" ==> "status" in current && a == "moved to " + current["status"])
  {
  }

  /** A change is never announced as a creation. */
  lemma ChangedActionNotCreation(current: map<string, string>, previous: map<string, string>)
    ensures ChangedAction(current, previous) != "created"
  {
    var a := ChangedAction(current, previous);
    if a != "changed" {
      assert a[0] == 'm';
    }
  }

  /** A plain change has the pencil icon; a move has the default icon. */
  lemma ChangedActionIcon(current: map<string, string>, previous: map<string, string>)
    ensures var a := ChangedAction(current, previous);
      Emoji(a) == if a == "changed" then "pencil2" else DefaultEmoji
  {
    var a := ChangedAction(current, previous);
    if a != "changed" {
      MovedActionEmoji(current["status"]);
    }
  }

  /** A move always shows the new status: "moved to <s>" is never the status <s> itself. */
  lemma MovedShowsStatus(current: map<string, string>, previous: map<string, string>)
    requires "status" in current
    ensures var a := ChangedAction(current, previous);
      a != "changed" ==> MaybeStatus(a, current["status"]) == current["status"] + " "
  {
    var a := ChangedAction(current, previous);
    if a != "changed" {
      assert |a| > |current["status"]|;
    }
  }

  // ---------------------------------------------------------------------------
  // The comment

  /** The position of the first line that is not all whitespace, or the number of
      lines when there is none. */
  function FirstNonBlankIndex(lines: seq<string>): (k: nat)
    ensures k <= |lines|
    ensures forall j :: 0 <= j < k ==> AllSatisfy(lines[j], IsUnicodeSpace)
    ensures k < |lines| ==> !AllSatisfy(lines[k], IsUnicodeSpace)
    decreases |lines|
  {
    if lines == [] then 0
    else if !AllSatisfy(lines[0], IsUnicodeSpace) then 0
    else 1 + FirstNonBlankIndex(lines[1..])
  }

  /** `next(iter(filter(bool, map(string.strip, lines))), '')`: the first line that is
      not blank, stripped, or "" when there is none. */
  function FirstNonBlank(lines: seq<string>): (r: string)
    ensures r == [] <==> AllBlank(lines, IsUnicodeSpace)
    ensures r != [] ==> !IsUnicodeSpace(r[0]) && !IsUnicodeSpace(r[|r| - 1])
  {
    var k := FirstNonBlankIndex(lines);
    if k == |lines| then "" else Strip(lines[k], IsUnicodeSpace)
  }

  /** The comment of a change message: its first non-blank line, stripped and cut to
      100 characters. */
  function ExtractComment(comment: string): (r: string)
    ensures |r| <= 100
  {
    Truncate(FirstNonBlank(SplitLines(comment)), 100)
  }

  /** A change message carries a comment exactly when the comment is not all whitespace. */
  lemma ExtractCommentBlank(comment: string)
    ensures ExtractComment(comment) == "" <==> AllSatisfy(comment, IsUnicodeSpace)
  {
    SplitLinesBlank(comment);
  }

  /** A first line of at most 100 characters is kept whole; a longer one is cut to 100
      characters ending in the continuation marker. */
  lemma ExtractCommentLength(comment: string)
    ensures var line := FirstNonBlank(SplitLines(comment));
      && (|line| <= 100 ==> ExtractComment(comment) == line)
      && (|line| > 100 ==>
            |ExtractComment(comment)| == 100
            && ExtractComment(comment)[100 - |Cont|..] == Cont
            && ExtractComment(comment)[..100 - |Cont|] <= line)
  {
  }

  // ---------------------------------------------------------------------------
  // Field listings

  /** `ticket[field]`: the field's value, or `None` when the ticket has no such field. */
  function FieldValue(t: Ticket, field: string): Option<string> {
    if field in t.values then Some(t.values[field]) else None
  }

  /** A value as `%s` writes it: `None` is written "None". */
  function Show(value: Option<string>): string {
    match value
    case None => "None"
    case Some(s) => s
  }

  /** A field is listed unless its value is the empty string; a missing field is listed as "None". */
  predicate Listed(t: Ticket, field: string) {
    FieldValue(t, field) != Some("")
  }

  /** One line of the field listing. */
  function AttribLine(t: Ticket, field: string): string {
    "  * " + field + ": " + Show(FieldValue(t, field))
  }

  /** One line of the change listing: the previous value and the new. */
  function ChangeLine(t: Ticket, previous: map<string, string>, field: string): string
    requires field in previous
  {
    "  * " + field + ": " + previous[field] + " => " + Show(FieldValue(t, field))
  }

  /** The field listing: a line for each listed field, in the order the fields are named. */
  function AttribLines(t: Ticket, fields: seq<string>): (lines: seq<string>)
    ensures |lines| <= |fields|
    decreases |fields|
  {
    if fields == [] then []
    else
      var rest := AttribLines(t, fields[1..]);
      if Listed(t, fields[0]) then [AttribLine(t, fields[0])] + rest else rest
  }

  /** The change listing: a line for each named field that has a previous value, in order. */
  function ChangeLines(t: Ticket, previous: map<string, string>, fields: seq<string>): (lines: seq<string>)
    ensures |lines| <= |fields|
    decreases |fields|
  {
    if fields == [] then []
    else
      var rest := ChangeLines(t, previous, fields[1..]);
      if fields[0] in previous then [ChangeLine(t, previous, fields[0])] + rest else rest
  }

  /** Whether `line` is the listing line of one of the listed fields. */
  predicate IsAttribLine(t: Ticket, fields: seq<string>, line: string) {
    exists f :: f in fields && Listed(t, f) && line == AttribLine(t, f)
  }

  /** Every line of the field listing is the line of a listed field. */
  lemma {:induction false} AttribLinesSound(t: Ticket, fields: seq<string>)
    ensures forall i :: 0 <= i < |AttribLines(t, fields)| ==> IsAttribLine(t, fields, AttribLines(t, fields)[i])
    decreases |fields|
  {
    if fields != [] {
      var lines := AttribLines(t, fields);
      var rest := AttribLines(t, fields[1..]);
      AttribLinesSound(t, fields[1..]);
      assert lines == if Listed(t, fields[0]) then [AttribLine(t, fields[0])] + rest else rest;
      forall i | 0 <= i < |lines| ensures IsAttribLine(t, fields, lines[i]) {
        if Listed(t, fields[0]) && i == 0 {
          assert fields[0] in fields && lines[i] == AttribLine(t, fields[0]);
        } else {
          var j := if Listed(t, fields[0]) then i - 1 else i;
          assert lines[i] == rest[j];
          assert IsAttribLine(t, fields[1..], rest[j]);
          var f :| f in fields[1..] && Listed(t, f) && rest[j] == AttribLine(t, f);
          assert f in fields;
        }
      }
    }
  }

  /** Every listed field has its line in the field listing. */
  lemma {:induction false} AttribLinesComplete(t: Ticket, fields: seq<string>, f: string)
    requires f in fields && Listed(t, f)
    ensures AttribLine(t, f) in AttribLines(t, fields)
    decreases |fields|
  {
    if f != fields[0] {
      assert f in fields[1..];
      AttribLinesComplete(t, fields[1..], f);
    }
  }

  /** The field listing is empty exactly when no named field is listed. */
  lemma AttribLinesEmpty(t: Ticket, fields: seq<string>)
    ensures AttribLines(t, fields) == [] <==> forall f :: f in fields ==> !Listed(t, f)
  {
    AttribLinesSound(t, fields);
    if AttribLines(t, fields) == [] {
      forall f | f in fields ensures !Listed(t, f) {
        if Listed(t, f) {
          AttribLinesComplete(t, fields, f);
        }
      }
    }
  }

  /** Whether `line` is the change line of one of the fields with a previous value. */
  predicate IsChangeLine(t: Ticket, previous: map<string, string>, fields: seq<string>, line: string) {
    exists f :: f in fields && f in previous && line == ChangeLine(t, previous, f)
  }

  /** Every line of the change listing is the line of a field with a previous value. */
  lemma {:induction false} ChangeLinesSound(t: Ticket, previous: map<string, string>, fields: seq<string>)
    ensures forall i :: 0 <= i < |ChangeLines(t, previous, fields)| ==>
      IsChangeLine(t, previous, fields, ChangeLines(t, previous, fields)[i])
    decreases |fields|
  {
    if fields != [] {
      var lines := ChangeLines(t, previous, fields);
      var rest := ChangeLines(t, previous, fields[1..]);
      ChangeLinesSound(t, previous, fields[1..]);
      assert lines == if fields[0] in previous then [ChangeLine(t, previous, fields[0])] + rest else rest;
      forall i | 0 <= i < |lines| ensures IsChangeLine(t, previous, fields, lines[i]) {
        if fields[0] in previous && i == 0 {
          assert fields[0] in fields && lines[i] == ChangeLine(t, previous, fields[0]);
        } else {
          var j := if fields[0] in previous then i - 1 else i;
          assert lines[i] == rest[j];
          assert IsChangeLine(t, previous, fields[1..], rest[j]);
          var f :| f in fields[1..] && f in previous && rest[j] == ChangeLine(t, previous, f);
          assert f in fields;
        }
      }
    }
  }

  /** Every named field with a previous value has its line in the change listing. */
  lemma {:induction false} ChangeLinesComplete(t: Ticket, previous: map<string, string>, fields: seq<string>, f: string)
    requires f in fields && f in previous
    ensures ChangeLine(t, previous, f) in ChangeLines(t, previous, fields)
    decreases |fields|
  {
    if f != fields[0] {
      assert f in fields[1..];
      ChangeLinesComplete(t, previous, fields[1..], f);
    }
  }

  /** The change listing is empty exactly when no named field has a previous value. */
  lemma ChangeLinesEmpty(t: Ticket, previous: map<string, string>, fields: seq<string>)
    ensures ChangeLines(t, previous, fields) == [] <==> forall f :: f in fields ==> f !in previous
  {
    ChangeLinesSound(t, previous, fields);
    if ChangeLines(t, previous, fields) == [] {
      forall f | f in fields ensures f !in previous {
        if f in previous {
          ChangeLinesComplete(t, previous, fields, f);
        }
      }
    }
  }

  /** The listings follow the order of the fields: listing two lists of fields one after
      the other lists their concatenation. */
  lemma {:induction false} AttribLinesAppend(t: Ticket, a: seq<string>, b: seq<string>)
    ensures AttribLines(t, a + b) == AttribLines(t, a) + AttribLines(t, b)
    decreases |a|
  {
    if a == [] {
      assert a + b == b;
    } else {
      assert (a + b)[0] == a[0] && (a + b)[1..] == a[1..] + b;
      AttribLinesAppend(t, a[1..], b);
    }
  }

  lemma {:induction false} ChangeLinesAppend(t: Ticket, previous: map<string, string>, a: seq<string>, b: seq<string>)
    ensures ChangeLines(t, previous, a + b) == ChangeLines(t, previous, a) + ChangeLines(t, previous, b)
    decreases |a|
  {
    if a == [] {
      assert a + b == b;
    } else {
      assert (a + b)[0] == a[0] && (a + b)[1..] == a[1..] + b;
      ChangeLinesAppend(t, previous, a[1..], b);
    }
  }

  /** Lines joined with newlines; `or ''` changes nothing, as the join of no lines is "". */
  function Listing(lines: seq<string>): string {
    Join(lines, "\n")
  }

  /** A listing of non-empty lines is empty exactly when there are no lines. */
  lemma ListingEmpty(lines: seq<string>)
    requires forall i :: 0 <= i < |lines| ==> lines[i] != []
    ensures Listing(lines) == "" <==> lines == []
  {
    if |lines| > 1 {
      assert Listing(lines) == lines[0] + "\n" + Join(lines[1..], "\n");
    }
  }

  // ---------------------------------------------------------------------------
  // Creation

  /** The ticket fields a creation message needs. */
  const CreatedNeeds: set<string> := {"reporter", "status", "owner", "type", "summary"}

  /** The entries a creation sets over the ticket's values. */
  const CreatedKeys: set<string> := PreparedKeys + {"author", "comment"}

  /** The ticket fields a message shows are never among the entries a creation sets. */
  lemma CreatedShownUntouched()
    ensures "status" !in CreatedKeys && "owner" !in CreatedKeys && "type" !in CreatedKeys && "summary" !in CreatedKeys
  {
  }

  /** The dictionary of a creation, given the reporter and the field listing. */
  function CreatedMap(t: Ticket, reporter: string, attrib: string): (v: map<string, string>)
    ensures v.Keys == t.values.Keys + CreatedKeys
    ensures && v["action"] == "created" && v["id"] == TicketId(t.id) && v["url"] == t.url
            && v["author"] == reporter && v["comment"] == "" && v["attrib"] == attrib
  {
    PrepareTicketValues(t, "created")["author" := reporter]["comment" := ""]["attrib" := attrib]
  }

  /** Every entry a creation does not set is the ticket's own. */
  lemma CreatedMapKeep(t: Ticket, reporter: string, attrib: string, k: string)
    requires k !in CreatedKeys
    ensures k in CreatedMap(t, reporter, attrib) <==> k in t.values
    ensures k in t.values ==> CreatedMap(t, reporter, attrib)[k] == t.values[k]
  {
  }

  /** The shown fields of a creation are the ticket's own. */
  lemma CreatedMapShown(t: Ticket, reporter: string, attrib: string)
    ensures var v := CreatedMap(t, reporter, attrib);
      && ("status" in v <==> "status" in t.values) && ("owner" in v <==> "owner" in t.values)
      && ("type" in v <==> "type" in t.values) && ("summary" in v <==> "summary" in t.values)
      && ("type" in t.values ==> v["type"] == t.values["type"])
      && ("summary" in t.values ==> v["summary"] == t.values["summary"])
  {
    CreatedShownUntouched();
    CreatedMapKeep(t, reporter, attrib, "status");
    CreatedMapKeep(t, reporter, attrib, "owner");
    CreatedMapKeep(t, reporter, attrib, "type");
    CreatedMapKeep(t, reporter, attrib, "summary");
  }

  /** A creation's dictionary has every key `Notify` needs exactly when the ticket has
      the fields the message shows. */
  lemma CreatedMapReady(t: Ticket, reporter: string, attrib: string)
    ensures NotifyReady(CreatedMap(t, reporter, attrib)) <==> CreatedNeeds - {"reporter"} <= t.values.Keys
  {
    CreatedMapShown(t, reporter, attrib);
  }

  /** A creation's dictionary has every key the source's own `notify` reads exactly
      when the ticket has a status and an owner. */
  lemma CreatedMapReadyAsWritten(t: Ticket, reporter: string, attrib: string)
    ensures NotifyAsWrittenReady(CreatedMap(t, reporter, attrib)) <==> {"status", "owner"} <= t.values.Keys
  {
    CreatedMapShown(t, reporter, attrib);
  }

  /** Two creations that differ only in the field listing agree on every key a message reads. */
  lemma CreatedMapAgree(t: Ticket, reporter: string, attrib: string, other: string)
    ensures AgreeOn(CreatedMap(t, reporter, attrib), CreatedMap(t, reporter, other), MessageKeys)
  {
    assert "attrib" !in MessageKeys;
  }

  /** The values of a creation: the ticket's values with the event's entries, the
      reporter as the author, no comment and the field listing. The reporter is read
      from the prepared copy, where it is the ticket's own. */
  function CreatedValues(t: Ticket, option: string): (r: Result<map<string, string>>)
    ensures r.Ok? <==> "reporter" in t.values
    ensures r.Err? ==> r.error == KeyError("reporter")
  {
    if "reporter" !in t.values then Err(KeyError("reporter"))
    else Ok(CreatedMap(t, t.values["reporter"], Listing(AttribLines(t, FieldNames(option)))))
  }

  /** The ticket fields a creation needs with the source's own `notify`. */
  const CreatedAsWrittenNeeds: set<string> := {"reporter", "status", "owner"}

  /** `ticket_created` as the source writes it: the message the source's own `notify`
      posts for a new ticket, or the exception that stops it. */
  function TicketCreatedAsWritten(t: Ticket, option: string): Result<string> {
    match CreatedValues(t, option)
    case Err(e) => Err(e)
    case Ok(v) => NotifyAsWritten(v)
  }

  /** As written, a creation is reported exactly when the ticket has a reporter, a
      status and an owner; the type and the summary are never read. The reporter is
      looked up first, then the status, then the owner. */
  lemma TicketCreatedAsWrittenFails(t: Ticket, option: string)
    ensures TicketCreatedAsWritten(t, option).Err? <==> !(CreatedAsWrittenNeeds <= t.values.Keys)
    ensures "reporter" !in t.values ==> TicketCreatedAsWritten(t, option) == Err(KeyError("reporter"))
    ensures "reporter" in t.values && "status" !in t.values ==> TicketCreatedAsWritten(t, option) == Err(KeyError("status"))
    ensures "reporter" in t.values && "status" in t.values && "owner" !in t.values ==>
      TicketCreatedAsWritten(t, option) == Err(KeyError("owner"))
  {
    if "reporter" in t.values {
      var v := CreatedValues(t, option).value;
      CreatedMapShown(t, t.values["reporter"], Listing(AttribLines(t, FieldNames(option))));
      CreatedMapReadyAsWritten(t, t.values["reporter"], Listing(AttribLines(t, FieldNames(option))));
      NotifyAsWrittenFails(v);
    }
  }

  /** As written, the message for a new ticket is the pushpin, the creation link
      template as literal text, and the cleaned reporter. */
  lemma TicketCreatedAsWrittenText(t: Ticket, option: string)
    requires CreatedAsWrittenNeeds <= t.values.Keys
    ensures TicketCreatedAsWritten(t, option)
         == Ok(":" + "pushpin" + ": " + CreatedLinkTemplate + " created by @" + TrimRight(CleanAuthor(t.values["reporter"]), IsAsciiSpace))
  {
    var v := CreatedValues(t, option).value;
    CreatedMapShown(t, t.values["reporter"], Listing(AttribLines(t, FieldNames(option))));
    NotifyAsWrittenCreatedText(v);
  }

  /** As written, the `fields` option never changes a creation message. */
  lemma TicketCreatedAsWrittenIgnoresFields(t: Ticket, option: string, other: string)
    ensures TicketCreatedAsWritten(t, option) == TicketCreatedAsWritten(t, other)
  {
    if "reporter" in t.values {
      CreatedMapAgree(t, t.values["reporter"], Listing(AttribLines(t, FieldNames(option))),
                      Listing(AttribLines(t, FieldNames(other))));
      NotifyAsWrittenReadsOnly(CreatedValues(t, option).value, CreatedValues(t, other).value);
    }
  }

  /** `ticket_created` with the corrected `notify`: the message for a new ticket, or
      the exception that stops it. */
  function TicketCreated(t: Ticket, option: string): Result<string> {
    match CreatedValues(t, option)
    case Err(e) => Err(e)
    case Ok(v) => Notify(v)
  }

  /** A creation is reported exactly when the ticket has the fields the message needs;
      a missing reporter is the first exception raised. */
  lemma TicketCreatedFails(t: Ticket, option: string)
    ensures TicketCreated(t, option).Err? <==> !(CreatedNeeds <= t.values.Keys)
    ensures "reporter" !in t.values ==> TicketCreated(t, option) == Err(KeyError("reporter"))
  {
    if "reporter" in t.values {
      var v := CreatedValues(t, option).value;
      CreatedMapReady(t, t.values["reporter"], Listing(AttribLines(t, FieldNames(option))));
      NotifyFails(v);
    }
  }

  /** The link of a new ticket in a message: its URL, type, "#<id>" and summary. */
  function TicketLinkCreated(t: Ticket): string
    requires "type" in t.values && "summary" in t.values
  {
    "<" + t.url + "|" + t.values["type"] + " " + TicketId(t.id) + " " + t.values["summary"] + ">"
  }

  /** The link of a new ticket is the creation link of its dictionary. */
  lemma CreatedMapLink(t: Ticket, reporter: string, attrib: string)
    requires CreatedNeeds - {"reporter"} <= t.values.Keys
    ensures var v := CreatedMap(t, reporter, attrib);
      && DecoratedKeys + {"url", "type", "id", "summary"} <= v.Keys
      && CreatedLinkText(v) == TicketLinkCreated(t)
  {
    CreatedMapShown(t, reporter, attrib);
  }

  /** The message for a new ticket: the pushpin, the ticket's link and the cleaned reporter. */
  lemma TicketCreatedText(t: Ticket, option: string)
    requires CreatedNeeds <= t.values.Keys
    ensures TicketCreated(t, option)
         == Ok(":" + "pushpin" + ": " + TicketLinkCreated(t) + " created by @" + TrimRight(CleanAuthor(t.values["reporter"]), IsAsciiSpace))
  {
    var v := CreatedValues(t, option).value;
    CreatedMapLink(t, t.values["reporter"], Listing(AttribLines(t, FieldNames(option))));
    NotifyCreatedText(v);
  }

  /** Two texts that share a prefix and a suffix differ when their middles do: here
      one middle holds a "#" and the other does not. */
  lemma MiddlesDiffer(p: string, a: string, b: string, q: string)
    requires '#' !in a && '#' in b
    ensures p + a + q != p + b + q
  {
    MiddleOf(p, a, q);
    MiddleOf(p, b, q);
  }

  /** The middle of a three-part text is found again by slicing. */
  lemma MiddleOf(p: string, m: string, q: string)
    ensures (p + m + q)[|p|..|p| + |m|] == m
  {
  }

  /** A creation message with a link that holds "#" differs from one with a link
      that does not. */
  lemma CreatedMessagesDiffer(head: string, link: string, other: string, tail: string, author: string)
    requires '#' !in link && '#' in other
    ensures head + link + tail + author != head + other + tail + author
  {
    assert head + link + tail + author == head + link + (tail + author);
    assert head + other + tail + author == head + other + (tail + author);
    MiddlesDiffer(head, link, other, tail + author);
  }

  /** A change message with a link that holds "#" differs from one with a link that
      does not. */
  lemma ChangedMessagesDiffer(head: string, link: string, other: string, action: string, author: string)
    requires '#' !in link && '#' in other
    ensures head + link + " " + action + " by @" + author != head + other + " " + action + " by @" + author
  {
    var tail := " " + action + " by @" + author;
    assert head + link + " " + action + " by @" + author == head + link + tail;
    assert head + other + " " + action + " by @" + author == head + other + tail;
    MiddlesDiffer(head, link, other, tail);
  }

  /** A ticket's links hold its "#<id>". */
  lemma TicketLinksHash(t: Ticket)
    ensures "type" in t.values && "summary" in t.values ==> '#' in TicketLinkCreated(t)
    ensures '#' in TicketLinkChanged(t)
  {
    var id := TicketId(t.id);
    assert id[0] == '#';
    if "type" in t.values && "summary" in t.values {
      assert TicketLinkCreated(t) == "<" + t.url + "|" + t.values["type"] + " " + id + (" " + t.values["summary"] + ">");
    }
    assert TicketLinkChanged(t) == "<" + t.url + "|" + id + ">";
  }

  /** For every new ticket, the source posts a message other than the intended one:
      the intended link holds the ticket's "#<id>", the literal template no "#". */
  lemma TicketCreatedLeaks(t: Ticket, option: string)
    requires CreatedNeeds <= t.values.Keys
    ensures TicketCreatedAsWritten(t, option).Ok? && TicketCreated(t, option).Ok?
    ensures TicketCreatedAsWritten(t, option) != TicketCreated(t, option)
  {
    TicketCreatedAsWrittenText(t, option);
    TicketCreatedText(t, option);
    LinkTemplatesNoHash();
    TicketLinksHash(t);
    CreatedMessagesDiffer(":" + "pushpin" + ": ", CreatedLinkTemplate, TicketLinkCreated(t),
                          " created by @", TrimRight(CleanAuthor(t.values["reporter"]), IsAsciiSpace));
  }

  /** The field listing never reaches the message: the `fields` option does not change it. */
  lemma TicketCreatedIgnoresFields(t: Ticket, option: string, other: string)
    ensures TicketCreated(t, option) == TicketCreated(t, other)
  {
    if "reporter" in t.values {
      CreatedMapAgree(t, t.values["reporter"], Listing(AttribLines(t, FieldNames(option))),
                      Listing(AttribLines(t, FieldNames(other))));
      NotifyReadsOnly(CreatedValues(t, option).value, CreatedValues(t, other).value);
    }
  }

  // ---------------------------------------------------------------------------
  // Change

  /** `author or ''`. */
  function AuthorOrEmpty(author: Option<string>): string {
    match author
    case None => ""
    case Some(a) => a
  }

  /** The ticket fields a change message needs. */
  const ChangedNeeds: set<string> := {"status", "owner"}

  /** The entries a change sets over the ticket's values. */
  const ChangedKeys: set<string> := PreparedKeys + {"author", "comment", "description"}

  /** The ticket fields a message shows are never among the entries a change sets. */
  lemma ChangedShownUntouched()
    ensures "status" !in ChangedKeys && "owner" !in ChangedKeys
  {
  }

  /** The dictionary of a change, given its action, comment and author, whether the
      description is defaulted, and the two listings. */
  function ChangedMap(t: Ticket, action: string, comment: string, author: string, blankDescription: bool,
                      attrib: string, changes: string): (v: map<string, string>)
    ensures v.Keys == t.values.Keys + PreparedKeys + {"author", "comment"} + (if blankDescription then {"description"} else {})
    ensures && v["action"] == action && v["id"] == TicketId(t.id) && v["url"] == t.url
            && v["author"] == author && v["comment"] == comment
            && v["attrib"] == attrib && v["changes"] == changes
    ensures blankDescription ==> v["description"] == ""
  {
    var values := PrepareTicketValues(t, action)["comment" := comment]["author" := author];
    var values := if blankDescription then values["description" := ""] else values;
    values["attrib" := attrib]["changes" := changes]
  }

  /** Every entry a change does not set is the ticket's own. */
  lemma ChangedMapKeep(t: Ticket, action: string, comment: string, author: string, blankDescription: bool,
                       attrib: string, changes: string, k: string)
    requires k !in ChangedKeys
    ensures k in ChangedMap(t, action, comment, author, blankDescription, attrib, changes) <==> k in t.values
    ensures k in t.values ==> ChangedMap(t, action, comment, author, blankDescription, attrib, changes)[k] == t.values[k]
  {
  }

  /** The shown fields of a change are the ticket's own. */
  lemma ChangedMapShown(t: Ticket, action: string, comment: string, author: string, blankDescription: bool,
                        attrib: string, changes: string)
    ensures var v := ChangedMap(t, action, comment, author, blankDescription, attrib, changes);
      && ("status" in v <==> "status" in t.values) && ("owner" in v <==> "owner" in t.values)
      && ("status" in t.values ==> v["status"] == t.values["status"])
      && ("owner" in t.values ==> v["owner"] == t.values["owner"])
  {
    ChangedShownUntouched();
    ChangedMapKeep(t, action, comment, author, blankDescription, attrib, changes, "status");
    ChangedMapKeep(t, action, comment, author, blankDescription, attrib, changes, "owner");
  }

  /** A change's dictionary has every key either `notify` needs exactly when the
      ticket has a status and an owner. */
  lemma ChangedMapReady(t: Ticket, action: string, comment: string, author: string, blankDescription: bool,
                        attrib: string, changes: string)
    requires action != "created"
    ensures NotifyReady(ChangedMap(t, action, comment, author, blankDescription, attrib, changes))
        <==> ChangedNeeds <= t.values.Keys
    ensures NotifyAsWrittenReady(ChangedMap(t, action, comment, author, blankDescription, attrib, changes))
        <==> ChangedNeeds <= t.values.Keys
  {
    ChangedMapShown(t, action, comment, author, blankDescription, attrib, changes);
  }

  /** Two changes that differ only in the listings agree on every key a message reads. */
  lemma ChangedMapAgree(t: Ticket, action: string, comment: string, author: string, blankDescription: bool,
                        attrib: string, changes: string, attrib': string, changes': string)
    ensures AgreeOn(ChangedMap(t, action, comment, author, blankDescription, attrib, changes),
                    ChangedMap(t, action, comment, author, blankDescription, attrib', changes'), MessageKeys)
  {
    assert "attrib" !in MessageKeys && "changes" !in MessageKeys;
  }

  /** The values of a change: the ticket's values with the event's entries, the first
      line of the comment, the author, an empty description when the previous values
      have none, and the field and change listings. */
  function ChangedValues(t: Ticket, option: string, comment: string, author: Option<string>,
                         previous: map<string, string>): map<string, string>
  {
    var fields := FieldNames(option);
    ChangedMap(t, ChangedAction(t.values, previous), ExtractComment(comment), AuthorOrEmpty(author),
               "description" !in previous, Listing(AttribLines(t, fields)), Listing(ChangeLines(t, previous, fields)))
  }

  /** `ticket_changed` as the source writes it: the message the source's own `notify`
      posts for a change, or the exception that stops it. */
  function TicketChangedAsWritten(t: Ticket, option: string, comment: string, author: Option<string>,
                                  previous: map<string, string>): Result<string> {
    NotifyAsWritten(ChangedValues(t, option, comment, author, previous))
  }

  /** As written, a change is reported exactly when the ticket has a status and an
      owner; a missing status is raised before a missing owner. */
  lemma TicketChangedAsWrittenFails(t: Ticket, option: string, comment: string, author: Option<string>,
                                    previous: map<string, string>)
    ensures TicketChangedAsWritten(t, option, comment, author, previous).Err? <==> !(ChangedNeeds <= t.values.Keys)
    ensures "status" !in t.values ==> TicketChangedAsWritten(t, option, comment, author, previous) == Err(KeyError("status"))
    ensures "status" in t.values && "owner" !in t.values ==>
      TicketChangedAsWritten(t, option, comment, author, previous) == Err(KeyError("owner"))
  {
    var fields := FieldNames(option);
    ChangedActionNotCreation(t.values, previous);
    ChangedMapShown(t, ChangedAction(t.values, previous), ExtractComment(comment), AuthorOrEmpty(author),
                    "description" !in previous, Listing(AttribLines(t, fields)), Listing(ChangeLines(t, previous, fields)));
    ChangedMapReady(t, ChangedAction(t.values, previous), ExtractComment(comment), AuthorOrEmpty(author),
                    "description" !in previous, Listing(AttribLines(t, fields)), Listing(ChangeLines(t, previous, fields)));
    NotifyAsWrittenFails(ChangedValues(t, option, comment, author, previous));
  }

  /** As written, the message for a change is the icon, the owner and status clauses,
      the change link template as literal text, the action, the cleaned author and
      the first line of the comment. */
  lemma TicketChangedAsWrittenText(t: Ticket, option: string, comment: string, author: Option<string>,
                                   previous: map<string, string>)
    requires ChangedNeeds <= t.values.Keys
    ensures var a := ChangedAction(t.values, previous);
      TicketChangedAsWritten(t, option, comment, author, previous) == Ok(
      ":" + Emoji(a) + ": " + MaybeOwner(t.values["owner"]) + MaybeStatus(a, t.values["status"]) + " "
        + ChangedLinkTemplate + " " + a + " by @"
        + TrimRight(AuthorAndComment(CleanAuthor(AuthorOrEmpty(author)), ExtractComment(comment)), IsAsciiSpace))
  {
    var fields := FieldNames(option);
    ChangedActionNotCreation(t.values, previous);
    ChangedMapLink(t, ChangedAction(t.values, previous), ExtractComment(comment), AuthorOrEmpty(author),
                   "description" !in previous, Listing(AttribLines(t, fields)), Listing(ChangeLines(t, previous, fields)));
    NotifyAsWrittenChangedText(ChangedValues(t, option, comment, author, previous));
  }

  /** As written, the `fields` option never changes a change message. */
  lemma TicketChangedAsWrittenIgnoresFields(t: Ticket, option: string, other: string, comment: string,
                                            author: Option<string>, previous: map<string, string>)
    ensures TicketChangedAsWritten(t, option, comment, author, previous)
         == TicketChangedAsWritten(t, other, comment, author, previous)
  {
    var f := FieldNames(option);
    var g := FieldNames(other);
    ChangedMapAgree(t, ChangedAction(t.values, previous), ExtractComment(comment), AuthorOrEmpty(author),
                    "description" !in previous,
                    Listing(AttribLines(t, f)), Listing(ChangeLines(t, previous, f)),
                    Listing(AttribLines(t, g)), Listing(ChangeLines(t, previous, g)));
    NotifyAsWrittenReadsOnly(ChangedValues(t, option, comment, author, previous),
                             ChangedValues(t, other, comment, author, previous));
  }

  /** `ticket_changed` with the corrected `notify`: the message for a change, or the
      exception that stops it. */
  function TicketChanged(t: Ticket, option: string, comment: string, author: Option<string>,
                         previous: map<string, string>): Result<string> {
    Notify(ChangedValues(t, option, comment, author, previous))
  }

  /** A change is reported exactly when the ticket has a status and an owner. */
  lemma TicketChangedFails(t: Ticket, option: string, comment: string, author: Option<string>,
                           previous: map<string, string>)
    ensures TicketChanged(t, option, comment, author, previous).Err? <==> !(ChangedNeeds <= t.values.Keys)
  {
    var fields := FieldNames(option);
    ChangedActionNotCreation(t.values, previous);
    ChangedMapReady(t, ChangedAction(t.values, previous), ExtractComment(comment), AuthorOrEmpty(author),
                    "description" !in previous, Listing(AttribLines(t, fields)), Listing(ChangeLines(t, previous, fields)));
    NotifyFails(ChangedValues(t, option, comment, author, previous));
  }

  /** The link of a changed ticket in a message: its URL and "#<id>". */
  function TicketLinkChanged(t: Ticket): string {
    "<" + t.url + "|" + TicketId(t.id) + ">"
  }

  /** The link of a changed ticket is the change link of its dictionary. */
  lemma ChangedMapLink(t: Ticket, action: string, comment: string, author: string, blankDescription: bool,
                       attrib: string, changes: string)
    requires ChangedNeeds <= t.values.Keys
    ensures var v := ChangedMap(t, action, comment, author, blankDescription, attrib, changes);
      && DecoratedKeys + {"url", "id", "comment"} <= v.Keys
      && v["owner"] == t.values["owner"] && v["status"] == t.values["status"]
      && ChangedLinkText(v) == TicketLinkChanged(t)
  {
    ChangedMapShown(t, action, comment, author, blankDescription, attrib, changes);
  }

  /** The message for a change: the icon, the owner and status clauses, the link to the
      ticket, the action, the cleaned author and the first line of the comment. */
  lemma TicketChangedText(t: Ticket, option: string, comment: string, author: Option<string>,
                          previous: map<string, string>)
    requires ChangedNeeds <= t.values.Keys
    ensures var a := ChangedAction(t.values, previous);
      TicketChanged(t, option, comment, author, previous) == Ok(
      ":" + Emoji(a) + ": " + MaybeOwner(t.values["owner"]) + MaybeStatus(a, t.values["status"]) + " "
        + TicketLinkChanged(t) + " " + a + " by @"
        + TrimRight(AuthorAndComment(CleanAuthor(AuthorOrEmpty(author)), ExtractComment(comment)), IsAsciiSpace))
  {
    var fields := FieldNames(option);
    ChangedActionNotCreation(t.values, previous);
    ChangedMapLink(t, ChangedAction(t.values, previous), ExtractComment(comment), AuthorOrEmpty(author),
                   "description" !in previous, Listing(AttribLines(t, fields)), Listing(ChangeLines(t, previous, fields)));
    NotifyChangedText(ChangedValues(t, option, comment, author, previous));
  }

  /** For every change to a ticket, the source posts a message other than the intended
      one, for the same reason. */
  lemma TicketChangedLeaks(t: Ticket, option: string, comment: string, author: Option<string>,
                           previous: map<string, string>)
    requires ChangedNeeds <= t.values.Keys
    ensures TicketChangedAsWritten(t, option, comment, author, previous).Ok?
    ensures TicketChanged(t, option, comment, author, previous).Ok?
    ensures TicketChangedAsWritten(t, option, comment, author, previous) != TicketChanged(t, option, comment, author, previous)
  {
    TicketChangedAsWrittenText(t, option, comment, author, previous);
    TicketChangedText(t, option, comment, author, previous);
    LinkTemplatesNoHash();
    TicketLinksHash(t);
    var a := ChangedAction(t.values, previous);
    ChangedMessagesDiffer(":" + Emoji(a) + ": " + MaybeOwner(t.values["owner"]) + MaybeStatus(a, t.values["status"]) + " ",
                          ChangedLinkTemplate, TicketLinkChanged(t), a,
                          TrimRight(AuthorAndComment(CleanAuthor(AuthorOrEmpty(author)), ExtractComment(comment)), IsAsciiSpace));
  }



  /** The listings never reach the message: the `fields` option does not change it. */
  lemma TicketChangedIgnoresFields(t: Ticket, option: string, other: string, comment: string,
                                   author: Option<string>, previous: map<string, string>)
    ensures TicketChanged(t, option, comment, author, previous) == TicketChanged(t, other, comment, author, previous)
  {
    var f := FieldNames(option);
    var g := FieldNames(other);
    ChangedMapAgree(t, ChangedAction(t.values, previous), ExtractComment(comment), AuthorOrEmpty(author),
                    "description" !in previous,
                    Listing(AttribLines(t, f)), Listing(ChangeLines(t, previous, f)),
                    Listing(AttribLines(t, g)), Listing(ChangeLines(t, previous, g)));
    NotifyReadsOnly(ChangedValues(t, option, comment, author, previous), ChangedValues(t, other, comment, author, previous));
  }
}
