/**
 What `notify` posts: the text of each kind of message, when it raises, and
 which entries it reads. Every statement is made both for the source's own
 `notify` (`NotifyAsWritten`) and for the corrected one (`Notify`) where they
 differ.
 */
module SlackMessages {
  import opened PyCore
  import opened PyStr
  import opened PyFormat
  import opened SlackTemplates
  import opened SlackDecor
  import opened SlackPlugin

  lemma HeadKeepsStrip(head: string, tail: string)
    requires |head| >= 2 && head[0] == ':' && head[|head| - 1] == '@'
    ensures Strip(head + tail, IsAsciiSpace) == head + TrimRight(tail, IsAsciiSpace)
  {
    StripAfterHead(head, tail, IsAsciiSpace);
  }

  /** A creation message is the icon, the link text, "created by @" and the author
      less its trailing whitespace. */
  lemma CreatedMessageText(link: string, v: map<string, string>)
    requires {"emoji", "author"} <= v.Keys
    ensures CreatedMessage(Ok(link), v)
         == Ok(":" + v["emoji"] + ": " + link + " created by @" + TrimRight(v["author"], IsAsciiSpace))
  {
    var w := v["ticket_link" := link];
    CreatedExpands(w);
    HeadKeepsStrip(CreatedHead(w), v["author"]);
  }

  /** Any other message is the icon, the owner and status clauses, a space, the link
      text, the action, "by @" and the author with the comment clause, less trailing
      whitespace. */
  lemma ChangedMessageText(link: string, v: map<string, string>)
    requires {"emoji", "maybe_owner", "maybe_status", "action", "author", "comment"} <= v.Keys
    ensures ChangedMessage(Ok(link), v)
         == Ok(":" + v["emoji"] + ": " + v["maybe_owner"] + v["maybe_status"] + " " + link + " "
               + v["action"] + " by @" + TrimRight(AuthorAndComment(v["author"], v["comment"]), IsAsciiSpace))
  {
    var w := v["ticket_link" := link];
    ChangedExpands(w);
    HeadKeepsStrip(ChangedHead(w), AuthorAndComment(v["author"], v["comment"]));
  }

  /** Decorating keeps every entry it does not write. */
  lemma DecorateKeeps(values: map<string, string>, k: string)
    requires DecoratedKeys <= values.Keys && k !in WrittenKeys
    ensures k in Decorate(values).value <==> k in values
    ensures k in values ==> Decorate(values).value[k] == values[k]
  {
    DecorateEntries(values);
  }

  /** `notify` on a creation, once the keys it reads first are present. */
  lemma NotifyCreated(values: map<string, string>)
    requires DecoratedKeys <= values.Keys && values["action"] == "created"
    ensures Notify(values) == CreatedMessage(Format(CreatedLinkTemplate, Decorate(values).value), Decorate(values).value)
  {
    DecorateAction(values);
  }

  /** `notify` on any other event, once the keys it reads first are present. */
  lemma NotifyChanged(values: map<string, string>)
    requires DecoratedKeys <= values.Keys && values["action"] != "created"
    ensures Notify(values) == ChangedMessage(Format(ChangedLinkTemplate, Decorate(values).value), Decorate(values).value)
  {
    DecorateAction(values);
  }

  lemma NotifyAsWrittenCreated(values: map<string, string>)
    requires DecoratedKeys <= values.Keys && values["action"] == "created"
    ensures NotifyAsWritten(values) == CreatedMessage(Ok(CreatedLinkTemplate), Decorate(values).value)
  {
    DecorateAction(values);
  }

  lemma NotifyAsWrittenChanged(values: map<string, string>)
    requires DecoratedKeys <= values.Keys && values["action"] != "created"
    ensures NotifyAsWritten(values) == ChangedMessage(Ok(ChangedLinkTemplate), Decorate(values).value)
  {
    DecorateAction(values);
  }

  /** The creation link text reads only entries that decorating keeps. */
  lemma DecoratedCreatedLinkText(values: map<string, string>)
    requires DecoratedKeys + {"url", "type", "id", "summary"} <= values.Keys
    ensures {"url", "type", "id", "summary"} <= Decorate(values).value.Keys
    ensures CreatedLinkText(Decorate(values).value) == CreatedLinkText(values)
  {
    DecorateKeeps(values, "url");
    DecorateKeeps(values, "type");
    DecorateKeeps(values, "id");
    DecorateKeeps(values, "summary");
  }

  /** The change link text reads only entries that decorating keeps. */
  lemma DecoratedChangedLinkText(values: map<string, string>)
    requires DecoratedKeys + {"url", "id"} <= values.Keys
    ensures {"url", "id"} <= Decorate(values).value.Keys
    ensures ChangedLinkText(Decorate(values).value) == ChangedLinkText(values)
  {
    DecorateKeeps(values, "url");
    DecorateKeeps(values, "id");
  }

  /** The creation link formatted from the decorated values. */
  lemma DecoratedCreatedLink(values: map<string, string>)
    requires DecoratedKeys + {"url", "type", "id", "summary"} <= values.Keys
    ensures Format(CreatedLinkTemplate, Decorate(values).value) == Ok(CreatedLinkText(values))
  {
    DecoratedCreatedLinkText(values);
    CreatedLinkExpands(Decorate(values).value);
  }

  /** The change link formatted from the decorated values. */
  lemma DecoratedChangedLink(values: map<string, string>)
    requires DecoratedKeys + {"url", "id"} <= values.Keys
    ensures Format(ChangedLinkTemplate, Decorate(values).value) == Ok(ChangedLinkText(values))
  {
    DecoratedChangedLinkText(values);
    ChangedLinkExpands(Decorate(values).value);
  }

  /** A creation event's message is the creation message for its link text. */
  lemma NotifyCreatedLink(values: map<string, string>)
    requires DecoratedKeys + {"url", "type", "id", "summary"} <= values.Keys
    requires values["action"] == "created"
    ensures Notify(values) == CreatedMessage(Ok(CreatedLinkText(values)), Decorate(values).value)
  {
    NotifyCreated(values);
    DecoratedCreatedLink(values);
  }

  /** Any other event's message is the change message for its link text. */
  lemma NotifyChangedLink(values: map<string, string>)
    requires DecoratedKeys + {"url", "id"} <= values.Keys
    requires values["action"] != "created"
    ensures Notify(values) == ChangedMessage(Ok(ChangedLinkText(values)), Decorate(values).value)
  {
    NotifyChanged(values);
    DecoratedChangedLink(values);
  }

  /** The creation message for a link, in terms of the undecorated values: the
      pushpin icon, the link and "created by @" with the cleaned author. */
  lemma DecoratedCreatedMessage(link: string, values: map<string, string>)
    requires DecoratedKeys <= values.Keys && values["action"] == "created"
    ensures CreatedMessage(Ok(link), Decorate(values).value)
         == Ok(":" + "pushpin" + ": " + link + " created by @" + TrimRight(CleanAuthor(values["author"]), IsAsciiSpace))
  {
    DecorateEntries(values);
    CreatedMessageText(link, Decorate(values).value);
  }

  /** The change message for a link, in terms of the undecorated values. */
  lemma DecoratedChangedMessage(link: string, values: map<string, string>)
    requires DecoratedKeys + {"comment"} <= values.Keys
    ensures var a := values["action"];
      ChangedMessage(Ok(link), Decorate(values).value) == Ok(
      ":" + Emoji(a) + ": " + MaybeOwner(values["owner"]) + MaybeStatus(a, values["status"]) + " "
        + link + " " + a + " by @"
        + TrimRight(AuthorAndComment(CleanAuthor(values["author"]), values["comment"]), IsAsciiSpace))
  {
    DecorateEntries(values);
    DecorateKeeps(values, "comment");
    ChangedMessageText(link, Decorate(values).value);
  }

  /** A creation message: icon, a link whose text is type, id and summary, and
      "created by @" followed by the cleaned author less its trailing whitespace. */
  lemma NotifyCreatedText(values: map<string, string>)
    requires DecoratedKeys + {"url", "type", "id", "summary"} <= values.Keys
    requires values["action"] == "created"
    ensures Notify(values)
         == Ok(":" + "pushpin" + ": " + CreatedLinkText(values) + " created by @" + TrimRight(CleanAuthor(values["author"]), IsAsciiSpace))
  {
    NotifyCreatedLink(values);
    DecoratedCreatedMessage(CreatedLinkText(values), values);
  }

  /** Any other event's message: icon, owner and status clauses, a literal space, the
      link "<url|id>", the action, "by @", the cleaned author and, when there is a
      comment, ": " and the comment; trailing whitespace is stripped. */
  lemma NotifyChangedText(values: map<string, string>)
    requires DecoratedKeys + {"url", "id", "comment"} <= values.Keys
    requires values["action"] != "created"
    ensures var a := values["action"];
      Notify(values) == Ok(
      ":" + Emoji(a) + ": " + MaybeOwner(values["owner"]) + MaybeStatus(a, values["status"]) + " "
        + ChangedLinkText(values) + " " + a + " by @"
        + TrimRight(AuthorAndComment(CleanAuthor(values["author"]), values["comment"]), IsAsciiSpace))
  {
    NotifyChangedLink(values);
    DecoratedChangedMessage(ChangedLinkText(values), values);
  }

  /** The source's own `notify` leaves the link's directives in the creation message. */
  lemma NotifyAsWrittenCreatedText(values: map<string, string>)
    requires DecoratedKeys <= values.Keys
    requires values["action"] == "created"
    ensures NotifyAsWritten(values)
         == Ok(":" + "pushpin" + ": " + CreatedLinkTemplate + " created by @" + TrimRight(CleanAuthor(values["author"]), IsAsciiSpace))
  {
    NotifyAsWrittenCreated(values);
    DecoratedCreatedMessage(CreatedLinkTemplate, values);
  }

  /** The source's own `notify` leaves "<%(url)s|%(id)s>" in every other message. */
  lemma NotifyAsWrittenChangedText(values: map<string, string>)
    requires DecoratedKeys + {"comment"} <= values.Keys
    requires values["action"] != "created"
    ensures var a := values["action"];
      NotifyAsWritten(values) == Ok(
      ":" + Emoji(a) + ": " + MaybeOwner(values["owner"]) + MaybeStatus(a, values["status"]) + " "
        + ChangedLinkTemplate + " " + a + " by @"
        + TrimRight(AuthorAndComment(CleanAuthor(values["author"]), values["comment"]), IsAsciiSpace))
  {
    NotifyAsWrittenChanged(values);
    DecoratedChangedMessage(ChangedLinkTemplate, values);
  }

  lemma CreatedMessageDefined(link: Result<string>, v: map<string, string>)
    requires {"emoji", "author"} <= v.Keys
    ensures CreatedMessage(link, v).Ok? <==> link.Ok?
  {
    if link.Ok? {
      CreatedMessageText(link.value, v);
    }
  }

  lemma ChangedMessageDefined(link: Result<string>, v: map<string, string>)
    requires {"emoji", "maybe_owner", "maybe_status", "action", "author"} <= v.Keys
    ensures ChangedMessage(link, v).Ok? <==> link.Ok? && "comment" in v
  {
    if link.Ok? && "comment" in v {
      ChangedMessageText(link.value, v);
    }
  }

  /** Decorating neither adds nor removes the entries of the creation link. */
  lemma DecoratedCreatedLinkKeys(values: map<string, string>)
    requires DecoratedKeys <= values.Keys
    ensures {"url", "type", "id", "summary"} <= Decorate(values).value.Keys
        <==> {"url", "type", "id", "summary"} <= values.Keys
  {
    DecorateKeeps(values, "url");
    DecorateKeeps(values, "type");
    DecorateKeeps(values, "id");
    DecorateKeeps(values, "summary");
  }

  /** Decorating neither adds nor removes the entries of the change link. */
  lemma DecoratedChangedLinkKeys(values: map<string, string>)
    requires DecoratedKeys <= values.Keys
    ensures {"url", "id"} <= Decorate(values).value.Keys <==> {"url", "id"} <= values.Keys
  {
    DecorateKeeps(values, "url");
    DecorateKeeps(values, "id");
  }

  /** The creation link formats exactly when its entries are present. */
  lemma DecoratedCreatedLinkDefined(values: map<string, string>)
    requires DecoratedKeys <= values.Keys
    ensures Format(CreatedLinkTemplate, Decorate(values).value).Ok? <==> {"url", "type", "id", "summary"} <= values.Keys
  {
    CreatedLinkDefined(Decorate(values).value);
    DecoratedCreatedLinkKeys(values);
  }

  /** The change link formats exactly when its entries are present. */
  lemma DecoratedChangedLinkDefined(values: map<string, string>)
    requires DecoratedKeys <= values.Keys
    ensures Format(ChangedLinkTemplate, Decorate(values).value).Ok? <==> {"url", "id"} <= values.Keys
  {
    ChangedLinkDefined(Decorate(values).value);
    DecoratedChangedLinkKeys(values);
  }

  /** On a creation, `Notify` succeeds exactly when the link's entries are present. */
  lemma NotifyCreatedDefined(values: map<string, string>)
    requires DecoratedKeys <= values.Keys && values["action"] == "created"
    ensures Notify(values).Ok? <==> {"url", "type", "id", "summary"} <= values.Keys
  {
    var v := Decorate(values).value;
    NotifyCreated(values);
    CreatedMessageDefined(Format(CreatedLinkTemplate, v), v);
    DecoratedCreatedLinkDefined(values);
  }

  /** On a creation, `Notify` needs exactly the entries of the creation link. */
  lemma NotifyReadyCreated(values: map<string, string>)
    requires DecoratedKeys <= values.Keys && values["action"] == "created"
    ensures NotifyReady(values) <==> {"url", "type", "id", "summary"} <= values.Keys
  {
  }

  lemma NotifyFailsCreated(values: map<string, string>)
    requires DecoratedKeys <= values.Keys && values["action"] == "created"
    ensures Notify(values).Err? <==> !NotifyReady(values)
  {
    NotifyReadyCreated(values);
    NotifyCreatedDefined(values);
  }

  /** On any other event, `Notify` succeeds exactly when the link's entries and the
      comment are present. */
  lemma NotifyChangedDefined(values: map<string, string>)
    requires DecoratedKeys <= values.Keys && values["action"] != "created"
    ensures Notify(values).Ok? <==> {"url", "id"} <= values.Keys && "comment" in values
  {
    var v := Decorate(values).value;
    NotifyChanged(values);
    DecorateKeeps(values, "comment");
    ChangedMessageDefined(Format(ChangedLinkTemplate, v), v);
    DecoratedChangedLinkDefined(values);
  }

  /** On any other event, `Notify` needs exactly the entries of the change link and the comment. */
  lemma NotifyReadyChanged(values: map<string, string>)
    requires DecoratedKeys <= values.Keys && values["action"] != "created"
    ensures NotifyReady(values) <==> {"url", "id"} <= values.Keys && "comment" in values
  {
  }

  lemma NotifyFailsChanged(values: map<string, string>)
    requires DecoratedKeys <= values.Keys && values["action"] != "created"
    ensures Notify(values).Err? <==> !NotifyReady(values)
  {
    NotifyReadyChanged(values);
    NotifyChangedDefined(values);
  }

  /** `Notify` raises exactly when a key it needs is missing. */
  lemma NotifyFails(values: map<string, string>)
    ensures Notify(values).Err? <==> !NotifyReady(values)
  {
    if DecoratedKeys <= values.Keys {
      if values["action"] == "created" {
        NotifyFailsCreated(values);
      } else {
        NotifyFailsChanged(values);
      }
    }
  }

  /** A creation message reads nothing of the values but the icon and the author. */
  lemma CreatedMessageReadsOnly(link: Result<string>, v: map<string, string>, u: map<string, string>)
    requires AgreeOn(v, u, {"emoji", "author"})
    ensures CreatedMessage(link, v) == CreatedMessage(link, u)
  {
    if link.Ok? {
      CreatedPiecesShape();
      FormatReadsSlotsOnly(CreatedPieces, v["ticket_link" := link.value], u["ticket_link" := link.value]);
    }
  }

  /** Any other message reads nothing of the values but the entries its template names. */
  lemma ChangedMessageReadsOnly(link: Result<string>, v: map<string, string>, u: map<string, string>)
    requires AgreeOn(v, u, {"emoji", "maybe_owner", "maybe_status", "action", "author", "comment"})
    ensures ChangedMessage(link, v) == ChangedMessage(link, u)
  {
    if link.Ok? && "comment" in v {
      var c := v["comment"];
      var keys := {"emoji", "maybe_owner", "maybe_status", "action", "author", "comment"};
      ChangedTemplateSpelled(c);
      AgreeOnStore(v, u, keys, SlotKeys(ChangedPiecesFor(c)), "ticket_link", link.value);
      FormatReadsSlotsOnly(ChangedPiecesFor(c), v["ticket_link" := link.value], u["ticket_link" := link.value]);
    }
  }

  /** Decorating maps that agree on the message keys gives maps that agree on
      them and on the written keys. */
  lemma DecorateAgrees(values: map<string, string>, other: map<string, string>, keys: set<string>)
    requires DecoratedKeys <= keys
    requires AgreeOn(values, other, keys) && DecoratedKeys <= values.Keys
    ensures DecoratedKeys <= other.Keys
    ensures AgreeOn(Decorate(values).value, Decorate(other).value, keys + WrittenKeys)
  {
    DecorateEntries(values);
    DecorateEntries(other);
  }

  lemma NotifyReadsOnlyCreated(values: map<string, string>, other: map<string, string>)
    requires AgreeOn(values, other, MessageKeys) && DecoratedKeys <= values.Keys
    requires values["action"] == "created"
    ensures Notify(values) == Notify(other)
  {
    var v := Decorate(values).value;
    var u := Decorate(other).value;
    DecorateAgrees(values, other, MessageKeys);
    NotifyCreated(values);
    NotifyCreated(other);
    CreatedLinkPiecesShape();
    FormatReadsSlotsOnly(CreatedLinkPieces, v, u);
    CreatedMessageReadsOnly(Format(CreatedLinkTemplate, v), v, u);
  }

  lemma NotifyReadsOnlyChanged(values: map<string, string>, other: map<string, string>)
    requires AgreeOn(values, other, MessageKeys) && DecoratedKeys <= values.Keys
    requires values["action"] != "created"
    ensures Notify(values) == Notify(other)
  {
    var v := Decorate(values).value;
    var u := Decorate(other).value;
    DecorateAgrees(values, other, MessageKeys);
    NotifyChanged(values);
    NotifyChanged(other);
    ChangedLinkPiecesShape();
    FormatReadsSlotsOnly(ChangedLinkPieces, v, u);
    ChangedMessageReadsOnly(Format(ChangedLinkTemplate, v), v, u);
  }

  /** The message depends on nothing but `MessageKeys`: in particular not on the
      field listings stored under "attrib" and "changes". */
  lemma NotifyReadsOnly(values: map<string, string>, other: map<string, string>)
    requires AgreeOn(values, other, MessageKeys)
    ensures Notify(values) == Notify(other)
  {
    if DecoratedKeys <= values.Keys {
      if values["action"] == "created" {
        NotifyReadsOnlyCreated(values, other);
      } else {
        NotifyReadsOnlyChanged(values, other);
      }
    }
  }

  /** The source's own `notify` raises exactly when one of the four keys it decorates
      from is missing or, for any event but a creation, the comment is; the exception
      names a key the values lack. */
  lemma NotifyAsWrittenFails(values: map<string, string>)
    ensures NotifyAsWritten(values).Err? <==> !NotifyAsWrittenReady(values)
    ensures NotifyAsWritten(values).Err? ==>
      NotifyAsWritten(values).error.KeyError? && NotifyAsWritten(values).error.key !in values
  {
    if DecoratedKeys <= values.Keys {
      if values["action"] == "created" {
        NotifyAsWrittenCreatedText(values);
      } else {
        NotifyAsWrittenFailsChanged(values);
      }
    }
  }

  lemma NotifyAsWrittenFailsChanged(values: map<string, string>)
    requires DecoratedKeys <= values.Keys && values["action"] != "created"
    ensures NotifyAsWritten(values).Err? <==> "comment" !in values
    ensures NotifyAsWritten(values).Err? ==> NotifyAsWritten(values) == Err(KeyError("comment"))
  {
    if "comment" in values {
      NotifyAsWrittenChangedText(values);
    } else {
      NotifyAsWrittenNoComment(values);
    }
  }

  /** Without a comment, any event but a creation raises `KeyError("comment")`. */
  lemma NotifyAsWrittenNoComment(values: map<string, string>)
    requires DecoratedKeys <= values.Keys && values["action"] != "created" && "comment" !in values
    ensures NotifyAsWritten(values) == Err(KeyError("comment"))
  {
    NotifyAsWrittenChanged(values);
    DecorateKeeps(values, "comment");
  }

  lemma NotifyAsWrittenReadsOnlyCreated(values: map<string, string>, other: map<string, string>)
    requires AgreeOn(values, other, AsWrittenKeys) && DecoratedKeys <= values.Keys
    requires values["action"] == "created"
    ensures NotifyAsWritten(values) == NotifyAsWritten(other)
  {
    var v := Decorate(values).value;
    var u := Decorate(other).value;
    DecorateAgrees(values, other, AsWrittenKeys);
    NotifyAsWrittenCreated(values);
    NotifyAsWrittenCreated(other);
    CreatedMessageReadsOnly(Ok(CreatedLinkTemplate), v, u);
  }

  lemma NotifyAsWrittenReadsOnlyChanged(values: map<string, string>, other: map<string, string>)
    requires AgreeOn(values, other, AsWrittenKeys) && DecoratedKeys <= values.Keys
    requires values["action"] != "created"
    ensures NotifyAsWritten(values) == NotifyAsWritten(other)
  {
    var v := Decorate(values).value;
    var u := Decorate(other).value;
    DecorateAgrees(values, other, AsWrittenKeys);
    NotifyAsWrittenChanged(values);
    NotifyAsWrittenChanged(other);
    ChangedMessageReadsOnly(Ok(ChangedLinkTemplate), v, u);
  }

  /** The source's own message depends on nothing but "author", "action", "status",
      "owner" and "comment": not on the URL, id, type or summary its link was meant
      to show. */
  lemma NotifyAsWrittenReadsOnly(values: map<string, string>, other: map<string, string>)
    requires AgreeOn(values, other, AsWrittenKeys)
    ensures NotifyAsWritten(values) == NotifyAsWritten(other)
  {
    if DecoratedKeys <= values.Keys {
      if values["action"] == "created" {
        NotifyAsWrittenReadsOnlyCreated(values, other);
      } else {
        NotifyAsWrittenReadsOnlyChanged(values, other);
      }
    }
  }

  // ---------------------------------------------------------------------------
  // The link template left unexpanded

  /** Strings that differ at one position still differ there once extended alike. */
  lemma DifferAt(x: string, y: string, i: nat, s: string)
    requires i < |x| && i < |y| && x[i] != y[i]
    ensures i < |x + s| && i < |y + s| && (x + s)[i] != (y + s)[i]
  {
  }

  /** Two strings whose second characters differ, behind a common prefix. */
  lemma PrefixDiffer(p: string, a: string, b: string)
    requires |a| >= 2 && |b| >= 2 && a[1] != b[1]
    ensures |p| + 1 < |p + a| && |p| + 1 < |p + b| && (p + a)[|p| + 1] != (p + b)[|p| + 1]
  {
  }

  lemma CreatedTextsDiffer(a: string, b: string, t: string)
    requires |a| >= 2 && |b| >= 2 && a[1] != b[1]
    ensures ":" + "pushpin" + ": " + a + " created by @" + t != ":" + "pushpin" + ": " + b + " created by @" + t
  {
    var p := ":" + "pushpin" + ": ";
    var i := |p| + 1;
    PrefixDiffer(p, a, b);
    DifferAt(p + a, p + b, i, " created by @");
    DifferAt(p + a + " created by @", p + b + " created by @", i, t);
  }

  lemma ChangedTextsDiffer(head: string, a: string, b: string, action: string, t: string)
    requires |a| >= 2 && |b| >= 2 && a[1] != b[1]
    ensures head + a + " " + action + " by @" + t != head + b + " " + action + " by @" + t
  {
    var i := |head| + 1;
    PrefixDiffer(head, a, b);
    DifferAt(head + a, head + b, i, " ");
    DifferAt(head + a + " ", head + b + " ", i, action);
    DifferAt(head + a + " " + action, head + b + " " + action, i, " by @");
    DifferAt(head + a + " " + action + " by @", head + b + " " + action + " by @", i, t);
  }

  /** Whenever the ticket's URL does not itself begin with "%", the source's own
      `notify` posts a creation message other than the intended one: the link
      shows its "%(url)s" directive instead of the URL. */
  lemma CreatedLinkLeaks(values: map<string, string>)
    requires DecoratedKeys + {"url", "type", "id", "summary"} <= values.Keys
    requires values["action"] == "created" && UrlHead(values["url"]) != '%'
    ensures NotifyAsWritten(values).Ok? && Notify(values).Ok?
    ensures NotifyAsWritten(values) != Notify(values)
  {
    NotifyAsWrittenCreatedText(values);
    NotifyCreatedText(values);
    LinkTemplatesOpen();
    CreatedLinkTextOpens(values);
    CreatedTextsDiffer(CreatedLinkTemplate, CreatedLinkText(values), TrimRight(CleanAuthor(values["author"]), IsAsciiSpace));
  }

  /** The same for every other event: the link shows "<%(url)s|%(id)s>". */
  lemma ChangedLinkLeaks(values: map<string, string>)
    requires DecoratedKeys + {"url", "id", "comment"} <= values.Keys
    requires values["action"] != "created" && UrlHead(values["url"]) != '%'
    ensures NotifyAsWritten(values).Ok? && Notify(values).Ok?
    ensures NotifyAsWritten(values) != Notify(values)
  {
    var a := values["action"];
    NotifyAsWrittenChangedText(values);
    NotifyChangedText(values);
    LinkTemplatesOpen();
    ChangedLinkTextOpens(values);
    ChangedTextsDiffer(":" + Emoji(a) + ": " + MaybeOwner(values["owner"]) + MaybeStatus(a, values["status"]) + " ",
                       ChangedLinkTemplate, ChangedLinkText(values), a,
                       TrimRight(AuthorAndComment(CleanAuthor(values["author"]), values["comment"]), IsAsciiSpace));
  }
}
