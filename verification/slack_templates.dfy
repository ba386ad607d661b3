/**
 The message templates of the plugin, written as pieces (literal text and named
 slots) whose spelling is the template text, and what each template expands to.
 */
module SlackTemplates {
  import opened PyCore
  import opened PyStr
  import opened PyFormat

  /** `values['ticket_link']` of a creation: "<%(url)s|%(type)s %(id)s %(summary)s>". */
  const CreatedLinkPieces: seq<Piece> :=
    [Text("<"), Slot("url"), Text("|"), Slot("type"), Text(" "), Slot("id"), Text(" "), Slot("summary"), Text(">")]

  /** The creation template: ":%(emoji)s: %(ticket_link)s created by @%(author)s". */
  const CreatedPieces: seq<Piece> :=
    [Text(":"), Slot("emoji"), Text(": "), Slot("ticket_link"), Text(" created by @"), Slot("author")]

  /** `values['ticket_link']` of any other event: "<%(url)s|%(id)s>". */
  const ChangedLinkPieces: seq<Piece> :=
    [Text("<"), Slot("url"), Text("|"), Slot("id"), Text(">")]

  /** The template of any other event:
      ":%(emoji)s: %(maybe_owner)s%(maybe_status)s %(ticket_link)s %(action)s by @%(author)s". */
  const ChangedPieces: seq<Piece> :=
    [Text(":"), Slot("emoji"), Text(": "), Slot("maybe_owner"), Slot("maybe_status"), Text(" "),
     Slot("ticket_link"), Text(" "), Slot("action"), Text(" by @"), Slot("author")]

  /** The comment clause appended to that template: ": %(comment)s". */
  const CommentPieces: seq<Piece> := [Text(": "), Slot("comment")]

  const CreatedLinkTemplate: string := Spell(CreatedLinkPieces)
  const CreatedTemplate: string := Spell(CreatedPieces)
  const ChangedLinkTemplate: string := Spell(ChangedLinkPieces)
  const ChangedTemplate: string := Spell(ChangedPieces)
  const CommentTemplate: string := Spell(CommentPieces)

  /** The template used for an event other than a creation: the comment clause
      is appended only when there is a comment. */
  function ChangedTemplateFor(comment: string): string {
    if comment != "" then ChangedTemplate + CommentTemplate else ChangedTemplate
  }

  /** The comment clause of a change message: ": " and the comment, or nothing. */
  function CommentClause(comment: string): string {
    if comment != "" then ": " + comment else ""
  }

  /** What follows "by @" in a change message before the final strip. */
  function AuthorAndComment(author: string, comment: string): string {
    author + CommentClause(comment)
  }

  // ---------------------------------------------------------------------------
  // Template expansion

  /** The text of a creation link. */
  function CreatedLinkText(v: map<string, string>): string
    requires {"url", "type", "id", "summary"} <= v.Keys
  {
    "<" + v["url"] + "|" + v["type"] + " " + v["id"] + " " + v["summary"] + ">"
  }

  /** The text of any other event's link. */
  function ChangedLinkText(v: map<string, string>): string
    requires {"url", "id"} <= v.Keys
  {
    "<" + v["url"] + "|" + v["id"] + ">"
  }

  /** The creation message up to the author. */
  function CreatedHead(v: map<string, string>): string
    requires {"emoji", "ticket_link"} <= v.Keys
  {
    ":" + v["emoji"] + ": " + v["ticket_link"] + " created by @"
  }

  /** Any other message up to the author. */
  function ChangedHead(v: map<string, string>): string
    requires {"emoji", "maybe_owner", "maybe_status", "ticket_link", "action"} <= v.Keys
  {
    ":" + v["emoji"] + ": " + v["maybe_owner"] + v["maybe_status"] + " " + v["ticket_link"] + " "
      + v["action"] + " by @"
  }

  // Substituting the pieces one by one nests the text to the right; these put it
  // back in the left-to-right form the message functions use.

  /** The five parts of "<url|id>", regrouped from right-nested to left-to-right. */
  lemma RegroupChangedLink(a: string, b: string, c: string, d: string, e: string)
    ensures a + (b + (c + (d + (e + "")))) == a + b + c + d + e
  {
  }

  /** The six parts of ":emoji: link created by @author", regrouped from right-nested to left-to-right. */
  lemma RegroupCreatedMessage(a: string, b: string, c: string, d: string, e: string, f: string)
    ensures a + (b + (c + (d + (e + (f + ""))))) == a + b + c + d + e + f
  {
  }

  /** The nine parts of "<url|type id summary>", regrouped from right-nested to left-to-right. */
  lemma RegroupCreatedLink(a: string, b: string, c: string, d: string, e: string, f: string, g: string, h: string, i: string)
    ensures a + (b + (c + (d + (e + (f + (g + (h + (i + "")))))))) == a + b + c + d + e + f + g + h + i
  {
  }

  /** The eleven parts of ":emoji: owner status link action by @author", regrouped from right-nested
      to left-to-right. */
  lemma RegroupChangedMessage(a: string, b: string, c: string, d: string, e: string, f: string, g: string, h: string,
                              i: string, j: string, k: string)
    ensures a + (b + (c + (d + (e + (f + (g + (h + (i + (j + (k + ""))))))))))
         == a + b + c + d + e + f + g + h + i + j + k
  {
  }

  lemma CreatedLinkFill(v: map<string, string>)
    requires {"url", "type", "id", "summary"} <= v.Keys
    ensures Fill(CreatedLinkPieces, v) == Ok(CreatedLinkText(v))
  {
    var P := CreatedLinkPieces;
    assert Fill(P[9..], v) == Ok("");
    FillStep(P, 8, v); FillStep(P, 7, v); FillStep(P, 6, v); FillStep(P, 5, v); FillStep(P, 4, v);
    FillStep(P, 3, v); FillStep(P, 2, v); FillStep(P, 1, v); FillStep(P, 0, v);
    assert P[0..] == P;
    RegroupCreatedLink("<", v["url"], "|", v["type"], " ", v["id"], " ", v["summary"], ">");
  }

  /** The creation link template expands to "<url|type id summary>". */
  lemma CreatedLinkExpands(v: map<string, string>)
    requires {"url", "type", "id", "summary"} <= v.Keys
    ensures Format(CreatedLinkTemplate, v) == Ok(CreatedLinkText(v))
  {
    CreatedLinkPiecesShape();
    FormatSpelled(CreatedLinkPieces, v);
    CreatedLinkFill(v);
  }

  lemma CreatedFill(v: map<string, string>)
    requires {"emoji", "ticket_link", "author"} <= v.Keys
    ensures Fill(CreatedPieces, v) == Ok(CreatedHead(v) + v["author"])
  {
    var P := CreatedPieces;
    assert Fill(P[6..], v) == Ok("");
    FillStep(P, 5, v); FillStep(P, 4, v); FillStep(P, 3, v); FillStep(P, 2, v); FillStep(P, 1, v); FillStep(P, 0, v);
    assert P[0..] == P;
    RegroupCreatedMessage(":", v["emoji"], ": ", v["ticket_link"], " created by @", v["author"]);
  }

  /** The creation template expands to its head followed by the author. */
  lemma CreatedExpands(v: map<string, string>)
    requires {"emoji", "ticket_link", "author"} <= v.Keys
    ensures Format(CreatedTemplate, v) == Ok(CreatedHead(v) + v["author"])
  {
    CreatedPiecesShape();
    FormatSpelled(CreatedPieces, v);
    CreatedFill(v);
  }

  lemma ChangedLinkFill(v: map<string, string>)
    requires {"url", "id"} <= v.Keys
    ensures Fill(ChangedLinkPieces, v) == Ok(ChangedLinkText(v))
  {
    var P := ChangedLinkPieces;
    assert Fill(P[5..], v) == Ok("");
    FillStep(P, 4, v); FillStep(P, 3, v); FillStep(P, 2, v); FillStep(P, 1, v); FillStep(P, 0, v);
    assert P[0..] == P;
    RegroupChangedLink("<", v["url"], "|", v["id"], ">");
  }

  /** The change link template expands to "<url|id>". */
  lemma ChangedLinkExpands(v: map<string, string>)
    requires {"url", "id"} <= v.Keys
    ensures Format(ChangedLinkTemplate, v) == Ok(ChangedLinkText(v))
  {
    ChangedLinkPiecesShape();
    FormatSpelled(ChangedLinkPieces, v);
    ChangedLinkFill(v);
  }

  /** The last five pieces: the link, the action and the author. */
  lemma ChangedPiecesTail(v: map<string, string>)
    requires {"ticket_link", "action", "author"} <= v.Keys
    ensures Fill(ChangedPieces[6..], v) == Ok(v["ticket_link"] + (" " + (v["action"] + (" by @" + (v["author"] + "")))))
  {
    var P := ChangedPieces;
    assert Fill(P[11..], v) == Ok("");
    FillStep(P, 10, v); FillStep(P, 9, v); FillStep(P, 8, v); FillStep(P, 7, v); FillStep(P, 6, v);
  }

  /** The first six pieces in front of the tail. */
  lemma ChangedPiecesNested(v: map<string, string>)
    requires {"emoji", "maybe_owner", "maybe_status", "ticket_link", "action", "author"} <= v.Keys
    ensures Fill(ChangedPieces, v)
         == Ok(":" + (v["emoji"] + (": " + (v["maybe_owner"] + (v["maybe_status"] + (" " + (v["ticket_link"]
              + (" " + (v["action"] + (" by @" + (v["author"] + "")))))))))))
  {
    var P := ChangedPieces;
    ChangedPiecesTail(v);
    FillStep(P, 5, v); FillStep(P, 4, v); FillStep(P, 3, v); FillStep(P, 2, v); FillStep(P, 1, v);
    FillStep(P, 0, v);
    assert P[0..] == P;
  }

  lemma ChangedPiecesFill(v: map<string, string>)
    requires {"emoji", "maybe_owner", "maybe_status", "ticket_link", "action", "author"} <= v.Keys
    ensures Fill(ChangedPieces, v) == Ok(ChangedHead(v) + v["author"])
  {
    ChangedPiecesNested(v);
    RegroupChangedMessage(":", v["emoji"], ": ", v["maybe_owner"], v["maybe_status"], " ", v["ticket_link"], " ",
                  v["action"], " by @", v["author"]);
  }

  lemma {:induction false} FillAppend(a: seq<Piece>, b: seq<Piece>, v: map<string, string>)
    requires Fill(a, v).Ok?
    ensures Fill(a + b, v) == Prepend(Fill(a, v).value, Fill(b, v))
    decreases |a|
  {
    if a == [] {
      assert a + b == b;
      if Fill(b, v).Ok? { assert Fill(a, v).value + Fill(b, v).value == Fill(b, v).value; }
    } else {
      assert (a + b)[0] == a[0] && (a + b)[1..] == a[1..] + b;
      FillAppend(a[1..], b, v);
      PrependTwice(if a[0].Text? then a[0].text else v[a[0].key], Fill(a[1..], v).value, Fill(b, v));
    }
  }

  lemma WellFormedAppend(a: seq<Piece>, b: seq<Piece>)
    requires WellFormed(a) && WellFormed(b)
    ensures WellFormed(a + b)
  {
    forall i | 0 <= i < |a + b| ensures (a + b)[i] == if i < |a| then a[i] else b[i - |a|] { }
  }

  lemma {:induction false} SlotKeysAppend(a: seq<Piece>, b: seq<Piece>)
    ensures SlotKeys(a + b) == SlotKeys(a) + SlotKeys(b)
    decreases |a|
  {
    if a == [] {
      assert a + b == b;
    } else {
      assert (a + b)[0] == a[0] && (a + b)[1..] == a[1..] + b;
      SlotKeysAppend(a[1..], b);
    }
  }

  /** The pieces of the template `ChangedTemplateFor` builds. */
  function ChangedPiecesFor(comment: string): seq<Piece> {
    if comment != "" then ChangedPieces + CommentPieces else ChangedPieces
  }

  /** Each template is well formed and names exactly the keys it is filled from.
      The two facts are proved apart: unfolding both in one proof is costly. */
  lemma CreatedLinkPiecesShape()
    ensures WellFormed(CreatedLinkPieces)
    ensures SlotKeys(CreatedLinkPieces) == {"url", "type", "id", "summary"}
  {
    CreatedLinkPiecesWellFormed();
    CreatedLinkPiecesSlots();
  }

  lemma CreatedLinkPiecesWellFormed()
    ensures WellFormed(CreatedLinkPieces)
  {
  }

  lemma CreatedLinkPiecesSlots()
    ensures SlotKeys(CreatedLinkPieces) == {"url", "type", "id", "summary"}
  {
  }

  lemma CreatedPiecesShape()
    ensures WellFormed(CreatedPieces)
    ensures SlotKeys(CreatedPieces) == {"emoji", "ticket_link", "author"}
  {
    CreatedPiecesWellFormed();
    CreatedPiecesSlots();
  }

  lemma CreatedPiecesWellFormed()
    ensures WellFormed(CreatedPieces)
  {
  }

  lemma CreatedPiecesSlots()
    ensures SlotKeys(CreatedPieces) == {"emoji", "ticket_link", "author"}
  {
  }

  lemma ChangedLinkPiecesShape()
    ensures WellFormed(ChangedLinkPieces)
    ensures SlotKeys(ChangedLinkPieces) == {"url", "id"}
  {
    ChangedLinkPiecesWellFormed();
    ChangedLinkPiecesSlots();
  }

  lemma ChangedLinkPiecesWellFormed()
    ensures WellFormed(ChangedLinkPieces)
  {
  }

  lemma ChangedLinkPiecesSlots()
    ensures SlotKeys(ChangedLinkPieces) == {"url", "id"}
  {
  }

  lemma ChangedPiecesWellFormed()
    ensures WellFormed(ChangedPieces)
  {
    var a := [Text(":"), Slot("emoji"), Text(": "), Slot("maybe_owner"), Slot("maybe_status")];
    var b := [Text(" "), Slot("ticket_link"), Text(" "), Slot("action"), Text(" by @"), Slot("author")];
    assert WellFormed(a);
    assert WellFormed(b);
    WellFormedAppend(a, b);
    assert ChangedPieces == a + b;
  }

  lemma ChangedPiecesSlots()
    ensures SlotKeys(ChangedPieces) == {"emoji", "maybe_owner", "maybe_status", "ticket_link", "action", "author"}
  {
  }

  lemma CommentPiecesShape()
    ensures WellFormed(CommentPieces) && SlotKeys(CommentPieces) == {"comment"}
  {
  }

  lemma ChangedTemplateSpelled(comment: string)
    ensures ChangedTemplateFor(comment) == Spell(ChangedPiecesFor(comment))
    ensures WellFormed(ChangedPiecesFor(comment))
    ensures SlotKeys(ChangedPiecesFor(comment)) <= {"emoji", "maybe_owner", "maybe_status", "ticket_link", "action", "author", "comment"}
  {
    ChangedPiecesWellFormed();
    ChangedPiecesSlots();
    CommentPiecesShape();
    if comment != "" {
      SpellAppend(ChangedPieces, CommentPieces);
      WellFormedAppend(ChangedPieces, CommentPieces);
      SlotKeysAppend(ChangedPieces, CommentPieces);
    }
  }

  lemma CommentFill(v: map<string, string>)
    requires "comment" in v
    ensures Fill(CommentPieces, v) == Ok(": " + v["comment"])
  {
    var C := CommentPieces;
    assert Fill(C[2..], v) == Ok("");
    FillStep(C, 1, v); FillStep(C, 0, v);
    assert C[0..] == C;
    assert Fill(C, v).value == ": " + v["comment"];
  }

  lemma ChangedExpandsBare(v: map<string, string>)
    requires {"emoji", "maybe_owner", "maybe_status", "ticket_link", "action", "author", "comment"} <= v.Keys
    requires v["comment"] == ""
    ensures Format(ChangedTemplateFor(v["comment"]), v) == Ok(ChangedHead(v) + AuthorAndComment(v["author"], v["comment"]))
  {
    ChangedPiecesWellFormed();
    FormatSpelled(ChangedPieces, v);
    ChangedPiecesFill(v);
    assert AuthorAndComment(v["author"], "") == v["author"];
  }

  lemma ChangedCommentFormat(v: map<string, string>)
    requires "comment" in v && v["comment"] != ""
    ensures Format(ChangedTemplateFor(v["comment"]), v) == Fill(ChangedPieces + CommentPieces, v)
  {
    ChangedTemplateSpelled(v["comment"]);
    FormatSpelled(ChangedPiecesFor(v["comment"]), v);
  }

  lemma ChangedCommentFill(v: map<string, string>)
    requires {"emoji", "maybe_owner", "maybe_status", "ticket_link", "action", "author", "comment"} <= v.Keys
    requires v["comment"] != ""
    ensures Fill(ChangedPieces + CommentPieces, v) == Ok(ChangedHead(v) + AuthorAndComment(v["author"], v["comment"]))
  {
    var c := v["comment"];
    ChangedPiecesFill(v);
    CommentFill(v);
    FillAppend(ChangedPieces, CommentPieces, v);
    assert (ChangedHead(v) + v["author"]) + (": " + c) == ChangedHead(v) + (v["author"] + (": " + c));
  }

  /** The change template expands to its head, the author and the comment clause. */
  lemma ChangedExpands(v: map<string, string>)
    requires {"emoji", "maybe_owner", "maybe_status", "ticket_link", "action", "author", "comment"} <= v.Keys
    ensures Format(ChangedTemplateFor(v["comment"]), v) == Ok(ChangedHead(v) + AuthorAndComment(v["author"], v["comment"]))
  {
    if v["comment"] == "" {
      ChangedExpandsBare(v);
    } else {
      ChangedCommentFormat(v);
      ChangedCommentFill(v);
    }
  }

  /** `%`-formatting a well-formed template reads nothing but its slots' keys. */
  lemma FormatReadsSlotsOnly(ps: seq<Piece>, v: map<string, string>, w: map<string, string>)
    requires WellFormed(ps) && AgreeOn(v, w, SlotKeys(ps))
    ensures Format(Spell(ps), v) == Format(Spell(ps), w)
  {
    FormatSpelled(ps, v);
    FormatSpelled(ps, w);
    FillReadsSlotsOnly(ps, v, w);
  }

  /** The creation link formats exactly when its four keys are present. */
  lemma CreatedLinkDefined(v: map<string, string>)
    ensures Format(CreatedLinkTemplate, v).Ok? <==> {"url", "type", "id", "summary"} <= v.Keys
  {
    CreatedLinkPiecesShape();
    FormatSpelled(CreatedLinkPieces, v);
    FillSucceeds(CreatedLinkPieces, v);
  }

  /** The change link formats exactly when "url" and "id" are present. */
  lemma ChangedLinkDefined(v: map<string, string>)
    ensures Format(ChangedLinkTemplate, v).Ok? <==> {"url", "id"} <= v.Keys
  {
    ChangedLinkPiecesShape();
    FormatSpelled(ChangedLinkPieces, v);
    FillSucceeds(ChangedLinkPieces, v);
  }

  // ---------------------------------------------------------------------------
  // How the links begin

  /** Both link templates begin "<%": a directive follows the opening bracket. */
  lemma LinkTemplatesOpen()
    ensures |CreatedLinkTemplate| >= 2 && CreatedLinkTemplate[0] == '<' && CreatedLinkTemplate[1] == '%'
    ensures |ChangedLinkTemplate| >= 2 && ChangedLinkTemplate[0] == '<' && ChangedLinkTemplate[1] == '%'
  {
  }

  /** Whether the spelling of a piece avoids the character `c`. */
  predicate SpelledWithout(p: Piece, c: char) {
    match p
    case Text(t) => c !in t
    case Slot(k) => c !in Directive(k)
  }

  /** A template avoids a character when each of its pieces does. */
  lemma {:induction false} SpellWithout(ps: seq<Piece>, c: char)
    requires forall i :: 0 <= i < |ps| ==> SpelledWithout(ps[i], c)
    ensures c !in Spell(ps)
  {
    if ps != [] {
      SpellWithout(ps[1..], c);
    }
  }

  /** Neither link template holds a "#", which every formatted ticket id begins with. */
  lemma LinkTemplatesNoHash()
    ensures '#' !in CreatedLinkTemplate && '#' !in ChangedLinkTemplate
  {
    forall i | 0 <= i < |CreatedLinkPieces| ensures SpelledWithout(CreatedLinkPieces[i], '#') {
    }
    forall i | 0 <= i < |ChangedLinkPieces| ensures SpelledWithout(ChangedLinkPieces[i], '#') {
    }
    SpellWithout(CreatedLinkPieces, '#');
    SpellWithout(ChangedLinkPieces, '#');
  }

  /** The second character of a formatted link: the URL's first, or "|" when it is empty. */
  function UrlHead(url: string): char {
    if url == [] then '|' else url[0]
  }

  lemma CreatedLinkTextOpens(v: map<string, string>)
    requires {"url", "type", "id", "summary"} <= v.Keys
    ensures |CreatedLinkText(v)| >= 2 && CreatedLinkText(v)[1] == UrlHead(v["url"])
  {
  }

  lemma ChangedLinkTextOpens(v: map<string, string>)
    requires {"url", "id"} <= v.Keys
    ensures |ChangedLinkText(v)| >= 2 && ChangedLinkText(v)[1] == UrlHead(v["url"])
  {
  }
}
