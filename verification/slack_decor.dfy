/**
 The entries `notify` derives from the event values before it formats a
 message: the icon for the action, the author with any " <address>" removed,
 and the optional status and owner clauses.
 */
module SlackDecor {
  import opened PyStr

  // ---------------------------------------------------------------------------
  // Icons

  /** The icon named for each action that has one of its own. */
  const EmojiTable: map<string, string> := map[
    "closed" := "heavy_check_mark",
    "created" := "pushpin",
    "changed" := "pencil2",
    "assigned" := "point_right",
    "needsintegrating" := "arrow_heading_down",
    "needstesting" := "passport_control",
    "reopened" := "arrows_counterclockwise",
    "testing" := "customs"
  ]

  /** The icon of every other action. */
  const DefaultEmoji: string := "incoming_envelope"

  /** The icon for an action, falling back to the default; no listed action
      shares the default's icon. */
  function Emoji(action: string): (r: string)
    ensures action in EmojiTable ==> r == EmojiTable[action]
    ensures r == DefaultEmoji <==> action !in EmojiTable
  {
    if action in EmojiTable then EmojiTable[action] else DefaultEmoji
  }

  /** A status transition ("moved to ...") never has an icon of its own. */
  lemma MovedActionEmoji(status: string)
    ensures Emoji("moved to " + status) == DefaultEmoji
  {
    var a := "moved to " + status;
    assert a[0] == 'm';
    assert forall k :: k in EmojiTable ==> k[0] != 'm';
  }

  // ---------------------------------------------------------------------------
  // Author clean-up

  /** Whether " <" starts at position `i` of `s`. */
  predicate MarkerAt(s: string, i: int) {
    0 <= i && i + 1 < |s| && s[i] == ' ' && s[i + 1] == '<'
  }

  predicate HasMarker(s: string) {
    exists i :: 0 <= i < |s| && MarkerAt(s, i)
  }

  /** Position of the first " <" in `s`, or `|s|` when there is none. */
  function FirstMarker(s: string): (k: nat)
    ensures k <= |s|
    ensures forall i :: 0 <= i < k ==> !MarkerAt(s, i)
    ensures k < |s| ==> MarkerAt(s, k)
  {
    if |s| < 2 then |s|
    else if MarkerAt(s, 0) then 0
    else
      assert forall i :: 1 <= i < |s| ==> (MarkerAt(s, i) <==> MarkerAt(s[1..], i - 1));
      1 + FirstMarker(s[1..])
  }

  /** The substitution of regular expression " <.*" by nothing: on every line,
      what runs from the line's first " <" up to the next newline is dropped
      (the regular expression's `.` does not match a newline). */
  function CleanAuthor(author: string): (r: string)
    ensures !HasMarker(r)
    ensures |r| <= |author|
    ensures r == [] || r[0] == author[0] || r[0] == '\n'
    decreases |author|
  {
    var s := author;
    if |s| < 2 then s
    else if s[0] == ' ' && s[1] == '<' then CleanAuthor(s[Find(s, '\n')..])
    else
      var rest := CleanAuthor(s[1..]);
      var r := [s[0]] + rest;
      assert forall i :: 1 <= i < |r| ==> (MarkerAt(r, i) <==> MarkerAt(rest, i - 1));
      r
  }

  /** An author without " <" is left as it is. */
  lemma {:induction false} CleanAuthorKeeps(author: string)
    requires !HasMarker(author)
    ensures CleanAuthor(author) == author
    decreases |author|
  {
    var s := author;
    if |s| >= 2 {
      assert !MarkerAt(s, 0);
      assert forall i :: MarkerAt(s[1..], i) ==> MarkerAt(s, i + 1);
      CleanAuthorKeeps(s[1..]);
    }
  }

  /** On a single line the clean-up keeps exactly what precedes the first " <". */
  lemma {:induction false} CleanAuthorCut(author: string)
    requires '\n' !in author
    ensures CleanAuthor(author) == author[..FirstMarker(author)]
    decreases |author|
  {
    var s := author;
    if |s| >= 2 {
      if MarkerAt(s, 0) {
        assert Find(s, '\n') == |s|;
      } else {
        assert '\n' !in s[1..];
        assert forall i :: 1 <= i < |s| ==> (MarkerAt(s, i) <==> MarkerAt(s[1..], i - 1));
        CleanAuthorCut(s[1..]);
        assert s[..FirstMarker(s)] == [s[0]] + s[1..][..FirstMarker(s[1..])];
      }
    }
  }

  /** Cleaning an author twice is cleaning it once. */
  lemma CleanAuthorIdempotent(author: string)
    ensures CleanAuthor(CleanAuthor(author)) == CleanAuthor(author)
  {
    CleanAuthorKeeps(CleanAuthor(author));
  }

  // ---------------------------------------------------------------------------
  // Optional clauses

  /** The status clause: absent exactly when the action is the status itself. */
  function MaybeStatus(action: string, status: string): (r: string)
    ensures r == [] <==> action == status
    ensures r != [] ==> r[..|r| - 1] == status && r[|r| - 1] == ' '
  {
    if action != status then status + " " else ""
  }

  /** The owner clause, "<owner>'s " with a typographic apostrophe: absent exactly
      when there is no owner. */
  function MaybeOwner(owner: string): (r: string)
    ensures r == [] <==> owner == []
    ensures r != [] ==> |r| == |owner| + 3 && r[..|owner|] == owner && r[|owner|..] == "\U{2019}s "
  {
    if owner != [] then owner + "\U{2019}s " else ""
  }
}
