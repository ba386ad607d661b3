/**
 The module-level part of the plugin: the continuation marker, the dictionary of
 values a ticket event starts from, and the length-bounded cut that appends the
 marker.
 */
module SlackNotification {
  import opened PyStr

  /** What a cut-short value ends with. */
  const Cont: string := " _etc._"

  /** What the host's ticket object offers to the notifier: its numeric id, its
      absolute URL (computed by the host) and its field values by name. */
  datatype Ticket = Ticket(id: int, url: string, values: map<string, string>)

  /** The keys `PrepareTicketValues` sets over the ticket's own fields. */
  const PreparedKeys: set<string> := {"id", "action", "url", "attrib", "changes"}

  /** How a ticket id is written in a message: "#" and the canonical decimal numeral
      of the id, which reads back as the id. */
  function TicketId(id: int): (r: string)
    ensures |r| >= 2 && r[0] == '#'
    ensures IsCanonicalInt(r[1..]) && ParseInt(r[1..]) == id
  {
    IntToStrRoundTrip(id);
    assert ("#" + IntToStr(id))[1..] == IntToStr(id);
    "#" + IntToStr(id)
  }

  /** A copy of the ticket's field values with the event's own entries laid over it. */
  function PrepareTicketValues(t: Ticket, action: string): (v: map<string, string>)
    ensures v.Keys == t.values.Keys + PreparedKeys
    ensures forall k :: k in t.values && k !in PreparedKeys ==> v[k] == t.values[k]
    ensures v["id"] == TicketId(t.id) && v["action"] == action && v["url"] == t.url
    ensures v["attrib"] == "" && v["changes"] == ""
  {
    t.values["id" := TicketId(t.id)]["action" := action]["url" := t.url]["attrib" := ""]["changes" := ""]
  }

  /** A value of at most `n` characters is kept; a longer one is cut so that, with
      the marker appended, it is `n` characters long. */
  function Truncate(value: string, n: int): (r: string)
    ensures |value| <= n ==> r == value
    ensures |value| > n ==> |r| >= |Cont| && r[|r| - |Cont|..] == Cont && r[..|r| - |Cont|] <= value
    ensures |value| > n && n >= |Cont| ==> |r| == n
  {
    if |value| <= n then value else SliceTo(value, n - |Cont|) + Cont
  }
}
