/**
 Python's `template % values` where `values` is a dictionary of strings: every
 `%(key)s` is replaced by `str(values[key])` and every `%%` by `%`, in ONE pass
 over the template -- a substituted value is copied as it is and never scanned
 for further directives.

 A template is also described as a sequence of pieces (literal text and named
 slots); `Fill` substitutes the pieces directly, and `FormatSpelled` proves it
 agrees with the character-level `Format` on every template made of such pieces.
 */
module PyFormat {
  import opened PyCore
  import opened PyStr

  /** `template % values`, reading the template left to right. */
  function Format(template: string, values: map<string, string>): (r: Result<string>)
    decreases |template|
  {
    var t := template;
    if t == [] then Ok("")
    else if t[0] != '%' then Prepend([t[0]], Format(t[1..], values))
    else if |t| == 1 then Err(ValueError("incomplete format"))
    else if t[1] == '%' then Prepend("%", Format(t[2..], values))
    else if t[1] != '(' then Err(ValueError("unsupported format"))
    else
      var k := Find(t[2..], ')');
      if 2 + k == |t| then Err(ValueError("incomplete format key"))
      else
        var key := t[2..2 + k];
        if key !in values then Err(KeyError(key))
        else if 2 + k + 1 == |t| then Err(ValueError("incomplete format"))
        else if t[2 + k + 1] != 's' then Err(ValueError("unsupported format character"))
        else Prepend(values[key], Format(t[2 + k + 2..], values))
  }

  // ---------------------------------------------------------------------------
  // Templates as pieces

  datatype Piece = Text(text: string) | Slot(key: string)

  /** Pieces whose spelling parses back into the same pieces. */
  predicate WellFormed(ps: seq<Piece>) {
    forall i :: 0 <= i < |ps| ==>
      (ps[i].Text? ==> '%' !in ps[i].text) && (ps[i].Slot? ==> ')' !in ps[i].key)
  }

  /** The directive that names a slot. */
  function Directive(key: string): string {
    "%(" + key + ")s"
  }

  /** The template text the pieces stand for. */
  function Spell(ps: seq<Piece>): string {
    if ps == [] then ""
    else
      match ps[0]
      case Text(t) => t + Spell(ps[1..])
      case Slot(k) => Directive(k) + Spell(ps[1..])
  }

  /** One piece substituted in front of the substitution of the pieces after it. */
  function FillPiece(p: Piece, rest: Result<string>, values: map<string, string>): Result<string> {
    match p
    case Text(t) => Prepend(t, rest)
    case Slot(k) => if k in values then Prepend(values[k], rest) else Err(KeyError(k))
  }

  /** Substitution piece by piece: the first slot whose key is missing raises `KeyError`. */
  function Fill(ps: seq<Piece>, values: map<string, string>): Result<string> {
    if ps == [] then Ok("") else FillPiece(ps[0], Fill(ps[1..], values), values)
  }

  /** One step of `Fill` on a suffix of the pieces. */
  lemma FillStep(ps: seq<Piece>, i: nat, values: map<string, string>)
    requires i < |ps|
    ensures Fill(ps[i..], values) == FillPiece(ps[i], Fill(ps[i + 1..], values), values)
  {
    assert ps[i..][0] == ps[i];
    assert ps[i..][1..] == ps[i + 1..];
  }

  lemma {:induction false} FormatText(text: string, rest: string, values: map<string, string>)
    requires '%' !in text
    ensures Format(text + rest, values) == Prepend(text, Format(rest, values))
    decreases |text|
  {
    if text == [] {
      assert text + rest == rest;
      var r := Format(rest, values);
      if r.Ok? { assert text + r.value == r.value; }
    } else {
      var s := text + rest;
      assert s[0] == text[0] && s[1..] == text[1..] + rest;
      FormatText(text[1..], rest, values);
      PrependTwice([text[0]], text[1..], Format(rest, values));
      assert [text[0]] + text[1..] == text;
    }
  }

  lemma FormatDirective(key: string, rest: string, values: map<string, string>)
    requires ')' !in key
    ensures Format(Directive(key) + rest, values)
         == if key in values then Prepend(values[key], Format(rest, values)) else Err(KeyError(key))
  {
    var t := Directive(key) + rest;
    assert t[0] == '%' && t[1] == '(';
    assert t[2..] == key + (")s" + rest);
    var k := Find(t[2..], ')');
    assert forall i :: 0 <= i < |key| ==> t[2..][i] == key[i];
    assert t[2..][|key|] == ')';
    assert k == |key|;
    assert t[2..2 + k] == key;
    assert t[2 + k + 1] == 's';
    assert t[2 + k + 2..] == rest;
  }

  /** On well-formed pieces, `%`-formatting the spelled template is substituting the pieces. */
  lemma {:induction false} FormatSpelled(ps: seq<Piece>, values: map<string, string>)
    requires WellFormed(ps)
    ensures Format(Spell(ps), values) == Fill(ps, values)
    decreases |ps|
  {
    if ps != [] {
      assert WellFormed(ps[1..]) by {
        forall i | 0 <= i < |ps[1..]| ensures ps[1..][i] == ps[i + 1] { }
      }
      FormatSpelled(ps[1..], values);
      match ps[0]
      case Text(t) =>
        assert '%' !in t by { assert ps[0].Text?; }
        FormatText(t, Spell(ps[1..]), values);
      case Slot(k) =>
        assert ')' !in k by { assert ps[0].Slot?; }
        FormatDirective(k, Spell(ps[1..]), values);
    }
  }

  /** The keys the slots name. */
  function SlotKeys(ps: seq<Piece>): set<string> {
    if ps == [] then {} else (if ps[0].Slot? then {ps[0].key} else {}) + SlotKeys(ps[1..])
  }

  /** `v` and `w` hold the same entries for `keys`, present or absent alike. */
  predicate AgreeOn(v: map<string, string>, w: map<string, string>, keys: set<string>) {
    forall k :: k in keys ==> (k in v <==> k in w) && (k in v ==> v[k] == w[k])
  }

  /** Storing the same entry in two maps that agree on `keys` makes them agree on
      `keys` and that entry, and so on any part of those. */
  lemma AgreeOnStore(v: map<string, string>, w: map<string, string>, keys: set<string>, part: set<string>,
                     k: string, x: string)
    requires AgreeOn(v, w, keys) && part <= keys + {k}
    ensures AgreeOn(v[k := x], w[k := x], part)
  {
  }

  /** `Fill` succeeds exactly when every slot's key is present. */
  lemma {:induction false} FillSucceeds(ps: seq<Piece>, values: map<string, string>)
    ensures Fill(ps, values).Ok? <==> SlotKeys(ps) <= values.Keys
    decreases |ps|
  {
    if ps != [] {
      FillSucceeds(ps[1..], values);
    }
  }

  /** `Fill` reads nothing but the slots' keys. */
  lemma {:induction false} FillReadsSlotsOnly(ps: seq<Piece>, v: map<string, string>, w: map<string, string>)
    requires AgreeOn(v, w, SlotKeys(ps))
    ensures Fill(ps, v) == Fill(ps, w)
    decreases |ps|
  {
    if ps != [] {
      FillReadsSlotsOnly(ps[1..], v, w);
    }
  }

  lemma {:induction false} SpellAppend(a: seq<Piece>, b: seq<Piece>)
    ensures Spell(a + b) == Spell(a) + Spell(b)
    decreases |a|
  {
    if a == [] {
      assert a + b == b;
    } else {
      assert (a + b)[0] == a[0] && (a + b)[1..] == a[1..] + b;
      SpellAppend(a[1..], b);
    }
  }
}
