/** The flat XML envelope: writing a field mapping as `<xml><k>v</k>...</xml>`
    (to_xml), turning the parsed children of a reply into a field mapping
    (to_dict), and a reader for the flat envelope that states what the written
    text means. */
module Envelope {
  import opened Values

  /** An order in which a dict's keys are visited: each key exactly once. */
  ghost predicate Listing(order: seq<string>, keys: set<string>)
  {
    && (forall i, j :: 0 <= i < j < |order| ==> order[i] != order[j])
    && (forall k :: k in order <==> k in keys)
  }

  /** One pair as to_xml writes it: the value in its str.format text, and no
      character of key or value escaped. */
  function Element(k: string, v: Value): (r: string)
    ensures IsName(k) && NoTagOpen(Format(v)) ==> ReadElement(r) == Some((k, TextOf(Format(v)), ""))
  {
    ElementReadsBack(k, Format(v));
    "<" + k + ">" + Format(v) + "</" + k + ">"
  }

  /** The element for a name and a text with no `<` reads back alone. */
  lemma ElementReadsBack(k: string, t: string)
    ensures IsName(k) && NoTagOpen(t) ==> ReadElement("<" + k + ">" + t + "</" + k + ">") == Some((k, TextOf(t), ""))
  {
    if IsName(k) && NoTagOpen(t) {
      ReadElementOne(k, t, "");
      assert "<" + k + ">" + t + "</" + k + ">" + "" == "<" + k + ">" + t + "</" + k + ">";
    }
  }

  /** The elements of `m` in the order `order` visits its keys. */
  function Body(m: Fields, order: seq<string>): string
    requires forall i :: 0 <= i < |order| ==> order[i] in m
  {
    if order == [] then "" else Element(order[0], m[order[0]]) + Body(m, order[1..])
  }

  lemma {:induction false} BodyAppend(m: Fields, order: seq<string>, k: string)
    requires forall i :: 0 <= i < |order| ==> order[i] in m
    requires k in m
    ensures Body(m, order + [k]) == Body(m, order) + Element(k, m[k])
  {
    if order != [] {
      assert (order + [k])[1..] == order[1..] + [k];
      BodyAppend(m, order[1..], k);
    } else {
      assert order + [k] == [k];
    }
  }

  /** The whole envelope for one visiting order of the keys. */
  function EnvelopeText(m: Fields, order: seq<string>): (r: string)
    requires forall i :: 0 <= i < |order| ==> order[i] in m
    ensures ReadEnvelope(r) == ReadElements(Body(m, order))
  {
    var b := Body(m, order);
    var r := "<xml>" + b + "</xml>";
    assert r[5..|r| - 6] == b;
    r
  }

  /** to_xml: a dict is iterated in an order Python does not specify, so the
      method reports the order it took; the text is the envelope of `raw` for
      that order, which visits every key exactly once. */
  method ToXml(raw: Fields) returns (s: string, ghost order: seq<string>)
    ensures Listing(order, raw.Keys)
    ensures s == EnvelopeText(raw, order)
    ensures (forall k :: k in raw ==> IsName(k) && PlainText(Format(raw[k]))) ==>
      Decode(s) == Some(map k | k in raw :: Decoded(raw[k]))
  {
    var body := "";
    var rest := raw.Keys;
    order := [];
    while rest != {}
      invariant rest <= raw.Keys
      invariant forall k :: k in order <==> k in raw.Keys && k !in rest
      invariant forall i, j :: 0 <= i < j < |order| ==> order[i] != order[j]
      invariant body == Body(raw, order)
      decreases rest
    {
      var k :| k in rest;
      BodyAppend(raw, order, k);
      body := body + Element(k, raw[k]);
      order := order + [k];
      rest := rest - {k};
    }
    s := "<xml>" + body + "</xml>";
    if forall k :: k in raw ==> IsName(k) && PlainText(Format(raw[k])) {
      DecodeEnvelope(raw, order);
    }
  }

  /** The text of a parsed child element: an element with no text has None. */
  function TextOf(t: string): Option<string>
  {
    if t == "" then None else Some(t)
  }

  /** The value to_dict stores for a child's text. */
  function TextValue(t: Option<string>): Value
  {
    match t
    case None => Null
    case Some(x) => Str(x)
  }

  /** to_dict's map, built child by child: a later child with the same tag
      overwrites an earlier one. */
  function Collect(cs: seq<(string, Option<string>)>): Fields
  {
    if cs == [] then map[]
    else Collect(cs[..|cs| - 1])[cs[|cs| - 1].0 := TextValue(cs[|cs| - 1].1)]
  }

  /** The tags of the mapping are the tags of the children. */
  lemma {:induction false} CollectKeys(cs: seq<(string, Option<string>)>)
    ensures forall k :: k in Collect(cs) <==> exists i :: 0 <= i < |cs| && cs[i].0 == k
  {
    if cs != [] {
      var init := cs[..|cs| - 1];
      CollectKeys(init);
      forall k | k in Collect(cs)
        ensures exists i :: 0 <= i < |cs| && cs[i].0 == k
      {
        if k != cs[|cs| - 1].0 {
          assert k in Collect(init);
          var i :| 0 <= i < |init| && init[i].0 == k;
          assert cs[i].0 == k;
        }
      }
      forall k | exists i :: 0 <= i < |cs| && cs[i].0 == k
        ensures k in Collect(cs)
      {
        var i :| 0 <= i < |cs| && cs[i].0 == k;
        if i < |cs| - 1 {
          assert init[i].0 == k;
        }
      }
    }
  }

  /** Each tag carries the text of its last child. */
  lemma {:induction false} CollectLastWins(cs: seq<(string, Option<string>)>, i: nat)
    requires i < |cs|
    requires forall j :: i < j < |cs| ==> cs[j].0 != cs[i].0
    ensures cs[i].0 in Collect(cs) && Collect(cs)[cs[i].0] == TextValue(cs[i].1)
  {
    if i < |cs| - 1 {
      var init := cs[..|cs| - 1];
      assert init[i] == cs[i];
      CollectLastWins(init, i);
    }
  }

  /** to_dict's loop over the children of the parsed root. */
  method ToDict(children: seq<(string, Option<string>)>) returns (raw: Fields)
    ensures raw == Collect(children)
  {
    raw := map[];
    var i := 0;
    while i < |children|
      invariant 0 <= i <= |children|
      invariant raw == Collect(children[..i])
    {
      assert children[..i + 1][..i] == children[..i];
      raw := raw[children[i].0 := TextValue(children[i].1)];
      i := i + 1;
    }
    assert children[..|children|] == children;
  }

  // A reader for the flat envelope. The client parses replies with an XML
  // library; this reader stands for it on the envelopes to_xml writes, and
  // is used only to say what the written text means.

  predicate NameChar(c: char)
  {
    'a' <= c <= 'z' || 'A' <= c <= 'Z' || IsDigit(c) || c == '_'
  }

  /** An element name: letters, digits and underscores, not starting with a digit. */
  predicate IsName(k: string)
  {
    |k| > 0 && !IsDigit(k[0]) && forall i :: 0 <= i < |k| ==> NameChar(k[i])
  }

  /** Text in which no element starts. */
  predicate NoTagOpen(t: string)
  {
    forall i :: 0 <= i < |t| ==> t[i] != '<'
  }

  /** A character XML 1.0 allows in a document (its `Char` production). */
  predicate XmlChar(c: char)
  {
    c == '\t' || c == '\n' || c == '\r'
    || (0x20 <= c as int <= 0xD7FF) || (0xE000 <= c as int <= 0xFFFD) || c as int >= 0x10000
  }

  /** Text an XML parser hands back unchanged from inside an element: no
      markup (`<`, `&`), no `]]>`, no carriage return (line ends are
      normalised to a line feed) and only characters XML allows. */
  predicate PlainText(t: string)
  {
    && (forall i :: 0 <= i < |t| ==> t[i] != '<' && t[i] != '&' && t[i] != '\r' && XmlChar(t[i]))
    && (forall i :: 0 <= i < |t| - 2 ==> !(t[i] == ']' && t[i + 1] == ']' && t[i + 2] == '>'))
  }

  /** The position of the first `c` in `s`, or |s| if there is none. */
  function IndexOf(s: string, c: char): (r: nat)
    ensures r <= |s|
    ensures r < |s| ==> s[r] == c
    ensures forall i :: 0 <= i < r ==> s[i] != c
  {
    if s == [] then 0 else if s[0] == c then 0 else 1 + IndexOf(s[1..], c)
  }

  lemma IndexOfFirst(a: string, b: string, c: char)
    requires forall i :: 0 <= i < |a| ==> a[i] != c
    requires |b| > 0 && b[0] == c
    ensures IndexOf(a + b, c) == |a|
  {
    var s := a + b;
    assert s[|a|] == c;
    assert forall i :: 0 <= i < |a| ==> s[i] == a[i];
  }

  /** The first element `<tag>text</tag>` of `s`: its tag, its text and what
      follows it, or None if `s` does not start with one. */
  function ReadElement(s: string): (r: Option<(string, Option<string>, string)>)
    ensures r.Some? ==> |r.value.2| < |s|
  {
    if s == [] || s[0] != '<' then None
    else
      var t := s[1..];
      var i := IndexOf(t, '>');
      if i == |t| then None
      else
        var tag := t[..i];
        var after := t[i + 1..];
        var j := IndexOf(after, '<');
        var tail := after[j..];
        var close := "</" + tag + ">";
        if !IsName(tag) || |tail| < |close| || tail[..|close|] != close then None
        else Some((tag, TextOf(after[..j]), tail[|close|..]))
  }

  /** The children of a run of elements, or None if the text is not such a run. */
  function ReadElements(s: string): Option<seq<(string, Option<string>)>>
    decreases |s|
  {
    if s == [] then Some([])
    else
      match ReadElement(s)
      case None => None
      case Some((tag, text, rest)) =>
        match ReadElements(rest)
        case None => None
        case Some(cs) => Some([(tag, text)] + cs)
  }

  /** The children of a flat `<xml>` envelope, or None if it is not one. */
  function ReadEnvelope(s: string): Option<seq<(string, Option<string>)>>
  {
    if |s| >= 11 && s[..5] == "<xml>" && s[|s| - 6..] == "</xml>" then ReadElements(s[5..|s| - 6])
    else None
  }

  /** A reply body read as the field mapping to_dict makes of it. */
  function Decode(s: string): Option<Fields>
  {
    match ReadEnvelope(s)
    case None => None
    case Some(cs) => Some(Collect(cs))
  }

  /** What a written element reads back as: its text, or None when empty. */
  function Decoded(v: Value): Value
  {
    TextValue(TextOf(Format(v)))
  }

  /** The children the reader finds in a body written for `order`. */
  function Children(m: Fields, order: seq<string>): (r: seq<(string, Option<string>)>)
    requires forall i :: 0 <= i < |order| ==> order[i] in m
    ensures |r| == |order|
    ensures forall i :: 0 <= i < |order| ==> r[i] == (order[i], TextOf(Format(m[order[i]])))
  {
    if order == [] then [] else [(order[0], TextOf(Format(m[order[0]])))] + Children(m, order[1..])
  }

  /** The reader's three cuts on `<k>t</k>rest`: the tag, the text and the
      closing tag. */
  lemma OpenTag(k: string, after: string)
    requires IsName(k)
    ensures var t1 := k + (">" + after);
      IndexOf(t1, '>') == |k| && t1[..|k|] == k && t1[|k| + 1..] == after
  {
    IndexOfFirst(k, ">" + after, '>');
    var t1 := k + (">" + after);
    assert t1[|k| + 1..] == after;
  }

  lemma TextRun(t: string, tail: string)
    requires NoTagOpen(t) && |tail| > 0 && tail[0] == '<'
    ensures IndexOf(t + tail, '<') == |t| && (t + tail)[..|t|] == t && (t + tail)[|t|..] == tail
  {
    IndexOfFirst(t, tail, '<');
  }

  lemma CloseTag(close: string, rest: string)
    ensures |close + rest| >= |close|
    ensures (close + rest)[..|close|] == close && (close + rest)[|close|..] == rest
  {
  }

  /** The reader's result once the positions of its three cuts are known. */
  lemma ReadElementAt(s: string, k: string, after: string, t: string, tail: string, rest: string)
    requires IsName(k) && |s| > 0 && s[0] == '<'
    requires IndexOf(s[1..], '>') == |k| < |s[1..]| && s[1..][..|k|] == k && s[1..][|k| + 1..] == after
    requires IndexOf(after, '<') == |t| <= |after| && after[..|t|] == t && after[|t|..] == tail
    requires |tail| >= |"</" + k + ">"| && tail[..|"</" + k + ">"|] == "</" + k + ">"
    requires tail[|"</" + k + ">"|..] == rest
    ensures ReadElement(s) == Some((k, TextOf(t), rest))
  {
  }

  /** One element written for a name and a text with no `<` is read back whole. */
  lemma ReadElementOne(k: string, t: string, rest: string)
    requires IsName(k) && NoTagOpen(t)
    ensures ReadElement("<" + k + ">" + t + "</" + k + ">" + rest) == Some((k, TextOf(t), rest))
  {
    ReadElementNested(k, t, rest);
    Flatten(k, t, rest);
  }

  // Regroups the concatenation so that each reading step sees one piece at a time.
  lemma Flatten(k: string, t: string, rest: string)
    ensures "<" + k + ">" + t + "</" + k + ">" + rest == "<" + (k + (">" + (t + (("</" + k + ">") + rest))))
  {
  }

  // ReadElementOne, on the regrouped text.
  lemma ReadElementNested(k: string, t: string, rest: string)
    requires IsName(k) && NoTagOpen(t)
    ensures ReadElement("<" + (k + (">" + (t + (("</" + k + ">") + rest))))) == Some((k, TextOf(t), rest))
  {
    var close := "</" + k + ">";
    var tail := close + rest;
    var after := t + tail;
    var t1 := k + (">" + after);
    var s := "<" + t1;
    assert s[1..] == t1;
    OpenTag(k, after);
    TextRun(t, tail);
    CloseTag(close, rest);
    ReadElementAt(s, k, after, t, tail, rest);
  }

  /** One element written for a name and a text with no `<` reads back as that child. */
  lemma ReadOne(k: string, t: string, rest: string)
    requires IsName(k) && NoTagOpen(t)
    ensures ReadElements("<" + k + ">" + t + "</" + k + ">" + rest)
         == match ReadElements(rest)
            case None => None
            case Some(cs) => Some([(k, TextOf(t))] + cs)
  {
    ReadElementOne(k, t, rest);
  }

  lemma {:induction false} ReadBody(m: Fields, order: seq<string>)
    requires forall i :: 0 <= i < |order| ==> order[i] in m
    requires forall i :: 0 <= i < |order| ==> IsName(order[i]) && PlainText(Format(m[order[i]]))
    ensures ReadElements(Body(m, order)) == Some(Children(m, order))
  {
    if order != [] {
      var k := order[0];
      ReadBody(m, order[1..]);
      ReadOne(k, Format(m[k]), Body(m, order[1..]));
      assert Body(m, order) == "<" + k + ">" + Format(m[k]) + "</" + k + ">" + Body(m, order[1..]);
    }
  }

  lemma ReadWritten(m: Fields, order: seq<string>)
    requires forall i :: 0 <= i < |order| ==> order[i] in m
    requires forall i :: 0 <= i < |order| ==> IsName(order[i]) && PlainText(Format(m[order[i]]))
    ensures ReadEnvelope(EnvelopeText(m, order)) == Some(Children(m, order))
  {
    ReadBody(m, order);
  }

  /** In a list of children with distinct tags each tag keeps its own text. */
  lemma CollectDistinct(cs: seq<(string, Option<string>)>)
    requires forall i, j :: 0 <= i < j < |cs| ==> cs[i].0 != cs[j].0
    ensures forall i :: 0 <= i < |cs| ==> cs[i].0 in Collect(cs) && Collect(cs)[cs[i].0] == TextValue(cs[i].1)
  {
    forall i | 0 <= i < |cs|
      ensures cs[i].0 in Collect(cs) && Collect(cs)[cs[i].0] == TextValue(cs[i].1)
    {
      CollectLastWins(cs, i);
    }
  }

  lemma ChildrenTags(m: Fields, order: seq<string>)
    requires Listing(order, m.Keys)
    ensures Collect(Children(m, order)).Keys == m.Keys
  {
    var cs := Children(m, order);
    var d := Collect(cs);
    CollectKeys(cs);
    forall k | k in d
      ensures k in m
    {
      var i :| 0 <= i < |cs| && cs[i].0 == k;
      assert order[i] == k;
    }
    forall k | k in m
      ensures k in d
    {
      var i :| 0 <= i < |order| && order[i] == k;
      assert cs[i].0 == k;
    }
  }

  lemma ChildrenTexts(m: Fields, order: seq<string>)
    requires Listing(order, m.Keys)
    ensures forall k :: k in m ==> k in Collect(Children(m, order)) && Collect(Children(m, order))[k] == Decoded(m[k])
  {
    var cs := Children(m, order);
    CollectDistinct(cs);
    forall k | k in m
      ensures k in Collect(cs) && Collect(cs)[k] == Decoded(m[k])
    {
      var i :| 0 <= i < |order| && order[i] == k;
      assert cs[i] == (k, TextOf(Format(m[k])));
    }
  }

  lemma CollectChildren(m: Fields, order: seq<string>)
    requires Listing(order, m.Keys)
    ensures Collect(Children(m, order)) == map k | k in m :: Decoded(m[k])
  {
    ChildrenTags(m, order);
    ChildrenTexts(m, order);
  }

  /** Reading back what to_xml wrote: when every key is an element name and
      every value's text is plain, the envelope decodes, whatever order the
      keys were written in, to the same keys with each value's text (None for
      an empty text). */
  lemma DecodeEnvelope(m: Fields, order: seq<string>)
    requires Listing(order, m.Keys)
    requires forall k :: k in m ==> IsName(k) && PlainText(Format(m[k]))
    ensures Decode(EnvelopeText(m, order)) == Some(map k | k in m :: Decoded(m[k]))
  {
    ReadWritten(m, order);
    CollectChildren(m, order);
  }

  /** The round trip: a mapping of non-empty plain text values decodes to itself. */
  lemma RoundTrip(m: Fields, order: seq<string>)
    requires Listing(order, m.Keys)
    requires forall k :: k in m ==> IsName(k) && m[k].Str? && m[k].s != "" && PlainText(m[k].s)
    ensures Decode(EnvelopeText(m, order)) == Some(m)
  {
    var d := map k | k in m :: Decoded(m[k]);
    forall k | k in m
      ensures PlainText(Format(m[k])) && d[k] == m[k]
    {
    }
    assert d == m;
    DecodeEnvelope(m, order);
  }
}
