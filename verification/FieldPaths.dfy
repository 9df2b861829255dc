/** How a weight reference's field path, written in JSONPath form, becomes the JSON Pointer
    (RFC 6901) that a weight patch carries. */
module FieldPaths {
  import opened Prelude

  /** One step of a field path: `.name` or `[i]`. */
  datatype Segment = Field(name: string) | Index(i: nat)

  type Path = seq<Segment>

  function PrintSegment(s: Segment): string {
    match s
    case Field(name) => "." + name
    case Index(i) => "[" + Decimal(i) + "]"
  }

  /** The text of the path, as a weightObjRef's fieldPath holds it. */
  function Print(p: Path): string {
    if p == [] then "" else PrintSegment(p[0]) + Print(p[1..])
  }

  function Token(s: Segment): string {
    match s
    case Field(name) => name
    case Index(i) => Decimal(i)
  }

  function Tokens(p: Path): (t: seq<string>)
    ensures |t| == |p|
  {
    if p == [] then [] else [Token(p[0])] + Tokens(p[1..])
  }

  /** strings.Replace(s, old, new, -1). */
  function ReplaceAll(s: string, old': string, new': string): string
    requires old' != []
  {
    if |s| < |old'| then s
    else if s[..|old'|] == old' then new' + ReplaceAll(s[|old'|..], old', new')
    else [s[0]] + ReplaceAll(s[1..], old', new')
  }

  /** The three global replacements addPatch applies, in its order. */
  function Translate(fieldPath: string): string {
    ReplaceAll(ReplaceAll(ReplaceAll(fieldPath, "[", "/"), "].", "/"), ".", "/")
  }

  // ---- JSON Pointers, section 3 of RFC 6901 ----

  function Escape(token: string): string {
    if token == [] then []
    else (if token[0] == '~' then "~0" else if token[0] == '/' then "~1" else [token[0]]) + Escape(token[1..])
  }

  function Pointer(tokens: seq<string>): string {
    if tokens == [] then "" else "/" + (Escape(tokens[0]) + Pointer(tokens[1..]))
  }

  function Unescape(s: string): string {
    if |s| < 2 then s
    else if s[0] == '~' && s[1] == '0' then "~" + Unescape(s[2..])
    else if s[0] == '~' && s[1] == '1' then "/" + Unescape(s[2..])
    else [s[0]] + Unescape(s[1..])
  }

  /** The number of characters before the first slash. */
  function TokenLength(s: string): (n: nat)
    ensures n <= |s| && '/' !in s[..n] && (n < |s| ==> s[n] == '/')
  {
    if s == [] || s[0] == '/' then 0 else 1 + TokenLength(s[1..])
  }

  /** The reference tokens a pointer names; None when it does not start with a slash. */
  function ParsePointer(s: string): (r: Option<seq<string>>)
    decreases |s|
  {
    if s == [] then Some([])
    else if s[0] != '/' then None
    else
      var n := TokenLength(s[1..]);
      match ParsePointer(s[1 + n..])
      case None => None
      case Some(rest) => Some([Unescape(s[1..1 + n])] + rest)
  }

  lemma {:induction false} EscapeRoundTrip(token: string)
    ensures Unescape(Escape(token)) == token && '/' !in Escape(token)
  {
    if token != [] {
      EscapeRoundTrip(token[1..]);
      var tail := Escape(token[1..]);
      var e := Escape(token);
      if token[0] == '~' || token[0] == '/' {
        assert e[2..] == tail;
      } else {
        assert e[1..] == tail;
      }
    }
  }

  /** Parsing peels one escaped token off the front. */
  lemma {:induction false} ParseStep(e: string, rest: string, tail: seq<string>)
    requires '/' !in e && (rest == [] || rest[0] == '/')
    requires ParsePointer(rest) == Some(tail)
    ensures ParsePointer("/" + (e + rest)) == Some([Unescape(e)] + tail)
  {
    var s := "/" + (e + rest);
    assert s[1..] == e + rest;
    TokenLengthAppend(e, rest);
    assert s[1..1 + |e|] == e && s[1 + |e|..] == rest;
  }

  /** Every pointer parses back to the tokens it was made from, whatever characters they hold. */
  lemma {:induction false} PointerRoundTrip(tokens: seq<string>)
    ensures ParsePointer(Pointer(tokens)) == Some(tokens)
  {
    if tokens != [] {
      PointerRoundTrip(tokens[1..]);
      EscapeRoundTrip(tokens[0]);
      ParseStep(Escape(tokens[0]), Pointer(tokens[1..]), tokens[1..]);
      assert [tokens[0]] + tokens[1..] == tokens;
    }
  }

  lemma {:induction false} TokenLengthAppend(e: string, rest: string)
    requires '/' !in e && (rest == [] || rest[0] == '/')
    ensures TokenLength(e + rest) == |e|
  {
    if e == [] {
      assert e + rest == rest;
    } else {
      assert (e + rest)[1..] == e[1..] + rest;
      TokenLengthAppend(e[1..], rest);
    }
  }

  // ---- The replacements compute the pointer exactly when every index is followed by a field ----

  /** Field names with none of the characters the replacements or RFC 6901 treat specially. */
  predicate PlainName(s: string) {
    forall c :: c in s ==> c !in "./[]~"
  }

  predicate PlainNames(p: Path) {
    forall i :: 0 <= i < |p| && p[i].Field? ==> PlainName(p[i].name)
  }

  predicate IndexThenField(p: Path) {
    forall i :: 0 <= i < |p| && p[i].Index? ==> i + 1 < |p| && p[i + 1].Field?
  }

  lemma {:induction false} ReplaceCharAppend(a: string, b: string, c: char, new': string)
    ensures ReplaceAll(a + b, [c], new') == ReplaceAll(a, [c], new') + ReplaceAll(b, [c], new')
  {
    if a == [] {
      assert a + b == b;
    } else {
      assert (a + b)[1..] == a[1..] + b;
      assert (a + b)[..1] == [a[0]] == a[..1];
      ReplaceCharAppend(a[1..], b, c, new');
    }
  }

  lemma {:induction false} ReplaceCharAbsent(a: string, c: char, new': string)
    requires c !in a
    ensures ReplaceAll(a, [c], new') == a
  {
    if a != [] {
      assert a[..1] == [a[0]];
      ReplaceCharAbsent(a[1..], c, new');
    }
  }

  /** A text with no closing bracket passes through the second replacement unchanged. */
  lemma {:induction false} CloseDotSkips(a: string, b: string)
    requires ']' !in a
    ensures ReplaceAll(a + b, "].", "/") == a + ReplaceAll(b, "].", "/")
  {
    if a == [] {
      assert a + b == b;
    } else {
      var s := a + b;
      assert s[1..] == a[1..] + b;
      CloseDotSkips(a[1..], b);
      if 2 <= |s| {
        assert s[..2][0] == a[0];
      } else {
        assert b == [] && a[1..] == [];
        assert ReplaceAll(b, "].", "/") == [];
      }
    }
  }

  lemma {:induction false} CloseDotReplaces(b: string)
    ensures ReplaceAll("]." + b, "].", "/") == "/" + ReplaceAll(b, "].", "/")
  {
  }

  /** A closing bracket not followed by a dot survives the second replacement. */
  lemma {:induction false} CloseStays(b: string)
    requires b == [] || b[0] != '.'
    ensures ReplaceAll("]" + b, "].", "/") == "]" + ReplaceAll(b, "].", "/")
  {
    var s := "]" + b;
    assert s[1..] == b;
    if b != [] {
      assert s[..2][1] == b[0];
    }
  }

  lemma {:induction false} PlainEscape(name: string)
    requires PlainName(name)
    ensures Escape(name) == name
  {
    if name != [] {
      PlainEscape(name[1..]);
      assert name[0] in name;
      assert [name[0]] + name[1..] == name;
    }
  }

  lemma DecimalPlain(i: nat)
    ensures PlainName(Decimal(i))
  {
  }

  /** The text after the first replacement. */
  function Opened(p: Path): string {
    ReplaceAll(Print(p), "[", "/")
  }

  /** What the first replacement makes of one step of the path. */
  function OpenedSegment(s: Segment): string {
    match s
    case Field(name) => "." + name
    case Index(i) => "/" + Decimal(i) + "]"
  }

  lemma OpensSegment(s: Segment)
    requires s.Field? ==> PlainName(s.name)
    ensures ReplaceAll(PrintSegment(s), "[", "/") == OpenedSegment(s)
  {
    match s {
      case Field(name) =>
        ReplaceCharAbsent("." + name, '[', "/");
      case Index(i) =>
        DecimalPlain(i);
        var d := Decimal(i) + "]";
        ReplaceCharAbsent(d, '[', "/");
        var t := PrintSegment(s);
        assert t == "[" + d;
        assert t[..1] == "[" && t[1..] == d;
        assert ReplaceAll(t, "[", "/") == "/" + d;
    }
  }

  lemma {:induction false} OpenedCons(p: Path)
    requires p != [] && PlainNames(p)
    ensures Opened(p) == OpenedSegment(p[0]) + Opened(p[1..])
  {
    hide ReplaceAll, PrintSegment, OpenedSegment, PlainName;
    OpensSegment(p[0]);
    ReplaceCharAppend(PrintSegment(p[0]), Print(p[1..]), '[', "/");
  }

  /** What the last two replacements make of a text that starts with a field or an index. */
  function Closed(s: string): string {
    ReplaceAll(ReplaceAll(s, "].", "/"), ".", "/")
  }

  lemma {:induction false} ClosedField(name: string, rest: string)
    requires PlainName(name)
    ensures Closed("." + name + rest) == "/" + name + Closed(rest)
  {
    CloseDotSkips("." + name, rest);
    var tail := ReplaceAll(rest, "].", "/");
    ReplaceCharAppend("." + name, tail, '.', "/");
    ReplaceCharAbsent(name, '.', "/");
    assert ("." + name)[1..] == name && ("." + name)[..1] == ".";
  }

  lemma {:induction false} ClosedIndexField(i: nat, name: string, rest: string)
    requires PlainName(name)
    ensures Closed("/" + Decimal(i) + "]" + ("." + name + rest)) == "/" + Decimal(i) + ("/" + name + Closed(rest))
  {
    DecimalPlain(i);
    ClosedBracketDot("/" + Decimal(i), name, rest);
    var d := "/" + Decimal(i);
    assert d + "]" + ("." + name + rest) == d + ("]." + (name + rest));
    assert d + "/" + name + Closed(rest) == d + ("/" + name + Closed(rest));
  }

  lemma {:induction false} ClosedBracketDot(d: string, name: string, rest: string)
    requires ']' !in d && '.' !in d && PlainName(name)
    ensures Closed(d + ("]." + (name + rest))) == d + "/" + name + Closed(rest)
  {
    CloseDotSkips(d, "]." + (name + rest));
    CloseDotReplaces(name + rest);
    CloseDotSkips(name, rest);
    var tail := ReplaceAll(rest, "].", "/");
    DotsAfterPlain(d, name, tail);
  }

  lemma {:induction false} DotsAfterPlain(d: string, name: string, tail: string)
    requires '.' !in d && '.' !in name
    ensures ReplaceAll(d + ("/" + (name + tail)), ".", "/") == d + "/" + name + ReplaceAll(tail, ".", "/")
  {
    var h := d + "/" + name;
    assert d + ("/" + (name + tail)) == h + tail;
    ReplaceCharAppend(h, tail, '.', "/");
    ReplaceCharAbsent(h, '.', "/");
  }

  /** What the three replacements make of the path's text. */
  function Translated(p: Path): string {
    Closed(Opened(p))
  }

  lemma {:induction false} FieldStep(p: Path)
    requires p != [] && p[0].Field? && PlainNames(p)
    ensures Translated(p) == "/" + (p[0].name + Translated(p[1..]))
  {
    hide ReplaceAll, Closed, Opened;
    OpenedCons(p);
    var name, rest := p[0].name, Opened(p[1..]);
    assert OpenedSegment(p[0]) == "." + name;
    ClosedField(name, rest);
    assert "/" + name + Closed(rest) == "/" + (name + Closed(rest));
  }

  lemma {:induction false} IndexFieldStep(p: Path)
    requires 2 <= |p| && p[0].Index? && p[1].Field? && PlainNames(p)
    ensures Translated(p) == "/" + (Decimal(p[0].i) + ("/" + (p[1].name + Translated(p[2..]))))
  {
    hide ReplaceAll, Closed, Opened, Decimal;
    OpenedIndexField(p);
    assert p[1] in p && PlainName(p[1].name);
    ClosedIndexField(p[0].i, p[1].name, Opened(p[2..]));
    var d, name, t := Decimal(p[0].i), p[1].name, Translated(p[2..]);
    assert "/" + d + ("/" + name + t) == "/" + (d + ("/" + (name + t)));
  }

  lemma {:induction false} OpenedIndexField(p: Path)
    requires 2 <= |p| && p[0].Index? && p[1].Field? && PlainNames(p)
    ensures Opened(p) == "/" + Decimal(p[0].i) + "]" + ("." + p[1].name + Opened(p[2..]))
  {
    RestIsGood(p, 1);
    assert p[1..][1..] == p[2..];
    OpenedCons(p);
    OpenedCons(p[1..]);
    assert OpenedSegment(p[0]) == "/" + Decimal(p[0].i) + "]" && OpenedSegment(p[1]) == "." + p[1].name;
    hide *;
  }

  /** The pointer of a path whose first field name or index is peeled off. */
  lemma {:induction false} PointerStep(p: Path)
    requires p != [] && PlainNames(p)
    ensures Pointer(Tokens(p)) == "/" + (Token(p[0]) + Pointer(Tokens(p[1..])))
    ensures ']' !in Token(p[0])
  {
    if p[0].Index? {
      DecimalPlain(p[0].i);
    }
    PlainEscape(Token(p[0]));
    assert Tokens(p)[1..] == Tokens(p[1..]);
  }

  lemma RestIsGood(p: Path, k: nat)
    requires k <= |p| && PlainNames(p)
    ensures PlainNames(p[k..])
    ensures IndexThenField(p) ==> IndexThenField(p[k..])
  {
  }

  lemma {:induction false} GoodTranslation(p: Path)
    requires PlainNames(p) && IndexThenField(p)
    ensures Translated(p) == Pointer(Tokens(p))
    decreases |p|
  {
    if p == [] {
    } else if p[0].Field? {
      RestIsGood(p, 1);
      FieldStep(p);
      PointerStep(p);
      GoodTranslation(p[1..]);
    } else {
      assert p[1].Field?;
      RestIsGood(p, 1);
      RestIsGood(p, 2);
      assert p[1..][1..] == p[2..];
      IndexFieldStep(p);
      PointerStep(p);
      PointerStep(p[1..]);
      GoodTranslation(p[2..]);
    }
  }

  lemma {:induction false} PointerPlain(p: Path)
    requires PlainNames(p)
    ensures ']' !in Pointer(Tokens(p))
  {
    if p != [] {
      RestIsGood(p, 1);
      PointerStep(p);
      PointerPlain(p[1..]);
    }
  }

  lemma {:induction false} StrayStep(p: Path)
    requires p != [] && p[0].Index? && PlainNames(p) && (|p| == 1 || p[1].Index?)
    ensures ']' in Translated(p)
  {
    hide ReplaceAll, Closed, Opened, Decimal;
    OpenedCons(p);
    var d, o := "/" + Decimal(p[0].i), Opened(p[1..]);
    OpenedIndexHead(p[1..]) by {
      RestIsGood(p, 1);
    }
    assert PlainName(Decimal(p[0].i)) by {
      DecimalPlain(p[0].i);
    }
    assert d + "]" + o == d + ("]" + o);
    StrayText(d, o);
  }

  lemma OpenedIndexHead(p: Path)
    requires PlainNames(p) && (p == [] || p[0].Index?)
    ensures Opened(p) == [] || Opened(p)[0] == '/'
  {
  }

  lemma {:induction false} StrayText(d: string, o: string)
    requires ']' !in d && '.' !in d && (o == [] || o[0] != '.')
    ensures ']' in Closed(d + ("]" + o))
  {
    CloseDotSkips(d, "]" + o);
    CloseStays(o);
    var tail := ReplaceAll(o, "].", "/");
    var h := d + "]";
    assert d + ("]" + tail) == h + tail;
    ReplaceCharAppend(h, tail, '.', "/");
    ReplaceCharAbsent(h, '.', "/");
    assert h[|h| - 1] == ']';
  }

  /** A path with an index that no field follows keeps a stray closing bracket. */
  lemma {:induction false} StrayBracket(p: Path)
    requires PlainNames(p) && !IndexThenField(p)
    ensures ']' in Translated(p)
    decreases |p|
  {
    var j :| 0 <= j < |p| && p[j].Index? && !(j + 1 < |p| && p[j + 1].Field?);
    if p[0].Field? {
      RestIsGood(p, 1);
      assert p[1..][j - 1] == p[j];
      FieldStep(p);
      StrayBracket(p[1..]);
    } else if 1 < |p| && p[1].Field? {
      RestIsGood(p, 2);
      assert p[2..][j - 2] == p[j];
      IndexFieldStep(p);
      StrayBracket(p[2..]);
    } else {
      StrayStep(p);
    }
  }

  /** For plain field names the three replacements give the JSON Pointer of the same path
      if and only if every index is immediately followed by a field. */
  lemma {:induction false} TranslationIsPointer(p: Path)
    requires PlainNames(p)
    ensures Translate(Print(p)) == Pointer(Tokens(p)) <==> IndexThenField(p)
    ensures IndexThenField(p) ==> ParsePointer(Translate(Print(p))) == Some(Tokens(p))
  {
    PointerPlain(p);
    PointerRoundTrip(Tokens(p));
    if IndexThenField(p) {
      GoodTranslation(p);
    } else {
      StrayBracket(p);
    }
  }

  const ARRAY_ELEMENT := [Field("weights"), Index(1)]

  lemma ArrayElementTokens()
    ensures Tokens(ARRAY_ELEMENT) == ["weights", "1"]
    ensures PlainNames(ARRAY_ELEMENT) && !IndexThenField(ARRAY_ELEMENT)
  {
  }

  /** The path `.weights[1]`, a reference to an array's element: its translation is not its pointer. */
  lemma ArrayElementIsMissed()
    ensures Print(ARRAY_ELEMENT) == ".weights[1]"
    ensures Translate(".weights[1]") != Pointer(["weights", "1"])
  {
    var p := ARRAY_ELEMENT;
    assert Print(p) == ".weights[1]" by {
      assert p[1..] == [Index(1)] && p[1..][1..] == [];
      assert Print([Index(1)]) == "[1]";
    }
    hide *;
    ArrayElementTokens();
    TranslationIsPointer(ARRAY_ELEMENT);
  }
}
