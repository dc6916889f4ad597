/** JSON texts as RFC 8259 reads them, and texts put together with unescaped strings. */
module JsonText {
  import opened Text

  /** A JSON value; a number is kept as it is written. */
  datatype Json =
    | Null
    | Bool(b: bool)
    | Num(text: string)
    | Str(s: string)
    | Arr(items: seq<Json>)
    | Obj(members: seq<Member>)

  datatype Member = Member(name: string, value: Json)

  /** A value read from the front of a text, and what follows it. */
  datatype Read<T> = Malformed | Found(value: T, rest: string)

  /* ---------- the grammar ---------- */

  /** Section 2: insignificant whitespace. */
  function SkipWs(s: string): (r: string)
    ensures |r| <= |s|
  {
    if s != "" && (s[0] == ' ' || s[0] == '\t' || s[0] == '\n' || s[0] == '\r') then SkipWs(s[1..]) else s
  }

  /** A character expected after whitespace. */
  function Token(s: string, c: char): (r: Read<()>)
    ensures r.Found? ==> |r.rest| < |s|
  {
    var t := SkipWs(s);
    if t != "" && t[0] == c then Found((), t[1..]) else Malformed
  }

  function HexDigit(c: char): (r: int)
    ensures -1 <= r < 16
  {
    if '0' <= c <= '9' then c as int - '0' as int
    else if 'a' <= c <= 'f' then c as int - 'a' as int + 10
    else if 'A' <= c <= 'F' then c as int - 'A' as int + 10
    else -1
  }

  /** Section 7: the character after a backslash; a surrogate is not read. */
  function Escaped(s: string): (r: Read<char>)
    ensures r.Found? ==> |r.rest| < |s|
  {
    if s == "" then Malformed
    else match s[0]
      case '"' => Found('"', s[1..])
      case '\\' => Found('\\', s[1..])
      case '/' => Found('/', s[1..])
      case 'b' => Found(8 as char, s[1..])
      case 'f' => Found(12 as char, s[1..])
      case 'n' => Found('\n', s[1..])
      case 'r' => Found('\r', s[1..])
      case 't' => Found('\t', s[1..])
      case 'u' =>
        if |s| < 5 || (exists i | 1 <= i < 5 :: HexDigit(s[i]) < 0) then Malformed
        else
          var code := ((HexDigit(s[1]) * 16 + HexDigit(s[2])) * 16 + HexDigit(s[3])) * 16 + HexDigit(s[4]);
          if 0 <= code < 0xD800 || 0xDFFF < code < 0x10000 then Found(code as char, s[5..]) else Malformed
      case _ => Malformed
  }

  /** Section 7: a string from after its opening quote. */
  function ParseString(s: string): (r: Read<string>)
    ensures r.Found? ==> |r.rest| < |s|
    decreases |s|
  {
    if s == "" || s[0] < ' ' then Malformed
    else if s[0] == '"' then Found("", s[1..])
    else
      var first := if s[0] == '\\' then Escaped(s[1..]) else Found(s[0], s[1..]);
      if first.Malformed? then Malformed
      else
        var more := ParseString(first.rest);
        if more.Malformed? then Malformed else Found([first.value] + more.value, more.rest)
  }

  function Digits(s: string): (r: string)
    ensures r <= s
  {
    if s != "" && IsDigit(s[0]) then [s[0]] + Digits(s[1..]) else ""
  }

  /** Section 6, without fraction and exponent. */
  function ParseNumber(s: string): (r: Read<Json>)
    ensures r.Found? ==> |r.rest| < |s|
  {
    var sign := if s != "" && s[0] == '-' then 1 else 0;
    var digits := Digits(s[sign..]);
    if digits == "" || (|digits| > 1 && digits[0] == '0') then Malformed
    else Found(Num(s[..sign] + digits), s[sign + |digits|..])
  }

  /** Section 3: the literal names, and numbers. */
  function ParseWord(s: string): (r: Read<Json>)
    ensures r.Found? ==> |r.rest| < |s|
  {
    if "true" <= s then Found(Bool(true), s[4..])
    else if "false" <= s then Found(Bool(false), s[5..])
    else if "null" <= s then Found(Null, s[4..])
    else ParseNumber(s)
  }

  function ParseQuoted(s: string): (r: Read<Json>)
    ensures r.Found? ==> |r.rest| < |s|
  {
    var str := ParseString(s);
    if str.Malformed? then Malformed else Found(Str(str.value), str.rest)
  }

  /** Section 3: a value. */
  function ParseValue(s: string): (r: Read<Json>)
    ensures r.Found? ==> |r.rest| < |s|
    decreases |s|, 1
  {
    var t := SkipWs(s);
    if t == "" then Malformed
    else if t[0] == '"' then ParseQuoted(t[1..])
    else if t[0] == '[' then ParseArray(t[1..])
    else if t[0] == '{' then ParseObject(t[1..])
    else ParseWord(t)
  }

  /** Section 5: an array from after its bracket. */
  function ParseArray(s: string): (r: Read<Json>)
    ensures r.Found? ==> |r.rest| < |s|
    decreases |s|, 3
  {
    if Token(s, ']').Found? then Found(Arr([]), Token(s, ']').rest)
    else
      var items := ParseItems(s);
      if items.Malformed? then Malformed else Found(Arr(items.value), items.rest)
  }

  /** Section 4: an object from after its brace. */
  function ParseObject(s: string): (r: Read<Json>)
    ensures r.Found? ==> |r.rest| < |s|
    decreases |s|, 3
  {
    if Token(s, '}').Found? then Found(Obj([]), Token(s, '}').rest)
    else
      var members := ParseMembers(s);
      if members.Malformed? then Malformed else Found(Obj(members.value), members.rest)
  }

  /** Section 5: the elements of a non-empty array. */
  function ParseItems(s: string): (r: Read<seq<Json>>)
    ensures r.Found? ==> |r.rest| < |s|
    decreases |s|, 2
  {
    var v := ParseValue(s);
    if v.Malformed? then Malformed
    else if Token(v.rest, ']').Found? then Found([v.value], Token(v.rest, ']').rest)
    else if Token(v.rest, ',').Malformed? then Malformed
    else
      var more := ParseItems(Token(v.rest, ',').rest);
      if more.Malformed? then Malformed else Found([v.value] + more.value, more.rest)
  }

  /** Section 4: the members of a non-empty object. */
  function ParseMembers(s: string): (r: Read<seq<Member>>)
    ensures r.Found? ==> |r.rest| < |s|
    decreases |s|, 2
  {
    var m := ParseMember(s);
    if m.Malformed? then Malformed
    else if Token(m.rest, '}').Found? then Found([m.value], Token(m.rest, '}').rest)
    else if Token(m.rest, ',').Malformed? then Malformed
    else
      var more := ParseMembers(Token(m.rest, ',').rest);
      if more.Malformed? then Malformed else Found([m.value] + more.value, more.rest)
  }

  function ParseMember(s: string): (r: Read<Member>)
    ensures r.Found? ==> |r.rest| < |s|
    decreases |s|, 1
  {
    if Token(s, '"').Malformed? then Malformed
    else
      var name := ParseString(Token(s, '"').rest);
      if name.Malformed? || Token(name.rest, ':').Malformed? then Malformed
      else
        var v := ParseValue(Token(name.rest, ':').rest);
        if v.Malformed? then Malformed else Found(Member(name.value, v.value), v.rest)
  }

  /** A whole text. */
  function Parse(s: string): Read<Json> {
    var v := ParseValue(s);
    if v.Malformed? || SkipWs(v.rest) != "" then Malformed else v.(rest := "")
  }

  /* ---------- texts put together ---------- */

  /** Section 7: a string whose characters may all stand unescaped. */
  predicate Unescaped(s: string) { forall i | 0 <= i < |s| :: s[i] >= ' ' && s[i] != '"' && s[i] != '\\' }

  function Quoted(s: string): string { "\"" + s + "\"" }

  /** `"name": value`, and the blanks after the comma when another field follows. */
  datatype Field = Field(name: string, text: string, gap: string)

  function FieldText(f: Field): string { Quoted(f.name) + ": " + f.text }

  function Fields(fs: seq<Field>): string {
    if fs == [] then ""
    else if |fs| == 1 then FieldText(fs[0])
    else FieldText(fs[0]) + "," + fs[0].gap + Fields(fs[1..])
  }

  function ObjectText(fs: seq<Field>): string { "{" + Fields(fs) + "}" }

  function ArrayText(items: seq<string>): string { "[" + Join(items, ", ") + "]" }

  /** What may follow a value. */
  predicate Ends(t: string) { t == "" || t[0] == ',' || t[0] == ']' || t[0] == '}' }

  /** The text starts with the value's first character and reads as the value. */
  ghost predicate Reads(text: string, v: Json) {
    && SkipWs(text) == text && text != "" && !Ends(text)
    && forall t | Ends(t) :: ParseValue(text + t) == Found(v, t)
  }

  lemma {:induction false} UnescapedReads(s: string, t: string)
    requires Unescaped(s)
    ensures ParseString(s + "\"" + t) == Found(s, t)
  {
    var text := s + "\"" + t;
    if s == "" {
      assert text[1..] == t;
    } else {
      assert text[0] == s[0] && text[1..] == s[1..] + "\"" + t;
      UnescapedReads(s[1..], t);
      assert [s[0]] + s[1..] == s;
    }
  }

  lemma QuotedReads(s: string)
    requires Unescaped(s)
    ensures Reads(Quoted(s), Str(s))
  {
    forall t ensures ParseValue(Quoted(s) + t) == Found(Str(s), t) {
      UnescapedReads(s, t);
      assert (Quoted(s) + t)[1..] == s + "\"" + t;
    }
  }

  lemma {:induction false} DigitsOf(s: string, t: string)
    requires AllDigits(s) && Ends(t)
    ensures Digits(s + t) == s
  {
    if s == "" {
      assert s + t == t;
    } else {
      assert (s + t)[0] == s[0] && (s + t)[1..] == s[1..] + t;
      DigitsOf(s[1..], t);
    }
  }

  /** `%d` */
  function Number(n: int): string { if n < 0 then "-" + Decimal(-n) else Decimal(n) }

  lemma NumberParts(sign: string, d: string, t: string)
    requires (sign == "" || sign == "-") && d != "" && AllDigits(d) && (|d| > 1 ==> d[0] != '0') && Ends(t)
    ensures ParseNumber(sign + d + t) == Found(Num(sign + d), t)
  {
    DigitsOf(d, t);
    assert IsDigit(d[0]);
    Regroup(sign, d, t);
    Pieces(sign, d + t);
    Pieces(sign + d, t);
  }

  lemma Pieces(a: string, b: string)
    ensures (a + b)[..|a|] == a && (a + b)[|a|..] == b && a <= a + b
    ensures a == "" ==> a + b == b
  {
  }

  lemma NumberIsWord(s: string)
    requires s != "" && (s[0] == '-' || IsDigit(s[0]))
    ensures ParseValue(s) == ParseNumber(s)
  {
    NotLiteral(s);
    assert SkipWs(s) == s;
  }

  lemma NumberReads(n: int)
    ensures Reads(Number(n), Num(Number(n)))
  {
    var sign, d := if n < 0 then "-" else "", Decimal(if n < 0 then -n else n);
    DecimalShape(if n < 0 then -n else n);
    assert IsDigit(d[0]) && (|d| > 1 ==> d[0] != '0');
    forall t | Ends(t) ensures ParseValue(Number(n) + t) == Found(Num(Number(n)), t) {
      var s := sign + d + t;
      NumberParts(sign, d, t);
      assert s[0] == '-' || IsDigit(s[0]);
      NumberIsWord(s);
      assert sign + d == Number(n);
    }
  }

  lemma NotLiteral(s: string)
    requires s != "" && (s[0] == '-' || IsDigit(s[0]))
    ensures !("true" <= s) && !("false" <= s) && !("null" <= s)
  {
    assert "true"[0] == 't' && "false"[0] == 'f' && "null"[0] == 'n';
  }

  lemma NumberInjective(m: int, n: int)
    requires Number(m) == Number(n)
    ensures m == n
  {
    DecimalShape(if m < 0 then -m else m);
    DecimalShape(if n < 0 then -n else n);
    assert (m < 0) == (Number(m)[0] == '-') == (n < 0);
    if m < 0 {
      assert Number(m)[1..] == Decimal(-m) && Number(n)[1..] == Decimal(-n);
      DecimalInjective(-m, -n);
    } else {
      DecimalInjective(m, n);
    }
  }

  lemma TrueReads()
    ensures Reads("true", Bool(true))
  {
    forall t ensures ParseValue("true" + t) == Found(Bool(true), t) {
      var s := "true" + t;
      assert s[..4] == "true" && s[4..] == t && s[0] == 't';
      assert SkipWs(s) == s;
    }
  }

  /** A member's name is read, and then its value decides. */
  lemma NamedValue(name: string, value: string)
    requires Unescaped(name)
    ensures var v := ParseValue(" " + value);
      ParseMember(Quoted(name) + ": " + value) == if v.Malformed? then Malformed else Found(Member(name, v.value), v.rest)
  {
    var afterName := ":" + (" " + value);
    var s := "\"" + (name + "\"" + afterName);
    assert Quoted(name) + ": " + value == s;
    assert s[1..] == name + "\"" + afterName && afterName[1..] == " " + value;
    UnescapedReads(name, afterName);
    MemberParts(s, name, afterName);
  }

  lemma MemberParts(s: string, name: string, afterName: string)
    requires s != "" && s[0] == '"' && ParseString(s[1..]) == Found(name, afterName)
    requires afterName != "" && afterName[0] == ':'
    ensures var v := ParseValue(afterName[1..]);
      ParseMember(s) == if v.Malformed? then Malformed else Found(Member(name, v.value), v.rest)
  {
    assert Token(s, '"') == Found((), s[1..]) && Token(afterName, ':') == Found((), afterName[1..]);
  }

  lemma MemberReads(f: Field, v: Json, t: string)
    requires Unescaped(f.name) && Reads(f.text, v) && Ends(t)
    ensures ParseMember(FieldText(f) + t) == Found(Member(f.name, v), t)
  {
    var value := f.text + t;
    assert FieldText(f) + t == Quoted(f.name) + ": " + value;
    NamedValue(f.name, value);
    SkipToValue(f.text, v, t);
    BlankBefore(value);
  }

  lemma BlankBefore(s: string)
    requires SkipWs(s) == s
    ensures SkipWs(" " + s) == s && ParseValue(" " + s) == ParseValue(s)
  {
    assert (" " + s)[1..] == s;
  }

  lemma SkipToValue(text: string, v: Json, t: string)
    requires Reads(text, v)
    ensures SkipWs(text + t) == text + t && text + t != "" && !Ends(text + t)
  {
    assert (text + t)[0] == text[0];
    assert SkipWs(text) == text ==> |SkipWs(text)| == |text|;
  }

  /** A gap after a comma is no blank or one. */
  predicate Gap(g: string) { g == "" || g == " " }

  /** Names are unescaped, texts read as these values, gaps are blanks. */
  ghost predicate FieldsAre(fs: seq<Field>, vs: seq<Json>) {
    |fs| == |vs| && forall i | 0 <= i < |fs| :: FieldIs(fs[i], vs[i])
  }

  ghost predicate FieldIs(f: Field, v: Json) { Unescaped(f.name) && Reads(f.text, v) && Gap(f.gap) }

  lemma StringField(name: string, s: string, gap: string)
    requires Unescaped(name) && Unescaped(s) && Gap(gap)
    ensures FieldIs(Field(name, Quoted(s), gap), Str(s))
  {
    QuotedReads(s);
  }

  lemma NumberField(name: string, n: int, gap: string)
    requires Unescaped(name) && Gap(gap)
    ensures FieldIs(Field(name, Number(n), gap), Num(Number(n)))
  {
    NumberReads(n);
  }

  lemma BothFieldsAre(fs: seq<Field>, vs: seq<Json>, fs': seq<Field>, vs': seq<Json>)
    requires FieldsAre(fs, vs) && FieldsAre(fs', vs')
    ensures FieldsAre(fs + fs', vs + vs')
  {
    forall i | 0 <= i < |fs + fs'| ensures FieldIs((fs + fs')[i], (vs + vs')[i]) {
      assert i < |fs| ==> FieldIs(fs[i], vs[i]);
      assert i >= |fs| ==> FieldIs(fs'[i - |fs|], vs'[i - |fs|]);
    }
  }

  function Members(fs: seq<Field>, vs: seq<Json>): (r: seq<Member>)
    requires |fs| == |vs|
    ensures |r| == |fs| && forall i | 0 <= i < |fs| :: r[i] == Member(fs[i].name, vs[i])
  {
    if fs == [] then [] else [Member(fs[0].name, vs[0])] + Members(fs[1..], vs[1..])
  }

  lemma MembersOfBoth(fs: seq<Field>, vs: seq<Json>, fs': seq<Field>, vs': seq<Json>)
    requires |fs| == |vs| && |fs'| == |vs'|
    ensures Members(fs + fs', vs + vs') == Members(fs, vs) + Members(fs', vs')
  {
  }

  lemma GapBefore(s: string, gap: string)
    requires Gap(gap) && SkipWs(s) == s
    ensures ParseMembers(gap + s) == ParseMembers(s)
  {
    if gap == "" {
      assert gap + s == s;
    } else {
      BlankBefore(s);
      assert Token(" " + s, '"') == Token(s, '"');
      assert ParseMember(" " + s) == ParseMember(s);
    }
  }

  lemma LastMember(f: Field, v: Json, t: string)
    requires FieldIs(f, v)
    ensures ParseMembers(FieldText(f) + "}" + t) == Found([Member(f.name, v)], t)
  {
    var tail := "}" + t;
    MemberReads(f, v, tail);
    assert FieldText(f) + "}" + t == FieldText(f) + tail && tail[1..] == t;
    assert Token(tail, '}') == Found((), t);
  }

  lemma FieldsStart(fs: seq<Field>)
    requires fs != []
    ensures Fields(fs) != "" && Fields(fs)[0] == '"'
  {
    assert FieldText(fs[0])[0] == '"';
  }

  function Prepended(ms: seq<Member>, m: Read<seq<Member>>): Read<seq<Member>> {
    if m.Malformed? then Malformed else Found(ms + m.value, m.rest)
  }

  lemma MembersAfter(s: string, m: Member, rest: string)
    requires ParseMember(s) == Found(m, rest) && rest != "" && rest[0] == ','
    ensures ParseMembers(s) == Prepended([m], ParseMembers(rest[1..]))
  {
    assert Token(rest, '}') == Malformed && Token(rest, ',') == Found((), rest[1..]);
  }

  lemma NextMember(f: Field, v: Json, rest: string)
    requires FieldIs(f, v) && rest != "" && rest[0] == '"'
    ensures ParseMembers(FieldText(f) + "," + f.gap + rest) == Prepended([Member(f.name, v)], ParseMembers(rest))
  {
    var tail := "," + (f.gap + rest);
    var s := FieldText(f) + tail;
    assert FieldText(f) + "," + f.gap + rest == s && tail[1..] == f.gap + rest;
    MemberReads(f, v, tail);
    GapBefore(rest, f.gap);
    MembersAfter(s, Member(f.name, v), tail);
  }

  lemma OneThenFields(f: Field, v: Json, more: seq<Field>, t: string)
    requires FieldIs(f, v) && more != []
    ensures ParseMembers(FieldText(f) + "," + f.gap + Fields(more) + t)
      == Prepended([Member(f.name, v)], ParseMembers(Fields(more) + t))
  {
    FieldsStart(more);
    var rest := Fields(more) + t;
    NextMember(f, v, rest);
    assert FieldText(f) + "," + f.gap + Fields(more) + t == FieldText(f) + "," + f.gap + rest;
  }

  lemma {:induction false} FieldsRead(fs: seq<Field>, vs: seq<Json>, t: string)
    requires FieldsAre(fs, vs) && fs != []
    ensures ParseMembers(Fields(fs) + ("}" + t)) == Found(Members(fs, vs), t)
    decreases |fs|
  {
    if |fs| == 1 {
      LastMember(fs[0], vs[0], t);
      assert Fields(fs) + ("}" + t) == FieldText(fs[0]) + "}" + t;
      assert Members(fs, vs) == [Member(fs[0].name, vs[0])];
    } else {
      FieldsRead(fs[1..], vs[1..], t);
      OneThenFields(fs[0], vs[0], fs[1..], "}" + t);
    }
  }

  lemma ObjectOf(s: string)
    requires s != "" && s[0] == '"'
    ensures ParseValue("{" + s)
      == if ParseMembers(s).Malformed? then Malformed else Found(Obj(ParseMembers(s).value), ParseMembers(s).rest)
  {
    assert ("{" + s)[1..] == s;
    assert Token(s, '}') == Malformed;
    assert ParseValue("{" + s) == ParseObject(s);
  }

  lemma ArrayOf(s: string)
    requires s != "" && SkipWs(s) == s && s[0] != ']' && ParseItems(s).Found?
    ensures ParseValue("[" + s) == Found(Arr(ParseItems(s).value), ParseItems(s).rest)
  {
    assert ("[" + s)[1..] == s;
  }

  /** An object put together from readable fields reads as that object. */
  lemma ObjectReads(fs: seq<Field>, vs: seq<Json>)
    requires FieldsAre(fs, vs) && fs != []
    ensures Reads(ObjectText(fs), Obj(Members(fs, vs)))
  {
    forall t ensures ParseValue(ObjectText(fs) + t) == Found(Obj(Members(fs, vs)), t) {
      ObjectReadsAt(fs, vs, t);
    }
  }

  lemma ObjectReadsAt(fs: seq<Field>, vs: seq<Json>, t: string)
    requires FieldsAre(fs, vs) && fs != []
    ensures ParseValue(ObjectText(fs) + t) == Found(Obj(Members(fs, vs)), t)
  {
    FieldsRead(fs, vs, t);
    FieldsStart(fs);
    var s := Fields(fs) + ("}" + t);
    ObjectOf(s);
    assert ObjectText(fs) + t == "{" + s;
  }

  lemma ItemFollowed(text: string, v: Json, t: string)
    requires Reads(text, v) && Ends(t) && t != ""
    ensures t[0] == ']' ==> ParseItems(text + t) == Found([v], t[1..])
    ensures t[0] == ',' && ParseItems(t[1..]).Found? ==>
      ParseItems(text + t) == Found([v] + ParseItems(t[1..]).value, ParseItems(t[1..]).rest)
  {
    assert ParseValue(text + t) == Found(v, t);
  }

  lemma ItemsJoin(items: seq<string>, t: string)
    requires |items| > 1
    ensures Join(items, ", ") + t == items[0] + ", " + (Join(items[1..], ", ") + t)
  {
    Regroup(items[0] + ", ", Join(items[1..], ", "), t);
  }

  lemma ItemsStart(items: seq<string>, v: Json, t: string)
    requires items != [] && Reads(items[0], v)
    ensures SkipWs(Join(items, ", ") + t) == Join(items, ", ") + t && !Ends(Join(items, ", ") + t)
  {
    if |items| == 1 {
      SkipToValue(items[0], v, t);
    } else {
      var rest := Join(items[1..], ", ") + t;
      ItemsJoin(items, t);
      Regroup(items[0], ", ", rest);
      SkipToValue(items[0], v, ", " + rest);
    }
  }

  lemma OneThenItems(items: seq<string>, v: Json, next: Json, t: string)
    requires |items| > 1 && Reads(items[0], v) && Reads(items[1], next)
    requires ParseItems(Join(items[1..], ", ") + t).Found?
    ensures var more := ParseItems(Join(items[1..], ", ") + t);
      ParseItems(Join(items, ", ") + t) == Found([v] + more.value, more.rest)
  {
    ItemsStart(items[1..], next, t);
    NextItem(items[0], v, Join(items[1..], ", ") + t);
    ItemsJoin(items, t);
  }

  lemma LastItem(text: string, v: Json, t: string)
    requires Reads(text, v)
    ensures ParseItems(text + "]" + t) == Found([v], t)
  {
    var tail := "]" + t;
    ItemFollowed(text, v, tail);
    assert text + "]" + t == text + tail && tail[1..] == t;
  }

  lemma NextItem(text: string, v: Json, rest: string)
    requires Reads(text, v) && SkipWs(rest) == rest && ParseItems(rest).Found?
    ensures ParseItems(text + ", " + rest) == Found([v] + ParseItems(rest).value, ParseItems(rest).rest)
  {
    var tail := ", " + rest;
    BlankBefore(rest);
    ParseItemsBlank(rest);
    assert tail[1..] == " " + rest;
    ItemFollowed(text, v, tail);
    assert text + ", " + rest == text + tail;
  }

  /** The items read as these values. */
  ghost predicate ItemsAre(items: seq<string>, vs: seq<Json>)
    decreases |items|
  {
    if items == [] then vs == [] else vs != [] && Reads(items[0], vs[0]) && ItemsAre(items[1..], vs[1..])
  }

  lemma {:induction false} ItemsRead(items: seq<string>, vs: seq<Json>, t: string)
    requires ItemsAre(items, vs) && items != []
    ensures ParseItems(Join(items, ", ") + ("]" + t)) == Found(vs, t)
    decreases |items|
  {
    if |items| == 1 {
      LastItem(items[0], vs[0], t);
      Regroup(items[0], "]", t);
      assert vs[1..] == [] && vs == [vs[0]];
    } else {
      ItemsRead(items[1..], vs[1..], t);
      OneThenItems(items, vs[0], vs[1], "]" + t);
      assert vs == [vs[0]] + vs[1..];
    }
  }

  lemma ParseItemsBlank(s: string)
    requires ParseValue(" " + s) == ParseValue(s)
    ensures ParseItems(" " + s) == ParseItems(s)
  {
  }

  /** An array printed with ", " between its items reads as that array. */
  lemma ArrayReads(items: seq<string>, vs: seq<Json>)
    requires ItemsAre(items, vs)
    ensures Reads(ArrayText(items), Arr(vs))
  {
    forall t ensures ParseValue(ArrayText(items) + t) == Found(Arr(vs), t) {
      ArrayReadsAt(items, vs, t);
    }
  }

  lemma ArrayReadsAt(items: seq<string>, vs: seq<Json>, t: string)
    requires ItemsAre(items, vs)
    ensures ParseValue(ArrayText(items) + t) == Found(Arr(vs), t)
  {
    if items == [] {
      assert ArrayText(items) + t == "[" + ("]" + t);
      assert ("[" + ("]" + t))[1..] == "]" + t && ("]" + t)[1..] == t;
    } else {
      ItemsRead(items, vs, t);
      ItemsStart(items, vs[0], "]" + t);
      var s := Join(items, ", ") + ("]" + t);
      assert ArrayText(items) + t == "[" + s;
      ArrayOf(s);
    }
  }

  lemma WholeText(text: string, v: Json)
    requires Reads(text, v)
    ensures Parse(text) == Found(v, "")
  {
    assert text + "" == text;
  }

  /* ---------- a string that needs escapes ---------- */

  /** A string is never longer than what it was read from, and as long only without escapes. */
  lemma {:induction false} ParseStringLength(s: string)
    ensures ParseString(s).Found? ==> |ParseString(s).value| + |ParseString(s).rest| + 1 <= |s|
    ensures ParseString(s).Found? && |ParseString(s).value| + |ParseString(s).rest| + 1 == |s| ==>
      Unescaped(ParseString(s).value)
    decreases |s|
  {
    if s != "" && s[0] >= ' ' && s[0] != '"' {
      var first := if s[0] == '\\' then Escaped(s[1..]) else Found(s[0], s[1..]);
      if first.Found? { ParseStringLength(first.rest); }
    }
  }

  lemma MemberOfString(name: string, s: string, gap: string, t: string)
    requires Unescaped(name)
    ensures var v := ParseString(s + "\"" + t);
      ParseMember(FieldText(Field(name, Quoted(s), gap)) + t)
      == if v.Malformed? then Malformed else Found(Member(name, Str(v.value)), v.rest)
  {
    var value := "\"" + (s + "\"" + t);
    assert FieldText(Field(name, Quoted(s), gap)) + t == Quoted(name) + ": " + value;
    NamedValue(name, value);
    QuotedValue(s + "\"" + t);
  }

  lemma QuotedValue(s: string)
    ensures ParseValue(" " + ("\"" + s)) == ParseQuoted(s)
  {
    var value := "\"" + s;
    assert value[1..] == s && SkipWs(value) == value;
    BlankBefore(value);
  }

  /** When the last member reads back as its raw string, the string needed no escape. */
  lemma LastMemberRaw(name: string, s: string)
    requires Unescaped(name)
    requires ParseMembers(FieldText(Field(name, Quoted(s), "")) + "}").Found?
    requires ParseMembers(FieldText(Field(name, Quoted(s), "")) + "}").value == [Member(name, Str(s))]
    ensures Unescaped(s)
  {
    var text := FieldText(Field(name, Quoted(s), "")) + "}";
    MemberOfString(name, s, "", "}");
    ParseStringLength(s + "\"" + "}");
    var m := ParseMember(text);
    assert m.Found?;
    assert ParseMembers(text).value[0] == m.value;
    var v := ParseString(s + "\"" + "}");
    assert v.value == s && v.rest == m.rest;
    assert m.rest != "";
  }

  lemma PrependTwice(ms: seq<Member>, ns: seq<Member>, m: Read<seq<Member>>)
    ensures Prepended(ms, Prepended(ns, m)) == Prepended(ms + ns, m)
  {
    if m.Found? { assert ms + (ns + m.value) == (ms + ns) + m.value; }
  }

  /** Readable members before a last one are read, and then the last one decides. */
  lemma {:induction false} FieldsThen(fs: seq<Field>, vs: seq<Json>, last: Field)
    requires FieldsAre(fs, vs)
    ensures ParseMembers(Fields(fs + [last]) + "}") == Prepended(Members(fs, vs), ParseMembers(FieldText(last) + "}"))
    decreases |fs|
  {
    var m := ParseMembers(FieldText(last) + "}");
    if fs == [] {
      assert fs + [last] == [last];
      assert m.Found? ==> Members(fs, vs) + m.value == m.value;
    } else {
      var more := fs[1..] + [last];
      assert (fs + [last])[1..] == more;
      FieldsThen(fs[1..], vs[1..], last);
      FieldsStart(more);
      OneThenFields(fs[0], vs[0], more, "}");
      assert Fields(fs + [last]) == FieldText(fs[0]) + "," + fs[0].gap + Fields(more);
      PrependTwice([Member(fs[0].name, vs[0])], Members(fs[1..], vs[1..]), m);
    }
  }

  /** Such an object reads as these members exactly when the last string needs no escape. */
  lemma LastStringReadsIff(fs: seq<Field>, vs: seq<Json>, name: string, s: string)
    requires FieldsAre(fs, vs) && Unescaped(name)
    ensures Parse(ObjectText(fs + [Field(name, Quoted(s), "")])) == Found(Obj(Members(fs, vs) + [Member(name, Str(s))]), "")
      <==> Unescaped(s)
  {
    var last := Field(name, Quoted(s), "");
    if Unescaped(s) {
      StringField(name, s, "");
      BothFieldsAre(fs, vs, [last], [Str(s)]);
      MembersOfBoth(fs, vs, [last], [Str(s)]);
      ObjectReads(fs + [last], vs + [Str(s)]);
      WholeText(ObjectText(fs + [last]), Obj(Members(fs + [last], vs + [Str(s)])));
      assert Members([last], [Str(s)]) == [Member(name, Str(s))];
    } else if Parse(ObjectText(fs + [last])) == Found(Obj(Members(fs, vs) + [Member(name, Str(s))]), "") {
      FieldsThen(fs, vs, last);
      FieldsStart(fs + [last]);
      ObjectInside(fs + [last], Members(fs, vs) + [Member(name, Str(s))]);
      var m := ParseMembers(FieldText(last) + "}");
      assert m.value == (Members(fs, vs) + m.value)[|fs|..] == [Member(name, Str(s))];
      LastMemberRaw(name, s);
    }
  }

  lemma ObjectInside(fs: seq<Field>, ms: seq<Member>)
    requires Fields(fs) != "" && Fields(fs)[0] == '"'
    requires Parse(ObjectText(fs)) == Found(Obj(ms), "")
    ensures ParseMembers(Fields(fs) + "}").Found? && ParseMembers(Fields(fs) + "}").value == ms
  {
    var s := Fields(fs) + "}";
    assert ObjectText(fs) == "{" + s;
    ObjectOf(s);
  }
}
