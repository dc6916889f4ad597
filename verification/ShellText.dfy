/** The string operations the OVN controller's shell functions rely on. */
module ShellText {
  import opened Text

  predicate Blank(c: char) { c == ' ' || c == '\t' || c == '\n' }

  predicate IsWord(s: string) { s != "" && forall i | 0 <= i < |s| :: !Blank(s[i]) }

  function TakeWord(s: string): (w: string)
    ensures w <= s
    ensures s != "" && !Blank(s[0]) ==> w != ""
  {
    if s == "" || Blank(s[0]) then "" else [s[0]] + TakeWord(s[1..])
  }

  /** Field splitting of an unquoted expansion. */
  function Words(s: string): seq<string>
    decreases |s|
  {
    if s == "" then []
    else if Blank(s[0]) then Words(s[1..])
    else [TakeWord(s)] + Words(s[|TakeWord(s)|..])
  }

  lemma {:induction false} TakeWholeWord(w: string, t: string)
    requires IsWord(w) && (t == "" || Blank(t[0]))
    ensures TakeWord(w + t) == w
  {
    if |w| > 1 {
      assert (w + t)[1..] == w[1..] + t;
      TakeWholeWord(w[1..], t);
    } else {
      assert (w + t)[1..] == t;
    }
    assert w == [w[0]] + w[1..];
  }

  lemma WordsFirst(w: string, t: string)
    requires IsWord(w) && (t == "" || Blank(t[0]))
    ensures Words(w + t) == [w] + Words(t)
  {
    TakeWholeWord(w, t);
    assert (w + t)[|w|..] == t;
  }

  lemma WordAlone(w: string)
    requires IsWord(w)
    ensures Words(w) == [w]
  {
    WordsFirst(w, "");
    assert w + "" == w;
  }

  predicate AllWords(ws: seq<string>) { forall i | 0 <= i < |ws| :: IsWord(ws[i]) }

  /** A list of words printed with blanks between reads back as that list. */
  lemma {:induction false} WordsOfJoin(ws: seq<string>)
    requires AllWords(ws)
    ensures Words(Join(ws, " ")) == ws
  {
    if |ws| == 1 {
      WordAlone(ws[0]);
    } else if |ws| > 1 {
      WordsOfJoin(ws[1..]);
      var t := " " + Join(ws[1..], " ");
      assert ws[0] + " " + Join(ws[1..], " ") == ws[0] + t;
      WordsFirst(ws[0], t);
      assert t[1..] == Join(ws[1..], " ");
    }
  }

  /** `${s/,/ }`: the first comma only. */
  function FirstCommaToBlank(s: string): string {
    if s == "" then "" else if s[0] == ',' then " " + s[1..] else [s[0]] + FirstCommaToBlank(s[1..])
  }

  lemma {:induction false} FirstCommaAfter(s: string, t: string)
    requires Without(s, ',')
    ensures FirstCommaToBlank(s + "," + t) == s + " " + t
    ensures FirstCommaToBlank(s) == s
  {
    if s == "" {
      assert ("" + "," + t)[1..] == t;
    } else {
      assert s[0] != ',';
      assert (s + "," + t)[1..] == s[1..] + "," + t;
      FirstCommaAfter(s[1..], t);
      assert [s[0]] + s[1..] == s;
      assert [s[0]] + (s[1..] + " " + t) == s + " " + t;
    }
  }

  /** `${s##*:}`: what follows the last colon, or all when there is none. */
  function AfterLastColon(s: string): string {
    if s == "" then ""
    else if ':' in s[1..] then AfterLastColon(s[1..])
    else if s[0] == ':' then s[1..] else s
  }

  function FindChar(s: string, c: char): (i: nat)
    requires c in s
    ensures i < |s| && s[i] == c && c !in s[..i]
  {
    if s[0] == c then 0 else 1 + FindChar(s[1..], c)
  }

  lemma {:induction false} AfterLastColonOf(s: string, t: string)
    requires Without(t, ':')
    ensures AfterLastColon(s + ":" + t) == t
  {
    var u := s + ":" + t;
    if s == "" {
      assert u[1..] == t;
    } else {
      var rest := s[1..] + ":" + t;
      assert u[1..] == rest && rest[|s| - 1] == ':';
      AfterLastColonOf(s[1..], t);
    }
  }

  /** `${s#*-}` */
  function AfterFirstDash(s: string): string {
    if '-' in s then s[FindChar(s, '-') + 1..] else s
  }

  /* ---------- set_difference ---------- */

  /** `comm -23` on two sorted lists: the lines of the first that the second does not match. */
  function Comm23(xs: seq<string>, ys: seq<string>): seq<string> {
    if xs == [] then []
    else if ys == [] then xs
    else if xs[0] == ys[0] then Comm23(xs[1..], ys[1..])
    else if Le(xs[0], ys[0]) then [xs[0]] + Comm23(xs[1..], ys)
    else Comm23(xs, ys[1..])
  }

  function Count(xs: seq<string>, x: string): nat { multiset(xs)[x] }

  lemma CountHead(xs: seq<string>, x: string)
    requires xs != []
    ensures Count(xs, x) == Count(xs[1..], x) + if x == xs[0] then 1 else 0
  {
    TailMultiset(xs);
  }

  lemma NotFurther(x: string, ys: seq<string>)
    requires Sorted(ys) && ys != [] && x != ys[0] && Le(x, ys[0])
    ensures Count(ys, x) == 0
  {
    if x in multiset(ys) {
      FirstIsLeast(ys, x);
      LeAntisymmetric(x, ys[0]);
    }
  }

  lemma {:induction false} Comm23Counts(xs: seq<string>, ys: seq<string>, x: string)
    requires Sorted(xs) && Sorted(ys)
    ensures Count(Comm23(xs, ys), x) == if Count(xs, x) > Count(ys, x) then Count(xs, x) - Count(ys, x) else 0
    decreases |xs| + |ys|
  {
    if xs != [] && ys != [] {
      CountHead(xs, x);
      CountHead(ys, x);
      if xs[0] == ys[0] {
        Comm23Counts(xs[1..], ys[1..], x);
      } else if Le(xs[0], ys[0]) {
        NotFurther(xs[0], ys);
        Comm23Counts(xs[1..], ys, x);
        assert Comm23(xs, ys)[1..] == Comm23(xs[1..], ys);
        CountHead(Comm23(xs, ys), x);
      } else {
        LeTotal(xs[0], ys[0]);
        NotFurther(ys[0], xs);
        Comm23Counts(xs, ys[1..], x);
      }
    }
  }

  /** xargs gives quotes and backslashes a meaning. */
  predicate Special(c: char) { c == '\'' || c == '"' || c == '\\' }

  datatype Quoting = Outside | In(quote: char)

  /** The items xargs reads: `item` is what it has of the current one, `begun` whether there is one.
      A quote that is not closed on its line ends the reading. */
  function Items(s: string, q: Quoting, item: string, begun: bool): seq<string>
    decreases |s|
  {
    var last := if begun then [item] else [];
    if s == "" then if q.Outside? then last else []
    else if q.In? then
      if s[0] == q.quote then Items(s[1..], Outside, item, true)
      else if s[0] == '\n' then []
      else Items(s[1..], q, item + [s[0]], true)
    else if Blank(s[0]) then last + Items(s[1..], Outside, "", false)
    else if s[0] == '\\' then if |s| == 1 then last else Items(s[2..], Outside, item + [s[1]], true)
    else if Special(s[0]) then Items(s[1..], In(s[0]), item, true)
    else Items(s[1..], Outside, item + [s[0]], true)
  }

  function XargsItems(s: string): seq<string> { Items(s, Outside, "", false) }

  /** A word that the shell does not expand and xargs takes as it is. */
  predicate Literal(s: string) { IsWord(s) && Unquoted(s) && forall i | 0 <= i < |s| :: s[i] !in "*?[" }

  predicate Unquoted(s: string) { forall i | 0 <= i < |s| :: !Special(s[i]) }

  predicate AllLiteral(ws: seq<string>) { forall i | 0 <= i < |ws| :: Literal(ws[i]) }

  lemma {:induction false} PlainItem(w: string, t: string, item: string, begun: bool)
    requires Unquoted(w) && forall i | 0 <= i < |w| :: !Blank(w[i])
    ensures Items(w + t, Outside, item, begun) == Items(t, Outside, item + w, begun || w != "")
  {
    if w == "" {
      assert w + t == t && item + w == item;
    } else {
      assert (w + t)[0] == w[0] && (w + t)[1..] == w[1..] + t;
      PlainItem(w[1..], t, item + [w[0]], true);
      assert item + [w[0]] + w[1..] == item + w;
    }
  }

  /** Literal words with blanks between are the items. */
  lemma {:induction false} ItemsOfJoin(ws: seq<string>)
    requires AllLiteral(ws)
    ensures XargsItems(Join(ws, " ")) == ws
  {
    if ws != [] {
      var rest := Join(ws[1..], " ");
      ItemsOfJoin(ws[1..]);
      if |ws| == 1 {
        PlainItem(ws[0], "", "", false);
        assert ws[0] + "" == ws[0] && "" + ws[0] == ws[0];
      } else {
        var t := " " + rest;
        PlainItem(ws[0], t, "", false);
        assert ws[0] + " " + rest == ws[0] + t && "" + ws[0] == ws[0] && t[1..] == rest;
      }
    }
  }

  function Total(ws: seq<string>): nat { if ws == [] then 0 else |ws[0]| + Total(ws[1..]) }

  lemma TotalCons(w: string, ws: seq<string>)
    ensures Total([w] + ws) == |w| + Total(ws)
  {
    assert ([w] + ws)[1..] == ws;
  }

  /** The items are never longer than the text, and shorter when a quote or backslash is read. */
  lemma {:induction false} ItemsLength(s: string, q: Quoting, item: string, begun: bool)
    requires item != "" ==> begun
    ensures Total(Items(s, q, item, begun)) <= |item| + |s|
    ensures q.Outside? && !Unquoted(s) ==> Total(Items(s, q, item, begun)) < |item| + |s|
    decreases |s|
  {
    TotalCons(item, []);
    if s != "" {
      if q.In? {
        ItemsLength(s[1..], if s[0] == q.quote then Outside else q, if s[0] == q.quote then item else item + [s[0]], true);
      } else if Blank(s[0]) {
        ItemsLength(s[1..], Outside, "", false);
        TotalCons(item, Items(s[1..], Outside, "", false));
        assert [] + Items(s[1..], Outside, "", false) == Items(s[1..], Outside, "", false);
      } else if s[0] == '\\' {
        if |s| > 1 { ItemsLength(s[2..], Outside, item + [s[1]], true); }
      } else if Special(s[0]) {
        ItemsLength(s[1..], In(s[0]), item, true);
      } else {
        ItemsLength(s[1..], Outside, item + [s[0]], true);
      }
    }
  }

  /** A word is read as itself exactly when it has no quote and no backslash. */
  lemma ItemIsWordIff(w: string)
    requires IsWord(w)
    ensures XargsItems(w) == [w] <==> Unquoted(w)
  {
    TotalCons(w, []);
    ItemsLength(w, Outside, "", false);
    if Unquoted(w) {
      PlainItem(w, "", "", false);
      assert w + "" == w && "" + w == w;
    }
  }

  /** `echo $s | xargs -n1`: one line an item, and one empty line when there is none. */
  function Lines(s: string): seq<string> {
    var items := XargsItems(Join(Words(s), " "));
    if items == [] then [""] else items
  }

  function NonEmpty(xs: seq<string>): seq<string> {
    if xs == [] then [] else (if xs[0] == "" then [] else [xs[0]]) + NonEmpty(xs[1..])
  }

  /** set_difference, as the words a `for` loop makes of what it prints. */
  function SetDifference(a: string, b: string): seq<string> {
    NonEmpty(Comm23(Sort(Lines(a)), Sort(Lines(b))))
  }

  lemma {:induction false} NonEmptyCounts(xs: seq<string>, x: string)
    ensures Count(NonEmpty(xs), x) == if x == "" then 0 else Count(xs, x)
  {
    if xs != [] {
      NonEmptyCounts(xs[1..], x);
      CountHead(xs, x);
      if xs[0] != "" {
        assert NonEmpty(xs)[1..] == NonEmpty(xs[1..]);
        CountHead(NonEmpty(xs), x);
      }
    }
  }

  lemma SetDifferenceCounts(us: seq<string>, ws: seq<string>, x: string)
    requires AllLiteral(us) && AllLiteral(ws)
    ensures Count(SetDifference(Join(us, " "), Join(ws, " ")), x) == (multiset(us) - multiset(ws))[x]
  {
    LinesOfJoin(us);
    LinesOfJoin(ws);
    var a, b := Lines(Join(us, " ")), Lines(Join(ws, " "));
    SortIsSorted(a);
    SortIsSorted(b);
    Comm23Counts(Sort(a), Sort(b), x);
    NonEmptyCounts(Comm23(Sort(a), Sort(b)), x);
    EmptyIsNoWord(us);
    EmptyIsNoWord(ws);
  }

  lemma LinesOfJoin(ws: seq<string>)
    requires AllLiteral(ws)
    ensures Lines(Join(ws, " ")) == if ws == [] then [""] else ws
  {
    WordsOfJoin(ws);
    ItemsOfJoin(ws);
  }

  lemma EmptyIsNoWord(ws: seq<string>)
    requires AllLiteral(ws)
    ensures "" !in multiset(ws)
  {
  }

  /** Of two lists of literal words it leaves the multiset difference. */
  lemma SetDifferenceIsDifference(us: seq<string>, ws: seq<string>)
    requires AllLiteral(us) && AllLiteral(ws)
    ensures multiset(SetDifference(Join(us, " "), Join(ws, " "))) == multiset(us) - multiset(ws)
  {
    forall x ensures Count(SetDifference(Join(us, " "), Join(ws, " ")), x) == (multiset(us) - multiset(ws))[x] {
      SetDifferenceCounts(us, ws, x);
    }
  }
}
