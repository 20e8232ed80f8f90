/** The translation of an EXPECTF pattern into a regular expression: text is quoted except for its
    %r ... %r sections, and then twelve replacements expand the % placeholders one after the other. */
module ExpectF {
  import opened Collections

  // ---------------------------------------------------------------- quoting

  /** The characters that preg_quote escapes, with '/' as the delimiter. */
  const SPECIAL := ".\\+*?[^]$(){}=!<>|:-#/"

  function QuoteChar(c: char): string {
    if c == '\0' then "\\000" else if c in SPECIAL then ['\\', c] else [c]
  }

  function Quote(s: string): string {
    if s == "" then "" else QuoteChar(s[0]) + Quote(s[1..])
  }

  // ---------------------------------------------------------------- the scanner

  /** The first position at or after `from` where the two characters %r stand. */
  function FindTag(s: string, from: nat): (r: Option<nat>)
    requires from <= |s|
    ensures r.Some? ==> from <= r.value && TagAt(s, r.value)
    ensures r.Some? ==> forall i :: from <= i < r.value ==> !TagAt(s, i)
    ensures r.None? ==> forall i :: from <= i ==> !TagAt(s, i)
    decreases |s| - from
  {
    if from + 2 > |s| then None
    else if TagAt(s, from) then Some(from)
    else FindTag(s, from + 1)
  }

  predicate TagAt(s: string, i: nat) {
    i + 2 <= |s| && s[i] == '%' && s[i + 1] == 'r'
  }

  /** The next opening and closing tag. */
  datatype Tags = Unbalanced | Tags(start: nat, end: nat)

  function NextPair(s: string, from: nat): (r: Tags)
    requires from <= |s|
    ensures r.Tags? ==> from <= r.start && r.start + 2 <= r.end && r.end + 2 <= |s|
    ensures r.Tags? ==> FindTag(s, from) == Some(r.start) && FindTag(s, r.start + 2) == Some(r.end)
  {
    match FindTag(s, from)
    case None => Unbalanced
    case Some(start) =>
      match FindTag(s, start + 2)
      case None => Unbalanced
      case Some(end) => Tags(start, end)
  }

  /** A pattern cut up: text to quote, the inside of a pair of %r tags, and so on to a last text. */
  datatype Sections = Rest(text: string) | Pair(text: string, regex: string, tail: Sections)

  function Cut(s: string, from: nat): Sections
    requires from <= |s|
    decreases |s| - from
  {
    var next := NextPair(s, from);
    if next.Unbalanced? then Rest(s[from..])
    else Pair(s[from..next.start], s[next.start + 2..next.end], Cut(s, next.end + 2))
  }

  function Written(x: Sections): string {
    match x
    case Rest(t) => t
    case Pair(t, r, tail) => t + ("%r" + r + "%r" + Written(tail))
  }

  function QuoteSections(x: Sections): string {
    match x
    case Rest(t) => Quote(t)
    case Pair(t, r, tail) => Quote(t) + (("(" + r + ")") + QuoteSections(tail))
  }

  /** The translation of what is left of the pattern, which is nothing beyond its end. */
  function QuoteFrom(s: string, from: nat): string {
    if from < |s| then QuoteSections(Cut(s, from)) else ""
  }

  /** The scan over the pattern, with a text that grows. */
  method QuoteExceptSections(wanted: string) returns (temp: string)
    ensures temp == QuoteFrom(wanted, 0)
  {
    temp := "";
    var startOffset := 0;
    while startOffset < |wanted|
      invariant temp + QuoteFrom(wanted, startOffset) == QuoteFrom(wanted, 0)
      decreases |wanted| + 2 - startOffset
    {
      temp, startOffset := QuoteTurn(wanted, startOffset, temp);
    }
    assert temp + "" == temp;
  }

  /** One turn of the scan: quotes up to the next section and adds the section unquoted. */
  method QuoteTurn(wanted: string, startOffset: nat, before: string) returns (temp: string, offset: nat)
    requires startOffset < |wanted|
    ensures startOffset < offset <= |wanted| + 2
    ensures temp + QuoteFrom(wanted, offset) == before + QuoteFrom(wanted, startOffset)
  {
    hide Quote, QuoteFrom, NextPair;
    var start, end := FindSection(wanted, startOffset);
    QuoteNext(wanted, startOffset, before);
    temp := before + Quote(wanted[startOffset..start]);
    if end > start {
      temp := temp + ("(" + wanted[start + 2..end] + ")");
    }
    offset := end + 2;
  }

  /** The two searches of one turn; an unbalanced tag is ignored. */
  method FindSection(wanted: string, startOffset: nat) returns (start: nat, end: nat)
    requires startOffset <= |wanted|
    ensures var next := NextPair(wanted, startOffset);
            if next.Tags? then start == next.start && end == next.end else start == end == |wanted|
  {
    var opening := FindTag(wanted, startOffset);
    match opening {
      case Some(i) =>
        start := i;
        var closing := FindTag(wanted, start + 2);
        match closing {
          case Some(j) => end := j;
          case None => start, end := |wanted|, |wanted|;
        }
      case None => start, end := |wanted|, |wanted|;
    }
  }

  lemma QuoteRest(t: string)
    ensures QuoteSections(Rest(t)) == Quote(t)
  {
  }

  lemma QuotePair(t: string, r: string, tail: Sections)
    ensures QuoteSections(Pair(t, r, tail)) == Quote(t) + (("(" + r + ")") + QuoteSections(tail))
  {
  }

  /** What one turn of the scan adds. */
  lemma QuoteNext(s: string, from: nat, before: string)
    requires from < |s|
    ensures var next := NextPair(s, from);
            before + QuoteFrom(s, from)
            == if next.Unbalanced? then
                 before + Quote(s[from..|s|]) + QuoteFrom(s, |s| + 2)
               else
                 before + Quote(s[from..next.start]) + ("(" + s[next.start + 2..next.end] + ")") + QuoteFrom(s, next.end + 2)
  {
    hide Quote, NextPair, QuoteSections;
    var next := NextPair(s, from);
    if next.Unbalanced? {
      QuoteRest(s[from..]);
      assert s[from..|s|] == s[from..];
      EmptyConcat(before + Quote(s[from..|s|]));
    } else {
      EmptyTail(s);
      QuotePair(s[from..next.start], s[next.start + 2..next.end], Cut(s, next.end + 2));
      Regroup(before, Quote(s[from..next.start]), "(" + s[next.start + 2..next.end] + ")", QuoteFrom(s, next.end + 2));
    }
  }

  /** At the end of the pattern there is nothing to quote. */
  lemma EmptyTail(s: string)
    ensures QuoteSections(Cut(s, |s|)) == ""
  {
    hide FindTag, NextPair, QuoteSections, Quote;
    NoPairAtEnd(s);
    assert s[|s|..] == "";
    QuoteNothing();
    QuoteRest("");
  }

  lemma NoPairAtEnd(s: string)
    ensures NextPair(s, |s|).Unbalanced?
  {
    hide Quote, QuoteSections;
    NoTagAtEnd(s);
  }

  lemma NoTagAtEnd(s: string)
    ensures FindTag(s, |s|) == None
  {
    hide Quote, QuoteSections, Cut;
  }

  lemma QuoteNothing()
    ensures Quote("") == ""
  {
  }

  lemma Regroup(a: string, b: string, c: string, d: string)
    ensures a + (b + (c + d)) == a + b + c + d
  {
  }

  ghost predicate HasTag(s: string) {
    exists i :: 0 <= i && TagAt(s, i)
  }

  /** Sections as the scanner cuts them: no tag inside a section, except that the last text may hold
      one that nothing closes. */
  ghost predicate WellCut(x: Sections) {
    match x
    case Rest(t) => AtMostOneTag(t)
    case Pair(t, r, tail) => !HasTag(t) && !HasTag(r) && WellCut(tail)
  }

  ghost predicate AtMostOneTag(t: string) {
    forall i, j :: 0 <= i <= j && TagAt(t, i) && TagAt(t, j) ==> i == j
  }

  lemma TagInSlice(s: string, lo: nat, hi: nat, i: nat)
    requires lo <= hi <= |s|
    ensures TagAt(s[lo..hi], i) <==> lo + i + 2 <= hi && TagAt(s, lo + i)
  {
  }

  lemma FourCuts(s: string, a: nat, b: nat, c: nat, d: nat, e: nat)
    requires a <= b <= c <= d <= e <= |s|
    ensures s[a..] == s[a..b] + (s[b..c] + s[c..d] + s[d..e] + s[e..])
  {
  }

  lemma TagText(s: string, i: nat)
    requires TagAt(s, i)
    ensures s[i..i + 2] == "%r"
  {
  }

  lemma WrittenRest(t: string)
    ensures Written(Rest(t)) == t
  {
  }

  lemma WrittenPair(t: string, r: string, tail: Sections)
    ensures Written(Pair(t, r, tail)) == t + ("%r" + r + "%r" + Written(tail))
  {
  }

  /** The scanner loses nothing: the sections, written out, are the pattern. */
  lemma {:induction false} SectionsCoverPattern(s: string, from: nat)
    requires from <= |s|
    ensures Written(Cut(s, from)) == s[from..]
    decreases |s| - from
  {
    hide NextPair, FindTag, Written;
    var next := NextPair(s, from);
    if next.Unbalanced? {
      WrittenRest(s[from..]);
    } else {
      SectionsCoverPattern(s, next.end + 2);
      WrittenPair(s[from..next.start], s[next.start + 2..next.end], Cut(s, next.end + 2));
      TagText(s, next.start);
      TagText(s, next.end);
      FourCuts(s, from, next.start, next.start + 2, next.end, next.end + 2);
    }
  }

  lemma NoTagBetween(s: string, from: nat, at: nat)
    requires from <= at <= |s| && FindTag(s, from) == Some(at)
    ensures !HasTag(s[from..at])
  {
    forall i | 0 <= i ensures !TagAt(s[from..at], i) {
      TagInSlice(s, from, at, i);
    }
  }

  lemma UnbalancedTail(s: string, from: nat)
    requires from <= |s|
    ensures NextPair(s, from).Unbalanced? <==> AtMostOneTag(s[from..])
  {
    var t, next := s[from..], NextPair(s, from);
    assert t == s[from..|s|];
    if next.Tags? {
      TagInSlice(s, from, |s|, next.start - from);
      TagInSlice(s, from, |s|, next.end - from);
    } else {
      forall i, j | 0 <= i <= j && TagAt(t, i) && TagAt(t, j) ensures i == j {
        TagInSlice(s, from, |s|, i);
        TagInSlice(s, from, |s|, j);
      }
    }
  }

  lemma {:induction false} SectionsWellCut(s: string, from: nat)
    requires from <= |s|
    ensures WellCut(Cut(s, from))
    decreases |s| - from
  {
    hide NextPair, HasTag, AtMostOneTag;
    var next := NextPair(s, from);
    if next.Unbalanced? {
      UnbalancedTail(s, from);
    } else {
      SectionsWellCut(s, next.end + 2);
      NoTagBetween(s, from, next.start);
      NoTagBetween(s, next.start + 2, next.end);
    }
  }

  lemma DropSlice(s: string, from: nat, i: nat, j: nat)
    requires i <= j && from + j <= |s|
    ensures s[from..][i..j] == s[from + i..from + j]
    ensures s[from..][j..] == s[from + j..]
  {
  }

  lemma PartsOf(t: string, r: string, rest: string)
    ensures var u, tail := t + ("%r" + r + "%r" + rest), |t| + 2 + |r|;
            && |u| == tail + 2 + |rest| && TagAt(u, |t|) && TagAt(u, tail)
            && u[0..|t|] == t && u[|t| + 2..tail] == r && u[tail + 2..] == rest
  {
  }

  lemma SlicesOf(s: string, from: nat, t: string, r: string, rest: string)
    requires from <= |s| && s[from..] == t + ("%r" + r + "%r" + rest)
    ensures var start := from + |t|;
            var end := start + 2 + |r|;
            && end + 2 <= |s| && TagAt(s, start) && TagAt(s, end)
            && s[from..start] == t && s[start + 2..end] == r && s[end + 2..] == rest
  {
    PartsOf(t, r, rest);
    DropSlice(s, from, 0, |t|);
    DropSlice(s, from, |t| + 2, |t| + 2 + |r|);
    DropSlice(s, from, |t| + 4 + |r|, |t| + 4 + |r|);
  }

  lemma FirstTag(s: string, from: nat, at: nat)
    requires from <= at && TagAt(s, at) && !HasTag(s[from..at])
    ensures FindTag(s, from) == Some(at)
  {
    var first := FindTag(s, from).value;
    TagInSlice(s, from, at, first - from);
    assert first < at ==> first + 2 <= at;
  }

  /** A pattern that starts with a text and a section is cut there. */
  lemma CutPair(s: string, from: nat, t: string, r: string, rest: string) returns (next: nat)
    requires from <= |s| && s[from..] == t + ("%r" + r + "%r" + rest) && !HasTag(t) && !HasTag(r)
    ensures next <= |s| && s[next..] == rest && Cut(s, from) == Pair(t, r, Cut(s, next))
  {
    hide HasTag, FindTag;
    SlicesOf(s, from, t, r, rest);
    FirstTag(s, from, from + |t|);
    FirstTag(s, from + |t| + 2, from + |t| + 2 + |r|);
    next := NextPair(s, from).end + 2;
  }

  lemma CutRest(s: string, from: nat)
    requires from <= |s| && AtMostOneTag(s[from..])
    ensures Cut(s, from) == Rest(s[from..])
  {
    UnbalancedTail(s, from);
  }

  /** Sections that are well cut and spell the pattern are the ones the scanner finds. */
  lemma {:induction false} SectionsAreUnique(s: string, from: nat, x: Sections)
    requires from <= |s| && WellCut(x) && Written(x) == s[from..]
    ensures Cut(s, from) == x
    decreases x
  {
    if x.Rest? {
      CutRest(s, from);
    } else {
      var next := CutPair(s, from, x.text, x.regex, Written(x.tail));
      SectionsAreUnique(s, next, x.tail);
    }
  }

  // ---------------------------------------------------------------- the replacements

  /** The placeholder letters, in the order of the replacement passes. */
  const LETTERS := "esSaAwidxfc0"

  function Expansion(separator: char, letter: char): string {
    match letter
    case 'e' => ['\\', separator]
    case 's' => "[^\\r\\n]+"
    case 'S' => "[^\\r\\n]*"
    case 'a' => ".+"
    case 'A' => ".*"
    case 'w' => "\\s*"
    case 'i' => "[+-]?\\d+"
    case 'd' => "\\d+"
    case 'x' => "[0-9a-fA-F]+"
    case 'f' => "[+-]?\\.?\\d+\\.?\\d*(?:[Ee][+-]?\\d+)?"
    case 'c' => "."
    case _ => "\\x00"
  }

  type Table = char -> string

  function Expansions(separator: char): Table {
    letter => Expansion(separator, letter)
  }

  /** One pass: every occurrence of % and the letter, left to right, becomes its expansion. */
  function Pass(table: Table, letter: char, s: string): string {
    if |s| < 2 then s
    else if s[0] == '%' && s[1] == letter then table(letter) + Pass(table, letter, s[2..])
    else [s[0]] + Pass(table, letter, s[1..])
  }

  /** The passes for a list of letters, one after the other. */
  function Passes(table: Table, letters: string, s: string): string {
    if letters == "" then s else Pass(table, Last(letters), Passes(table, Front(letters), s))
  }

  /** A single left-to-right substitution of all the placeholders with these letters. */
  function Expand(table: Table, letters: string, s: string): string {
    if |s| < 2 then s
    else if s[0] == '%' && s[1] in letters then table(s[1]) + Expand(table, letters, s[2..])
    else [s[0]] + Expand(table, letters, s[1..])
  }

  /** Expansions have no '%' and do not start like a placeholder continues. */
  ghost predicate Harmless(table: Table) {
    forall l :: HarmlessText(table(l))
  }

  predicate HarmlessText(s: string) {
    '%' !in s && s != "" && s[0] !in LETTERS
  }

  lemma ExpansionsAreHarmless(separator: char)
    requires separator != '%'
    ensures Harmless(Expansions(separator))
  {
    hide HarmlessText, Expansion;
    forall l: char ensures HarmlessText(Expansion(separator, l)) {
      ExpansionIsHarmless(separator, l);
    }
  }

  lemma ExpansionIsHarmless(separator: char, l: char)
    requires separator != '%'
    ensures HarmlessText(Expansion(separator, l))
  {
    NoLetterFirst();
    if l == 'f' {
      FloatIsHarmless();
    } else if l in "sSixd" {
      ClassIsHarmless(separator, l);
    }
  }

  lemma FloatIsHarmless()
    ensures HarmlessText("[+-]?\\.?\\d+\\.?\\d*(?:[Ee][+-]?\\d+)?")
  {
    NoLetterFirst();
  }

  lemma ClassIsHarmless(separator: char, l: char)
    requires l in "sSixd"
    ensures HarmlessText(Expansion(separator, l))
  {
    NoLetterFirst();
  }

  lemma NoLetterFirst()
    ensures '\\' !in LETTERS && '[' !in LETTERS && '.' !in LETTERS
  {
  }

  lemma PassOne(table: Table, letter: char, c: char, s: string)
    requires c != '%' || s == "" || s[0] != letter
    ensures Pass(table, letter, [c] + s) == [c] + Pass(table, letter, s)
  {
    ConsConcat([c], s);
    EmptyConcat(s);
  }

  lemma PassPlaceholder(table: Table, letter: char, s: string)
    ensures Pass(table, letter, ['%', letter] + s) == table(letter) + Pass(table, letter, s)
  {
    assert (['%', letter] + s)[2..] == s;
  }

  lemma {:induction false} PassSkips(table: Table, letter: char, u: string, v: string)
    requires '%' !in u
    ensures Pass(table, letter, u + v) == u + Pass(table, letter, v)
  {
    hide Pass;
    if u == "" {
      EmptyConcat(v);
      EmptyConcat(Pass(table, letter, v));
    } else {
      Cons(u);
      Assoc([u[0]], u[1..], v);
      PassOne(table, letter, u[0], u[1..] + v);
      PassSkips(table, letter, u[1..], v);
      Assoc([u[0]], u[1..], Pass(table, letter, v));
    }
  }

  /** A pass over text in which other placeholders are already expanded. */
  lemma {:induction false} PassExtends(table: Table, letters: string, letter: char, s: string)
    requires Harmless(table) && letter in LETTERS
    ensures Pass(table, letter, Expand(table, letters, s)) == Expand(table, letters + [letter], s)
    decreases |s|
  {
    if |s| >= 2 {
      if s[0] == '%' && s[1] in letters {
        PassSkips(table, letter, table(s[1]), Expand(table, letters, s[2..]));
        PassExtends(table, letters, letter, s[2..]);
      } else if s[0] == '%' && s[1] == letter {
        ExpandLetterFirst(table, letters, s[1..]);
        PassExtends(table, letters, letter, s[2..]);
        var e := Expand(table, letters, s[2..]);
        assert s[1..][1..] == s[2..];
        Assoc(['%'], [letter], e);
        PassPlaceholder(table, letter, e);
      } else {
        PassExtends(table, letters, letter, s[1..]);
        ExpandHead(table, letters, letter, s[1..]);
        PassOne(table, letter, s[0], Expand(table, letters, s[1..]));
      }
    }
  }

  /** A letter that is not '%' is copied. */
  lemma ExpandLetterFirst(table: Table, letters: string, s: string)
    requires s != "" && s[0] != '%'
    ensures Expand(table, letters, s) == [s[0]] + Expand(table, letters, s[1..])
  {
    if |s| == 1 {
      assert s == [s[0]] + s[1..];
    }
  }

  /** The expanded text starts with a placeholder letter only if the original does. */
  lemma ExpandHead(table: Table, letters: string, letter: char, s: string)
    requires Harmless(table) && letter in LETTERS && s != ""
    ensures var e := Expand(table, letters, s);
            e != "" && (e[0] == letter ==> s[0] == letter)
  {
  }

  lemma {:induction false} ExpandNothing(table: Table, s: string)
    ensures Expand(table, "", s) == s
  {
    if |s| >= 2 {
      ExpandNothing(table, s[1..]);
    }
  }

  /** The passes in turn equal one simultaneous substitution. */
  lemma {:induction false} PassesAreOneSubstitution(table: Table, letters: string, s: string)
    requires Harmless(table) && forall i :: 0 <= i < |letters| ==> letters[i] in LETTERS
    ensures Passes(table, letters, s) == Expand(table, letters, s)
    decreases |letters|
  {
    if letters == "" {
      ExpandNothing(table, s);
    } else {
      PassesAreOneSubstitution(table, Front(letters), s);
      PassExtends(table, Front(letters), Last(letters), s);
      assert letters == Front(letters) + [Last(letters)];
    }
  }

  // ---------------------------------------------------------------- the regular expression as a whole

  /** The regular expression the output is matched against. */
  method Translate(wanted: string, separator: char) returns (regex: string)
    ensures regex == Passes(Expansions(separator), LETTERS, QuoteFrom(wanted, 0))
  {
    var table := Expansions(separator);
    regex := QuoteExceptSections(wanted);
    for i := 0 to |LETTERS|
      invariant regex == Passes(table, LETTERS[..i], QuoteFrom(wanted, 0))
    {
      assert Front(LETTERS[..i + 1]) == LETTERS[..i];
      regex := Pass(table, LETTERS[i], regex);
    }
    assert LETTERS[..|LETTERS|] == LETTERS;
  }

  /** Text on its own: placeholders expand, every other character is quoted. */
  function RenderText(table: Table, letters: string, t: string): string {
    if t == "" then ""
    else if |t| >= 2 && t[0] == '%' && t[1] in letters then table(t[1]) + RenderText(table, letters, t[2..])
    else QuoteChar(t[0]) + RenderText(table, letters, t[1..])
  }

  function RenderSections(table: Table, letters: string, x: Sections): string {
    match x
    case Rest(t) => RenderText(table, letters, t)
    case Pair(t, r, tail) =>
      RenderText(table, letters, t) + (("(" + Expand(table, letters, r) + ")") + RenderSections(table, letters, tail))
  }

  lemma ExpandOne(table: Table, letters: string, c: char, s: string)
    requires c != '%' || s == "" || s[0] !in letters
    ensures Expand(table, letters, [c] + s) == [c] + Expand(table, letters, s)
  {
    assert ([c] + s)[1..] == s;
  }

  lemma ExpandPlaceholder(table: Table, letters: string, l: char, s: string)
    requires l in letters
    ensures Expand(table, letters, ['%', l] + s) == table(l) + Expand(table, letters, s)
  {
    assert (['%', l] + s)[2..] == s;
  }

  lemma ExpandStep(table: Table, letters: string, c: char, s: string, v: string)
    requires c != '%' || (s == "" && v == "") || (s + v != "" && (s + v)[0] !in letters)
    requires Expand(table, letters, s + v) == Expand(table, letters, s) + Expand(table, letters, v)
    ensures Expand(table, letters, ([c] + s) + v) == Expand(table, letters, [c] + s) + Expand(table, letters, v)
  {
    hide Expand;
    assert s != "" ==> (s + v)[0] == s[0];
    ExpandOne(table, letters, c, s);
    ExpandOne(table, letters, c, s + v);
    Assoc([c], s, v);
    Assoc([c], Expand(table, letters, s), Expand(table, letters, v));
  }

  lemma ExpandPlaceholderStep(table: Table, letters: string, l: char, s: string, v: string)
    requires l in letters && Expand(table, letters, s + v) == Expand(table, letters, s) + Expand(table, letters, v)
    ensures Expand(table, letters, (['%', l] + s) + v) == Expand(table, letters, ['%', l] + s) + Expand(table, letters, v)
  {
    hide Expand;
    ExpandPlaceholder(table, letters, l, s);
    ExpandPlaceholder(table, letters, l, s + v);
    Assoc(['%', l], s, v);
    Assoc(table(l), Expand(table, letters, s), Expand(table, letters, v));
  }

  /** No placeholder spans two parts unless the first ends in '%' and the second starts with a letter. */
  lemma {:induction false} ExpandConcat(table: Table, letters: string, u: string, v: string)
    requires u == "" || Last(u) != '%' || v == "" || v[0] !in letters
    ensures Expand(table, letters, u + v) == Expand(table, letters, u) + Expand(table, letters, v)
    decreases |u|
  {
    if u == "" {
      assert u + v == v;
    } else if |u| >= 2 && u[0] == '%' && u[1] in letters {
      ExpandConcat(table, letters, u[2..], v);
      ExpandPlaceholderStep(table, letters, u[1], u[2..], v);
      assert u == ['%', u[1]] + u[2..];
    } else {
      ExpandConcat(table, letters, u[1..], v);
      assert |u| >= 2 ==> (u[1..] + v)[0] == u[1];
      ExpandStep(table, letters, u[0], u[1..], v);
      assert u == [u[0]] + u[1..];
    }
  }

  /** Letters that quoting copies and never produces. */
  ghost predicate Unquoted(letters: string) {
    forall c {:trigger QuoteChar(c)} :: c in letters || QuoteChar(c)[0] in letters ==> QuoteChar(c) == [c]
  }

  lemma QuoteCharFacts(c: char)
    ensures QuoteChar(c) != ""
    ensures '%' in QuoteChar(c) ==> c == '%' && QuoteChar(c) == [c]
    ensures c == '%' ==> QuoteChar(c) == [c]
  {
  }

  lemma {:induction false} ExpandPlain(table: Table, letters: string, u: string)
    requires '%' !in u
    ensures Expand(table, letters, u) == u
  {
    if |u| >= 2 {
      ExpandPlain(table, letters, u[1..]);
    }
  }

  /** Quoting neither hides a placeholder nor makes one. */
  lemma {:induction false} ExpandQuoted(table: Table, letters: string, t: string)
    requires Unquoted(letters)
    ensures Expand(table, letters, Quote(t)) == RenderText(table, letters, t)
    decreases |t|
  {
    if t != "" {
      QuoteCharFacts(t[0]);
      if |t| >= 2 && t[0] == '%' && t[1] in letters {
        QuotePlaceholder(t);
        ExpandQuoted(table, letters, t[2..]);
      } else {
        ExpandQuoted(table, letters, t[1..]);
        if |t| >= 2 {
          QuoteCharFacts(t[1]);
          assert Quote(t[1..])[0] == QuoteChar(t[1])[0];
        }
        ExpandConcat(table, letters, QuoteChar(t[0]), Quote(t[1..]));
        if t[0] != '%' {
          ExpandPlain(table, letters, QuoteChar(t[0]));
        }
      }
    }
  }

  lemma QuotePlaceholder(t: string)
    requires |t| >= 2 && t[0] == '%' && QuoteChar(t[1]) == [t[1]]
    ensures Quote(t) == ['%', t[1]] + Quote(t[2..])
    ensures Quote(t)[2..] == Quote(t[2..])
  {
    QuoteCharFacts('%');
    assert t[1..][1..] == t[2..];
  }

  lemma ExpandPair(table: Table, letters: string, t: string, r: string, rest: string)
    requires '(' !in letters && ')' !in letters
    ensures Expand(table, letters, t + (("(" + r + ")") + rest))
         == Expand(table, letters, t) + (("(" + Expand(table, letters, r) + ")") + Expand(table, letters, rest))
  {
    var u := "(" + r + ")";
    assert (u + rest)[0] == '(';
    ExpandConcat(table, letters, t, u + rest);
    ExpandConcat(table, letters, u, rest);
    ExpandConcat(table, letters, "(" + r, ")");
    ExpandConcat(table, letters, "(", r);
  }

  /** A section ends, and the next one starts, with something that cannot form a placeholder. */
  lemma {:induction false} ExpandSections(table: Table, letters: string, x: Sections)
    requires Unquoted(letters) && '(' !in letters && ')' !in letters
    ensures Expand(table, letters, QuoteSections(x)) == RenderSections(table, letters, x)
    decreases x
  {
    ExpandQuoted(table, letters, x.text);
    match x
    case Rest(_) =>
    case Pair(t, r, tail) =>
      ExpandSections(table, letters, tail);
      ExpandPair(table, letters, Quote(t), r, QuoteSections(tail));
  }

  lemma NoSpecialLetter(c: char)
    requires c in {'e', 's', 'S', 'a', 'A', 'w', 'i', 'd', 'x', 'f', 'c', '0'}
    ensures c !in SPECIAL
  {
  }

  lemma LetterIsUnquoted(c: char)
    ensures c in LETTERS ==> QuoteChar(c) == [c]
  {
    if c in LETTERS {
      assert c in {'e', 's', 'S', 'a', 'A', 'w', 'i', 'd', 'x', 'f', 'c', '0'};
      NoSpecialLetter(c);
    }
  }

  lemma LettersAreUnquoted()
    ensures Unquoted(LETTERS) && '(' !in LETTERS && ')' !in LETTERS
  {
    assert '\\' !in LETTERS;
    forall c {:trigger QuoteChar(c)} | c in LETTERS || QuoteChar(c)[0] in LETTERS ensures QuoteChar(c) == [c] {
      LetterIsUnquoted(c);
    }
  }

  /** The translation works section by section and placeholder by placeholder: the quoting and the
      twelve passes over the whole expression do not interfere with one another. */
  lemma TranslationIsSectionwise(separator: char, wanted: string)
    requires separator != '%'
    ensures Passes(Expansions(separator), LETTERS, QuoteFrom(wanted, 0))
         == RenderSections(Expansions(separator), LETTERS, Cut(wanted, 0))
  {
    var table, letters := Expansions(separator), LETTERS;
    ExpansionsAreHarmless(separator);
    LettersAreUnquoted();
    EmptyTail(wanted);
    PassesAreOneSubstitution(table, letters, QuoteSections(Cut(wanted, 0)));
    ExpandSections(table, letters, Cut(wanted, 0));
    assert QuoteFrom(wanted, 0) == QuoteSections(Cut(wanted, 0));
  }
}
