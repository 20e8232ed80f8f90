/** What the regular expression of an EXPECTF pattern means: quoted text stands for itself, and every
    placeholder for the texts that the documentation of the test format names. */
module ExpectFMeaning {
  import opened Collections
  import opened ExpectF

  // ---------------------------------------------------------------- quoted text

  /** Characters that mean something in an expression delimited by '/', unless a backslash is before
      them. */
  predicate IsMeta(c: char) {
    || c == '\\' || c == '^' || c == '$' || c == '.' || c == '[' || c == '|' || c == '(' || c == ')'
    || c == '?' || c == '*' || c == '+' || c == '{' || c == '/' || c == '\0'
  }

  predicate IsWordChar(c: char) {
    '0' <= c <= '9' || 'a' <= c <= 'z' || 'A' <= c <= 'Z'
  }

  /** Reads an expression as plain text: a character, one after a backslash if it is no letter or digit,
      or the octal number of the null character. Anything else is not plain text. */
  function Plain(e: string): Option<string> {
    if e == "" then Some("")
    else if |e| >= 4 && e[0] == '\\' && e[1] == '0' && e[2] == '0' && e[3] == '0' then Before('\0', Plain(e[4..]))
    else if |e| >= 2 && e[0] == '\\' && !IsWordChar(e[1]) then Before(e[1], Plain(e[2..]))
    else if IsMeta(e[0]) then None
    else Before(e[0], Plain(e[1..]))
  }

  function Before(c: char, rest: Option<string>): Option<string> {
    match rest
    case None => None
    case Some(t) => Some([c] + t)
  }

  lemma MetaIsSpecial(c: char)
    requires IsMeta(c) && c != '\0'
    ensures c in SPECIAL
  {
    assert SPECIAL[1] == '\\' && SPECIAL[6] == '^' && SPECIAL[8] == '$' && SPECIAL[0] == '.' && SPECIAL[5] == '[';
    assert SPECIAL[17] == '|' && SPECIAL[9] == '(' && SPECIAL[10] == ')' && SPECIAL[4] == '?' && SPECIAL[3] == '*';
    assert SPECIAL[2] == '+' && SPECIAL[11] == '{' && SPECIAL[21] == '/';
  }

  lemma SpecialIsNoWord(c: char)
    requires c in SPECIAL
    ensures !IsWordChar(c)
  {
    var i :| 0 <= i < |SPECIAL| && SPECIAL[i] == c;
  }

  lemma PlainChar(c: char, e: string)
    ensures Plain(QuoteChar(c) + e) == Before(c, Plain(e))
  {
    var q := QuoteChar(c) + e;
    if c == '\0' {
      assert q[4..] == e;
    } else if c in SPECIAL {
      SpecialIsNoWord(c);
      assert q[2..] == e;
    } else {
      if IsMeta(c) {
        MetaIsSpecial(c);
      }
      assert q[1..] == e;
    }
  }

  /** Quoted text is read as the text itself, so quoting can be undone, and no character of the text
      keeps a special meaning. */
  lemma {:induction false} QuotedIsPlain(s: string)
    ensures Plain(Quote(s)) == Some(s)
  {
    if s != "" {
      hide Plain, QuoteChar;
      QuotedIsPlain(s[1..]);
      PlainChar(s[0], Quote(s[1..]));
      assert s == [s[0]] + s[1..];
    } else {
      assert Plain("") == Some("");
    }
  }

  // ---------------------------------------------------------------- placeholders

  /** Sets of characters, as the expressions name them. */
  datatype Chars = Literal(c: char) | NoLineEnd | Anything | Space | Digit | HexDigit | Sign | Point | Exponent | Null

  predicate Has(k: Chars, c: char) {
    match k
    case Literal(d) => c == d
    case NoLineEnd => c != '\r' && c != '\n'
    case Anything => true
    case Space => c == ' ' || c == '\t' || c == '\n' || c == '\r' || c == '\U{0B}' || c == '\U{0C}'
    case Digit => '0' <= c <= '9'
    case HexDigit => '0' <= c <= '9' || 'a' <= c <= 'f' || 'A' <= c <= 'F'
    case Sign => c == '+' || c == '-'
    case Point => c == '.'
    case Exponent => c == 'E' || c == 'e'
    case Null => c == '\0'
  }

  datatype Re = One(k: Chars) | Some1(k: Chars) | Some0(k: Chars) | Maybe(k: Chars) | MaybeAll(r: Re) | Then(r: Re, next: Re)

  ghost predicate Matches(r: Re, s: string) {
    match r
    case One(k) => |s| == 1 && Has(k, s[0])
    case Some1(k) => s != "" && AllHave(k, s)
    case Some0(k) => AllHave(k, s)
    case Maybe(k) => s == "" || (|s| == 1 && Has(k, s[0]))
    case MaybeAll(r') => s == "" || Matches(r', s)
    case Then(r1, r2) => exists i :: 0 <= i <= |s| && Matches(r1, s[..i]) && Matches(r2, s[i..])
  }

  predicate AllHave(k: Chars, s: string) {
    forall i :: 0 <= i < |s| ==> Has(k, s[i])
  }

  /** How the set is written. */
  function Written(k: Chars): string {
    match k
    case Literal(c) => ['\\', c]
    case NoLineEnd => "[^\\r\\n]"
    case Anything => "."
    case Space => "\\s"
    case Digit => "\\d"
    case HexDigit => "[0-9a-fA-F]"
    case Sign => "[+-]"
    case Point => "\\."
    case Exponent => "[Ee]"
    case Null => "\\x00"
  }

  function Text(r: Re): string {
    match r
    case One(k) => Written(k)
    case Some1(k) => Written(k) + "+"
    case Some0(k) => Written(k) + "*"
    case Maybe(k) => Written(k) + "?"
    case MaybeAll(r') => "(?:" + Text(r') + ")?"
    case Then(r1, r2) => Text(r1) + Text(r2)
  }

  const INTEGER := Then(Maybe(Sign), Some1(Digit))

  const FRACTION := Then(Maybe(Point), Then(Some0(Digit), MaybeAll(Then(One(Exponent), INTEGER))))

  const FLOAT := Then(Maybe(Sign), Then(Maybe(Point), Then(Some1(Digit), FRACTION)))

  /** What the letters stand for. */
  function Meaning(separator: char, letter: char): Re {
    match letter
    case 'e' => One(Literal(separator))
    case 's' => Some1(NoLineEnd)
    case 'S' => Some0(NoLineEnd)
    case 'a' => Some1(Anything)
    case 'A' => Some0(Anything)
    case 'w' => Some0(Space)
    case 'i' => INTEGER
    case 'd' => Some1(Digit)
    case 'x' => Some1(HexDigit)
    case 'f' => FLOAT
    case 'c' => One(Anything)
    case _ => One(Null)
  }

  /** Every placeholder becomes the expression for what it stands for. */
  lemma ExpansionIsMeaning(separator: char, letter: char)
    ensures Expansion(separator, letter) == Text(Meaning(separator, letter))
  {
    if letter == 'i' {
      IntegerText();
    } else if letter == 'f' {
      FloatText();
    }
  }

  lemma IntegerText()
    ensures Text(INTEGER) == "[+-]?\\d+"
  {
  }

  lemma FloatText()
    ensures Text(FLOAT) == "[+-]?\\.?\\d+\\.?\\d*(?:[Ee][+-]?\\d+)?"
  {
    hide Text;
    FractionText();
    ThenText(Some1(Digit), FRACTION);
    ThenText(Maybe(Point), Then(Some1(Digit), FRACTION));
    ThenText(Maybe(Sign), Then(Maybe(Point), Then(Some1(Digit), FRACTION)));
    PartTexts();
    Assoc("[+-]?", "\\.?", "\\d+" + Text(FRACTION));
    Assoc("[+-]?\\.?", "\\d+", Text(FRACTION));
    assert "[+-]?" + "\\.?" == "[+-]?\\.?";
    assert "[+-]?\\.?" + "\\d+" == "[+-]?\\.?\\d+";
    JoinFloat();
  }

  lemma JoinFloat()
    ensures "[+-]?\\.?\\d+" + "\\.?\\d*(?:[Ee][+-]?\\d+)?" == "[+-]?\\.?\\d+\\.?\\d*(?:[Ee][+-]?\\d+)?"
  {
  }

  lemma FractionText()
    ensures Text(FRACTION) == "\\.?\\d*(?:[Ee][+-]?\\d+)?"
  {
    hide Text;
    ExponentText();
    var exponent := MaybeAll(Then(One(Exponent), INTEGER));
    ThenText(Some0(Digit), exponent);
    ThenText(Maybe(Point), Then(Some0(Digit), exponent));
    PartTexts();
    Assoc("\\.?", "\\d*", Text(exponent));
  }

  lemma ExponentText()
    ensures Text(MaybeAll(Then(One(Exponent), INTEGER))) == "(?:[Ee][+-]?\\d+)?"
  {
    hide Text;
    IntegerText();
    GroupText(Then(One(Exponent), INTEGER));
    ThenText(One(Exponent), INTEGER);
    PartTexts();
    assert Text(Then(One(Exponent), INTEGER)) == "[Ee][+-]?\\d+";
  }

  lemma PartTexts()
    ensures Text(One(Exponent)) == "[Ee]" && Text(Some0(Digit)) == "\\d*" && Text(Some1(Digit)) == "\\d+"
    ensures Text(Maybe(Point)) == "\\.?" && Text(Maybe(Sign)) == "[+-]?"
  {
  }

  lemma ThenText(r1: Re, r2: Re)
    ensures Text(Then(r1, r2)) == Text(r1) + Text(r2)
  {
  }

  lemma GroupText(r: Re)
    ensures Text(MaybeAll(r)) == "(?:" + Text(r) + ")?"
  {
  }

  /** What the placeholders for one character match. */
  lemma CharacterMatches(separator: char, s: string)
    ensures Matches(Meaning(separator, 'e'), s) <==> s == [separator]
    ensures Matches(Meaning(separator, 'c'), s) <==> |s| == 1
    ensures Matches(Meaning(separator, '0'), s) <==> s == "\0"
  {
    hide Has;
    HasFacts(separator);
    if |s| == 1 {
      assert s == [s[0]];
    }
  }

  /** What the placeholders for many characters match. */
  lemma PlaceholderMatches(separator: char, s: string)
    ensures Matches(Meaning(separator, 's'), s) <==> s != "" && '\r' !in s && '\n' !in s
    ensures Matches(Meaning(separator, 'S'), s) <==> '\r' !in s && '\n' !in s
    ensures Matches(Meaning(separator, 'a'), s) <==> s != ""
    ensures Matches(Meaning(separator, 'A'), s)
    ensures Matches(Meaning(separator, 'd'), s) <==> s != "" && forall c :: c in s ==> '0' <= c <= '9'
    ensures Matches(Meaning(separator, 'w'), s) <==> forall c :: c in s ==> Has(Space, c)
    ensures Matches(Meaning(separator, 'x'), s) <==> s != "" && forall c :: c in s ==> Has(HexDigit, c)
  {
    hide Has, AllHave;
    AllHaveIff(NoLineEnd, s);
    AllHaveIff(Anything, s);
    AllHaveIff(Digit, s);
    AllHaveIff(Space, s);
    AllHaveIff(HexDigit, s);
    HasFacts(separator);
    if '\r' !in s && '\n' !in s {
      assert forall c :: c in s ==> c != '\r' && c != '\n';
    }
  }

  lemma AllHaveIff(k: Chars, s: string)
    ensures AllHave(k, s) <==> forall c :: c in s ==> Has(k, c)
  {
  }

  lemma HasFacts(separator: char)
    ensures forall c {:trigger Has(NoLineEnd, c)} :: Has(NoLineEnd, c) <==> c != '\r' && c != '\n'
    ensures forall c {:trigger Has(Anything, c)} :: Has(Anything, c)
    ensures forall c {:trigger Has(Digit, c)} :: Has(Digit, c) <==> '0' <= c <= '9'
    ensures forall c {:trigger Has(Literal(separator), c)} :: Has(Literal(separator), c) <==> c == separator
    ensures forall c {:trigger Has(Null, c)} :: Has(Null, c) <==> c == '\0'
  {
  }

  /** An integer: digits, after a sign or not. */
  lemma IntegerMatches(separator: char, s: string)
    ensures Matches(Meaning(separator, 'i'), s) <==>
            s != "" && AllHave(Digit, if Has(Sign, s[0]) then s[1..] else s) && (Has(Sign, s[0]) ==> |s| > 1)
  {
    hide Has, AllHave;
    SignParts(s);
    if Matches(INTEGER, s) {
      var i :| 0 <= i <= |s| && Matches(Maybe(Sign), s[..i]) && Matches(Some1(Digit), s[i..]);
      assert i == 0 || (i == 1 && s[..1][0] == s[0]);
    }
  }

  /** Where an integer can be cut. */
  lemma SignParts(s: string)
    ensures s[0..] == s && s[..0] == ""
    ensures s != "" ==> s[..1] == [s[0]]
    ensures s != "" && Has(Sign, s[0]) ==> !AllHave(Digit, s)
  {
    assert s != "" && Has(Sign, s[0]) ==> !Has(Digit, s[0]);
  }
}
