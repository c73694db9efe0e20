/** How names are normalised before they are stored or searched. */
module Text {
  import DateTags

  // The letters and digits of an alphabet, its spaces, and its case maps
  datatype Alphabet = Alphabet(isWord: char -> bool, isSpace: char -> bool, title: char -> char, lower: char -> char)

  // Mapping the case of a letter gives a letter, and mapping it again changes nothing
  ghost predicate Regular(a: Alphabet) {
    && !a.isWord(' ')
    && (forall c :: a.isWord(a.title(c)) == a.isWord(c) && a.isWord(a.lower(c)) == a.isWord(c))
    && (forall c :: a.title(a.title(c)) == a.title(c) && a.lower(a.lower(c)) == a.lower(c))
  }

  predicate StartsWord(a: Alphabet, s: string, i: nat)
    requires i < |s|
  {
    !a.isWord(if i == 0 then ' ' else s[i - 1])
  }

  // The first letter of every word upper-cased, all other letters lower-cased
  function TitleCase(a: Alphabet, s: string): (t: string)
    ensures |t| == |s|
    ensures forall i | 0 <= i < |s| :: t[i] == if StartsWord(a, s, i) then a.title(s[i]) else a.lower(s[i])
  {
    seq(|s|, i requires 0 <= i < |s| => if StartsWord(a, s, i) then a.title(s[i]) else a.lower(s[i]))
  }

  method TitleCaseRunes(a: Alphabet, s: string) returns (t: string)
    ensures t == TitleCase(a, s)
  {
    hide TitleCase;
    var prev := ' ';
    t := "";
    for i := 0 to |s|
      invariant prev == if i == 0 then ' ' else s[i - 1]
      invariant |t| == i && forall j | 0 <= j < i :: t[j] == TitleCase(a, s)[j]
    {
      var first := !a.isWord(prev);
      prev := s[i];
      t := t + [if first then a.title(s[i]) else a.lower(s[i])];
    }
  }

  // Normalising twice is normalising once
  lemma TitleCaseIsIdempotent(a: Alphabet, s: string)
    requires Regular(a)
    ensures TitleCase(a, TitleCase(a, s)) == TitleCase(a, s)
  {
    var t := TitleCase(a, s);
    forall i | 0 <= i < |s|
      ensures TitleCase(a, t)[i] == t[i]
    {
      assert StartsWord(a, t, i) == StartsWord(a, s, i);
    }
  }

  const ASCII := Alphabet(
    c => 'a' <= c <= 'z' || 'A' <= c <= 'Z' || '0' <= c <= '9',
    c => c == ' ' || '\t' <= c <= '\r',
    c => if 'a' <= c <= 'z' then (c as int - 32) as char else c,
    c => if 'A' <= c <= 'Z' then (c as int + 32) as char else c)

  // Regular alphabets exist
  lemma AsciiIsRegular()
    ensures Regular(ASCII)
  {
  }

  // Case maps that are idempotent, whatever they make of letters
  ghost predicate Idempotent(a: Alphabet) {
    !a.isWord(' ') && forall c :: a.title(a.title(c)) == a.title(c) && a.lower(a.lower(c)) == a.lower(c)
  }

  // Mapping the case of the rune before makes it a letter or stops it being one, so that the
  // other case map is due the second time
  predicate Turns(a: Alphabet, s: string, i: nat)
    requires i < |s|
  {
    i > 0 && a.isWord(if StartsWord(a, s, i - 1) then a.title(s[i - 1]) else a.lower(s[i - 1])) != a.isWord(s[i - 1])
  }

  // A string has a stable normal form exactly when, wherever normalising turned a letter into
  // something else or back, what follows is left alone by the case map then due
  lemma StableExactly(a: Alphabet, s: string)
    requires Idempotent(a)
    ensures TitleCase(a, TitleCase(a, s)) == TitleCase(a, s)
            <==> forall i | 0 <= i < |s| && Turns(a, s, i) ::
                   if StartsWord(a, s, i) then a.lower(a.title(s[i])) == a.title(s[i])
                   else a.title(a.lower(s[i])) == a.lower(s[i])
  {
    var t := TitleCase(a, s);
    var u := TitleCase(a, t);
    forall i | 0 <= i < |s|
      ensures u[i] == t[i] <==> (Turns(a, s, i) ==>
                                   if StartsWord(a, s, i) then a.lower(a.title(s[i])) == a.title(s[i])
                                   else a.title(a.lower(s[i])) == a.lower(s[i]))
    {
      assert u[i] == if StartsWord(a, t, i) then a.title(t[i]) else a.lower(t[i]);
    }
    hide TitleCase, StartsWord, Turns;
    if forall i | 0 <= i < |s| :: u[i] == t[i] {
      assert u == t;
    }
  }

  // ASCII with three signs of Unicode: the iota subscript is no letter, but its title case is
  // the capital iota, which is one
  const GREEK := Alphabet(
    c => ASCII.isWord(c) || c == '\U{0399}' || c == '\U{03B9}',
    ASCII.isSpace,
    c => if c == '\U{0345}' || c == '\U{03B9}' then '\U{0399}' else ASCII.title(c),
    c => if c == '\U{0399}' then '\U{03B9}' else ASCII.lower(c))

  // So a letter after an iota subscript starts a word the first time and none the second
  lemma IotaSubscriptDrifts()
    ensures Idempotent(GREEK) && !Regular(GREEK)
    ensures TitleCase(GREEK, "\U{0345}x") == "\U{0399}X"
    ensures TitleCase(GREEK, "\U{0399}X") == "\U{0399}x"
  {
    assert GREEK.isWord(GREEK.title('\U{0345}')) && !GREEK.isWord('\U{0345}');
  }

  predicate IsBlank(a: Alphabet, s: string) {
    forall c | c in s :: a.isSpace(c)
  }

  predicate IsYear(name: string) {
    |name| == 4 && forall c | c in name :: '0' <= c <= '9'
  }

  // The names of the date tags, which no user may give to a tag or a group
  predicate IsReserved(name: string) {
    name in DateTags.MONTH_NAMES || name == DateTags.ONGOING_TAG || IsYear(name)
  }
}
