/** Names in filters (src/services/xero/client/Client.ts): `normalizeName` and `escapeParam`
    without transliteration. Strings are sequences of UTF-16 code units; every character these
    functions single out is one unit. */
module Names {

  /** `\s`, and what `trim` removes. */
  predicate IsSpace(c: char) {
    || c == ' ' || ('\t' <= c <= '\r')
    || c == '\U{00A0}' || c == '\U{1680}' || ('\U{2000}' <= c <= '\U{200A}')
    || c == '\U{2028}' || c == '\U{2029}' || c == '\U{202F}' || c == '\U{205F}' || c == '\U{3000}' || c == '\U{FEFF}'
  }

  /** `replace(/["]/g, '')` */
  function Unquoted(s: string): string {
    if s == [] then [] else if s[0] == '"' then Unquoted(s[1..]) else [s[0]] + Unquoted(s[1..])
  }

  /** What is left after the white space at the start. */
  function TrimStart(s: string): (r: string)
    ensures |r| <= |s|
    ensures r == [] || !IsSpace(r[0])
  {
    if s != [] && IsSpace(s[0]) then TrimStart(s[1..]) else s
  }

  function TrimEnd(s: string): string {
    if s != [] && IsSpace(s[|s| - 1]) then TrimEnd(s[..|s| - 1]) else s
  }

  /** `trim` */
  function Trim(s: string): string {
    TrimEnd(TrimStart(s))
  }

  /** `replace(/\s+/g, ' ')` */
  function Collapsed(s: string): string
    decreases |s|
  {
    if s == [] then []
    else if IsSpace(s[0]) then [' '] + Collapsed(TrimStart(s))
    else [s[0]] + Collapsed(s[1..])
  }

  /** `normalizeName` */
  function NormalizeName(s: string): string {
    Trim(Collapsed(Unquoted(s)))
  }

  // ---- Words ----

  /** The characters before the first white space. */
  function FirstWord(s: string): (r: string)
    ensures |r| <= |s|
    ensures s != [] && !IsSpace(s[0]) ==> r != []
  {
    if s == [] || IsSpace(s[0]) then [] else [s[0]] + FirstWord(s[1..])
  }

  /** The maximal runs of characters that are not white space. */
  function Words(s: string): seq<string>
    decreases |s|
  {
    var t := TrimStart(s);
    if t == [] then [] else [FirstWord(t)] + Words(t[|FirstWord(t)|..])
  }

  function Joined(words: seq<string>): string {
    if words == [] then []
    else if |words| == 1 then words[0]
    else words[0] + [' '] + Joined(words[1..])
  }

  ghost predicate IsWord(w: string) {
    w != [] && forall c <- w :: !IsSpace(c)
  }

  ghost predicate AllWords(words: seq<string>) {
    forall w <- words :: IsWord(w)
  }

  lemma {:induction false} FirstWordMeaning(s: string)
    ensures FirstWord(s) == s[..|FirstWord(s)|]
    ensures forall c <- FirstWord(s) :: !IsSpace(c)
    ensures |FirstWord(s)| < |s| ==> IsSpace(s[|FirstWord(s)|])
  {
    if s == [] || IsSpace(s[0]) {
    } else {
      FirstWordMeaning(s[1..]);
    }
  }

  lemma {:induction false} FirstWordOf(w: string, rest: string)
    requires IsWord(w) && (rest == [] || IsSpace(rest[0]))
    ensures FirstWord(w + rest) == w
    decreases |w|
  {
    assert w[0] in w;
    assert (w + rest)[1..] == w[1..] + rest;
    if |w| > 1 {
      assert forall c <- w[1..] :: c in w;
      FirstWordOf(w[1..], rest);
    } else {
      assert w[1..] + rest == rest;
    }
  }

  lemma {:induction false} WordsAreWords(s: string)
    ensures AllWords(Words(s))
    decreases |s|
  {
    var t := TrimStart(s);
    if t == [] {
    } else {
      FirstWordMeaning(t);
      WordsAreWords(t[|FirstWord(t)|..]);
    }
  }

  // ---- Normalising keeps the words and joins them by single spaces ----

  lemma {:induction false} CollapsedWord(s: string)
    ensures Collapsed(s) == FirstWord(s) + Collapsed(s[|FirstWord(s)|..])
    decreases |s|
  {
    if s == [] || IsSpace(s[0]) {
      assert FirstWord(s) == [] && s[0..] == s;
    } else {
      var w := FirstWord(s[1..]);
      CollapsedWord(s[1..]);
      DropOneMore(s, |w|);
      Associative([s[0]], w, Collapsed(s[|w| + 1..]));
    }
  }

  lemma {:induction false} Associative(a: string, b: string, c: string)
    ensures a + b + c == a + (b + c)
  {
  }

  lemma {:induction false} DropOneMore(s: string, n: nat)
    requires n < |s|
    ensures s[1..][n..] == s[n + 1..]
  {
  }

  lemma {:induction false} TrimEndAfter(s: string, t: string)
    requires TrimEnd(t) != []
    ensures TrimEnd(s + t) == s + TrimEnd(t)
    decreases |t|
  {
    var u := s + t;
    assert u[|u| - 1] == t[|t| - 1] && u[..|u| - 1] == s + t[..|t| - 1];
    if !IsSpace(t[|t| - 1]) {
    } else {
      TrimEndAfter(s, t[..|t| - 1]);
    }
  }

  lemma {:induction false} TrimEndOfWord(w: string)
    requires IsWord(w)
    ensures TrimEnd(w) == w && TrimEnd(w + [' ']) == w
  {
    assert w[|w| - 1] in w;
    assert (w + [' '])[..|w|] == w;
  }

  lemma {:induction false} JoinedEndsInWord(words: seq<string>)
    requires words != [] && AllWords(words)
    ensures Joined(words) != [] && TrimEnd(Joined(words)) == Joined(words)
  {
    assert words[0] in words;
    if |words| == 1 {
      TrimEndOfWord(words[0]);
    } else {
      assert forall w <- words[1..] :: w in words;
      JoinedEndsInWord(words[1..]);
      TrimEndAfter(words[0] + [' '], Joined(words[1..]));
    }
  }

  lemma {:induction false} TrimEndTrims(s: string)
    ensures TrimEnd(s) == [] || !IsSpace(TrimEnd(s)[|TrimEnd(s)| - 1])
  {
    if s == [] || !IsSpace(s[|s| - 1]) {
    } else {
      TrimEndTrims(s[..|s| - 1]);
    }
  }

  lemma {:induction false} WordsSkipSpace(s: string)
    ensures Words(s) == Words(TrimStart(s))
  {
    assert TrimStart(TrimStart(s)) == TrimStart(s);
  }

  lemma {:induction false} JoinedCons(w: string, words: seq<string>)
    ensures Joined([w] + words) == if words == [] then w else w + [' '] + Joined(words)
  {
    assert ([w] + words)[1..] == words;
  }

  /** Collapsing a text that starts with a word, then trimming its end. */
  lemma {:induction false} CollapsedIsJoined(t: string)
    requires t != [] && !IsSpace(t[0])
    ensures TrimEnd(Collapsed(t)) == Joined(Words(t))
    decreases |t|
  {
    var w := FirstWord(t);
    var rest := t[|w|..];
    var next := TrimStart(rest);
    FirstWordMeaning(t);
    CollapsedWord(t);
    WordsSkipSpace(rest);
    JoinedCons(w, Words(next));
    if next == [] {
      assert Collapsed(t) == w || Collapsed(t) == w + [' '];
      TrimEndOfWord(w);
    } else {
      CollapsedIsJoined(next);
      WordsAreWords(next);
      JoinedEndsInWord(Words(next));
      CollapsedAfterWord(t, w, rest, next);
      TrimEndAfter(w + [' '], Collapsed(next));
    }
  }

  lemma {:induction false} CollapsedAfterWord(t: string, w: string, rest: string, next: string)
    requires Collapsed(t) == w + Collapsed(rest) && next == TrimStart(rest) != []
    requires rest != [] && IsSpace(rest[0])
    ensures Collapsed(t) == (w + [' ']) + Collapsed(next)
  {
  }

  lemma {:induction false} TrimStartCollapsed(s: string)
    ensures TrimStart(Collapsed(s)) == Collapsed(TrimStart(s))
  {
    if s != [] && IsSpace(s[0]) {
      var t := TrimStart(s);
      assert Collapsed(s)[1..] == Collapsed(t);
      assert t == [] || !IsSpace(Collapsed(t)[0]);
    }
  }

  /** A normalised name is the words of the unquoted name, joined by single spaces. */
  lemma {:induction false} NormalizedIsJoinedWords(s: string)
    ensures NormalizeName(s) == Joined(Words(Unquoted(s)))
  {
    var u := Unquoted(s);
    var t := TrimStart(u);
    TrimStartCollapsed(u);
    if t != [] {
      CollapsedIsJoined(t);
      assert TrimStart(t) == t;
    }
  }

  lemma {:induction false} WordsOfWordAnd(w: string, rest: string)
    requires IsWord(w) && (rest == [] || IsSpace(rest[0]))
    ensures Words(w + rest) == [w] + Words(rest)
  {
    assert w[0] in w;
    FirstWordOf(w, rest);
    assert (w + rest)[|w|..] == rest;
    assert TrimStart(w + rest) == w + rest;
  }

  lemma {:induction false} WordsOfJoined(words: seq<string>)
    requires AllWords(words)
    ensures Words(Joined(words)) == words
  {
    if words == [] {
    } else {
      var w, tail := words[0], words[1..];
      assert w in words && forall v <- tail :: v in words;
      assert words == [w] + tail;
      WordsOfJoined(tail);
      JoinedCons(w, tail);
      if tail == [] {
        WordsOfWordAnd(w, []);
        assert w + [] == w;
      } else {
        var rest := [' '] + Joined(tail);
        WordsOfWordAnd(w, rest);
        Associative(w, [' '], Joined(tail));
        WordsAfterSpace(Joined(tail));
      }
    }
  }

  lemma {:induction false} WordsAfterSpace(s: string)
    ensures Words([' '] + s) == Words(s)
  {
    assert ([' '] + s)[1..] == s;
    assert TrimStart([' '] + s) == TrimStart(s);
  }

  lemma {:induction false} UnquotedHasNoQuotes(s: string)
    ensures '"' !in Unquoted(s)
  {
    if s == [] {
    } else {
      UnquotedHasNoQuotes(s[1..]);
    }
  }

  lemma {:induction false} UnquotedKeeps(s: string)
    requires '"' !in s
    ensures Unquoted(s) == s
  {
    if s == [] {
    } else {
      assert s[0] in s;
      assert forall c <- s[1..] :: c in s;
      UnquotedKeeps(s[1..]);
    }
  }

  lemma {:induction false} CharactersOfJoined(s: string, c: char)
    requires c in Joined(Words(s))
    ensures c in s || c == ' '
    decreases |s|
  {
    var t := TrimStart(s);
    TrimStartKeeps(s);
    if t == [] {
    } else {
      var w := FirstWord(t);
      var rest := t[|w|..];
      FirstWordMeaning(t);
      assert Words(s) == [w] + Words(rest);
      assert Words(s)[1..] == Words(rest);
      if c in w {
        assert c in t;
      } else if c != ' ' {
        assert c in Joined(Words(rest));
        CharactersOfJoined(rest, c);
        assert c in t;
      }
    }
  }

  lemma {:induction false} TrimStartKeeps(s: string)
    ensures forall c <- TrimStart(s) :: c in s
  {
    if s == [] || !IsSpace(s[0]) {
    } else {
      TrimStartKeeps(s[1..]);
    }
  }

  lemma {:induction false} NormalizedHasNoQuotes(s: string)
    ensures '"' !in NormalizeName(s)
  {
    NormalizedIsJoinedWords(s);
    UnquotedHasNoQuotes(s);
    if '"' in NormalizeName(s) {
      CharactersOfJoined(Unquoted(s), '"');
    }
  }

  /** Normalising is idempotent. */
  lemma {:induction false} NormalizeNameIsIdempotent(s: string)
    ensures NormalizeName(NormalizeName(s)) == NormalizeName(s)
  {
    var n := NormalizeName(s);
    NormalizedIsJoinedWords(s);
    NormalizedIsJoinedWords(n);
    NormalizedHasNoQuotes(s);
    UnquotedKeeps(n);
    WordsAreWords(Unquoted(s));
    WordsOfJoined(Words(Unquoted(s)));
  }

  /** Two names are identified exactly when they have the same words. */
  lemma {:induction false} SameNormalFormIffSameWords(s: string, t: string)
    ensures NormalizeName(s) == NormalizeName(t) <==> Words(Unquoted(s)) == Words(Unquoted(t))
  {
    NormalizedIsJoinedWords(s);
    NormalizedIsJoinedWords(t);
    WordsAreWords(Unquoted(s));
    WordsAreWords(Unquoted(t));
    WordsOfJoined(Words(Unquoted(s)));
    WordsOfJoined(Words(Unquoted(t)));
  }

  // ---- Escaping ----

  predicate IsSpecial(c: char) {
    c == '\\' || c == '$' || c == '\''
  }

  /** `replace(/[\\$']/g, '\\$&')`: a backslash before each special character. */
  function Escaped(s: string): string {
    if s == [] then []
    else if IsSpecial(s[0]) then ['\\', s[0]] + Escaped(s[1..])
    else [s[0]] + Escaped(s[1..])
  }

  /** `escapeParam(s, false)` */
  function EscapeParam(s: string): string {
    Trim(Escaped(NormalizeName(s)))
  }

  /** Drops each backslash and keeps the character after it. */
  function Unescaped(s: string): string
    decreases |s|
  {
    if s == [] then []
    else if s[0] == '\\' && |s| > 1 then [s[1]] + Unescaped(s[2..])
    else [s[0]] + Unescaped(s[1..])
  }

  lemma {:induction false} UnescapeEscaped(s: string)
    ensures Unescaped(Escaped(s)) == s
  {
    if s == [] {
    } else {
      UnescapeEscaped(s[1..]);
      if IsSpecial(s[0]) {
        assert Escaped(s)[2..] == Escaped(s[1..]);
      } else {
        assert Escaped(s)[1..] == Escaped(s[1..]);
      }
    }
  }

  lemma {:induction false} EscapedEnds(s: string)
    requires s != []
    ensures Escaped(s) != [] && Escaped(s)[|Escaped(s)| - 1] == s[|s| - 1]
    ensures IsSpace(Escaped(s)[0]) ==> IsSpace(s[0])
  {
    if |s| == 1 {
    } else {
      EscapedEnds(s[1..]);
    }
  }

  /** A normalised name neither starts nor ends with white space. */
  lemma {:induction false} NormalizedIsTrimmed(s: string)
    ensures var n := NormalizeName(s); n == [] || (!IsSpace(n[0]) && !IsSpace(n[|n| - 1]))
  {
    var words := Words(Unquoted(s));
    NormalizedIsJoinedWords(s);
    WordsAreWords(Unquoted(s));
    if words != [] {
      JoinedEndsInWord(words);
      TrimEndTrims(Joined(words));
      assert words[0] in words && words[0][0] in words[0];
      assert Joined(words)[0] == words[0][0];
    }
  }

  /** The second trim never removes anything. */
  lemma {:induction false} EscapingNeedsNoTrim(s: string)
    ensures EscapeParam(s) == Escaped(NormalizeName(s))
  {
    var n := NormalizeName(s);
    NormalizedIsTrimmed(s);
    if n != [] {
      EscapedEnds(n);
    }
  }

  /** Unescaping an escaped name gives its normal form back. */
  lemma {:induction false} EscapeRoundTrip(s: string)
    ensures Unescaped(EscapeParam(s)) == NormalizeName(s)
  {
    EscapingNeedsNoTrim(s);
    UnescapeEscaped(NormalizeName(s));
  }

  /** Escaping confuses two names exactly when they have the same normal form. */
  lemma {:induction false} EscapeIsInjectiveOnNormalForms(s: string, t: string)
    ensures EscapeParam(s) == EscapeParam(t) <==> NormalizeName(s) == NormalizeName(t)
  {
    EscapeRoundTrip(s);
    EscapeRoundTrip(t);
    EscapingNeedsNoTrim(s);
    EscapingNeedsNoTrim(t);
  }

  lemma {:induction false} EscapedConcat(s: string, t: string)
    ensures Escaped(s + t) == Escaped(s) + Escaped(t)
    decreases |s|
  {
    if s == [] {
      assert s + t == t;
    } else {
      assert (s + t)[1..] == s[1..] + t;
      EscapedConcat(s[1..], t);
    }
  }

  /** Character by character: a backslash is added before each backslash, dollar sign and apostrophe
      of the normal form, and nothing else is added or changed. */
  lemma {:induction false} EscapedCharByChar(s: string, i: nat)
    requires i < |NormalizeName(s)|
    ensures var n := NormalizeName(s);
            EscapeParam(s) == Escaped(n[..i]) + (if n[i] in {'\\', '$', '\''} then ['\\', n[i]] else [n[i]]) + Escaped(n[i + 1..])
  {
    var n := NormalizeName(s);
    EscapingNeedsNoTrim(s);
    assert n == n[..i] + ([n[i]] + n[i + 1..]);
    EscapedConcat(n[..i], [n[i]] + n[i + 1..]);
    EscapedConcat([n[i]], n[i + 1..]);
    assert [n[i]][1..] == [];
  }

  /** Words are separated by the white space and line terminators of ECMA-262, and by nothing else. */
  lemma {:induction false} SeparatesWordsIff(c: char)
    requires c != '"'
    ensures NormalizeName(['a', c, 'b']) == "a b"
       <==> c in {' ', '\t', '\n', '\U{000B}', '\U{000C}', '\r', '\U{00A0}', '\U{1680}', '\U{2028}', '\U{2029}', '\U{202F}',
                  '\U{205F}', '\U{3000}', '\U{FEFF}'} || '\U{2000}' <= c <= '\U{200A}'
  {
    var s := ['a', c, 'b'];
    assert s[1..] == [c, 'b'] && [c, 'b'][1..] == ['b'] && ['b'][1..] == [];
    UnquotedKeeps(s);
    assert Unquoted(s) == s;
    assert Collapsed([]) == [] && Collapsed(['b']) == ['b'];
    if IsSpace(c) {
      assert TrimStart(['b']) == ['b'];
      assert TrimStart([c, 'b']) == ['b'];
      assert Collapsed([c, 'b']) == [' ', 'b'];
    } else {
      assert Collapsed([c, 'b']) == [c, 'b'];
    }
    assert Collapsed(s) == if IsSpace(c) then ['a', ' ', 'b'] else s;
  }
}
