/** Routing keys and filters: the two regular languages that validate them, the token
    matcher, and what the two have to do with each other. */
module Routing {

  // ---------------------------------------------------------------- regular expressions

  datatype Regex =
    | Chars(chars: set<char>)
    | Cat(first: Regex, second: Regex)
    | Alt(left: Regex, right: Regex)
    | Star(body: Regex)

  /** `s` belongs, as a whole, to the language of `r`. */
  predicate Matches(r: Regex, s: string)
    decreases r, |s|
  {
    match r
    case Chars(cs) => |s| == 1 && s[0] in cs
    case Cat(a, b) => exists i | 0 <= i <= |s| :: Matches(a, s[..i]) && Matches(b, s[i..])
    case Alt(a, b) => Matches(a, s) || Matches(b, s)
    case Star(a) => s == "" || exists i | 0 < i <= |s| :: Matches(a, s[..i]) && Matches(r, s[i..])
  }

  function Plus(r: Regex): Regex {
    Cat(r, Star(r))
  }

  const TOKEN_CHARS: set<char> :=
    set c: char | 'a' <= c <= 'z' || 'A' <= c <= 'Z' || '0' <= c <= '9' || c == '_' || c == '-'

  const WORD := Plus(Chars(TOKEN_CHARS))
  const DOT := Chars({'.'})
  const FILTER_TOKEN := Alt(WORD, Chars({'*'}))

  /** `token(.token)*`, the shape of both source expressions. */
  function Dotted(token: Regex): Regex {
    Cat(token, Star(Cat(DOT, token)))
  }

  predicate IsValidKey(key: string) {
    Matches(Dotted(WORD), key)
  }

  predicate IsValidFilter(filter: string) {
    Matches(Dotted(FILTER_TOKEN), filter)
  }

  // ---------------------------------------------------------------- tokens

  /** The tokens between dots; like Go's `strings.Split`, never an empty list. */
  function Split(s: string): (tokens: seq<string>)
    ensures tokens != []
  {
    if s == "" then [""]
    else if s[0] == '.' then [""] + Split(s[1..])
    else var rest := Split(s[1..]); [[s[0]] + rest[0]] + rest[1..]
  }

  function Join(tokens: seq<string>): string
    requires tokens != []
  {
    if |tokens| == 1 then tokens[0] else tokens[0] + "." + Join(tokens[1..])
  }

  predicate IsTokenChar(c: char) {
    'a' <= c <= 'z' || 'A' <= c <= 'Z' || '0' <= c <= '9' || c == '_' || c == '-'
  }

  predicate IsWord(token: string) {
    token != "" && forall i :: 0 <= i < |token| ==> IsTokenChar(token[i])
  }

  predicate IsFilterToken(token: string) {
    IsWord(token) || token == "*"
  }

  // ---------------------------------------------------------------- the matcher

  predicate MatchTokens(filter: seq<string>, key: seq<string>)
    requires |filter| == |key|
  {
    filter == [] || ((filter[0] == "*" || filter[0] == key[0]) && MatchTokens(filter[1..], key[1..]))
  }

  predicate Match(filter: string, key: string) {
    var fs, ks := Split(filter), Split(key);
    |fs| == |ks| && MatchTokens(fs, ks)
  }

  predicate MatchesAny(filters: seq<string>, key: string) {
    exists i :: 0 <= i < |filters| && Match(filters[i], key)
  }

  // ---------------------------------------------------------------- split and join

  lemma {:induction false} JoinSplit(s: string)
    ensures Join(Split(s)) == s
  {
    if s != "" {
      JoinSplit(s[1..]);
      var rest := Split(s[1..]);
      if s[0] == '.' {
        assert ([""] + rest)[1..] == rest;
      } else {
        var tokens := [[s[0]] + rest[0]] + rest[1..];
        assert tokens[1..] == rest[1..];
      }
    }
  }

  lemma {:induction false} SplitTokensDotFree(s: string)
    ensures forall t :: t in Split(s) ==> '.' !in t
  {
    if s != "" { SplitTokensDotFree(s[1..]); }
  }

  lemma {:induction false} SplitWord(token: string)
    requires '.' !in token
    ensures Split(token) == [token]
  {
    if token != "" {
      assert token[0] in token && forall c :: c in token[1..] ==> c in token;
      SplitWord(token[1..]);
      assert [token[0]] + token[1..] == token;
    }
  }

  lemma {:induction false} SplitDot(token: string, rest: string)
    requires '.' !in token
    ensures Split(token + "." + rest) == [token] + Split(rest)
  {
    var s := token + "." + rest;
    if token == "" {
      assert s[1..] == rest;
    } else {
      assert s[1..] == token[1..] + "." + rest;
      assert token[0] in token && forall c :: c in token[1..] ==> c in token;
      SplitDot(token[1..], rest);
      assert s[0] == token[0] && [token[0]] + token[1..] == token;
    }
  }

  /** Splitting undoes joining, for any list of dot-free tokens. */
  lemma {:induction false} SplitJoin(tokens: seq<string>)
    requires tokens != [] && forall t :: t in tokens ==> '.' !in t
    ensures Split(Join(tokens)) == tokens
  {
    if |tokens| == 1 {
      SplitWord(tokens[0]);
    } else {
      SplitJoin(tokens[1..]);
      SplitDot(tokens[0], Join(tokens[1..]));
    }
  }

  // ---------------------------------------------------------------- the two languages

  lemma {:induction false} StarOfChars(cs: set<char>, s: string)
    ensures Matches(Star(Chars(cs)), s) <==> forall i :: 0 <= i < |s| ==> s[i] in cs
  {
    if s != "" {
      StarOfChars(cs, s[1..]);
      var r := Star(Chars(cs));
      if Matches(r, s) {
        var i :| 0 < i <= |s| && Matches(Chars(cs), s[..i]) && Matches(r, s[i..]);
        assert i == 1;
        forall j | 0 <= j < |s| ensures s[j] in cs {
          if j > 0 { assert s[1..][j - 1] in cs; }
        }
      }
      if forall i :: 0 <= i < |s| ==> s[i] in cs {
        assert Matches(Chars(cs), s[..1]) && Matches(r, s[1..]);
      }
    }
  }

  lemma WordLanguage(s: string)
    ensures Matches(WORD, s) <==> IsWord(s)
  {
    assert forall c :: c in TOKEN_CHARS <==> IsTokenChar(c);
    if s != "" {
      StarOfChars(TOKEN_CHARS, s[1..]);
      if Matches(WORD, s) {
        var i :| 0 <= i <= |s| && Matches(Chars(TOKEN_CHARS), s[..i]) && Matches(Star(Chars(TOKEN_CHARS)), s[i..]);
        assert i == 1;
        forall j | 0 <= j < |s| ensures s[j] in TOKEN_CHARS {
          if j > 0 { assert s[1..][j - 1] in TOKEN_CHARS; }
        }
      }
      if IsWord(s) {
        assert Matches(Chars(TOKEN_CHARS), s[..1]);
      }
    }
  }

  lemma FilterTokenLanguage(s: string)
    ensures Matches(FILTER_TOKEN, s) <==> IsFilterToken(s)
  {
    WordLanguage(s);
  }

  /** The language of one token, given as a regular expression and as a predicate on dot-free strings. */
  ghost predicate TokenLanguage(token: Regex, isToken: string -> bool) {
    && (forall s :: Matches(token, s) <==> isToken(s))
    && (forall s :: isToken(s) ==> '.' !in s)
  }

  /** What may follow the first token: nothing, or a dot and more tokens. */
  ghost predicate IsTail(isToken: string -> bool, s: string) {
    s == "" || (s[0] == '.' && forall t :: t in Split(s[1..]) ==> isToken(t))
  }

  lemma {:induction false} TailSound(token: Regex, isToken: string -> bool, s: string)
    requires TokenLanguage(token, isToken) && Matches(Star(Cat(DOT, token)), s)
    ensures IsTail(isToken, s)
    decreases |s|
  {
    var item := Cat(DOT, token);
    if s != "" {
      var i :| 0 < i <= |s| && Matches(item, s[..i]) && Matches(Star(item), s[i..]);
      var first := s[..i];
      var j :| 0 <= j <= |first| && Matches(DOT, first[..j]) && Matches(token, first[j..]);
      assert j == 1 && first[0] == '.';
      TailSound(token, isToken, s[i..]);
      AllTokensFromParts(isToken, first[1..], s[i..]);
      assert s[1..] == first[1..] + s[i..];
    }
  }

  lemma {:induction false} TailComplete(token: Regex, isToken: string -> bool, s: string)
    requires TokenLanguage(token, isToken) && IsTail(isToken, s)
    ensures Matches(Star(Cat(DOT, token)), s)
    decreases |s|
  {
    if s != "" {
      var head, tail := FirstToken(s[1..]);
      var i := 1 + |head|;
      var first := s[..i];
      assert first == "." + head && s[i..] == tail;
      assert Matches(Cat(DOT, token), first) by {
        assert first[..1] == "." && first[1..] == head;
      }
      TailComplete(token, isToken, tail);
    }
  }

  /** A token followed by nothing, or by a dot and more tokens, splits into tokens. */
  lemma AllTokensFromParts(isToken: string -> bool, head: string, tail: string)
    requires isToken(head) && '.' !in head
    requires IsTail(isToken, tail)
    ensures forall t :: t in Split(head + tail) ==> isToken(t)
  {
    hide Split;
    if tail == "" {
      assert head + tail == head;
      SplitWord(head);
    } else {
      DotFirst(head, tail);
      SplitDot(head, tail[1..]);
      AllWithHead(isToken, head, Split(tail[1..]));
    }
  }

  lemma DotFirst(head: string, tail: string)
    requires tail != "" && tail[0] == '.'
    ensures head + tail == head + "." + tail[1..]
  {
    assert tail == "." + tail[1..];
  }

  lemma AllWithHead(isToken: string -> bool, head: string, rest: seq<string>)
    requires isToken(head) && forall t :: t in rest ==> isToken(t)
    ensures forall t :: t in [head] + rest ==> isToken(t)
  {
  }

  /** Cuts a string at its first dot. */
  lemma FirstToken(s: string) returns (head: string, tail: string)
    ensures s == head + tail && head in Split(s)
    ensures tail == "" || (tail[0] == '.' && forall t :: t in Split(tail[1..]) ==> t in Split(s))
  {
    hide Split;
    JoinSplit(s);
    SplitTokensDotFree(s);
    var tokens := Split(s);
    head := tokens[0];
    if |tokens| == 1 {
      tail := "";
    } else {
      tail := "." + Join(tokens[1..]);
      SplitJoin(tokens[1..]);
      assert tail[1..] == Join(tokens[1..]);
      assert Join(tokens) == head + "." + Join(tokens[1..]);
    }
  }

  lemma DottedLanguage(token: Regex, isToken: string -> bool, s: string)
    requires TokenLanguage(token, isToken)
    ensures Matches(Dotted(token), s) <==> forall t :: t in Split(s) ==> isToken(t)
  {
    hide Matches, Split, TokenLanguage;
    if Matches(Dotted(token), s) { DottedSound(token, isToken, s); }
    if forall t :: t in Split(s) ==> isToken(t) { DottedComplete(token, isToken, s); }
  }

  lemma DottedSound(token: Regex, isToken: string -> bool, s: string)
    requires TokenLanguage(token, isToken) && Matches(Dotted(token), s)
    ensures forall t :: t in Split(s) ==> isToken(t)
  {
    hide Matches, Split, IsTail;
    var i := CatSplit(token, Star(Cat(DOT, token)), s);
    TailSound(token, isToken, s[i..]);
    AllTokensFromParts(isToken, s[..i], s[i..]);
    assert s == s[..i] + s[i..];
  }

  lemma DottedComplete(token: Regex, isToken: string -> bool, s: string)
    requires TokenLanguage(token, isToken) && forall t :: t in Split(s) ==> isToken(t)
    ensures Matches(Dotted(token), s)
  {
    hide Matches, Split;
    var head, tail := FirstToken(s);
    TailComplete(token, isToken, tail);
    CatJoin(token, Star(Cat(DOT, token)), head, tail);
  }

  lemma CatSplit(a: Regex, b: Regex, s: string) returns (i: nat)
    requires Matches(Cat(a, b), s)
    ensures i <= |s| && Matches(a, s[..i]) && Matches(b, s[i..])
  {
    i :| 0 <= i <= |s| && Matches(a, s[..i]) && Matches(b, s[i..]);
  }

  lemma CatJoin(a: Regex, b: Regex, s: string, t: string)
    requires Matches(a, s) && Matches(b, t)
    ensures Matches(Cat(a, b), s + t)
  {
    assert (s + t)[..|s|] == s && (s + t)[|s|..] == t;
  }

  /** The key expression accepts exactly the strings all of whose tokens are words. */
  lemma KeyLanguage(s: string)
    ensures IsValidKey(s) <==> forall t :: t in Split(s) ==> IsWord(t)
  {
    forall t ensures Matches(WORD, t) <==> IsWord(t) { WordLanguage(t); }
    DottedLanguage(WORD, IsWord, s);
  }

  /** The filter expression accepts exactly the strings all of whose tokens are words or a lone star. */
  lemma FilterLanguage(s: string)
    ensures IsValidFilter(s) <==> forall t :: t in Split(s) ==> IsFilterToken(t)
  {
    forall t ensures Matches(FILTER_TOKEN, t) <==> IsFilterToken(t) { FilterTokenLanguage(t); }
    DottedLanguage(FILTER_TOKEN, IsFilterToken, s);
  }

  // ---------------------------------------------------------------- what matching means

  lemma {:induction false} MatchTokensPointwise(filter: seq<string>, key: seq<string>)
    requires |filter| == |key|
    ensures MatchTokens(filter, key) <==> forall i :: 0 <= i < |filter| ==> filter[i] == "*" || filter[i] == key[i]
  {
    if filter != [] {
      MatchTokensPointwise(filter[1..], key[1..]);
      assert filter == [filter[0]] + filter[1..] && key == [key[0]] + key[1..];
    }
  }

  /** A star stands for exactly one token; every other token stands for itself. */
  lemma MatchMeaning(filter: string, key: string)
    ensures Match(filter, key) <==>
      && |Split(filter)| == |Split(key)|
      && forall i :: 0 <= i < |Split(filter)| ==> Split(filter)[i] == "*" || Split(filter)[i] == Split(key)[i]
  {
    if |Split(filter)| == |Split(key)| {
      MatchTokensPointwise(Split(filter), Split(key));
    }
  }

  /** Without a star, a filter matches one string: itself. */
  lemma ExactFilterMatchesItself(filter: string, key: string)
    requires "*" !in Split(filter)
    ensures Match(filter, key) <==> filter == key
  {
    MatchMeaning(filter, key);
    JoinSplit(filter);
    JoinSplit(key);
    if Match(filter, key) {
      assert Split(filter) == Split(key);
    }
  }

  /** A valid key is also a valid filter, and as a filter it matches that key and no other. */
  lemma KeyIsItsOwnFilter(key: string, other: string)
    requires IsValidKey(key)
    ensures IsValidFilter(key)
    ensures Match(key, other) <==> key == other
  {
    KeyLanguage(key);
    FilterLanguage(key);
    assert "*" !in Split(key) by {
      assert !IsWord("*") by { assert !IsTokenChar("*"[0]); }
    }
    ExactFilterMatchesItself(key, other);
  }

  // ---------------------------------------------------------------- filters as languages

  function Literal(s: string): Regex {
    if s == "" then Star(Chars({})) else Cat(Chars({s[0]}), Literal(s[1..]))
  }

  /** A filter read as a regular expression: every star is one word, every other token is itself. */
  function FilterRegex(tokens: seq<string>): Regex
    requires tokens != []
  {
    var head := if tokens[0] == "*" then WORD else Literal(tokens[0]);
    if |tokens| == 1 then head else Cat(head, Cat(DOT, FilterRegex(tokens[1..])))
  }

  lemma {:induction false} LiteralLanguage(t: string, s: string)
    ensures Matches(Literal(t), s) <==> s == t
  {
    if t == "" {
      StarOfChars({}, s);
      assert s != "" ==> s[0] !in {};
    } else {
      if Matches(Literal(t), s) {
        var i :| 0 <= i <= |s| && Matches(Chars({t[0]}), s[..i]) && Matches(Literal(t[1..]), s[i..]);
        LiteralLanguage(t[1..], s[i..]);
        assert s == s[..i] + s[i..] && i == 1;
      }
      if s == t {
        LiteralLanguage(t[1..], s[1..]);
        assert Matches(Chars({t[0]}), s[..1]);
      }
    }
  }

  lemma HeadLanguage(t: string, s: string)
    requires IsFilterToken(t)
    ensures Matches(if t == "*" then WORD else Literal(t), s) <==> IsWord(s) && (t == "*" || t == s)
  {
    WordLanguage(s);
    LiteralLanguage(t, s);
  }

  /** `ks` are words and, token by token, what the filter tokens `fs` allow. */
  ghost predicate Accepts(fs: seq<string>, ks: seq<string>) {
    |fs| == |ks| && forall i :: 0 <= i < |fs| ==> IsWord(ks[i]) && (fs[i] == "*" || fs[i] == ks[i])
  }

  lemma DotOnly(s: string)
    requires Matches(DOT, s)
    ensures s == "."
  {
  }

  /** Where a match of `first . second` splits. */
  lemma CatDot(first: Regex, second: Regex, s: string) returns (i: nat)
    requires Matches(Cat(first, Cat(DOT, second)), s)
    ensures i < |s| && s[i] == '.' && Matches(first, s[..i]) && Matches(second, s[i + 1..])
  {
    hide Matches;
    i := CatSplit(first, Cat(DOT, second), s);
    var tail := s[i..];
    var j := CatSplit(DOT, second, tail);
    DotOnly(tail[..j]);
    assert tail[..j][0] == s[i] && tail[j..] == s[i + 1..];
  }

  lemma {:induction false} FilterRegexSound(fs: seq<string>, key: string)
    requires fs != [] && (forall t :: t in fs ==> IsFilterToken(t)) && Matches(FilterRegex(fs), key)
    ensures Accepts(fs, Split(key))
  {
    hide Matches, Split;
    if |fs| == 1 {
      HeadLanguage(fs[0], key);
      SplitWord(key);
    } else {
      var i := CatDot(FilterRegex(fs).first, FilterRegex(fs[1..]), key);
      var head, tail := key[..i], key[i + 1..];
      HeadLanguage(fs[0], head);
      FilterRegexSound(fs[1..], tail);
      SplitDot(head, tail);
      assert key == head + "." + tail;
    }
  }

  lemma {:induction false} FilterRegexComplete(fs: seq<string>, ks: seq<string>)
    requires fs != [] && (forall t :: t in fs ==> IsFilterToken(t)) && Accepts(fs, ks)
    ensures Matches(FilterRegex(fs), Join(ks))
  {
    HeadLanguage(fs[0], ks[0]);
    if |fs| > 1 {
      FilterRegexComplete(fs[1..], ks[1..]);
      var key, rest := Join(ks), Join(ks[1..]);
      var i := |ks[0]|;
      assert key[..i] == ks[0] && key[i..] == "." + rest;
      var tail := key[i..];
      assert Matches(Cat(DOT, FilterRegex(fs[1..])), tail) by {
        assert tail[..1] == "." && tail[1..] == rest;
      }
    }
  }

  /** Among valid keys, a valid filter matches exactly its regular language. */
  lemma FilterIsRegular(filter: string, key: string)
    requires IsValidFilter(filter)
    ensures Matches(FilterRegex(Split(filter)), key) <==> IsValidKey(key) && Match(filter, key)
  {
    FilterLanguage(filter);
    KeyLanguage(key);
    MatchMeaning(filter, key);
    if Matches(FilterRegex(Split(filter)), key) {
      FilterRegexSound(Split(filter), key);
    }
    if IsValidKey(key) && Match(filter, key) {
      FilterRegexComplete(Split(filter), Split(key));
      JoinSplit(key);
    }
  }
}
