/** How a search term is printed as a PostgreSQL tsquery, and read back. */
module SearchQuery {
  import opened Types

  /** The Unicode property White_Space, by which Rust's `split_whitespace` splits. */
  predicate IsWhite(c: char) {
    || '\U{0009}' <= c <= '\U{000D}' || c == ' ' || c == '\U{0085}' || c == '\U{00A0}' || c == '\U{1680}'
    || '\U{2000}' <= c <= '\U{200A}' || c == '\U{2028}' || c == '\U{2029}' || c == '\U{202F}'
    || c == '\U{205F}' || c == '\U{3000}'
  }

  predicate IsOperator(c: char) {
    c in {'&', '|', '!', ':', '*', '(', ')', '\\'}
  }

  function WordLength(s: string): (n: nat)
    ensures n <= |s|
  {
    if s == "" || IsWhite(s[0]) then 0 else 1 + WordLength(s[1..])
  }

  function SplitWhitespace(s: string): seq<string> {
    if s == "" then []
    else if IsWhite(s[0]) then SplitWhitespace(s[1..])
    else [s[..WordLength(s)]] + SplitWhitespace(s[WordLength(s)..])
  }

  function Clean(word: string): string {
    if word == "" then ""
    else if IsOperator(word[0]) then Clean(word[1..])
    else [word[0]] + Clean(word[1..])
  }

  function DoubleQuotes(word: string): string {
    if word == "" then ""
    else (if word[0] == '\'' then "''" else [word[0]]) + DoubleQuotes(word[1..])
  }

  function CleanAll(words: seq<string>): seq<string> {
    if words == [] then []
    else if Clean(words[0]) == "" then CleanAll(words[1..])
    else [Clean(words[0])] + CleanAll(words[1..])
  }

  /** What is searched for: the words of the term without operators, those with nothing left dropped. */
  function CleanWords(term: string): seq<string> {
    CleanAll(SplitWhitespace(term))
  }

  function DoubleAll(words: seq<string>): seq<string> {
    if words == [] then [] else [DoubleQuotes(words[0])] + DoubleAll(words[1..])
  }

  /** Each word as a prefix search, joined with " & ". */
  function Print(words: seq<string>): string {
    if words == [] then ""
    else if |words| == 1 then words[0] + ":*"
    else words[0] + ":*" + " & " + Print(words[1..])
  }

  function Escape(term: string): string {
    Print(DoubleAll(CleanWords(term)))
  }

  // ---- Reading a query back.

  function SplitOnAnd(q: string): (r: seq<string>)
    ensures r != []
  {
    if q == "" then [""]
    else if |q| >= 3 && q[..3] == " & " then [""] + SplitOnAnd(q[3..])
    else
      var r := SplitOnAnd(q[1..]);
      [[q[0]] + r[0]] + r[1..]
  }

  function DropPrefixMark(piece: string): string {
    if |piece| >= 2 && piece[|piece| - 2..] == ":*" then piece[..|piece| - 2] else piece
  }

  function UndoubleQuotes(piece: string): string {
    if piece == "" then ""
    else if |piece| >= 2 && piece[0] == '\'' && piece[1] == '\'' then ['\''] + UndoubleQuotes(piece[2..])
    else [piece[0]] + UndoubleQuotes(piece[1..])
  }

  function ReadPieces(pieces: seq<string>): seq<string> {
    if pieces == [] then [] else [UndoubleQuotes(DropPrefixMark(pieces[0]))] + ReadPieces(pieces[1..])
  }

  function Read(query: string): seq<string> {
    if query == "" then [] else ReadPieces(SplitOnAnd(query))
  }

  // ---- What the words look like.

  predicate Plain(c: char) {
    !IsWhite(c) && !IsOperator(c)
  }

  /** A word that can be printed: not empty, and made of plain characters. */
  ghost predicate PlainWord(w: string) {
    w != "" && forall i :: 0 <= i < |w| ==> Plain(w[i])
  }

  ghost predicate PlainWords(words: seq<string>) {
    forall i :: 0 <= i < |words| ==> PlainWord(words[i])
  }

  ghost predicate NoWhite(w: string) {
    forall i :: 0 <= i < |w| ==> !IsWhite(w[i])
  }

  lemma {:induction false} WordHasNoWhite(s: string)
    ensures NoWhite(s[..WordLength(s)])
    ensures WordLength(s) < |s| ==> IsWhite(s[WordLength(s)])
  {
    if s != "" && !IsWhite(s[0]) {
      WordHasNoWhite(s[1..]);
      assert s[..WordLength(s)] == [s[0]] + s[1..][..WordLength(s[1..])];
    }
  }

  lemma {:induction false} CleanIsPlain(w: string)
    requires NoWhite(w)
    ensures forall i :: 0 <= i < |Clean(w)| ==> Plain(Clean(w)[i])
  {
    if w != "" {
      CleanIsPlain(w[1..]);
    }
  }

  lemma {:induction false} CleanWordsArePlain(term: string)
    ensures PlainWords(CleanWords(term))
  {
    if term == "" {
    } else if IsWhite(term[0]) {
      CleanWordsArePlain(term[1..]);
    } else {
      WordHasNoWhite(term);
      CleanIsPlain(term[..WordLength(term)]);
      CleanWordsArePlain(term[WordLength(term)..]);
    }
  }

  lemma {:induction false} DoubledIsPlain(w: string)
    requires forall i :: 0 <= i < |w| ==> Plain(w[i])
    ensures forall i :: 0 <= i < |DoubleQuotes(w)| ==> Plain(DoubleQuotes(w)[i])
    ensures |DoubleQuotes(w)| >= |w|
  {
    if w != "" {
      DoubledIsPlain(w[1..]);
    }
  }

  lemma {:induction false} DoubledArePlain(words: seq<string>)
    requires PlainWords(words)
    ensures PlainWords(DoubleAll(words)) && |DoubleAll(words)| == |words|
  {
    if words != [] {
      assert PlainWord(words[0]);
      DoubledIsPlain(words[0]);
      DoubledArePlain(words[1..]);
    }
  }

  // ---- The round trip.

  lemma {:induction false} QuotesComeBack(w: string)
    ensures UndoubleQuotes(DoubleQuotes(w)) == w
  {
    if w != "" {
      QuotesComeBack(w[1..]);
      var rest := DoubleQuotes(w[1..]);
      if w[0] == '\'' {
        assert ("''" + rest)[2..] == rest;
      } else {
        assert ([w[0]] + rest)[1..] == rest;
      }
      assert w == [w[0]] + w[1..];
    }
  }

  ghost predicate NoSpace(p: string) {
    forall i :: 0 <= i < |p| ==> p[i] != ' '
  }

  lemma {:induction false} LastPiece(p: string)
    requires NoSpace(p)
    ensures SplitOnAnd(p) == [p]
  {
    if p != "" {
      assert |p| >= 3 ==> p[..3][0] == p[0];
      LastPiece(p[1..]);
      assert p == [p[0]] + p[1..];
    }
  }

  lemma {:induction false} FirstPiece(p: string, rest: string)
    requires NoSpace(p)
    ensures SplitOnAnd(p + " & " + rest) == [p] + SplitOnAnd(rest)
  {
    var q := p + " & " + rest;
    if p == "" {
      assert q[..3] == " & " && q[3..] == rest;
    } else {
      assert q[..3][0] == p[0];
      assert q[1..] == p[1..] + " & " + rest;
      FirstPiece(p[1..], rest);
      assert [p[0]] + p[1..] == p;
    }
  }

  lemma PieceHasNoSpace(w: string)
    requires PlainWord(w)
    ensures NoSpace(w + ":*")
  {
  }

  lemma MarkDrops(w: string)
    ensures DropPrefixMark(w + ":*") == w
  {
    assert (w + ":*")[|w|..] == ":*" && (w + ":*")[..|w|] == w;
  }

  function PiecesOf(words: seq<string>): seq<string> {
    if words == [] then [] else [words[0] + ":*"] + PiecesOf(words[1..])
  }

  lemma {:induction false} PrintSplits(words: seq<string>)
    requires PlainWords(words) && words != []
    ensures SplitOnAnd(Print(words)) == PiecesOf(words)
  {
    assert PlainWord(words[0]);
    PieceHasNoSpace(words[0]);
    if |words| == 1 {
      LastPiece(words[0] + ":*");
      assert words[1..] == [];
    } else {
      PrintSplits(words[1..]);
      FirstPiece(words[0] + ":*", Print(words[1..]));
    }
  }

  lemma {:induction false} PiecesRead(words: seq<string>)
    ensures ReadPieces(PiecesOf(DoubleAll(words))) == words
  {
    if words != [] {
      PiecesRead(words[1..]);
      MarkDrops(DoubleQuotes(words[0]));
      QuotesComeBack(words[0]);
      var rest := DoubleAll(words[1..]);
      assert DoubleAll(words)[1..] == rest;
      assert PiecesOf(DoubleAll(words))[1..] == PiecesOf(rest);
      assert words == [words[0]] + words[1..];
    }
  }

  /** The escaped query can be read back: it determines the cleaned words, in order. */
  lemma QueryReadsBack(term: string)
    ensures Read(Escape(term)) == CleanWords(term)
    ensures Escape(term) == "" <==> CleanWords(term) == []
  {
    var words := CleanWords(term);
    CleanWordsArePlain(term);
    DoubledArePlain(words);
    if words != [] {
      PrintSplits(DoubleAll(words));
      PiecesRead(words);
    }
  }

  /** Two terms print the same query exactly when their cleaned words agree. */
  lemma QueryIsUniquelyDecodable(a: string, b: string)
    ensures Escape(a) == Escape(b) <==> CleanWords(a) == CleanWords(b)
  {
    QueryReadsBack(a);
    QueryReadsBack(b);
  }

  // ---- Escaping twice.

  lemma {:induction false} FirstWord(w: string, rest: string)
    requires w != "" && NoWhite(w) && (rest != "" ==> IsWhite(rest[0]))
    ensures WordLength(w + rest) == |w|
    ensures SplitWhitespace(w + rest) == [w] + SplitWhitespace(rest)
  {
    WordLengthIs(w, rest);
    assert (w + rest)[..|w|] == w && (w + rest)[|w|..] == rest;
  }

  lemma {:induction false} WordLengthIs(w: string, rest: string)
    requires NoWhite(w) && (rest != "" ==> IsWhite(rest[0]))
    ensures WordLength(w + rest) == |w|
  {
    if w == "" {
      assert w + rest == rest;
    } else {
      assert (w + rest)[1..] == w[1..] + rest;
      WordLengthIs(w[1..], rest);
    }
  }

  lemma {:induction false} CleanPlain(w: string)
    requires forall i :: 0 <= i < |w| ==> Plain(w[i])
    ensures Clean(w + ":*") == w
  {
    if w == "" {
      assert w + ":*" == ":*" && ":*"[1..] == "*" && "*"[1..] == "";
    } else {
      assert (w + ":*")[1..] == w[1..] + ":*";
      CleanPlain(w[1..]);
      assert w == [w[0]] + w[1..];
    }
  }

  /** The words of a printed query are the words that were printed; the "&" between them is cleaned away. */
  lemma {:induction false} PrintedWords(words: seq<string>)
    requires PlainWords(words)
    ensures CleanWords(Print(words)) == words
  {
    if words == [] {
    } else {
      var w := words[0];
      assert PlainWord(w);
      CleanPlain(w);
      assert NoWhite(w + ":*");
      assert words == [w] + words[1..];
      if |words| == 1 {
        FirstWord(w + ":*", "");
        assert w + ":*" + "" == Print(words);
        CleanOne(w + ":*", []);
      } else {
        var rest := Print(words[1..]);
        PrintedWords(words[1..]);
        FirstWord(w + ":*", " & " + rest);
        SkipAnd(rest);
        assert Print(words) == w + ":*" + (" & " + rest);
        CleanOne(w + ":*", SplitWhitespace(" & " + rest));
      }
    }
  }

  lemma CleanOne(word: string, rest: seq<string>)
    ensures CleanAll([word] + rest) == if Clean(word) == "" then CleanAll(rest) else [Clean(word)] + CleanAll(rest)
  {
    assert ([word] + rest)[1..] == rest;
  }

  lemma SkipAnd(rest: string)
    ensures CleanAll(SplitWhitespace(" & " + rest)) == CleanWords(rest)
  {
    assert (" & " + rest)[1..] == "&" + (" " + rest);
    FirstWord("&", " " + rest);
    assert (" " + rest)[1..] == rest;
    assert "&"[1..] == "" && Clean("&") == "";
    CleanOne("&", SplitWhitespace(" " + rest));
  }

  lemma {:induction false} DoublingChanges(w: string)
    ensures '\'' !in w ==> DoubleQuotes(w) == w
    ensures '\'' in w ==> |DoubleQuotes(w)| > |w| && '\'' in DoubleQuotes(w)
    ensures |DoubleQuotes(w)| >= |w|
  {
    if w != "" {
      DoublingChanges(w[1..]);
      assert w == [w[0]] + w[1..];
    }
  }

  ghost predicate HasQuote(words: seq<string>) {
    exists i :: 0 <= i < |words| && '\'' in words[i]
  }

  lemma {:induction false} DoublingChangesWords(words: seq<string>)
    ensures HasQuote(DoubleAll(words)) <==> HasQuote(words)
    ensures DoubleAll(words) == words <==> !HasQuote(words)
  {
    if words != [] {
      var rest := words[1..];
      DoublingChanges(words[0]);
      DoublingChangesWords(rest);
      assert words == [words[0]] + rest;
      QuoteAhead(words[0], rest);
      QuoteAhead(DoubleQuotes(words[0]), DoubleAll(rest));
      assert DoubleAll(words)[1..] == DoubleAll(rest) && DoubleAll(words)[0] == DoubleQuotes(words[0]);
    }
  }

  lemma QuoteAhead(w: string, rest: seq<string>)
    ensures HasQuote([w] + rest) <==> '\'' in w || HasQuote(rest)
  {
    var all := [w] + rest;
    if '\'' in w {
      assert '\'' in all[0];
    }
    if HasQuote(rest) {
      var i :| 0 <= i < |rest| && '\'' in rest[i];
      assert '\'' in all[i + 1];
    }
  }

  lemma {:induction false} CleanKeepsQuotes(w: string)
    ensures '\'' in Clean(w) <==> '\'' in w
  {
    if w != "" {
      CleanKeepsQuotes(w[1..]);
      assert w == [w[0]] + w[1..];
    }
  }

  lemma {:induction false} WordsKeepQuotes(term: string)
    ensures HasQuote(CleanWords(term)) <==> '\'' in term
  {
    if term == "" {
    } else if IsWhite(term[0]) {
      WordsKeepQuotes(term[1..]);
      assert term == [term[0]] + term[1..];
    } else {
      var w, rest := term[..WordLength(term)], term[WordLength(term)..];
      assert term == w + rest;
      WordsKeepQuotes(rest);
      CleanKeepsQuotes(w);
      CleanOne(w, SplitWhitespace(rest));
      QuoteAhead(Clean(w), CleanAll(SplitWhitespace(rest)));
    }
  }

  /** Escaping an escaped term changes nothing if and only if the term holds no single quote. */
  lemma EscapingTwice(term: string)
    ensures CleanWords(Escape(term)) == DoubleAll(CleanWords(term))
    ensures Escape(Escape(term)) == Escape(term) <==> '\'' !in term
  {
    var words := CleanWords(term);
    CleanWordsArePlain(term);
    DoubledArePlain(words);
    PrintedWords(DoubleAll(words));
    QueryIsUniquelyDecodable(Escape(term), term);
    DoublingChangesWords(words);
    WordsKeepQuotes(term);
  }

  // ---- What the cleaned words are, said of the term itself.

  /** The term without its white space and operators. */
  function PlainChars(s: string): string {
    if s == "" then "" else (if Plain(s[0]) then [s[0]] else "") + PlainChars(s[1..])
  }

  function Joined(words: seq<string>): string {
    if words == [] then "" else words[0] + Joined(words[1..])
  }

  /** Every other character stays, as often as it was there. */
  lemma {:induction false} PlainCharsCount(s: string, c: char)
    ensures multiset(PlainChars(s))[c] == if IsWhite(c) || c in "&|!:*()\\" then 0 else multiset(s)[c]
  {
    if s != "" {
      PlainCharsCount(s[1..], c);
      assert s == [s[0]] + s[1..];
    }
  }

  lemma {:induction false} PlainCharsAppend(a: string, b: string)
    ensures PlainChars(a + b) == PlainChars(a) + PlainChars(b)
  {
    if a == "" {
      assert a + b == b;
    } else {
      assert (a + b)[1..] == a[1..] + b;
      PlainCharsAppend(a[1..], b);
      Reassociate(if Plain(a[0]) then [a[0]] else "", PlainChars(a[1..]), PlainChars(b));
    }
  }

  lemma {:induction false} CleanIsPlainChars(w: string)
    requires NoWhite(w)
    ensures Clean(w) == PlainChars(w)
  {
    if w != "" {
      CleanIsPlainChars(w[1..]);
    }
  }

  lemma JoinedOne(w: string, rest: seq<string>)
    ensures Joined([w] + rest) == w + Joined(rest)
  {
    assert ([w] + rest)[1..] == rest;
  }

  /** Read one after the other, the cleaned words are the term without its white space and operators. */
  lemma {:induction false} WordsHoldTheTerm(term: string)
    ensures Joined(CleanWords(term)) == PlainChars(term)
  {
    if term == "" {
    } else if IsWhite(term[0]) {
      WordsHoldTheTerm(term[1..]);
    } else {
      var w, rest := term[..WordLength(term)], term[WordLength(term)..];
      assert term == w + rest;
      WordHasNoWhite(term);
      WordsHoldTheTerm(rest);
      CleanIsPlainChars(w);
      PlainCharsAppend(w, rest);
      CleanOne(w, SplitWhitespace(rest));
      JoinedOne(Clean(w), CleanAll(SplitWhitespace(rest)));
    }
  }

  /** A term without white space is one word, or none when nothing of it is left. */
  lemma OneWord(w: string)
    requires NoWhite(w)
    ensures CleanWords(w) == if PlainChars(w) == "" then [] else [PlainChars(w)]
  {
    CleanIsPlainChars(w);
    if w != "" {
      FirstWord(w, "");
      assert w + "" == w;
      CleanOne(w, []);
    }
  }

  lemma {:induction false} CleanAllAppend(a: seq<string>, b: seq<string>)
    ensures CleanAll(a + b) == CleanAll(a) + CleanAll(b)
  {
    if a == [] {
      assert a + b == b;
    } else {
      assert (a + b)[1..] == a[1..] + b;
      CleanAllAppend(a[1..], b);
    }
  }

  lemma SplitWordAtWhite(w: string, rest: string, c: char, b: string)
    requires w != "" && NoWhite(w) && (rest != "" ==> IsWhite(rest[0])) && IsWhite(c)
    requires SplitWhitespace(rest + [c] + b) == SplitWhitespace(rest) + SplitWhitespace(b)
    ensures SplitWhitespace(w + rest + [c] + b) == SplitWhitespace(w + rest) + SplitWhitespace(b)
  {
    var tail := rest + [c] + b;
    assert w + rest + [c] + b == w + tail;
    assert tail != "" && IsWhite(tail[0]);
    FirstWord(w, rest);
    FirstWord(w, tail);
    Reassociate([w], SplitWhitespace(rest), SplitWhitespace(b));
  }

  lemma SkipWhite(s: string)
    requires s != "" && IsWhite(s[0])
    ensures SplitWhitespace(s) == SplitWhitespace(s[1..])
  {
  }

  lemma {:induction false} SplitAtWhite(a: string, c: char, b: string)
    requires IsWhite(c)
    ensures SplitWhitespace(a + [c] + b) == SplitWhitespace(a) + SplitWhitespace(b)
    decreases |a|
  {
    if a == "" {
      assert (a + [c] + b)[1..] == b;
      SkipWhite(a + [c] + b);
    } else if IsWhite(a[0]) {
      assert (a + [c] + b)[1..] == a[1..] + [c] + b;
      SkipWhite(a + [c] + b);
      SkipWhite(a);
      SplitAtWhite(a[1..], c, b);
    } else {
      var w, rest := a[..WordLength(a)], a[WordLength(a)..];
      WordHasNoWhite(a);
      assert a == w + rest && w != "";
      SplitAtWhite(rest, c, b);
      SplitWordAtWhite(w, rest, c, b);
    }
  }

  /** Words end exactly at white space: the words of two terms with white space between them are the words of both. */
  lemma WordsSplitAtWhite(a: string, c: char, b: string)
    requires IsWhite(c)
    ensures CleanWords(a + [c] + b) == CleanWords(a) + CleanWords(b)
  {
    SplitAtWhite(a, c, b);
    CleanAllAppend(SplitWhitespace(a), SplitWhitespace(b));
  }

  /** The query holds one piece for each word, with its quotes doubled and marked as a prefix. */
  lemma QueryPieces(term: string)
    ensures CleanWords(term) != [] ==> SplitOnAnd(Escape(term)) == PiecesOf(DoubleAll(CleanWords(term)))
  {
    var words := CleanWords(term);
    CleanWordsArePlain(term);
    DoubledArePlain(words);
    if words != [] {
      PrintSplits(DoubleAll(words));
    }
  }

  lemma ExampleCharacters()
    ensures PlainChars("(a'") == "a'" && PlainChars("&b)") == "b"
  {
    assert "(a'"[1..] == "a'" && "a'"[1..] == "'" && "'"[1..] == "";
    assert "&b)"[1..] == "b)" && "b)"[1..] == ")" && ")"[1..] == "";
  }

  lemma ExampleParts()
    ensures CleanWords("(a'") == ["a'"] && CleanWords("&b)") == ["b"]
  {
    ExampleCharacters();
    OneWord("(a'");
    OneWord("&b)");
  }

  lemma ExampleWords()
    ensures CleanWords("(a' &b)") == ["a'", "b"]
  {
    var first, second := "(a'", "&b)";
    ExampleParts();
    WordsSplitAtWhite(first, ' ', second);
    assert first + [' '] + second == "(a' &b)";
    assert ["a'"] + ["b"] == ["a'", "b"];
  }

  lemma ExampleQuotes()
    ensures DoubleAll(["a'", "b"]) == ["a''", "b"]
  {
    assert "a'"[1..] == "'" && "'"[1..] == "" && "b"[1..] == "";
    assert DoubleQuotes("a'") == "a''" && DoubleQuotes("b") == "b";
    assert ["a'", "b"][1..] == ["b"] && ["b"][1..] == [];
  }

  lemma PrintOne(w: string)
    ensures Print([w]) == w + ":*"
  {
  }

  lemma PrintTwo(v: string, w: string)
    ensures Print([v, w]) == v + ":*" + " & " + (w + ":*")
  {
    assert [v, w][1..] == [w];
    PrintOne(w);
  }

  /** The term (a' &b) is searched for as a'':* & b:*. */
  lemma ExampleQuery()
    ensures Escape("(a' &b)") == "a'':*" + " & " + "b:*"
  {
    ExampleWords();
    ExampleQuotes();
    PrintTwo("a''", "b");
    assert "a''" + ":*" == "a'':*" && "b" + ":*" == "b:*";
  }
}
