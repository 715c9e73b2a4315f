// scanner.c: the cursor scanner of the C front end. The source is a
// NUL-terminated `wchar_t` buffer; the global scanner keeps the start of
// the current lexeme, the cursor and the line number. `wchar_t` is four
// bytes wide and little-endian, which matters where the keyword test hands
// a character count to `memcmp` as a byte count.
module CScanner {
  import opened Wrappers

  /** TokenType (scanner.h:2-39). */
  datatype TokenType =
    | T_IDENT | T_TRUE | T_FALSE | T_STRING | T_NUMBER | T_BINARY_OP | T_CONST
    | T_INT_TYPE | T_VOID_TYPE | T_RETURN | T_LET | T_IMPORT | T_IF | T_ELSE
    | T_EQUAL | T_COMMA | T_OPEN_PAREN | T_CLOSE_PAREN | T_OPEN_BRACE | T_CLOSE_BRACE
    | T_SEMICOLON | T_RIGHTARROW | T_FN | T_STRUCT | T_ERR | T_EOF | T_SOF

  /** Token (scanner.h:41-48). `start` is an index into the buffer and
      `value` the characters copied from it. */
  datatype Token = Token(kind: TokenType, line: int, start: nat, length: nat, value: seq<char>)

  /** A C wide string: one NUL, at the end. */
  predicate WideString(s: seq<char>)
  {
    |s| > 0 && s[|s| - 1] == '\0' && forall k :: 0 <= k < |s| - 1 ==> s[k] != '\0'
  }

  predicate IsDigit(c: char) { '0' <= c <= '9' }

  /** isAlpha (scanner.c:89-104): Latin letters, the Cyrillic block
      а-я/А-Я, and ё, ү, е. */
  predicate IsAlpha(c: char)
  {
    ('a' <= c <= 'z') || ('A' <= c <= 'Z') || ('а' <= c <= 'я') || ('А' <= c <= 'Я')
    || c == 'ё' || c == 'ү' || c == 'е'
  }

  predicate IsIdentChar(c: char) { IsAlpha(c) || IsDigit(c) || c == '_' }

  /** The four bytes of a `wchar_t` in memory, lowest first. */
  function WcharBytes(c: char): (b: seq<int>)
    ensures |b| == 4
  {
    var v := c as int;
    [v % 256, (v / 256) % 256, (v / 65536) % 256, v / 16777216]
  }

  function MemBytes(s: seq<char>): (b: seq<int>)
    ensures |b| == 4 * |s|
  {
    if s == [] then [] else WcharBytes(s[0]) + MemBytes(s[1..])
  }

  /** The first `n` bytes stored from index `at` of `s`. */
  function BytesAt(s: seq<char>, at: nat, n: nat): seq<int>
    requires at <= |s| && n <= 4 * (|s| - at)
  {
    MemBytes(s[at..])[..n]
  }

  /** checkKeyword (scanner.c:80-87): `memcmp(start, rest, length)`, a
      comparison of `length` BYTES of the source at `start` with the
      keyword and its terminator. */
  predicate CheckKeyword(source: seq<char>, start: nat, length: nat, rest: string)
    requires start <= |source| && length <= 4 * (|source| - start) && length <= 4 * (|rest| + 1)
  {
    BytesAt(source, start, length) == BytesAt(rest + ['\0'], 0, length)
  }

  /** The keyword table of scanKeyword (scanner.c:106-154), in the order it
      is tried; each keyword is tested with a length equal to its number of
      characters. */
  const Keywords: seq<(string, TokenType)> := [
    ("буц", T_RETURN), ("үнэн", T_TRUE), ("худал", T_FALSE), ("зарл", T_LET), ("фн", T_FN),
    ("оруулах", T_IMPORT), ("хоосон", T_VOID_TYPE), ("тоо", T_INT_TYPE), ("хэрв", T_IF)]

  lemma KeywordLengths()
    ensures forall k :: 0 <= k < |Keywords| ==> 2 <= |Keywords[k].0| <= 7 && Keywords[k].1 != T_ERR
  {
  }

  /** checkKeyword accepts the `k`th keyword of the table at `start`. */
  predicate Accepts(source: seq<char>, start: nat, k: nat)
    requires start + 2 <= |source| && k < |Keywords|
  {
    KeywordLengths();
    CheckKeyword(source, start, |Keywords[k].0|, Keywords[k].0)
  }

  /** The index of the first keyword from `from` on that checkKeyword
      accepts at `start`. Two characters at `start` cover the at most seven
      bytes compared. */
  function KeywordFrom(source: seq<char>, start: nat, from: nat): (r: Option<nat>)
    requires start + 2 <= |source|
    requires from <= |Keywords|
    ensures r.Some? ==> from <= r.value < |Keywords|
    decreases |Keywords| - from
  {
    KeywordLengths();
    if from == |Keywords| then None
    else if Accepts(source, start, from) then Some(from)
    else KeywordFrom(source, start, from + 1)
  }

  function KeywordAt(source: seq<char>, start: nat): Option<nat>
    requires start + 2 <= |source|
  {
    KeywordFrom(source, start, 0)
  }

  /** The table is tried in order and the first keyword accepted wins:
      the one found is accepted and none before it is. */
  lemma {:induction false} KeywordFromFirst(source: seq<char>, start: nat, from: nat)
    requires start + 2 <= |source|
    requires from <= |Keywords|
    ensures var r := KeywordFrom(source, start, from);
      && (r.Some? ==> Accepts(source, start, r.value))
      && (forall k :: from <= k < |Keywords| && (r.None? || k < r.value) ==> !Accepts(source, start, k))
    decreases |Keywords| - from
  {
    if from < |Keywords| && !Accepts(source, start, from) {
      KeywordFromFirst(source, start, from + 1);
    }
  }

  /** A code point is at most 0x10FFFF, so its top byte is zero and its low
      three bytes determine it. */
  lemma ThreeBytesDetermine(a: char, b: char)
    ensures WcharBytes(a)[..3] == WcharBytes(b)[..3] <==> a == b
  {
    var x, y := a as int, b as int;
    assert x == x % 256 + 256 * ((x / 256) % 256) + 65536 * (x / 65536);
    assert y == y % 256 + 256 * ((y / 256) % 256) + 65536 * (y / 65536);
    var wa, wb := WcharBytes(a)[..3], WcharBytes(b)[..3];
    assert wa[0] == x % 256 && wa[1] == (x / 256) % 256 && wa[2] == (x / 65536) % 256;
    assert wb[0] == y % 256 && wb[1] == (y / 256) % 256 && wb[2] == (y / 65536) % 256;
    if wa == wb {
      assert wa[0] == wb[0] && wa[1] == wb[1] && wa[2] == wb[2];
      assert x / 65536 == y / 65536;
    }
  }

  /** For the keywords of three and four characters only the FIRST
      character is compared: any word that starts like the keyword matches
      it. */
  lemma ShortKeywordComparesFirstChar(source: seq<char>, start: nat, rest: string)
    requires start + 2 <= |source| && (|rest| == 3 || |rest| == 4)
    ensures CheckKeyword(source, start, |rest|, rest) <==> source[start] == rest[0]
  {
    var a, b := source[start], rest[0];
    assert MemBytes(source[start..])[..4] == WcharBytes(a) by {
      assert source[start..][0] == a;
    }
    assert MemBytes(rest + ['\0'])[..4] == WcharBytes(b) by {
      assert (rest + ['\0'])[0] == b;
    }
    ThreeBytesDetermine(a, b);
    assert BytesAt(source, start, |rest|)[..3] == WcharBytes(a)[..3];
    assert BytesAt(rest + ['\0'], 0, |rest|)[..3] == WcharBytes(b)[..3];
    if a == b {
      assert BytesAt(source, start, |rest|) == BytesAt(rest + ['\0'], 0, |rest|);
    }
  }

  /** So a word that merely starts with `б` is taken for `буц`. */
  lemma ReturnKeywordByFirstChar(source: seq<char>, start: nat)
    requires start + 2 <= |source| && source[start] == 'б'
    ensures KeywordAt(source, start) == Some(0) && Keywords[0] == ("буц", T_RETURN)
  {
    ShortKeywordComparesFirstChar(source, start, "буц");
  }

  /** The five-character keyword `худал` compares its first character and
      only the low byte of its second: `х` followed by any character whose
      code ends in 0x43, such as the Latin `C`, is read as `худал`. */
  lemma FiveCharKeywordComparesOneByteMore(source: seq<char>, start: nat, rest: string)
    requires start + 2 <= |source| && |rest| == 5
    ensures CheckKeyword(source, start, 5, rest)
      <==> source[start] == rest[0] && source[start + 1] as int % 256 == rest[1] as int % 256
  {
    var a, b := source[start], rest[0];
    var s, t := source[start..], rest + ['\0'];
    assert MemBytes(s)[..5] == WcharBytes(s[0]) + [WcharBytes(s[1])[0]] by {
      assert MemBytes(s) == WcharBytes(s[0]) + WcharBytes(s[1]) + MemBytes(s[2..]) by {
        assert s[1..][0] == s[1] && s[1..][1..] == s[2..];
      }
    }
    assert MemBytes(t)[..5] == WcharBytes(t[0]) + [WcharBytes(t[1])[0]] by {
      assert MemBytes(t) == WcharBytes(t[0]) + WcharBytes(t[1]) + MemBytes(t[2..]) by {
        assert t[1..][0] == t[1] && t[1..][1..] == t[2..];
      }
    }
    ThreeBytesDetermine(a, b);
    assert s[0] == a && t[0] == b && s[1] == source[start + 1] && t[1] == rest[1];
    if CheckKeyword(source, start, 5, rest) {
      assert BytesAt(source, start, 5)[..3] == WcharBytes(a)[..3];
      assert BytesAt(rest + ['\0'], 0, 5)[..3] == WcharBytes(b)[..3];
      assert BytesAt(source, start, 5)[4] == BytesAt(rest + ['\0'], 0, 5)[4];
    }
  }

  /** The number of line feeds in `s`. */
  function Newlines(s: seq<char>): nat
  {
    if s == [] then 0 else Newlines(s[..|s| - 1]) + (if s[|s| - 1] == '\n' then 1 else 0)
  }

  /** The first closing quote or terminator at or after `from`. */
  function StringEnd(source: seq<char>, from: nat): (e: nat)
    requires WideString(source) && from < |source|
    ensures from <= e < |source| && (source[e] == '"' || source[e] == '\0')
    ensures forall k :: from <= k < e ==> source[k] != '"' && source[k] != '\0'
    decreases |source| - from
  {
    if source[from] == '"' || source[from] == '\0' then from else StringEnd(source, from + 1)
  }

  /** Where the lexeme starts after advanceLine and skipWhitespace: past at
      most one line terminator and then at most one space. */
  function SkipBlank(source: seq<char>, i: nat): (j: nat)
    requires WideString(source) && i < |source|
    ensures i <= j <= i + 2 && j < |source|
  {
    var k := if source[i] == '\r' || source[i] == '\n' then i + 1 else i;
    if source[k] == ' ' then k + 1 else k
  }

  /** The one-character tokens of the switch in scanToken
      (scanner.c:240-279). */
  function SingleCharKind(c: char): Option<TokenType>
  {
    if c == '+' || c == '*' || c == '/' || c == '>' || c == '<' then Some(T_BINARY_OP)
    else if c == '(' then Some(T_OPEN_PAREN)
    else if c == ')' then Some(T_CLOSE_PAREN)
    else if c == '{' then Some(T_OPEN_BRACE)
    else if c == '}' then Some(T_CLOSE_BRACE)
    else if c == ';' then Some(T_SEMICOLON)
    else if c == ',' then Some(T_COMMA)
    else None
  }

  /** The global `Scanner scanner` (scanner.c:8; scanner.h:50-55) together
      with the buffer it points into; `start` and `current` are indexes. */
  class Scanner {
    var source: seq<char>
    var start: nat
    var current: nat
    var line: int

    ghost predicate Valid()
      reads this
    {
      WideString(source) && start <= current <= |source|
    }

    /** initScanner (scanner.c:10-20). */
    constructor (src: seq<char>)
      requires WideString(src)
      ensures Valid() && source == src
      ensures start == 0 && current == 0 && line == 1
    {
      source := src;
      start := 0;
      current := 0;
      line := 1;
    }

    /** After a keyword is accepted: the token spans the keyword, unless it
        runs past the terminator. */
    ghost predicate KeywordScanned(kw: (string, TokenType), r: Option<Token>)
      reads this
    {
      if start + |kw.0| <= |source| then
        start <= current == start + |kw.0| && r == Some(FromEnum(kw.1))
      else r.None?
    }

    /** fromEnum (scanner.c:22-38): the lexeme from `start` to the cursor,
        on the current line. */
    function FromEnum(kind: TokenType): Token
      reads this
      requires start <= current <= |source|
    {
      Token(kind, line, start, current - start, source[start..current])
    }

    /** peek (scanner.c:40-43). */
    function Peek(): char
      reads this
      requires current < |source|
    {
      source[current]
    }

    /** isAtEnd (scanner.c:70-73). */
    predicate IsAtEnd()
      reads this
      requires current < |source|
    {
      source[current] == '\0'
    }

    /** next (scanner.c:50-54). */
    method Next() returns (c: char)
      modifies this
      requires current < |source|
      ensures source == old(source) && start == old(start) && line == old(line)
      ensures current == old(current) + 1 && c == source[old(current)]
    {
      current := current + 1;
      c := source[current - 1];
    }

    /** nextTimes (scanner.c:44-48). */
    method NextTimes(time: nat) returns (c: char)
      modifies this
      requires 1 <= time && current + time <= |source|
      ensures source == old(source) && start == old(start) && line == old(line)
      ensures current == old(current) + time && c == source[current - 1]
    {
      current := current + time;
      c := source[current - 1];
    }

    /** skipWhitespace (scanner.c:56-63): at most one space. */
    method SkipWhitespace()
      modifies this
      requires Valid() && current < |source|
      ensures Valid() && current == old(current) + (if old(source[current]) == ' ' then 1 else 0)
      ensures source == old(source) && start == old(start) && line == old(line)
    {
      var c := Peek();
      if c == ' ' {
        var _ := Next();
      }
    }

    /** advanceLine (scanner.c:184-192): at most one line terminator, which
        counts a line. */
    method AdvanceLine()
      modifies this
      requires Valid() && current < |source|
      ensures var t := old(source[current]) == '\r' || old(source[current]) == '\n';
        Valid() && current == old(current) + (if t then 1 else 0) && line == old(line) + (if t then 1 else 0)
      ensures source == old(source) && start == old(start)
    {
      var c := Peek();
      if c == '\r' || c == '\n' {
        line := line + 1;
        var _ := Next();
      }
    }

    /** scanKeyword (scanner.c:106-154): the first keyword of the table
        that checkKeyword accepts, spanning as many characters as the
        keyword has; `T_ERR` with the cursor unmoved when none does. A
        keyword accepted on its first bytes near the end of the buffer
        makes nextTimes read past the terminator: `None`. */
    method ScanKeyword() returns (r: Option<Token>)
      modifies this
      requires Valid() && current == start + 1 && start + 2 <= |source|
      ensures source == old(source) && start == old(start) && line == old(line)
      ensures KeywordAt(source, start).None? ==> current == old(current) && r == Some(FromEnum(T_ERR))
      ensures KeywordAt(source, start).Some? ==> KeywordScanned(Keywords[KeywordAt(source, start).value], r)
      ensures r.Some? ==> Valid()
    {
      var k := KeywordAt(source, start);
      if k.None? {
        return Some(FromEnum(T_ERR));
      }
      var kw := Keywords[k.value];
      KeywordLengths();
      if start + |kw.0| > |source| {
        return None;
      }
      var _ := NextTimes(|kw.0| - 1);
      r := Some(FromEnum(kw.1));
    }

    /** scanIdent (scanner.c:156-171): a keyword if scanKeyword finds one,
        otherwise the maximal run of letters, digits and `_`. */
    method ScanIdent() returns (r: Option<Token>)
      modifies this
      requires Valid() && current == start + 1 && start + 2 <= |source|
      ensures source == old(source) && start == old(start) && line == old(line)
      ensures KeywordAt(source, start).Some? ==> KeywordScanned(Keywords[KeywordAt(source, start).value], r)
      ensures KeywordAt(source, start).None? ==>
        && old(current) <= current < |source|
        && (forall k :: old(current) <= k < current ==> IsIdentChar(source[k]))
        && !IsIdentChar(source[current])
        && r == Some(FromEnum(T_IDENT))
      ensures r.Some? ==> Valid()
    {
      ghost var k := KeywordAt(source, start);
      r := ScanKeyword();
      if k.Some? {
        KeywordLengths();
        assert r.None? || r.value.kind != T_ERR;
      }
      if r.None? || r.value.kind != T_ERR {
        return;
      }
      r := ScanIdentRun();
    }

    /** The loop of scanIdent (scanner.c:165-170). */
    method ScanIdentRun() returns (r: Option<Token>)
      modifies this
      requires Valid() && start < current < |source|
      ensures source == old(source) && start == old(start) && line == old(line) && Valid()
      ensures old(current) <= current < |source|
      ensures forall k :: old(current) <= k < current ==> IsIdentChar(source[k])
      ensures !IsIdentChar(source[current])
      ensures r == Some(FromEnum(T_IDENT))
    {
      while IsIdentChar(Peek())
        invariant Valid() && old(current) <= current < |source|
        invariant source == old(source) && start == old(start) && line == old(line)
        invariant forall k :: old(current) <= k < current ==> IsIdentChar(source[k])
        decreases |source| - current
      {
        var _ := Next();
      }
      r := Some(FromEnum(T_IDENT));
    }

    /** buildNumber (scanner.c:177-182): the maximal run of digits. */
    method BuildNumber() returns (t: Token)
      modifies this
      requires Valid() && start < current < |source|
      ensures source == old(source) && start == old(start) && line == old(line)
      ensures Valid() && old(current) <= current < |source|
      ensures forall k :: old(current) <= k < current ==> IsDigit(source[k])
      ensures !IsDigit(source[current])
      ensures t == FromEnum(T_NUMBER)
    {
      while IsDigit(Peek())
        invariant Valid() && old(current) <= current < |source|
        invariant source == old(source) && start == old(start) && line == old(line)
        invariant forall k :: old(current) <= k < current ==> IsDigit(source[k])
        decreases |source| - current
      {
        var _ := Next();
      }
      t := FromEnum(T_NUMBER);
    }

    /** scanString (scanner.c:193-211): every line feed inside counts a
        line; the token ends after the closing quote, or is `T_ERR` when
        the terminator comes first. */
    method ScanString() returns (t: Token)
      modifies this
      requires Valid() && start < current < |source|
      ensures source == old(source) && start == old(start) && Valid()
      ensures var e := StringEnd(source, old(current));
        && line == old(line) + Newlines(source[old(current)..e])
        && (source[e] == '\0' ==> current == e && t == FromEnum(T_ERR))
        && (source[e] == '"' ==> current == e + 1 && t == FromEnum(T_STRING))
    {
      ghost var from := current;
      while Peek() != '"' && !IsAtEnd()
        invariant Valid() && from <= current < |source|
        invariant source == old(source) && start == old(start)
        invariant forall k :: from <= k < current ==> source[k] != '"' && source[k] != '\0'
        invariant line == old(line) + Newlines(source[from..current])
        decreases |source| - current
      {
        assert source[from..current + 1][..current - from] == source[from..current];
        if Peek() == '\n' {
          line := line + 1;
        }
        var _ := Next();
      }
      assert current == StringEnd(source, from) by {
        StringEndFirst(source, from, current);
      }
      if IsAtEnd() {
        return FromEnum(T_ERR);
      }
      var _ := Next();
      t := FromEnum(T_STRING);
    }

    /** scanToken (scanner.c:214-282). */
    method ScanToken() returns (r: Option<Token>)
      modifies this
      requires Valid()
      ensures source == old(source) && (r.Some? ==> Valid())
      ensures old(current) == |source| ==> r.None?
      ensures old(current) < |source| ==> start == SkipBlank(source, old(current)) && start < |source|
      ensures r.Some? ==> r.value == FromEnum(r.value.kind)
      ensures old(current) < |source| ==> ScanFacts(source, start, current, r)
      ensures old(current) < |source| ==> var t := old(source[current]) == '\r' || old(source[current]) == '\n';
        line == old(line) + (if t then 1 else 0)
          + (if source[start] == '"' then Newlines(source[start + 1..StringEnd(source, start + 1)]) else 0)
    {
      if current == |source| {
        return None;
      }
      AdvanceLine();
      SkipWhitespace();
      start := current;
      r := ScanAtStart();
    }

    /** scanToken once the lexeme start is set (scanner.c:220-281): the
        terminator gives `T_EOF` with length 0. */
    method ScanAtStart() returns (r: Option<Token>)
      modifies this
      requires Valid() && start == current < |source|
      ensures source == old(source) && start == old(start) && (r.Some? ==> Valid())
      ensures r.Some? ==> r.value == FromEnum(r.value.kind)
      ensures ScanFacts(source, start, current, r)
      ensures line == old(line) + (if source[start] == '"' then Newlines(source[start + 1..StringEnd(source, start + 1)]) else 0)
    {
      if IsAtEnd() {
        return Some(FromEnum(T_EOF));
      }
      r := ScanLexeme();
    }

    /** scanToken from its first character on (scanner.c:223-281). */
    method ScanLexeme() returns (r: Option<Token>)
      modifies this
      requires Valid() && start == current < |source| - 1
      ensures source == old(source) && start == old(start) && (r.Some? ==> Valid())
      ensures r.Some? ==> r.value == FromEnum(r.value.kind)
      ensures ScanFacts(source, start, current, r)
      ensures line == old(line) + (if source[start] == '"' then Newlines(source[start + 1..StringEnd(source, start + 1)]) else 0)
    {
      var c := Next();
      if IsAlpha(c) {
        r := LexAlpha();
      } else if IsDigit(c) {
        r := LexDigit();
      } else if c == '"' {
        r := LexString();
      } else {
        r := ScanOperator(c);
      }
    }

    /** A letter first (scanner.c:228-233). */
    method LexAlpha() returns (r: Option<Token>)
      modifies this
      requires Valid() && current == start + 1 < |source| && IsAlpha(source[start])
      ensures source == old(source) && start == old(start) && line == old(line) && (r.Some? ==> Valid())
      ensures r.Some? ==> r.value == FromEnum(r.value.kind)
      ensures ScanFacts(source, start, current, r)
    {
      r := ScanIdent();
    }

    /** A digit first (scanner.c:237-238). */
    method LexDigit() returns (r: Option<Token>)
      modifies this
      requires Valid() && current == start + 1 < |source| && IsDigit(source[start])
      ensures source == old(source) && start == old(start) && line == old(line) && Valid()
      ensures r.Some? && r.value == FromEnum(r.value.kind)
      ensures ScanFacts(source, start, current, r)
    {
      var t := BuildNumber();
      r := Some(t);
    }

    /** A quote first (scanner.c:277-278). */
    method LexString() returns (r: Option<Token>)
      modifies this
      requires Valid() && current == start + 1 < |source| && source[start] == '"'
      ensures source == old(source) && start == old(start) && Valid()
      ensures r.Some? && r.value == FromEnum(r.value.kind)
      ensures ScanFacts(source, start, current, r)
      ensures line == old(line) + Newlines(source[start + 1..StringEnd(source, start + 1)])
    {
      var t := ScanString();
      r := Some(t);
    }

    /** The switch of scanToken (scanner.c:240-281). */
    method ScanOperator(c: char) returns (r: Option<Token>)
      modifies this
      requires Valid() && current == start + 1 < |source| && c == source[start]
      requires !IsAlpha(c) && !IsDigit(c) && c != '"'
      ensures source == old(source) && start == old(start) && line == old(line) && Valid()
      ensures r.Some? && r.value == FromEnum(r.value.kind)
      ensures ScanFacts(source, start, current, r)
    {
      var single := SingleCharKind(c);
      if single.Some? {
        return Some(FromEnum(single.value));
      }
      if c == '-' {
        if Peek() == '>' {
          var _ := Next();
          return Some(FromEnum(T_RIGHTARROW));
        }
        return Some(FromEnum(T_BINARY_OP));
      }
      if c == '=' {
        if Peek() == '=' {
          var _ := Next();
          return Some(FromEnum(T_EQUAL));
        }
      }
      r := Some(FromEnum(T_ERR));
    }
  }

  lemma StringEndFirst(source: seq<char>, from: nat, e: nat)
    requires WideString(source) && from <= e < |source|
    requires source[e] == '"' || source[e] == '\0'
    requires forall k :: from <= k < e ==> source[k] != '"' && source[k] != '\0'
    ensures StringEnd(source, from) == e
  {
  }

  /** The classes scanToken tells apart by the first character, in the
      order it tests them (scanner.c:220-279). */
  datatype Lead = EndLead | AlphaLead | DigitLead | QuoteLead | OtherLead

  function LeadOf(c: char): Lead
  {
    if c == '\0' then EndLead
    else if IsAlpha(c) then AlphaLead
    else if IsDigit(c) then DigitLead
    else if c == '"' then QuoteLead
    else OtherLead
  }

  /** What scanToken returns for the lexeme at `start`, by its first
      character, with the cursor left at `current`. */
  ghost predicate ScanFacts(source: seq<char>, start: nat, current: nat, r: Option<Token>)
    requires WideString(source) && start < |source|
  {
    match LeadOf(source[start])
    case EndLead => current == start && r.Some? && r.value.kind == T_EOF
    case AlphaLead => IdentFacts(source, start, current, r)
    case DigitLead => NumberFacts(source, start, current, r)
    case QuoteLead => StringFacts(source, start, current, r)
    case OtherLead => OperatorFacts(source, start, current, r)
  }

  /** A digit starts the maximal run of digits. */
  ghost predicate NumberFacts(source: seq<char>, start: nat, current: nat, r: Option<Token>)
  {
    && start < current < |source| && r.Some? && r.value.kind == T_NUMBER
    && (forall k :: start <= k < current ==> IsDigit(source[k])) && !IsDigit(source[current])
  }

  /** A quote runs to the next quote, which it includes, or to the
      terminator, which gives `T_ERR`. */
  ghost predicate StringFacts(source: seq<char>, start: nat, current: nat, r: Option<Token>)
    requires WideString(source) && start < |source| - 1
  {
    var e := StringEnd(source, start + 1);
    && r.Some?
    && (source[e] == '"' ==> current == e + 1 && r.value.kind == T_STRING)
    && (source[e] == '\0' ==> current == e && r.value.kind == T_ERR)
  }

  /** The operators and punctuation; a lone `=` and every other character
      give `T_ERR`. */
  ghost predicate OperatorFacts(source: seq<char>, start: nat, current: nat, r: Option<Token>)
    requires start < |source| - 1
  {
    var c := source[start];
    && r.Some?
    && (SingleCharKind(c).Some? ==> current == start + 1 && r.value.kind == SingleCharKind(c).value)
    && (c == '-' ==>
          if source[start + 1] == '>' then current == start + 2 && r.value.kind == T_RIGHTARROW
          else current == start + 1 && r.value.kind == T_BINARY_OP)
    && (c == '=' ==>
          if source[start + 1] == '=' then current == start + 2 && r.value.kind == T_EQUAL
          else current == start + 1 && r.value.kind == T_ERR)
    && (SingleCharKind(c).None? && c != '-' && c != '=' ==> current == start + 1 && r.value.kind == T_ERR)
  }

  /** A letter starts a keyword, by the first table entry checkKeyword
      accepts, or else a maximal identifier. */
  ghost predicate IdentFacts(source: seq<char>, start: nat, current: nat, r: Option<Token>)
    requires WideString(source) && start < |source| - 1
  {
    match KeywordAt(source, start)
    case Some(k) =>
      if start + |Keywords[k].0| <= |source| then
        current == start + |Keywords[k].0| && r.Some? && r.value.kind == Keywords[k].1
      else r.None?
    case None =>
      start < current < |source| && r.Some? && r.value.kind == T_IDENT
      && (forall j :: start <= j < current ==> IsIdentChar(source[j])) && !IsIdentChar(source[current])
  }
}
