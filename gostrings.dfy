// The few functions of Go's `strings` package the loader relies on, over
// `seq<char>`: Split on one separator character, TrimSpace, Fields and
// HasPrefix. White space is Go's `unicode.IsSpace`.
module GoStrings {

  /** unicode.IsSpace: the Latin-1 spaces and the Unicode space separators. */
  predicate IsSpace(c: char)
  {
    c in Spaces
  }

  const Spaces: set<char> := {'\t', '\n', '\U{000B}', '\U{000C}', '\r', ' ', '\U{0085}', '\U{00A0}', '\U{1680}',
    '\U{2000}', '\U{2001}', '\U{2002}', '\U{2003}', '\U{2004}', '\U{2005}', '\U{2006}', '\U{2007}',
    '\U{2008}', '\U{2009}', '\U{200A}', '\U{2028}', '\U{2029}', '\U{202F}', '\U{205F}', '\U{3000}'}

  predicate HasPrefix(s: string, prefix: string)
  {
    |prefix| <= |s| && s[..|prefix|] == prefix
  }

  /** The index of the first `c` in `s`, or |s| when there is none. */
  function IndexOf(s: string, c: char): (i: nat)
    ensures i <= |s|
    ensures i < |s| ==> s[i] == c
    ensures forall k :: 0 <= k < i ==> s[k] != c
  {
    if s == [] then 0 else if s[0] == c then 0 else 1 + IndexOf(s[1..], c)
  }

  /** strings.Split(s, sep) for a one-character separator. */
  function Split(s: string, sep: char): (parts: seq<string>)
    ensures |parts| >= 1
    ensures forall k :: 0 <= k < |parts| ==> sep !in parts[k]
    decreases |s|
  {
    var i := IndexOf(s, sep);
    if i == |s| then [s] else [s[..i]] + Split(s[i + 1..], sep)
  }

  function Join(parts: seq<string>, sep: char): string
  {
    if |parts| <= 1 then (if parts == [] then "" else parts[0])
    else parts[0] + [sep] + Join(parts[1..], sep)
  }

  /** Splitting and joining again on the same separator gives back the text. */
  lemma {:induction false} SplitJoin(s: string, sep: char)
    ensures Join(Split(s, sep), sep) == s
    decreases |s|
  {
    var i := IndexOf(s, sep);
    if i < |s| {
      SplitJoin(s[i + 1..], sep);
      var rest := Split(s[i + 1..], sep);
      assert Split(s, sep) == [s[..i]] + rest;
      assert (Split(s, sep))[1..] == rest;
      assert s == s[..i] + [sep] + s[i + 1..];
    }
  }

  /** The part of `s` before the first `c`: strings.Split(s, c)[0]. */
  function Before(s: string, c: char): (r: string)
    ensures r == Split(s, c)[0]
    ensures c !in r
    ensures HasPrefix(s, r)
  {
    s[..IndexOf(s, c)]
  }

  function TrimLeft(s: string): (r: string)
    ensures |r| <= |s| && r == s[|s| - |r|..]
    ensures r != [] ==> !IsSpace(r[0])
  {
    if s != [] && IsSpace(s[0]) then TrimLeft(s[1..]) else s
  }

  /** TrimLeft drops white space only. */
  lemma {:induction false} TrimLeftDropsSpace(s: string)
    ensures forall k :: 0 <= k < |s| - |TrimLeft(s)| ==> IsSpace(s[k])
    decreases |s|
  {
    if s != [] && IsSpace(s[0]) {
      TrimLeftDropsSpace(s[1..]);
      forall k | 1 <= k < |s| - |TrimLeft(s)| ensures IsSpace(s[k]) {
        assert s[k] == s[1..][k - 1];
      }
    }
  }

  function TrimRight(s: string): (r: string)
    ensures |r| <= |s| && r == s[..|r|]
    ensures r != [] ==> !IsSpace(r[|r| - 1])
  {
    if s != [] && IsSpace(s[|s| - 1]) then TrimRight(s[..|s| - 1]) else s
  }

  /** TrimRight drops white space only. */
  lemma {:induction false} TrimRightDropsSpace(s: string)
    ensures forall k :: |TrimRight(s)| <= k < |s| ==> IsSpace(s[k])
    decreases |s|
  {
    if s != [] && IsSpace(s[|s| - 1]) {
      TrimRightDropsSpace(s[..|s| - 1]);
      forall k | |TrimRight(s)| <= k < |s| - 1 ensures IsSpace(s[k]) {
        assert s[k] == s[..|s| - 1][k];
      }
    }
  }

  /** `r` sits in `s` at index `i` with only white space around it. */
  predicate TrimmedAt(s: string, r: string, i: nat)
  {
    i + |r| <= |s| && s[i..i + |r|] == r
    && (forall k :: 0 <= k < i ==> IsSpace(s[k]))
    && (forall k :: i + |r| <= k < |s| ==> IsSpace(s[k]))
  }

  /** strings.TrimSpace: the text with its leading and trailing white
      space removed. */
  function TrimSpace(s: string): (r: string)
    ensures r != [] ==> !IsSpace(r[0]) && !IsSpace(r[|r| - 1])
  {
    TrimRight(TrimLeft(s))
  }

  /** TrimSpace removes white space only, and only at the two ends. */
  lemma TrimSpaceAt(s: string)
    ensures TrimmedAt(s, TrimSpace(s), |s| - |TrimLeft(s)|)
  {
    var t := TrimLeft(s);
    var r := TrimRight(t);
    TrimLeftDropsSpace(s);
    TrimRightDropsSpace(t);
    SpaceAfterSuffix(s, |s| - |t|, |r|);
  }

  /** White space at the end of a suffix of `s` is white space of `s`. */
  lemma SpaceAfterSuffix(s: string, i: nat, n: nat)
    requires i + n <= |s|
    requires forall k :: n <= k < |s[i..]| ==> IsSpace(s[i..][k])
    ensures s[i..i + n] == s[i..][..n]
    ensures forall k :: i + n <= k < |s| ==> IsSpace(s[k])
  {
    forall k | i + n <= k < |s| ensures IsSpace(s[k]) {
      assert s[k] == s[i..][k - i];
    }
  }

  /** Two texts that each sit in `s` with only white space around them and
      start and end on a character that is not white space are the same:
      so TrimSpace is the only such text. */
  lemma TrimUnique(s: string, t1: string, i1: nat, t2: string, i2: nat)
    requires TrimmedAt(s, t1, i1) && (t1 != [] ==> !IsSpace(t1[0]) && !IsSpace(t1[|t1| - 1]))
    requires TrimmedAt(s, t2, i2) && (t2 != [] ==> !IsSpace(t2[0]) && !IsSpace(t2[|t2| - 1]))
    ensures t1 == t2
  {
    assert t1 != [] ==> s[i1] == t1[0] && s[i1 + |t1| - 1] == t1[|t1| - 1];
    assert t2 != [] ==> s[i2] == t2[0] && s[i2 + |t2| - 1] == t2[|t2| - 1];
    assert t1 == [] <==> t2 == [];
    if t1 != [] {
      assert i1 == i2;
      assert i1 + |t1| == i2 + |t2|;
    }
  }

  lemma TrimSpaceUnique(s: string, t: string, i: nat)
    requires TrimmedAt(s, t, i) && (t != [] ==> !IsSpace(t[0]) && !IsSpace(t[|t| - 1]))
    ensures t == TrimSpace(s)
  {
    TrimSpaceAt(s);
    TrimUnique(s, t, i, TrimSpace(s), |s| - |TrimLeft(s)|);
  }

  /** The first index at or after `i` that does not hold white space, or
      |s|. */
  function SkipSpace(s: string, i: nat): (j: nat)
    requires i <= |s|
    ensures i <= j <= |s|
    ensures forall k :: i <= k < j ==> IsSpace(s[k])
    ensures j < |s| ==> !IsSpace(s[j])
    decreases |s| - i
  {
    if i < |s| && IsSpace(s[i]) then SkipSpace(s, i + 1) else i
  }

  /** The first index at or after `i` that holds white space, or |s|. */
  function WordEnd(s: string, i: nat): (j: nat)
    requires i <= |s|
    ensures i <= j <= |s|
    ensures forall k :: i <= k < j ==> !IsSpace(s[k])
    ensures j < |s| ==> IsSpace(s[j])
    decreases |s| - i
  {
    if i < |s| && !IsSpace(s[i]) then WordEnd(s, i + 1) else i
  }

  /** The fields of `s` from index `i` on. */
  function FieldsFrom(s: string, i: nat): seq<string>
    requires i <= |s|
    decreases |s| - i
  {
    var j := SkipSpace(s, i);
    if j == |s| then []
    else
      var e := WordEnd(s, j);
      [s[j..e]] + FieldsFrom(s, e)
  }

  /** strings.Fields: the maximal runs of non-space characters. */
  function Fields(s: string): seq<string>
  {
    FieldsFrom(s, 0)
  }

  /** `w` is the maximal run of non-space characters of `s` that starts at
      `j`, and only white space lies between `i` and `j`. */
  predicate FieldAt(s: string, i: nat, j: nat, w: string)
  {
    i <= j && j + |w| <= |s| && w != [] && s[j..j + |w|] == w
    && (forall k :: i <= k < j ==> IsSpace(s[k]))
    && (forall k :: 0 <= k < |w| ==> !IsSpace(w[k]))
    && (j + |w| == |s| || IsSpace(s[j + |w|]))
  }

  /** The fields of a text are its maximal runs of non-space characters, in
      order: from index `i` there are none exactly when the rest of the text
      is white space, and otherwise the first field is the first such run
      after `i` and the others are the fields from its end on. */
  lemma FieldsSplit(s: string, i: nat)
    requires i <= |s|
    ensures FieldsFrom(s, i) == [] <==> forall k :: i <= k < |s| ==> IsSpace(s[k])
    ensures FieldsFrom(s, i) != [] ==>
      exists j: nat :: (FieldAt(s, i, j, FieldsFrom(s, i)[0])
        && FieldsFrom(s, i)[1..] == FieldsFrom(s, j + |FieldsFrom(s, i)[0]|))
  {
    var j := SkipSpace(s, i);
    if j < |s| {
      var e := WordEnd(s, j);
      var w := s[j..e];
      assert w[0] == s[j];
      assert forall k :: 0 <= k < |w| ==> w[k] == s[j + k];
      assert FieldAt(s, i, j, w);
      var fs := FieldsFrom(s, i);
      assert fs == [w] + FieldsFrom(s, e);
      assert fs[0] == w && fs[1..] == FieldsFrom(s, e);
    }
  }

  /** The white space of `s` is single blanks between non-space runs. */
  ghost predicate SingleBlanks(s: string)
  {
    (s != [] ==> !IsSpace(s[0]) && !IsSpace(s[|s| - 1]))
    && (forall k :: 0 <= k < |s| && IsSpace(s[k]) ==> s[k] == ' ')
    && (forall j, k :: 0 <= j < k < |s| && k == j + 1 && IsSpace(s[j]) ==> !IsSpace(s[k]))
  }

  /** A text whose white space is single blanks between words is its
      fields joined by blanks. */
  lemma FieldsJoin(s: string)
    requires SingleBlanks(s)
    ensures Join(Fields(s), ' ') == s
  {
    FieldsFromJoin(s, 0);
  }

  lemma {:induction false} FieldsFromJoin(s: string, i: nat)
    requires SingleBlanks(s)
    requires i == |s| || (i < |s| && !IsSpace(s[i]))
    ensures Join(FieldsFrom(s, i), ' ') == s[i..]
    decreases |s| - i
  {
    if i < |s| {
      var e := WordEnd(s, i);
      if e < |s| {
        BlankAfterWord(s, e);
        FieldsFromJoin(s, e + 1);
        JoinStep(s, i, e);
      } else {
        JoinLast(s, i);
      }
    } else {
      assert FieldsFrom(s, i) == [];
    }
  }

  /** The fields from a word followed by a blank and the rest of the text
      join to the text when the fields of the rest join to the rest. */
  lemma JoinStep(s: string, i: nat, e: nat)
    requires i < |s| && !IsSpace(s[i]) && e == WordEnd(s, i)
    requires e + 1 < |s| && s[e] == ' ' && !IsSpace(s[e + 1])
    requires FieldsFrom(s, e) == FieldsFrom(s, e + 1)
    requires Join(FieldsFrom(s, e + 1), ' ') == s[e + 1..]
    ensures Join(FieldsFrom(s, i), ' ') == s[i..]
  {
    FieldsFromWord(s, i);
    FieldsFromWord(s, e + 1);
    JoinCons(s[i..e], FieldsFrom(s, e + 1), ' ');
    SliceAround(s, i, e);
  }

  /** The fields from a word that runs to the end of the text are that word. */
  lemma JoinLast(s: string, i: nat)
    requires i < |s| && !IsSpace(s[i]) && WordEnd(s, i) == |s|
    ensures Join(FieldsFrom(s, i), ' ') == s[i..]
  {
    FieldsFromWord(s, i);
    assert FieldsFrom(s, |s|) == [];
    assert [s[i..]] + FieldsFrom(s, |s|) == [s[i..]];
  }

  /** From a non-space index the first field is the word there. */
  lemma FieldsFromWord(s: string, i: nat)
    requires i < |s| && !IsSpace(s[i])
    ensures FieldsFrom(s, i) == [s[i..WordEnd(s, i)]] + FieldsFrom(s, WordEnd(s, i))
  {
    assert SkipSpace(s, i) == i;
  }

  /** In a text of single blanks, a word ends at a blank followed by the
      next word, and the fields from the blank are the fields after it. */
  lemma BlankAfterWord(s: string, e: nat)
    requires SingleBlanks(s)
    requires e < |s| && IsSpace(s[e])
    ensures s[e] == ' ' && e + 1 < |s| && !IsSpace(s[e + 1])
    ensures FieldsFrom(s, e) == FieldsFrom(s, e + 1)
  {
    assert e != |s| - 1;
    assert !IsSpace(s[e + 1]);
    assert SkipSpace(s, e + 1) == e + 1;
  }

  lemma SliceAround(s: string, i: nat, e: nat)
    requires i <= e < |s| && s[e] == ' '
    ensures s[i..] == s[i..e] + [' '] + s[e + 1..]
  {
  }

  lemma JoinCons(w: string, rest: seq<string>, sep: char)
    requires rest != []
    ensures Join([w] + rest, sep) == w + [sep] + Join(rest, sep)
  {
    assert ([w] + rest)[1..] == rest;
  }
}
