// gov/utfconvert/convert.go: transliteration of Mongolian Cyrillic names to
// Latin letters, so that they can appear as assembly symbols.
module UtfConvert {
  import opened Wrappers

  /** The rune table of convert.go:3-40. Only lower-case Cyrillic letters
      and the space have an entry. */
  function Transliteration(c: char): (r: Option<string>)
  {
    match c
    case 'а' => Some("a")
    case 'б' => Some("b")
    case 'в' => Some("v")
    case 'г' => Some("g")
    case 'д' => Some("d")
    case 'е' => Some("ye")
    case 'ж' => Some("j")
    case 'з' => Some("z")
    case 'и' => Some("i")
    case 'й' => Some("hi")
    case 'к' => Some("k")
    case 'л' => Some("l")
    case 'м' => Some("m")
    case 'н' => Some("n")
    case 'о' => Some("o")
    case 'п' => Some("p")
    case 'р' => Some("r")
    case 'с' => Some("s")
    case 'т' => Some("t")
    case 'у' => Some("u")
    case 'ф' => Some("f")
    case 'х' => Some("h")
    case 'ц' => Some("ts")
    case 'ч' => Some("ch")
    case 'ш' => Some("sh")
    case 'щ' => Some("shc")
    case 'ъ' => Some("qi")
    case 'ы' => Some("yi")
    case 'ь' => Some("zi")
    case 'э' => Some("e")
    case 'ю' => Some("yu")
    case 'я' => Some("ya")
    case ' ' => Some(" ")
    case 'ё' => Some("yo")
    case 'ү' => Some("w")
    case 'ө' => Some("q")
    case _ => None
  }

  predicate LatinOrSpace(c: char) { 'a' <= c <= 'z' || c == ' ' }

  /** Every table entry is a non-empty string of lower-case Latin letters
      or a single space. */
  lemma TransliterationAlphabet(c: char)
    ensures Transliteration(c).Some? ==>
      |Transliteration(c).value| > 0 &&
      forall k :: 0 <= k < |Transliteration(c).value| ==> LatinOrSpace(Transliteration(c).value[k])
  {
  }

  /** The whole word: the in-order concatenation of each rune's entry, or
      nothing when some rune has no entry. */
  function Convert(w: string): Option<string>
  {
    if w == [] then Some("") else Join(Transliteration(w[0]), Convert(w[1..]))
  }

  /** Concatenation of two partial results; fails when either fails. */
  function Join(x: Option<string>, y: Option<string>): Option<string>
  {
    if x.Some? && y.Some? then Some(x.value + y.value) else None
  }

  /** Converting is a homomorphism from concatenation of words to
      concatenation of results (and failure of either part fails the whole). */
  lemma {:induction false} ConvertConcat(a: string, b: string)
    ensures Convert(a + b) == Join(Convert(a), Convert(b))
  {
    if a == [] {
      assert a + b == b;
      if Convert(b).Some? {
        assert "" + Convert(b).value == Convert(b).value;
      }
    } else {
      assert (a + b)[0] == a[0];
      assert (a + b)[1..] == a[1..] + b;
      ConvertConcat(a[1..], b);
      var h, t, y := Transliteration(a[0]), Convert(a[1..]), Convert(b);
      if h.Some? && t.Some? && y.Some? {
        assert h.value + (t.value + y.value) == (h.value + t.value) + y.value;
      }
    }
  }

  /** A word converts iff every one of its runes is in the table. */
  lemma {:induction false} ConvertDefinedIff(w: string)
    ensures Convert(w).Some? <==> forall k :: 0 <= k < |w| ==> Transliteration(w[k]).Some?
  {
    if w != [] {
      ConvertDefinedIff(w[1..]);
      assert forall k :: 1 <= k < |w| ==> w[k] == w[1..][k - 1];
    }
  }

  /** The output of a successful conversion is lower-case Latin letters and
      spaces only. */
  lemma {:induction false} ConvertAlphabet(w: string)
    requires Convert(w).Some?
    ensures forall k :: 0 <= k < |Convert(w).value| ==> LatinOrSpace(Convert(w).value[k])
  {
    if w != [] {
      TransliterationAlphabet(w[0]);
      ConvertAlphabet(w[1..]);
    }
  }

  /** The example of convert_test.go:10-11. */
  lemma ConvertExample()
    ensures Convert("майн") == Some("mahin")
  {
    var w := "майн";
    assert w[1..][1..][1..][1..] == [];
    assert "n" + "" == "n";
    assert "hi" + "n" == "hin";
    assert "a" + "hin" == "ahin";
    assert "m" + "ahin" == "mahin";
    assert Convert(w[1..][1..][1..]) == Some("n");
    assert Convert(w[1..][1..]) == Some("hin");
    assert Convert(w[1..]) == Some("ahin");
  }

  /** UtfConvert (convert.go:42-51): a loop that appends each rune's entry,
      panicking on a rune without one. */
  method UtfConvertWord(word: string) returns (r: Result<string>)
    ensures Convert(word).Some? ==> r == Ok(Convert(word).value)
    ensures Convert(word).None? ==> r == Panic("unrecognized rune")
  {
    var result := "";
    var i := 0;
    while i < |word|
      invariant 0 <= i <= |word|
      invariant Convert(word[..i]) == Some(result)
    {
      var entry := Transliteration(word[i]);
      if entry.None? {
        ConvertDefinedIff(word);
        return Panic("unrecognized rune");
      }
      ConvertConcat(word[..i], [word[i]]);
      assert [word[i]][1..] == [];
      assert entry.value + "" == entry.value;
      assert Convert([word[i]]) == Some(entry.value);
      assert word[..i + 1] == word[..i] + [word[i]];
      result := result + entry.value;
      i := i + 1;
    }
    assert word[..i] == word;
    return Ok(result);
  }
}
