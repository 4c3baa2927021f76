/** The JavaScript string operations the core relies on: `includes`,
    `toLowerCase`, `trim`, `split(" ")` and the canonical decomposition that
    `normalize("NFD")` performs on precomposed Latin-1 letters. */
module Text {

  import opened Base

  // ---------------------------------------------------------------------
  // String.prototype.trim
  // ---------------------------------------------------------------------

  /** The characters `trim` removes: ECMAScript WhiteSpace and LineTerminator. */
  predicate IsWhitespace(c: char) {
    || c == '\t' || c == '\n' || c == '\U{0B}' || c == '\U{0C}' || c == '\r' || c == ' '
    || c == '\U{A0}' || c == '\U{1680}' || ('\U{2000}' <= c <= '\U{200A}')
    || c == '\U{2028}' || c == '\U{2029}' || c == '\U{202F}' || c == '\U{205F}'
    || c == '\U{3000}' || c == '\U{FEFF}'
  }

  ghost predicate Blank(s: string) {
    forall i :: 0 <= i < |s| ==> IsWhitespace(s[i])
  }

  function TrimStart(s: string): (r: string)
    ensures |r| <= |s| && r == s[|s| - |r|..]
    ensures r != [] ==> !IsWhitespace(r[0])
    ensures forall i :: 0 <= i < |s| - |r| ==> IsWhitespace(s[i])
  {
    if s != [] && IsWhitespace(s[0]) then TrimStart(s[1..]) else s
  }

  function TrimEnd(s: string): (r: string)
    ensures |r| <= |s| && r == s[..|r|]
    ensures r != [] ==> !IsWhitespace(r[|r| - 1])
    ensures forall i :: |r| <= i < |s| ==> IsWhitespace(s[i])
  {
    if s != [] && IsWhitespace(s[|s| - 1]) then TrimEnd(s[..|s| - 1]) else s
  }

  /** `s.trim()`: the slice of `s` left after removing the `k` whitespace
      characters at its start and the whitespace at its end (what lies
      before and after it is blank); it is empty exactly when `s` is blank. */
  function Trim(s: string): (r: string)
    ensures var k := |s| - |TrimStart(s)|;
      && OccursAt(r, s, k) && Blank(s[..k]) && Blank(s[k + |r|..])
    ensures r != [] ==> !IsWhitespace(r[0]) && !IsWhitespace(r[|r| - 1])
    ensures r == [] <==> Blank(s)
  {
    TrimOccurs(s);
    TrimmedEndsBlank(s);
    TrimBlank(s);
    TrimEnd(TrimStart(s))
  }

  lemma TrimmedEndsBlank(s: string)
    ensures var k := |s| - |TrimStart(s)|; var n := |TrimEnd(TrimStart(s))|;
      k + n <= |s| && Blank(s[..k]) && Blank(s[k + n..])
  {
    var t := TrimStart(s);
    var k, n := |s| - |t|, |TrimEnd(t)|;
    assert t == s[k..];
    forall i | 0 <= i < k
      ensures IsWhitespace(s[..k][i])
    {
      assert s[..k][i] == s[i];
    }
    var rest := s[k + n..];
    forall j | 0 <= j < |rest|
      ensures IsWhitespace(rest[j])
    {
      assert s[k + n..][j] == t[n + j];
    }
  }

  lemma TrimOccurs(s: string)
    ensures OccursAt(TrimEnd(TrimStart(s)), s, |s| - |TrimStart(s)|)
  {
    PrefixOfSuffix(s, TrimStart(s), TrimEnd(TrimStart(s)));
  }

  /** A prefix `r` of the suffix `t` of `s` occurs in `s` where `t` starts. */
  lemma PrefixOfSuffix(s: string, t: string, r: string)
    requires |t| <= |s| && t == s[|s| - |t|..]
    requires |r| <= |t| && r == t[..|r|]
    ensures OccursAt(r, s, |s| - |t|)
  {
    assert s[|s| - |t|..|s| - |t| + |r|] == r;
  }

  lemma TrimBlank(s: string)
    ensures TrimEnd(TrimStart(s)) == [] <==> Blank(s)
  {
    var t := TrimStart(s);
    var r := TrimEnd(t);
    if r == [] {
      assert t == [];
    } else {
      var k := |s| - |t|;
      assert t == s[k..] && r == t[..|r|];
      assert r[0] == s[k];
    }
  }

  // ---------------------------------------------------------------------
  // String.prototype.toLowerCase, on the letters of Basic Latin and Latin-1
  // ---------------------------------------------------------------------

  /** Upper-case letters of Basic Latin and Latin-1 (U+00D7 is the
      multiplication sign, not a letter). */
  predicate IsUpper(c: char) {
    ('A' <= c <= 'Z') || ('\U{C0}' <= c <= '\U{DE}' && c != '\U{D7}')
  }

  function LowerChar(c: char): (d: char)
    ensures !IsUpper(d)
    ensures IsUpper(c) ==> d as int == c as int + 32
    ensures !IsUpper(c) ==> d == c
  {
    if IsUpper(c) then (c as int + 32) as char else c
  }

  /** `s.toLowerCase()`: same length, no upper-case letter left, every
      capital replaced by its small letter (32 code points on, in both
      Basic Latin and Latin-1), and every other character kept. */
  function ToLower(s: string): (r: string)
    ensures |r| == |s|
    ensures forall i :: 0 <= i < |r| ==> !IsUpper(r[i])
    ensures forall i :: 0 <= i < |s| && IsUpper(s[i]) ==> r[i] as int == s[i] as int + 32
    ensures forall i :: 0 <= i < |s| && !IsUpper(s[i]) ==> r[i] == s[i]
  {
    seq(|s|, i requires 0 <= i < |s| => LowerChar(s[i]))
  }

  lemma ToLowerOne(c: char)
    ensures ToLower([c]) == [LowerChar(c)]
  {
    assert ToLower([c])[0] == LowerChar(c);
  }

  lemma ToLowerIdempotent(s: string)
    ensures ToLower(ToLower(s)) == ToLower(s)
  {
  }

  /** A lower-case ASCII letter that occurs in `s` neither as itself nor as
      its capital does not occur in `s.toLowerCase()`. */
  lemma LowerLacks(s: string, c: char)
    requires 'a' <= c <= 'z' && c !in s && (c as int - 32) as char !in s
    ensures c !in ToLower(s)
  {
    forall i | 0 <= i < |s|
      ensures ToLower(s)[i] != c
    {
      assert s[i] != c && s[i] != (c as int - 32) as char;
    }
  }

  // ---------------------------------------------------------------------
  // String.prototype.includes
  // ---------------------------------------------------------------------

  /** `needle` occurs in `hay` starting at index `i`. */
  ghost predicate OccursAt(needle: string, hay: string, i: int) {
    0 <= i && i + |needle| <= |hay| && hay[i..i + |needle|] == needle
  }

  /** `hay.includes(needle)`, by scanning start positions left to right. */
  predicate Contains(hay: string, needle: string)
    decreases |hay|
  {
    if |needle| > |hay| then false
    else if hay[..|needle|] == needle then true
    else Contains(hay[1..], needle)
  }

  /** The scan finds `needle` exactly when it occurs somewhere in `hay`. */
  lemma {:induction false} ContainsIff(hay: string, needle: string)
    ensures Contains(hay, needle) <==> exists i :: OccursAt(needle, hay, i)
    decreases |hay|
  {
    if |needle| > |hay| {
    } else if hay[..|needle|] == needle {
      assert OccursAt(needle, hay, 0);
    } else {
      ContainsIff(hay[1..], needle);
      if exists i :: OccursAt(needle, hay, i) {
        var i :| OccursAt(needle, hay, i);
        assert i != 0;
        assert hay[1..][i - 1..i - 1 + |needle|] == hay[i..i + |needle|];
        assert OccursAt(needle, hay[1..], i - 1);
      }
      if exists i :: OccursAt(needle, hay[1..], i) {
        var i :| OccursAt(needle, hay[1..], i);
        assert hay[1..][i..i + |needle|] == hay[i + 1..i + 1 + |needle|];
        assert OccursAt(needle, hay, i + 1);
      }
    }
  }

  /** A needle holding a character the haystack lacks is not found. */
  lemma MissingCharNotContained(hay: string, needle: string, c: char)
    requires c in needle && c !in hay
    ensures !Contains(hay, needle)
  {
    ContainsIff(hay, needle);
  }

  /** A needle found at a known position is contained. */
  lemma OccursContained(hay: string, needle: string, i: int)
    requires OccursAt(needle, hay, i)
    ensures Contains(hay, needle)
  {
    ContainsIff(hay, needle);
  }

  lemma ContainsEmpty(hay: string)
    ensures Contains(hay, "")
  {
    assert hay[..0] == "";
  }

  // ---------------------------------------------------------------------
  // String.prototype.split with a one-character separator
  // ---------------------------------------------------------------------

  /** `s.split(sep)`: the pieces between occurrences of `sep`, empty pieces
      included; there is always at least one piece. */
  function Split(s: string, sep: char): (parts: seq<string>)
    ensures |parts| >= 1
    ensures forall k :: 0 <= k < |parts| ==> sep !in parts[k]
  {
    if s == [] then [""]
    else
      var rest := Split(s[1..], sep);
      if s[0] == sep then [""] + rest
      else [[s[0]] + rest[0]] + rest[1..]
  }

  /** A string without the separator is its own single part. */
  lemma {:induction false} SplitWithoutSeparator(s: string, sep: char)
    requires sep !in s
    ensures Split(s, sep) == [s]
  {
    if s != [] {
      assert sep !in s[1..];
      SplitWithoutSeparator(s[1..], sep);
      assert [s[0]] + s[1..] == s;
    }
  }

  /** A single word is its own single token. */
  lemma SingleToken(s: string)
    requires s != "" && ' ' !in s
    ensures Tokens(s) == [s]
  {
    SplitWithoutSeparator(s, ' ');
    assert NonEmpty([s]) == [s] + NonEmpty([s][1..]);
  }

  /** `parts.join(sep)`. */
  function Join(parts: seq<string>, sep: char): string
    requires |parts| >= 1
  {
    if |parts| == 1 then parts[0] else parts[0] + [sep] + Join(parts[1..], sep)
  }

  /** Splitting loses nothing: joining the pieces gives the string back. With
      the pieces free of `sep`, this determines `Split` completely. */
  lemma {:induction false} SplitJoin(s: string, sep: char)
    ensures Join(Split(s, sep), sep) == s
  {
    if s != [] {
      var rest := Split(s[1..], sep);
      SplitJoin(s[1..], sep);
      var parts := Split(s, sep);
      if s[0] == sep {
        assert parts[1..] == rest;
      } else if |rest| == 1 {
        assert parts == [[s[0]] + rest[0]];
      } else {
        assert parts[1..] == rest[1..];
        assert Join(parts, sep) == [s[0]] + rest[0] + [sep] + Join(rest[1..], sep);
      }
    }
  }

  /** The two directions together: splitting a join of `sep`-free pieces
      returns the pieces. */
  lemma {:induction false} JoinSplit(parts: seq<string>, sep: char)
    requires |parts| >= 1
    requires forall k :: 0 <= k < |parts| ==> sep !in parts[k]
    ensures Split(Join(parts, sep), sep) == parts
    decreases |parts|, |parts[0]|
  {
    var p := parts[0];
    if p == [] {
      if |parts| > 1 {
        JoinSplit(parts[1..], sep);
        var j := Join(parts, sep);
        assert j == [sep] + Join(parts[1..], sep);
        assert j[1..] == Join(parts[1..], sep);
      }
    } else {
      var shorter := [p[1..]] + parts[1..];
      assert p[1..] == p[1..];
      assert forall k :: 0 <= k < |shorter| ==> sep !in shorter[k] by {
        forall k | 0 <= k < |shorter| ensures sep !in shorter[k] {
          if k == 0 {
            assert forall c :: c in p[1..] ==> c in p;
          } else {
            assert shorter[k] == parts[k];
          }
        }
      }
      JoinSplit(shorter, sep);
      var j := Join(parts, sep);
      if |parts| == 1 {
        assert j == p;
        assert Join(shorter, sep) == p[1..];
      } else {
        assert j == p + [sep] + Join(parts[1..], sep);
        assert Join(shorter, sep) == p[1..] + [sep] + Join(parts[1..], sep);
      }
      assert j[1..] == Join(shorter, sep);
      assert j[0] == p[0] && p[0] != sep;
      assert [p[0]] + p[1..] == p;
      assert parts == [p] + parts[1..];
    }
  }

  /** The pieces that are not empty, in order (`.filter(t => t.length > 0)`). */
  function NonEmpty(parts: seq<string>): (r: seq<string>)
    ensures |r| <= |parts|
    ensures forall k :: 0 <= k < |r| ==> r[k] != [] && r[k] in parts
    ensures forall k :: 0 <= k < |parts| && parts[k] != [] ==> parts[k] in r
  {
    if parts == [] then []
    else if parts[0] == [] then NonEmpty(parts[1..])
    else [parts[0]] + NonEmpty(parts[1..])
  }

  /** The space-separated words of `s`: `s.split(" ").filter(t => t.length > 0)`. */
  function Tokens(s: string): (r: seq<string>)
    ensures forall k :: 0 <= k < |r| ==> r[k] != [] && ' ' !in r[k]
  {
    NonEmpty(Split(s, ' '))
  }

  function Concat(parts: seq<string>): string {
    if parts == [] then [] else parts[0] + Concat(parts[1..])
  }

  /** `s` with every `c` removed. */
  function Without(s: string, c: char): (r: string)
    ensures c !in r
  {
    if s == [] then [] else (if s[0] == c then [] else [s[0]]) + Without(s[1..], c)
  }

  lemma {:induction false} ConcatNonEmpty(parts: seq<string>)
    ensures Concat(NonEmpty(parts)) == Concat(parts)
  {
    if parts != [] {
      var rest := NonEmpty(parts[1..]);
      ConcatNonEmpty(parts[1..]);
      if parts[0] == [] {
        assert Concat(parts) == Concat(parts[1..]);
      } else {
        var r := [parts[0]] + rest;
        assert r[0] == parts[0] && r[1..] == rest;
        assert Concat(r) == parts[0] + Concat(rest);
      }
    }
  }

  lemma {:induction false} ConcatSplit(s: string, sep: char)
    ensures Concat(Split(s, sep)) == Without(s, sep)
  {
    if s != [] {
      ConcatSplit(s[1..], sep);
      var rest := Split(s[1..], sep);
      var parts := Split(s, sep);
      if s[0] == sep {
        assert parts[1..] == rest;
      } else {
        assert parts[1..] == rest[1..];
        assert Concat(rest) == rest[0] + Concat(rest[1..]);
      }
    }
  }

  /** The words, put together, are the string with its spaces taken out:
      tokenising drops the spaces and nothing else. */
  lemma TokensLoseOnlySpaces(s: string)
    ensures Concat(Tokens(s)) == Without(s, ' ')
  {
    ConcatNonEmpty(Split(s, ' '));
    ConcatSplit(s, ' ');
  }

  // ---------------------------------------------------------------------
  // String.prototype.normalize("NFD") on precomposed Latin-1 letters
  // ---------------------------------------------------------------------

  /** U+0300..U+036F, the Combining Diacritical Marks block. */
  predicate IsCombiningMark(c: char) {
    '\U{0300}' <= c <= '\U{036F}'
  }

  const Grave: char := '\U{0300}'
  const Acute: char := '\U{0301}'
  const Circumflex: char := '\U{0302}'
  const Tilde: char := '\U{0303}'
  const Diaeresis: char := '\U{0308}'
  const RingAbove: char := '\U{030A}'
  const Cedilla: char := '\U{0327}'

  /** The canonical decomposition of the precomposed letters of Latin-1
      (U+00C0..U+00FF): a base letter and one combining mark. Æ, Ð, ×, Ø, Þ,
      ß, æ, ð, ÷, ø and þ have none. */
  function LatinDecomposition(c: char): Option<(char, char)> {
    match c
    case 'À' => Some(('A', Grave))
    case 'Á' => Some(('A', Acute))
    case 'Â' => Some(('A', Circumflex))
    case 'Ã' => Some(('A', Tilde))
    case 'Ä' => Some(('A', Diaeresis))
    case 'Å' => Some(('A', RingAbove))
    case 'Ç' => Some(('C', Cedilla))
    case 'È' => Some(('E', Grave))
    case 'É' => Some(('E', Acute))
    case 'Ê' => Some(('E', Circumflex))
    case 'Ë' => Some(('E', Diaeresis))
    case 'Ì' => Some(('I', Grave))
    case 'Í' => Some(('I', Acute))
    case 'Î' => Some(('I', Circumflex))
    case 'Ï' => Some(('I', Diaeresis))
    case 'Ñ' => Some(('N', Tilde))
    case 'Ò' => Some(('O', Grave))
    case 'Ó' => Some(('O', Acute))
    case 'Ô' => Some(('O', Circumflex))
    case 'Õ' => Some(('O', Tilde))
    case 'Ö' => Some(('O', Diaeresis))
    case 'Ù' => Some(('U', Grave))
    case 'Ú' => Some(('U', Acute))
    case 'Û' => Some(('U', Circumflex))
    case 'Ü' => Some(('U', Diaeresis))
    case 'Ý' => Some(('Y', Acute))
    case 'à' => Some(('a', Grave))
    case 'á' => Some(('a', Acute))
    case 'â' => Some(('a', Circumflex))
    case 'ã' => Some(('a', Tilde))
    case 'ä' => Some(('a', Diaeresis))
    case 'å' => Some(('a', RingAbove))
    case 'ç' => Some(('c', Cedilla))
    case 'è' => Some(('e', Grave))
    case 'é' => Some(('e', Acute))
    case 'ê' => Some(('e', Circumflex))
    case 'ë' => Some(('e', Diaeresis))
    case 'ì' => Some(('i', Grave))
    case 'í' => Some(('i', Acute))
    case 'î' => Some(('i', Circumflex))
    case 'ï' => Some(('i', Diaeresis))
    case 'ñ' => Some(('n', Tilde))
    case 'ò' => Some(('o', Grave))
    case 'ó' => Some(('o', Acute))
    case 'ô' => Some(('o', Circumflex))
    case 'õ' => Some(('o', Tilde))
    case 'ö' => Some(('o', Diaeresis))
    case 'ù' => Some(('u', Grave))
    case 'ú' => Some(('u', Acute))
    case 'û' => Some(('u', Circumflex))
    case 'ü' => Some(('u', Diaeresis))
    case 'ý' => Some(('y', Acute))
    case 'ÿ' => Some(('y', Diaeresis))
    case _ => None
  }

  /** Only Latin-1 letters have a decomposition in the table. */
  lemma OnlyLatin1Decomposes(c: char)
    requires c < '\U{00C0}' || c > '\U{00FF}'
    ensures LatinDecomposition(c).None?
  {
  }

  /** A decomposition is an ASCII letter followed by a combining mark. */
  lemma DecompositionShape(c: char)
    requires LatinDecomposition(c).Some?
    ensures IsCombiningMark(LatinDecomposition(c).value.1)
    ensures var base := LatinDecomposition(c).value.0; 'a' <= base <= 'z' || 'A' <= base <= 'Z'
  {
  }

  /** A decomposition keeps the letter's case. */
  lemma DecompositionKeepsCase(c: char)
    requires LatinDecomposition(c).Some?
    ensures IsUpper(LatinDecomposition(c).value.0) <==> IsUpper(c)
  {
  }

  /** The canonical decomposition of one character: a precomposed Latin-1
      letter becomes its ASCII base letter, in the same case, followed by one
      combining mark; any other character is left alone. */
  function DecomposeChar(c: char): (r: seq<char>)
    ensures 1 <= |r| <= 2
    ensures |r| == 1 ==> r[0] == c
    ensures |r| == 2 ==> IsCombiningMark(r[1]) && ('a' <= r[0] <= 'z' || 'A' <= r[0] <= 'Z')
    ensures |r| == 2 ==> (IsUpper(r[0]) <==> IsUpper(c))
    ensures forall k :: 0 <= k < |r| ==> LatinDecomposition(r[k]).None?
  {
    var d := LatinDecomposition(c);
    if d.Some? then
      DecompositionShape(c);
      DecompositionKeepsCase(c);
      OnlyLatin1Decomposes(d.value.0);
      OnlyLatin1Decomposes(d.value.1);
      [d.value.0, d.value.1]
    else
      [c]
  }

  /** `s.normalize("NFD")` on the letters above: every precomposed letter
      is split, the result has nothing left to split, the case of every
      letter is kept, and a string with nothing to split is left alone. */
  function Decompose(s: string): (r: string)
    ensures forall i :: 0 <= i < |r| ==> LatinDecomposition(r[i]).None?
    ensures (forall i :: 0 <= i < |s| ==> !IsUpper(s[i])) ==> forall i :: 0 <= i < |r| ==> !IsUpper(r[i])
    ensures (forall i :: 0 <= i < |s| ==> LatinDecomposition(s[i]).None?) ==> r == s
  {
    if s == [] then [] else DecomposeChar(s[0]) + Decompose(s[1..])
  }

  /** Decomposition works character by character: it distributes over
      concatenation... */
  lemma {:induction false} DecomposeConcat(a: string, b: string)
    ensures Decompose(a + b) == Decompose(a) + Decompose(b)
  {
    if a == [] {
      assert a + b == b;
    } else {
      assert (a + b)[0] == a[0] && (a + b)[1..] == a[1..] + b;
      DecomposeConcat(a[1..], b);
    }
  }

  /** ...and a single character becomes its base letter and mark when the
      table has it, and stays as it is otherwise. */
  lemma DecomposeOne(c: char)
    ensures LatinDecomposition(c).Some? ==>
      Decompose([c]) == [LatinDecomposition(c).value.0, LatinDecomposition(c).value.1]
    ensures LatinDecomposition(c).None? ==> Decompose([c]) == [c]
  {
    assert [c][1..] == [];
  }

  /** Lower-casing works character by character too. */
  lemma ToLowerConcat(a: string, b: string)
    ensures ToLower(a + b) == ToLower(a) + ToLower(b)
  {
    assert forall i :: 0 <= i < |a| ==> (a + b)[i] == a[i];
    assert forall i :: |a| <= i < |a + b| ==> (a + b)[i] == b[i - |a|];
  }
}
