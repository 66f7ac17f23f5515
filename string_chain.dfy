/** `StringChain`: an immutable wrapper round a string whose methods return new
    wrappers or plain values. A string is read as single-byte text: each character
    stands for one byte. Only on such text do the `mb_*` functions the class calls
    (which count characters) agree with the byte-wise operations it also uses
    (`$string[$i]`, `trim`, `ucfirst`); multibyte text is not modelled. Only ASCII
    case mapping is modelled. */
module StringChains {
  import opened PhpValues

  /** The default character list of `trim`, `ltrim` and `rtrim`: space, tab,
      newline, carriage return, NUL and vertical tab. */
  const TrimDefault: string := [' ', '\t', '\n', '\r', '\0', '\U{000B}']

  /** The default word delimiters of `ucwords`: space, tab, carriage return,
      newline, form feed and vertical tab. */
  const WordDelimiters: string := [' ', '\t', '\r', '\n', '\U{000C}', '\U{000B}']

  /** The default character set of `random`. */
  const AlphaNumeric: string := "0123456789abcdefghijklmnopqrstuvwxyzABCDEFGHIJKLMNOPQRSTUVWXYZ"

  /** The message `random_int(0, -1)` throws with. */
  const RandomRangeMessage: string := "random_int(): Argument #1 ($min) must be less than or equal to argument #2 ($max)"

  /** The message `mb_strpos` throws with when the offset lies outside the haystack. */
  const OffsetMessage: string := "mb_strpos(): Argument #3 ($offset) must be contained in argument #1 ($haystack)"

  function Max(a: int, b: int): int { if a < b then b else a }
  function Min(a: int, b: int): int { if a < b then a else b }

  // ---- ASCII case mapping ----

  predicate IsLower(c: char) { 'a' <= c <= 'z' }
  predicate IsUpper(c: char) { 'A' <= c <= 'Z' }

  /** `toupper` on one character. */
  function UpperChar(c: char): char {
    if IsLower(c) then (c as int - 32) as char else c
  }

  /** `tolower` on one character. */
  function LowerChar(c: char): char {
    if IsUpper(c) then (c as int + 32) as char else c
  }

  /** Two strings that differ at most in the case of their letters. */
  predicate SameIgnoringCase(a: string, b: string) {
    |a| == |b| && forall i :: 0 <= i < |a| ==> LowerChar(a[i]) == LowerChar(b[i])
  }

  predicate NoLower(s: string) { forall i :: 0 <= i < |s| ==> !IsLower(s[i]) }
  predicate NoUpper(s: string) { forall i :: 0 <= i < |s| ==> !IsUpper(s[i]) }

  /** `mb_strtoupper`, ASCII letters only. */
  function Upper(s: string): string {
    seq(|s|, i requires 0 <= i < |s| => UpperChar(s[i]))
  }

  /** `mb_strtolower`, ASCII letters only. */
  function Lower(s: string): string {
    seq(|s|, i requires 0 <= i < |s| => LowerChar(s[i]))
  }

  /** `ucfirst`. */
  function UcFirst(s: string): string {
    if s == [] then s else [UpperChar(s[0])] + s[1..]
  }

  /** `lcfirst`. */
  function LcFirst(s: string): string {
    if s == [] then s else [LowerChar(s[0])] + s[1..]
  }

  /** `ucwords` with its default delimiters: the first character, and every
      character that follows a delimiter, upper-cased. */
  function UcWords(s: string): string {
    seq(|s|, i requires 0 <= i < |s| => if i == 0 || s[i - 1] in WordDelimiters then UpperChar(s[i]) else s[i])
  }

  /** `str_replace($from, $to, $s)` for one-character `$from` and `$to`. */
  function ReplaceChar(s: string, from: char, to: char): string {
    seq(|s|, i requires 0 <= i < |s| => if s[i] == from then to else s[i])
  }

  /** `str_replace($c, '', $s)` for a one-character `$c`. */
  function RemoveChar(s: string, c: char): string
    decreases |s|
  {
    if s == [] then []
    else (if s[0] == c then [] else [s[0]]) + RemoveChar(s[1..], c)
  }

  // ---- trimming ----

  /** `ltrim($s, $chars)`: the longest prefix made of characters of `chars` removed. */
  function TrimLeft(s: string, chars: string): (r: string)
    ensures |r| <= |s| && r == s[|s| - |r|..]
    ensures forall i :: 0 <= i < |s| - |r| ==> s[i] in chars
    ensures r != [] ==> r[0] !in chars
    decreases |s|
  {
    if s != [] && s[0] in chars then TrimLeft(s[1..], chars) else s
  }

  /** `rtrim($s, $chars)`: the longest suffix made of characters of `chars` removed. */
  function TrimRight(s: string, chars: string): (r: string)
    ensures |r| <= |s| && r == s[..|r|]
    ensures forall i :: |r| <= i < |s| ==> s[i] in chars
    ensures r != [] ==> r[|r| - 1] !in chars
    decreases |s|
  {
    if s != [] && s[|s| - 1] in chars then TrimRight(s[..|s| - 1], chars) else s
  }

  // ---- searching ----

  /** `sub` occurs in `s` starting at position `p`. */
  predicate OccursAt(s: string, sub: string, p: int) {
    0 <= p && p + |sub| <= |s| && s[p..p + |sub|] == sub
  }

  /** The first position at or after `i` where `sub` occurs, or -1. */
  function FindFrom(s: string, sub: string, i: nat): (r: int)
    requires i <= |s|
    ensures r == -1 || (i <= r && OccursAt(s, sub, r))
    ensures r == -1 ==> forall p :: i <= p <= |s| ==> !OccursAt(s, sub, p)
    ensures r != -1 ==> forall p :: i <= p < r ==> !OccursAt(s, sub, p)
    decreases |s| - i
  {
    if OccursAt(s, sub, i) then i
    else if i == |s| then -1
    else FindFrom(s, sub, i + 1)
  }

  /** Where `mb_substr` starts: a negative start counts from the end, clamped to 0. */
  function SubStart(n: int, start: int): int {
    if start < 0 then Max(n + start, 0) else start
  }

  // ---- the chain ----

  /** `StringChain::of($string)`; `__toString` gives `text` back. */
  datatype StringChain = Of(text: string) {

    /** `toUpperCase()`. */
    function ToUpperCase(): (r: StringChain)
      ensures SameIgnoringCase(r.text, text) && NoLower(r.text)
      ensures forall i :: 0 <= i < |text| && !IsLower(text[i]) ==> r.text[i] == text[i]
    {
      Of(Upper(text))
    }

    /** `toLowerCase()`. */
    function ToLowerCase(): (r: StringChain)
      ensures SameIgnoringCase(r.text, text) && NoUpper(r.text)
      ensures forall i :: 0 <= i < |text| && !IsUpper(text[i]) ==> r.text[i] == text[i]
    {
      Of(Lower(text))
    }

    /** `toPascalCase()`: underscores become spaces, `ucwords` upper-cases the
        first letter of each word, and the spaces are removed. */
    function ToPascalCase(): (r: StringChain)
      ensures '_' !in r.text && ' ' !in r.text
    {
      PascalNoSeparators(text);
      Of(RemoveChar(UcWords(ReplaceChar(text, '_', ' ')), ' '))
    }

    /** `toCamelCase()`: the same expression as `toPascalCase`, then `lcfirst`. */
    function ToCamelCase(): (r: StringChain)
      ensures r.text == LcFirst(ToPascalCase().text)
      ensures r.text != [] ==> !IsUpper(r.text[0])
    {
      Of(LcFirst(RemoveChar(UcWords(ReplaceChar(text, '_', ' ')), ' ')))
    }

    /** `capitalize()`: everything lower-cased, then the first character upper-cased. */
    function Capitalize(): (r: StringChain)
      ensures SameIgnoringCase(r.text, text)
      ensures r.text != [] ==> !IsLower(r.text[0])
      ensures forall i :: 1 <= i < |r.text| ==> !IsUpper(r.text[i])
    {
      Of(UcFirst(Lower(text)))
    }

    /** `trim($chars)`. */
    function Trim(chars: string): (r: StringChain)
      ensures r.text == TrimLeft(TrimRight(text, chars), chars)
    {
      TrimCommutes(text, chars);
      Of(TrimRight(TrimLeft(text, chars), chars))
    }

    /** `trimLeft($chars)`. */
    function TrimLeftChain(chars: string): (r: StringChain)
      ensures r.text == TrimLeft(text, chars)
    {
      Of(TrimLeft(text, chars))
    }

    /** `trimRight($chars)`. */
    function TrimRightChain(chars: string): (r: StringChain)
      ensures r.text == TrimRight(text, chars)
    {
      Of(TrimRight(text, chars))
    }

    /** `subString($start, $length)`, that is `mb_substr`: a negative start counts
        from the end and is clamped to 0, a negative length leaves that many
        characters off the end, and a start at or past the end gives "". */
    function SubString(start: int, length: int): (r: StringChain)
      ensures var from := SubStart(|text|, start);
              0 <= from && (from >= |text| ==> r.text == [])
              && (from < |text| ==> from + |r.text| <= |text| && r.text == text[from..from + |r.text|])
      ensures length >= 0 ==> |r.text| == Max(0, Min(length, |text| - SubStart(|text|, start)))
      ensures length < 0 ==> |r.text| == Max(0, |text| - SubStart(|text|, start) + length)
    {
      var n := |text|;
      var from := SubStart(n, start);
      var len := if length < 0 then Max(n - from + length, 0) else length;
      if from >= n then Of([]) else Of(text[from..Min(from + len, n)])
    }

    /** `indexOf($subString, $offset)`: `mb_strpos` from the offset (negative counts
        from the end), -1 when there is no occurrence, and the `ValueError` of
        `mb_strpos` when the offset lies outside the string. */
    function IndexOf(sub: string, offset: int): (r: Result<int>)
      ensures r.Failure? <==> offset < -|text| || offset > |text|
      ensures r.Failure? ==> r.error == ValueError(OffsetMessage)
      ensures r.Success? ==> var from := if offset < 0 then offset + |text| else offset;
              (r.value == -1 <==> forall p :: from <= p <= |text| ==> !OccursAt(text, sub, p))
              && (r.value != -1 ==> from <= r.value && OccursAt(text, sub, r.value)
                                     && forall p :: from <= p < r.value ==> !OccursAt(text, sub, p))
    {
      var from := if offset < 0 then offset + |text| else offset;
      if from < 0 || from > |text| then Failure(ValueError(OffsetMessage))
      else
        var p := FindFrom(text, sub, from);
        assert p == -1 ==> !OccursAt(text, sub, from);
        Success(p)
    }

    /** `size()`. */
    function Size(): nat {
      |text|
    }

    /** `charAt($index)`: `$this->string[$index] ?? ''`, where a negative index
        counts from the end. */
    function CharAt(index: int): (r: string)
      ensures |r| <= 1
      ensures r != [] <==> -|text| <= index < |text|
      ensures 0 <= index < |text| ==> r == [text[index]]
      ensures -|text| <= index < 0 ==> r == [text[|text| + index]]
    {
      if 0 <= index < |text| then [text[index]]
      else if -|text| <= index < 0 then [text[|text| + index]]
      else []
    }
  }

  /** `StringChain::random($length, $characterSet)`. The values `random_int(0,
      strlen($characterSet) - 1)` returns are given as `draws`, one per character;
      with an empty character set the first call throws. */
  method Random(length: int, characterSet: string, draws: seq<int>) returns (r: Result<StringChain>)
    requires |draws| >= length
    requires characterSet != [] ==> forall i :: 0 <= i < |draws| ==> 0 <= draws[i] < |characterSet|
    ensures r.Failure? <==> characterSet == [] && length > 0
    ensures r.Failure? ==> r.error == ValueError(RandomRangeMessage)
    ensures r.Success? ==> r.value.Size() == Max(length, 0)
    ensures r.Success? ==> forall i :: 0 <= i < |r.value.text| ==> r.value.text[i] == characterSet[draws[i]]
    ensures r.Success? ==> forall i :: 0 <= i < |r.value.text| ==> r.value.text[i] in characterSet
  {
    var generated: string := [];
    var i := 0;
    while i < length
      invariant 0 <= i && (length >= 0 ==> i <= length) && (length < 0 ==> i == 0)
      invariant |generated| == i
      invariant i > 0 ==> characterSet != []
      invariant forall j :: 0 <= j < i ==> generated[j] == characterSet[draws[j]]
    {
      if characterSet == [] {
        r := Failure(ValueError(RandomRangeMessage));
        return;
      }
      generated := generated + [characterSet[draws[i]]];
      i := i + 1;
    }
    r := Success(Of(generated));
  }

  // ---- lemmas: case mapping ----

  lemma CaseFacts(c: char)
    ensures !IsLower(UpperChar(c)) && LowerChar(UpperChar(c)) == LowerChar(c)
    ensures !IsUpper(LowerChar(c)) && LowerChar(LowerChar(c)) == LowerChar(c)
    ensures UpperChar(LowerChar(c)) == UpperChar(c)
    ensures (UpperChar(c) == c <==> !IsLower(c)) && (LowerChar(c) == c <==> !IsUpper(c))
  {
  }

  /** Upper-casing after lower-casing is upper-casing, and both are idempotent. */
  lemma {:induction false} CaseMappingsCompose(s: string)
    ensures Upper(Lower(s)) == Upper(s) && Lower(Upper(s)) == Lower(s)
    ensures Upper(Upper(s)) == Upper(s) && Lower(Lower(s)) == Lower(s)
  {
    forall i | 0 <= i < |s|
      ensures Upper(Lower(s))[i] == Upper(s)[i] && Lower(Upper(s))[i] == Lower(s)[i]
      ensures Upper(Upper(s))[i] == Upper(s)[i] && Lower(Lower(s))[i] == Lower(s)[i]
    {
      CaseFacts(s[i]);
      CaseFacts(UpperChar(s[i]));
    }
  }

  /** `capitalize()` applied twice is `capitalize()` once. */
  lemma {:induction false} CapitalizeIdempotent(c: StringChain)
    ensures c.Capitalize().Capitalize() == c.Capitalize()
  {
    var l := Lower(c.text);
    var once := UcFirst(l);
    if l != [] {
      assert Lower(once) == [LowerChar(UpperChar(l[0]))] + Lower(l[1..]) by {
        forall i | 0 <= i < |once|
          ensures Lower(once)[i] == ([LowerChar(UpperChar(l[0]))] + Lower(l[1..]))[i]
        {
        }
      }
      CaseFacts(c.text[0]);
      CaseFacts(l[0]);
      CaseMappingsCompose(c.text);
      assert Lower(l[1..]) == l[1..] by {
        forall i | 0 <= i < |l| - 1
          ensures Lower(l[1..])[i] == l[1..][i]
        {
          CaseFacts(c.text[i + 1]);
        }
      }
      assert UpperChar(LowerChar(UpperChar(l[0]))) == UpperChar(l[0]) by {
        CaseFacts(UpperChar(l[0]));
      }
    }
  }

  // ---- lemmas: Pascal and camel case ----

  lemma {:induction false} RemoveCharAppend(a: string, b: string, c: char)
    ensures RemoveChar(a + b, c) == RemoveChar(a, c) + RemoveChar(b, c)
    decreases |a|
  {
    if a != [] {
      assert (a + b)[1..] == a[1..] + b;
      RemoveCharAppend(a[1..], b, c);
    } else {
      assert a + b == b;
    }
  }

  lemma {:induction false} RemoveCharKeeps(s: string, c: char, d: char)
    ensures c !in RemoveChar(s, c)
    ensures d != c ==> (d in RemoveChar(s, c) <==> d in s)
    decreases |s|
  {
    if s != [] {
      RemoveCharKeeps(s[1..], c, d);
      assert s == [s[0]] + s[1..];
    }
  }

  lemma {:induction false} RemoveCharAbsent(s: string, c: char)
    requires c !in s
    ensures RemoveChar(s, c) == s
    decreases |s|
  {
    if s != [] {
      RemoveCharAbsent(s[1..], c);
      assert s == [s[0]] + s[1..];
    }
  }

  /** The Pascal-case form has neither underscores nor spaces left. */
  lemma PascalNoSeparators(s: string)
    ensures var r := RemoveChar(UcWords(ReplaceChar(s, '_', ' ')), ' ');
            '_' !in r && ' ' !in r
  {
    var t := UcWords(ReplaceChar(s, '_', ' '));
    assert '_' !in t by {
      forall i | 0 <= i < |t| ensures t[i] != '_' {
        CaseFacts(ReplaceChar(s, '_', ' ')[i]);
      }
    }
    RemoveCharKeeps(t, ' ', '_');
  }

  /** `ucwords` over a delimiter: each side is upper-cased on its own. */
  lemma UcWordsSplit(x: string, d: char, y: string)
    requires d in WordDelimiters
    ensures UcWords(x + [d] + y) == UcWords(x) + [UpperChar(d)] + UcWords(y)
  {
    var s := x + [d] + y;
    var rhs := UcWords(x) + [UpperChar(d)] + UcWords(y);
    assert |UcWords(s)| == |rhs|;
    forall i | 0 <= i < |s| ensures UcWords(s)[i] == rhs[i] {
      if i < |x| {
        assert s[i] == x[i] && (i > 0 ==> s[i - 1] == x[i - 1]);
      } else if i > |x| {
        var j := i - |x| - 1;
        assert s[i] == y[j] && (j > 0 ==> s[i - 1] == y[j - 1]);
      }
    }
  }

  lemma ReplaceCharSplit(x: string, c: char, y: string, from: char, to: char)
    ensures ReplaceChar(x + [c] + y, from, to) == ReplaceChar(x, from, to) + ReplaceChar([c], from, to) + ReplaceChar(y, from, to)
  {
    var s := x + [c] + y;
    var rhs := ReplaceChar(x, from, to) + ReplaceChar([c], from, to) + ReplaceChar(y, from, to);
    forall i | 0 <= i < |s| ensures ReplaceChar(s, from, to)[i] == rhs[i] {
      if i < |x| {
        assert s[i] == x[i];
      } else if i > |x| {
        assert s[i] == y[i - |x| - 1];
      }
    }
  }

  /** A word break (an underscore or a space) splits `toPascalCase` into the
      Pascal-case forms of the two sides. */
  lemma {:induction false} PascalSplitsAtSeparator(a: string, c: char, b: string)
    requires c == '_' || c == ' '
    ensures Of(a + [c] + b).ToPascalCase() == Of(Of(a).ToPascalCase().text + Of(b).ToPascalCase().text)
  {
    var ra, rb := ReplaceChar(a, '_', ' '), ReplaceChar(b, '_', ' ');
    ReplaceCharSplit(a, c, b, '_', ' ');
    assert ReplaceChar([c], '_', ' ') == [' '];
    UcWordsSplit(ra, ' ', rb);
    var ua, ub := UcWords(ra), UcWords(rb);
    assert UpperChar(' ') == ' ';
    RemoveCharAppend(ua + [' '], ub, ' ');
    RemoveCharAppend(ua, [' '], ' ');
    assert RemoveChar([' '], ' ') == [];
    assert RemoveChar(ua, ' ') + [] == RemoveChar(ua, ' ');
  }

  /** A single word, free of separators and other delimiters, has only its first
      letter upper-cased. */
  lemma {:induction false} PascalOfWord(w: string)
    requires '_' !in w && forall i :: 0 <= i < |w| ==> w[i] !in WordDelimiters
    ensures Of(w).ToPascalCase().text == UcFirst(w)
  {
    var u := UcFirst(w);
    assert ReplaceChar(w, '_', ' ') == w by {
      forall i | 0 <= i < |w| ensures ReplaceChar(w, '_', ' ')[i] == w[i] {
        assert w[i] != '_';
      }
    }
    assert UcWords(w) == u by {
      forall i | 0 <= i < |w| ensures UcWords(w)[i] == u[i] {
        if i > 0 {
          assert w[i - 1] !in WordDelimiters;
        }
      }
    }
    assert ' ' !in u by {
      forall i | 0 <= i < |w| ensures u[i] != ' ' {
        assert w[i] != ' ' by {
          assert w[i] !in WordDelimiters;
        }
        CaseFacts(w[i]);
      }
    }
    RemoveCharAbsent(u, ' ');
  }

  // ---- lemmas: trimming ----

  /** `rtrim` of a string with one more character in front. */
  lemma {:induction false} TrimRightCons(c: char, t: string, chars: string)
    ensures TrimRight([c] + t, chars) == if c in chars && TrimRight(t, chars) == [] then [] else [c] + TrimRight(t, chars)
    decreases |t|
  {
    var s := [c] + t;
    if t == [] {
      assert s == [c] && s[..0] == [];
    } else if t[|t| - 1] in chars {
      assert s[..|s| - 1] == [c] + t[..|t| - 1];
      TrimRightCons(c, t[..|t| - 1], chars);
    }
  }

  /** Trimming the left end then the right is trimming the right end then the left. */
  lemma {:induction false} TrimCommutes(s: string, chars: string)
    ensures TrimRight(TrimLeft(s, chars), chars) == TrimLeft(TrimRight(s, chars), chars)
    decreases |s|
  {
    if s != [] {
      assert s == [s[0]] + s[1..];
      TrimRightCons(s[0], s[1..], chars);
      if s[0] in chars {
        TrimCommutes(s[1..], chars);
        if TrimRight(s[1..], chars) == [] {
          assert TrimLeft([], chars) == [];
        }
      }
    }
  }

  /** Trimming twice is trimming once, at either end or both. */
  lemma TrimIdempotent(c: StringChain, chars: string)
    ensures c.TrimLeftChain(chars).TrimLeftChain(chars) == c.TrimLeftChain(chars)
    ensures c.TrimRightChain(chars).TrimRightChain(chars) == c.TrimRightChain(chars)
    ensures c.Trim(chars).Trim(chars) == c.Trim(chars)
  {
    TrimLeftTwice(c.text, chars);
    TrimRightTwice(c.text, chars);
    var once := TrimRight(TrimLeft(c.text, chars), chars);
    TrimLeftTwice(TrimRight(c.text, chars), chars);
    TrimCommutes(c.text, chars);
    assert once == TrimLeft(TrimRight(c.text, chars), chars);
    assert TrimLeft(once, chars) == once;
    TrimRightTwice(TrimLeft(c.text, chars), chars);
    assert TrimRight(once, chars) == once;
  }

  lemma TrimLeftTwice(s: string, chars: string)
    ensures TrimLeft(TrimLeft(s, chars), chars) == TrimLeft(s, chars)
  {
    var l := TrimLeft(s, chars);
    if l != [] {
      assert l[0] !in chars;
    }
  }

  lemma TrimRightTwice(s: string, chars: string)
    ensures TrimRight(TrimRight(s, chars), chars) == TrimRight(s, chars)
  {
    var r := TrimRight(s, chars);
    if r != [] {
      assert r[|r| - 1] !in chars;
    }
  }

  // ---- lemmas: positions ----

  /** A negative start names the same position counted from the end. */
  lemma SubStringNegativeStart(c: StringChain, k: int, length: int)
    requires 0 < k <= |c.text|
    ensures c.SubString(-k, length) == c.SubString(|c.text| - k, length)
  {
  }

  /** With the default length, `subString` from a position inside the string is
      the whole rest of it. */
  lemma SubStringDefaultLength(c: StringChain, start: int)
    requires 0 <= start <= |c.text| <= PhpIntMax
    ensures c.SubString(start, PhpIntMax).text == c.text[start..]
  {
  }

  /** Two consecutive pieces join into the piece of their summed length. */
  lemma SubStringConcat(c: StringChain, start: int, a: int, b: int)
    requires 0 <= start && 0 <= a && 0 <= b && start + a <= |c.text|
    ensures c.SubString(start, a + b).text == c.SubString(start, a).text + c.SubString(start + a, b).text
  {
    var t := c.text;
    if start + a == |t| {
      assert t[start..start + a] + [] == t[start..start + a];
    } else {
      assert t[start..Min(start + a + b, |t|)] == t[start..start + a] + t[start + a..Min(start + a + b, |t|)];
    }
  }

  /** `charAt` is the one-character `subString` at every index from the left end of
      the string onwards; below it `charAt` gives "" while `subString` clamps its
      start to 0. */
  lemma CharAtIsSubString(c: StringChain, index: int)
    ensures -|c.text| <= index ==> c.CharAt(index) == c.SubString(index, 1).text
    ensures index < -|c.text| ==> c.CharAt(index) == [] && c.SubString(index, 1).text == c.text[..Min(1, |c.text|)]
  {
  }

  lemma PositionExamples()
    ensures Of("string  ").SubString(-3, 300).text == "g  "
    ensures Of("string  ").SubString(100, 100).text == ""
    ensures Of("string").IndexOf("t", 0) == Success(1)
    ensures Of("string").IndexOf("b", 0) == Success(-1)
    ensures Of("string").CharAt(-6) == "s" && Of("string").CharAt(-7) == ""
  {
    assert "string"[0..1][0] == 's' && "string"[1..2][0] == 't';
    forall p | 0 <= p <= 6 ensures !OccursAt("string", "b", p) {
      if p < 6 {
        assert "string"[p..p + 1][0] == "string"[p];
      }
    }
  }
}
