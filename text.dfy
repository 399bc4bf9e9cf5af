/**
 * The three Python string operations the command router relies on:
 * `str.lower`, `str.split()` (no separator) and `int(...)` on a string.
 * Whitespace is exactly the set of characters for which Python's
 * `str.isspace` holds; lowering touches only the letters A-Z; `int`
 * accepts an optional sign and ASCII decimal digits with single
 * underscores between digits.
 */
module Text {
  import opened Basics

  /** The characters Python's `str.isspace` (and so `str.split()`) treats as whitespace. */
  predicate IsSpace(c: char) {
    || '\U{9}' <= c <= '\U{D}'
    || '\U{1C}' <= c <= '\U{20}'
    || c == '\U{85}' || c == '\U{A0}' || c == '\U{1680}'
    || '\U{2000}' <= c <= '\U{200A}'
    || c == '\U{2028}' || c == '\U{2029}' || c == '\U{202F}'
    || c == '\U{205F}' || c == '\U{3000}'
  }

  predicate IsDigit(c: char) {
    '0' <= c <= '9'
  }

  function DigitValue(c: char): nat
    requires IsDigit(c)
  {
    c as int - '0' as int
  }

  function LowerChar(c: char): char {
    if 'A' <= c <= 'Z' then (c as int + 32) as char else c
  }

  /** `s.lower()`, restricted to ASCII letters. */
  function Lower(s: string): string {
    if s == [] then [] else [LowerChar(s[0])] + Lower(s[1..])
  }

  lemma {:induction false} LowerAt(s: string)
    ensures |Lower(s)| == |s|
    ensures forall i | 0 <= i < |s| :: Lower(s)[i] == LowerChar(s[i])
  {
    if s != [] {
      LowerAt(s[1..]);
    }
  }

  /** `s.startswith(prefix)`. */
  predicate StartsWith(s: string, prefix: string) {
    prefix == [] || (s != [] && s[0] == prefix[0] && StartsWith(s[1..], prefix[1..]))
  }

  lemma {:induction false} StartsWithIff(s: string, prefix: string)
    ensures StartsWith(s, prefix) <==> prefix <= s
  {
    if prefix != [] && s != [] {
      StartsWithIff(s[1..], prefix[1..]);
      if s[0] == prefix[0] && prefix[1..] <= s[1..] {
        assert prefix == [s[0]] + prefix[1..];
        assert s[..|prefix|] == [s[0]] + s[1..][..|prefix| - 1];
      }
    }
  }

  /** `s.lower().startswith(prefix)`, lowering only as far as the prefix reaches. */
  predicate LowerStartsWith(s: string, prefix: string) {
    prefix == [] || (s != [] && LowerChar(s[0]) == prefix[0] && LowerStartsWith(s[1..], prefix[1..]))
  }

  lemma {:induction false} LowerStartsWithIff(s: string, prefix: string)
    ensures LowerStartsWith(s, prefix) <==> StartsWith(Lower(s), prefix)
  {
    if prefix != [] && s != [] {
      LowerStartsWithIff(s[1..], prefix[1..]);
      assert Lower(s)[0] == LowerChar(s[0]) && Lower(s)[1..] == Lower(s[1..]);
    }
  }

  // ---------------------------------------------------------------------
  // str.split()

  /** A token of `str.split()`: non-empty and free of whitespace. */
  predicate IsWord(w: string) {
    w != [] && forall i | 0 <= i < |w| :: !IsSpace(w[i])
  }

  /**
   * The scan behind `str.split()`: `word` holds the characters of the token
   * read so far; whitespace ends a non-empty token.
   */
  function SplitFrom(s: string, word: string): seq<string> {
    if s == [] then (if word == [] then [] else [word])
    else if IsSpace(s[0]) then (if word == [] then [] else [word]) + SplitFrom(s[1..], [])
    else SplitFrom(s[1..], word + [s[0]])
  }

  /** `s.split()`: the maximal runs of non-whitespace characters, in order. */
  function Split(s: string): seq<string> {
    SplitFrom(s, [])
  }

  /** Every token `split()` yields is non-empty and free of whitespace. */
  lemma {:induction false} SplitFromWords(s: string, word: string)
    requires forall i | 0 <= i < |word| :: !IsSpace(word[i])
    ensures forall k | 0 <= k < |SplitFrom(s, word)| :: IsWord(SplitFrom(s, word)[k])
  {
    if s != [] {
      if IsSpace(s[0]) {
        SplitFromWords(s[1..], []);
      } else {
        SplitFromWords(s[1..], word + [s[0]]);
      }
    }
  }

  lemma SplitWords(s: string)
    ensures forall k | 0 <= k < |Split(s)| :: IsWord(Split(s)[k])
  {
    SplitFromWords(s, []);
  }

  /** Characters that are not whitespace extend the token being read. */
  lemma {:induction false} SplitFromSkip(w: string, s: string, word: string)
    requires forall i | 0 <= i < |w| :: !IsSpace(w[i])
    ensures SplitFrom(w + s, word) == SplitFrom(s, word + w)
  {
    if w == [] {
      assert w + s == s && word + w == word;
    } else {
      assert (w + s)[0] == w[0] && (w + s)[1..] == w[1..] + s;
      SplitFromSkip(w[1..], s, word + [w[0]]);
      assert word + [w[0]] + w[1..] == word + w;
    }
  }

  /** Whitespace between tokens is skipped. */
  lemma {:induction false} SplitFromSpaces(sp: string, s: string)
    requires forall i | 0 <= i < |sp| :: IsSpace(sp[i])
    ensures SplitFrom(sp + s, []) == SplitFrom(s, [])
  {
    if sp == [] {
      assert sp + s == s;
    } else {
      assert (sp + s)[0] == sp[0] && (sp + s)[1..] == sp[1..] + s;
      SplitFromSpaces(sp[1..], s);
    }
  }

  lemma SplitSkipsSpace(sp: string, s: string)
    requires forall i | 0 <= i < |sp| :: IsSpace(sp[i])
    ensures Split(sp + s) == Split(s)
  {
    SplitFromSpaces(sp, s);
  }

  /** Splitting a word followed by whitespace and more text yields that word first. */
  lemma SplitCons(w: string, sp: string, rest: string)
    requires IsWord(w)
    requires sp != [] && forall i | 0 <= i < |sp| :: IsSpace(sp[i])
    ensures Split(w + sp + rest) == [w] + Split(rest)
  {
    assert w + sp + rest == w + (sp + rest);
    SplitFromSkip(w, sp + rest, []);
    assert [] + w == w;
    assert (sp + rest)[0] == sp[0] && (sp + rest)[1..] == sp[1..] + rest;
    SplitFromSpaces(sp[1..], rest);
  }

  lemma SplitWord(w: string)
    requires IsWord(w)
    ensures Split(w) == [w]
  {
    SplitFromSkip(w, [], []);
    assert w + [] == w && [] + w == w;
  }

  /** `' '.join(words)`: the partner of `Split`. */
  function Unsplit(words: seq<string>): string {
    if words == [] then ""
    else if |words| == 1 then words[0]
    else words[0] + " " + Unsplit(words[1..])
  }

  /** Splitting words joined by single spaces gives the words back. */
  lemma {:induction false} SplitUnsplit(words: seq<string>)
    requires forall k | 0 <= k < |words| :: IsWord(words[k])
    ensures Split(Unsplit(words)) == words
  {
    if |words| == 1 {
      SplitWord(words[0]);
    } else if |words| > 1 {
      var rest := Unsplit(words[1..]);
      assert Unsplit(words) == words[0] + " " + rest;
      SplitUnsplit(words[1..]);
      SplitCons(words[0], " ", rest);
      assert [words[0]] + words[1..] == words;
    }
  }

  // ---------------------------------------------------------------------
  // int(token)

  /**
   * The digit strings `int` accepts: starts with a digit, and every
   * underscore sits between two digits.
   */
  predicate IsNumeral(s: string) {
    s != [] && IsDigit(s[0]) && IsNumeralTail(s[1..])
  }

  /** What may follow a digit: digits, each optionally preceded by one underscore. */
  predicate IsNumeralTail(s: string) {
    if s == [] then true
    else if IsDigit(s[0]) then IsNumeralTail(s[1..])
    else s[0] == '_' && IsNumeral(s[1..])
  }

  /** A run of decimal digits is a numeral. */
  lemma {:induction false} DigitsAreNumeral(s: string)
    requires forall i | 0 <= i < |s| :: IsDigit(s[i])
    ensures s != [] ==> IsNumeral(s)
    ensures IsNumeralTail(s)
  {
    if s != [] {
      DigitsAreNumeral(s[1..]);
    }
  }

  /** A numeral holds only digits and underscores, and ends in a digit. */
  lemma {:induction false} NumeralShape(s: string)
    requires IsNumeral(s)
    ensures forall i | 0 <= i < |s| :: IsDigit(s[i]) || s[i] == '_'
    ensures IsDigit(s[|s| - 1])
  {
    NumeralTailShape(s[1..]);
  }

  lemma {:induction false} NumeralTailShape(s: string)
    requires IsNumeralTail(s)
    ensures forall i | 0 <= i < |s| :: IsDigit(s[i]) || s[i] == '_'
    ensures s != [] ==> IsDigit(s[|s| - 1])
  {
    if s != [] {
      if IsDigit(s[0]) {
        NumeralTailShape(s[1..]);
      } else {
        NumeralShape(s[1..]);
      }
    }
  }

  /** The value of the digits of `s`, read left to right, underscores skipped. */
  function NumeralValue(s: string): nat {
    if s == [] then 0
    else
      var last := s[|s| - 1];
      if IsDigit(last) then NumeralValue(s[..|s| - 1]) * 10 + DigitValue(last)
      else NumeralValue(s[..|s| - 1])
  }

  /**
   * The most digits `int` converts from a string: CPython's default
   * `sys.get_int_max_str_digits()` (Python 3.11 and later); a longer
   * numeral raises `ValueError`.
   */
  const MaxStrDigits: nat := 4300

  /** How many decimal digits `s` holds, underscores not counted. */
  function DigitCount(s: string): nat {
    if s == [] then 0
    else (if IsDigit(s[0]) then 1 else 0) + DigitCount(s[1..])
  }

  lemma {:induction false} DigitCountOfDigits(s: string)
    requires forall i | 0 <= i < |s| :: IsDigit(s[i])
    ensures DigitCount(s) == |s|
  {
    if s != [] {
      DigitCountOfDigits(s[1..]);
    }
  }

  /** A numeral `int` reads: well formed and within the digit limit. */
  predicate Readable(digits: string) {
    IsNumeral(digits) && DigitCount(digits) <= MaxStrDigits
  }

  /** `int(token)`, or None where Python raises `ValueError`. */
  function ParseInt(token: string): Option<int> {
    if token != [] && (token[0] == '+' || token[0] == '-') then
      var digits := token[1..];
      if !Readable(digits) then None
      else if token[0] == '-' then Some(0 - NumeralValue(digits))
      else Some(NumeralValue(digits))
    else if Readable(token) then Some(NumeralValue(token))
    else None
  }

  /** A run of more than `MaxStrDigits` digits is refused, however well formed. */
  lemma ParseIntTooManyDigits(token: string)
    requires |token| > MaxStrDigits && forall i | 0 <= i < |token| :: IsDigit(token[i])
    ensures ParseInt(token) == None
  {
    DigitCountOfDigits(token);
  }

  /** Decimal digits of `n`, most significant first. */
  function ShowNat(n: nat): (s: string)
    ensures s != [] && forall i | 0 <= i < |s| :: IsDigit(s[i])
  {
    var d := ['0' + ((n % 10) as char)];
    if n < 10 then d else ShowNat(n / 10) + d
  }

  /** `str(n)` for an integer. */
  function ShowInt(n: int): string {
    if n < 0 then "-" + ShowNat(-n) else ShowNat(n)
  }

  lemma {:induction false} NumeralValueShowNat(n: nat)
    ensures NumeralValue(ShowNat(n)) == n
  {
    var s := ShowNat(n);
    if n >= 10 {
      NumeralValueShowNat(n / 10);
      assert s[..|s| - 1] == ShowNat(n / 10);
    } else {
      assert s[..|s| - 1] == [];
    }
  }

  /** `int(str(n)) == n` whenever `n` has at most `MaxStrDigits` digits. */
  lemma ParseShowInt(n: int)
    requires |ShowNat(if n < 0 then -n else n)| <= MaxStrDigits
    ensures ParseInt(ShowInt(n)) == Some(n)
  {
    var m := if n < 0 then -n else n;
    NumeralValueShowNat(m);
    DigitsAreNumeral(ShowNat(m));
    DigitCountOfDigits(ShowNat(m));
    if n < 0 {
      assert ShowInt(n)[1..] == ShowNat(m);
    }
  }

  /** `str(n)` is a single `split()` token. */
  lemma ShowIntIsWord(n: int)
    ensures IsWord(ShowInt(n))
  {
    var s := ShowInt(n);
    if n < 0 {
      forall i | 0 <= i < |s| ensures !IsSpace(s[i]) {
        if i > 0 { assert s[i] == ShowNat(-n)[i - 1]; }
      }
    }
  }

  /** Whatever `int` accepts is a sign and digits with underscores between them. */
  lemma ParseIntAccepts(token: string)
    requires ParseInt(token).Some?
    ensures token != []
    ensures forall i | 0 <= i < |token| ::
              IsDigit(token[i]) || token[i] == '_' || (i == 0 && (token[i] == '+' || token[i] == '-'))
    ensures IsDigit(token[|token| - 1])
    ensures DigitCount(token) <= MaxStrDigits
  {
    if token[0] == '+' || token[0] == '-' {
      var digits := token[1..];
      NumeralShape(digits);
      assert forall i | 1 <= i < |token| :: token[i] == digits[i - 1];
    } else {
      NumeralShape(token);
    }
  }
}
