/** Numbers and words as text. */
module Texts {

  const HEX_DIGITS := "0123456789abcdef"

  function Digits(n: nat, base: nat): (s: string)
    requires base == 10 || base == 16
    ensures |s| > 0
  {
    if n < base then [HEX_DIGITS[n]]
    else
      assert n / base < n && n % base < base by {
        assert n / 10 < n && n / 16 < n;
      }
      Digits(n / base, base) + [HEX_DIGITS[n % base]]
  }

  function Decimal(n: int): string {
    if n < 0 then "-" + Digits(-n, 10) else Digits(n, 10)
  }

  function Hex(n: nat): string {
    "0x" + Digits(n, 16)
  }

  predicate IsNumeral(s: string) {
    forall i | 0 <= i < |s| :: '0' <= s[i] <= '9'
  }

  /** `int(s)` of a numeral. */
  function ParseDigits(s: string): nat
    requires IsNumeral(s)
  {
    if s == [] then 0
    else ParseDigits(s[..|s| - 1]) * 10 + (s[|s| - 1] - '0') as nat
  }

  lemma {:induction false} DigitsRoundTrip(n: nat)
    ensures IsNumeral(Digits(n, 10)) && ParseDigits(Digits(n, 10)) == n
  {
    DigitIsRead(n % 10);
    if n >= 10 {
      DigitsRoundTrip(n / 10);
      var init, last := Digits(n / 10, 10), HEX_DIGITS[n % 10];
      ReadAppended(init, last);
      assert Digits(n, 10) == init + [last];
    } else {
      ReadAppended("", HEX_DIGITS[n]);
      assert Digits(n, 10) == "" + [HEX_DIGITS[n]];
    }
  }

  lemma DigitIsRead(d: nat)
    requires d < 10
    ensures '0' <= HEX_DIGITS[d] <= '9' && (HEX_DIGITS[d] - '0') as nat == d
  {
  }

  lemma ReadAppended(s: string, c: char)
    requires IsNumeral(s) && '0' <= c <= '9'
    ensures IsNumeral(s + [c]) && ParseDigits(s + [c]) == ParseDigits(s) * 10 + (c - '0') as nat
  {
    assert (s + [c])[..|s|] == s;
  }

  predicate IsSpace(c: char) {
    c in " \t\n\r"
  }

  function Strip(s: string): string {
    if s != "" && IsSpace(s[0]) then Strip(s[1..])
    else if s != "" && IsSpace(s[|s| - 1]) then Strip(s[..|s| - 1])
    else s
  }

  function Join(parts: seq<string>, sep: string): string {
    if parts == [] then ""
    else if |parts| == 1 then parts[0]
    else parts[0] + sep + Join(parts[1..], sep)
  }

  /** The pieces of `s` between occurrences of `sep`, empty ones included, as
      Python's `s.split(sep)`. */
  function Split(s: string, sep: char): (parts: seq<string>)
    ensures |parts| > 0
  {
    if s == [] then [""]
    else if s[0] == sep then [""] + Split(s[1..], sep)
    else
      var rest := Split(s[1..], sep);
      [[s[0]] + rest[0]] + rest[1..]
  }

  lemma {:induction false} SplitHead(word: string, rest: string, sep: char)
    requires sep !in word
    ensures Split(word, sep) == [word]
    ensures Split(word + [sep] + rest, sep) == [word] + Split(rest, sep)
  {
    var s := word + [sep] + rest;
    if word == [] {
      assert s[1..] == rest;
    } else {
      SplitHead(word[1..], rest, sep);
      assert s[1..] == word[1..] + [sep] + rest;
      assert s[0] == word[0];
      assert [word[0]] + word[1..] == word;
    }
  }

  /** Splitting joined words that do not contain the separator gives them back. */
  lemma {:induction false} SplitJoin(parts: seq<string>, sep: char)
    requires |parts| > 0 && forall w | w in parts :: sep !in w
    ensures Split(Join(parts, [sep]), sep) == parts
  {
    if |parts| == 1 {
      SplitHead(parts[0], "", sep);
    } else {
      assert forall w | w in parts[1..] :: w in parts;
      SplitJoin(parts[1..], sep);
      SplitHead(parts[0], Join(parts[1..], [sep]), sep);
      assert Join(parts, [sep]) == parts[0] + [sep] + Join(parts[1..], [sep]);
    }
  }

  /** And joining what was split gives the text back. */
  lemma {:induction false} JoinSplit(s: string, sep: char)
    ensures Join(Split(s, sep), [sep]) == s
  {
    if s != [] {
      JoinSplit(s[1..], sep);
      var rest := Split(s[1..], sep);
      if s[0] == sep {
        assert ([""] + rest)[1..] == rest;
      } else if |rest| > 1 {
        assert Split(s, sep)[1..] == rest[1..];
      }
    }
  }

  /** Stripping takes the blanks off both ends and nothing else. */
  lemma {:induction false} StripMeans(s: string) returns (lo: nat, hi: nat)
    ensures lo <= hi <= |s| && Strip(s) == s[lo..hi]
    ensures forall i | 0 <= i < lo || hi <= i < |s| :: IsSpace(s[i])
    ensures lo < hi ==> !IsSpace(s[lo]) && !IsSpace(s[hi - 1])
    decreases |s|
  {
    hide IsSpace;
    if s != "" && IsSpace(s[0]) {
      lo, hi := StripMeans(s[1..]);
      lo, hi := lo + 1, hi + 1;
    } else if s != "" && IsSpace(s[|s| - 1]) {
      lo, hi := StripMeans(s[..|s| - 1]);
    } else {
      lo, hi := 0, |s|;
    }
  }

  predicate IsHexNumeral(s: string) {
    forall i | 0 <= i < |s| :: '0' <= s[i] <= '9' || 'a' <= s[i] <= 'f'
  }

  /** `int(s, 16)` of a numeral in lower case. */
  function ParseHex(s: string): nat
    requires IsHexNumeral(s)
  {
    if s == [] then 0
    else
      var c := s[|s| - 1];
      ParseHex(s[..|s| - 1]) * 16 + if c <= '9' then (c - '0') as nat else 10 + (c - 'a') as nat
  }

  lemma {:induction false} HexRoundTrip(n: nat)
    ensures Hex(n)[..2] == "0x" && IsHexNumeral(Hex(n)[2..]) && ParseHex(Hex(n)[2..]) == n
  {
    hide ParseHex, IsHexNumeral;
    assert Hex(n)[2..] == Digits(n, 16);
    NoHexDigits();
    HexDigitIsRead(n % 16);
    if n >= 16 {
      HexRoundTrip(n / 16);
      assert Hex(n / 16)[2..] == Digits(n / 16, 16);
      ReadHexAppended(Digits(n / 16, 16), HEX_DIGITS[n % 16]);
    } else {
      ReadHexAppended("", HEX_DIGITS[n]);
      assert Digits(n, 16) == "" + [HEX_DIGITS[n]];
    }
  }

  lemma NoHexDigits()
    ensures IsHexNumeral("") && ParseHex("") == 0
  {
  }

  lemma HexDigitIsRead(d: nat)
    requires d < 16
    ensures IsHexNumeral([HEX_DIGITS[d]]) && ParseHex([HEX_DIGITS[d]]) == d
  {
    assert [HEX_DIGITS[d]][..0] == [];
  }

  lemma ReadHexAppended(s: string, c: char)
    requires IsHexNumeral(s) && IsHexNumeral([c])
    ensures IsHexNumeral(s + [c]) && ParseHex(s + [c]) == ParseHex(s) * 16 + ParseHex([c])
  {
    assert [c][0] == c && [c][..0] == [] && ParseHex([]) == 0;
    assert (s + [c])[..|s|] == s;
  }
}
