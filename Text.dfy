/** String helpers shared by the modules: Python's `sep.join(xs)`, its
    whitespace class and `s.startswith(p)`. Strings are `seq<char>`. */
module Text {

  /** `sep.join(texts)`: the texts in order with `sep` between neighbours. */
  function Join(texts: seq<string>, sep: string): string
    decreases |texts|
  {
    if |texts| == 0 then ""
    else if |texts| == 1 then texts[0]
    else Join(texts[..|texts| - 1], sep) + sep + texts[|texts| - 1]
  }

  /** Total length of the texts. */
  function TotalLength(texts: seq<string>): nat
    decreases |texts|
  {
    if |texts| == 0 then 0 else TotalLength(texts[..|texts| - 1]) + |texts[|texts| - 1]|
  }

  /** The joined string holds every text and one separator per gap. */
  lemma {:induction false} JoinLength(texts: seq<string>, sep: string)
    requires |texts| > 0
    ensures |Join(texts, sep)| == TotalLength(texts) + (|texts| - 1) * |sep|
    decreases |texts|
  {
    var n := |texts|;
    if n > 1 {
      var init := texts[..n - 1];
      JoinLength(init, sep);
      calc {
        |Join(texts, sep)|;
        |Join(init, sep)| + |sep| + |texts[n - 1]|;
        TotalLength(init) + (n - 2) * |sep| + |sep| + |texts[n - 1]|;
        { assert (n - 2) * |sep| + |sep| == (n - 1) * |sep|; }
        TotalLength(texts) + (n - 1) * |sep|;
      }
    }
  }

  /** The joined string ends with the last text: no separator trails it. */
  lemma JoinEndsWithLast(texts: seq<string>, sep: string)
    requires |texts| > 0
    ensures |texts[|texts| - 1]| <= |Join(texts, sep)|
    ensures Join(texts, sep)[|Join(texts, sep)| - |texts[|texts| - 1]|..] == texts[|texts| - 1]
  {
  }

  /** Joining one more text appends the separator and that text. */
  lemma JoinSnoc(texts: seq<string>, t: string, sep: string)
    requires |texts| > 0
    ensures Join(texts + [t], sep) == Join(texts, sep) + sep + t
  {
    assert (texts + [t])[..|texts|] == texts;
  }

  /** `s.startswith(p)`. */
  predicate StartsWith(s: string, p: string)
  {
    |p| <= |s| && s[..|p|] == p
  }

  /** The characters Python's `str.isspace` (and so `str.strip`) treats as
      whitespace. */
  predicate IsSpace(c: char)
  {
    var n := c as int;
    (0x09 <= n <= 0x0D) || (0x1C <= n <= 0x20) || n == 0x85 || n == 0xA0 ||
    n == 0x1680 || (0x2000 <= n <= 0x200A) || n == 0x2028 || n == 0x2029 ||
    n == 0x202F || n == 0x205F || n == 0x3000
  }

  /** `not text.strip()`: the text is empty or all whitespace. */
  predicate IsBlank(text: string)
  {
    forall i :: 0 <= i < |text| ==> IsSpace(text[i])
  }

  predicate IsDigit(c: char)
  {
    '0' <= c <= '9'
  }
}
