/**
 * Python's `int(text)` on the query-string values `limit` and `offset`:
 * surrounding whitespace, an optional sign, then decimal digits that may
 * be grouped by single underscores. Anything else raises `ValueError`,
 * modelled as `None`.
 */
module Numbers {
  import opened Wrappers
  import opened Text

  predicate IsDigit(c: char) {
    '0' <= c <= '9'
  }

  /** Decimal digits, single underscores allowed only between two digits. */
  predicate DigitGroups(d: string) {
    && d != []
    && IsDigit(d[0])
    && IsDigit(d[|d| - 1])
    && (forall i | 0 <= i < |d| :: IsDigit(d[i]) || d[i] == '_')
    && (forall i | 0 <= i < |d| - 1 :: d[i] == '_' ==> IsDigit(d[i + 1]))
  }

  /** The number the digits spell, underscores ignored. */
  function DigitsValue(d: string): nat
    requires forall i | 0 <= i < |d| :: IsDigit(d[i]) || d[i] == '_'
  {
    if d == [] then 0
    else
      var init := d[..|d| - 1];
      var last := d[|d| - 1];
      assert IsDigit(last) || last == '_';
      if last == '_' then DigitsValue(init)
      else DigitsValue(init) * 10 + (last as int - '0' as int)
  }

  /**
   * The whitespace `int()` skips around the number: ASCII tab through
   * carriage return and space, and the non-ASCII characters for which
   * `str.isspace()` holds (CPython maps those to a space first). The
   * information separators U+001C to U+001F are `str.isspace()`
   * characters that `int()` does not skip.
   */
  predicate IsIntSpace(c: char) {
    IsSpace(c) && !('\U{1C}' <= c <= '\U{1F}')
  }

  predicate AllIntSpace(s: string) {
    forall k | 0 <= k < |s| :: IsIntSpace(s[k])
  }

  /** The whitespace `strip()` removes from either end of `text` is whitespace `int()` skips. */
  predicate IntPadding(text: string) {
    && AllIntSpace(text[..LeadingSpace(text)])
    && AllIntSpace(text[|text| - TrailingSpace(text)..])
  }

  /** `int(text)`: `None` where Python raises `ValueError`. */
  function ParseInt(text: string): (r: Option<int>)
    ensures AllSpace(text) ==> r == None
    ensures r.Some? <==>
      && Strip(text) != ""
      && IntPadding(text)
      && DigitGroups(if Strip(text)[0] in "+-" then Strip(text)[1..] else Strip(text))
    ensures r.Some? && Strip(text)[0] == '-' ==> r.value <= 0
    ensures r.Some? && Strip(text)[0] != '-' ==> r.value >= 0
  {
    if !IntPadding(text) then None else ParseSigned(Strip(text))
  }

  /** An optional sign followed by grouped digits, with nothing around them. */
  function ParseSigned(t: string): (r: Option<int>)
    ensures r.Some? <==> t != "" && DigitGroups(if t[0] in "+-" then t[1..] else t)
    ensures r.Some? && t[0] == '-' ==> r.value <= 0
    ensures r.Some? && t[0] != '-' ==> r.value >= 0
  {
    if t == "" then None
    else
      var digits := if t[0] == '-' || t[0] == '+' then t[1..] else t;
      if !DigitGroups(digits) then None
      else
        var value: int := DigitsValue(digits);
        Some(if t[0] == '-' then -value else value)
  }

  function DigitChar(n: nat): char
    requires n < 10
  {
    ('0' as int + n) as char
  }

  /** `str(n)` for a non-negative number. */
  function NatText(n: nat): (r: string)
    ensures DigitGroups(r)
    ensures forall i | 0 <= i < |r| :: IsDigit(r[i])
    ensures DigitsValue(r) == n
  {
    if n < 10 then [DigitChar(n)]
    else
      var init := NatText(n / 10);
      var r := init + [DigitChar(n % 10)];
      assert r[..|r| - 1] == init;
      r
  }

  /** `str(n)`. */
  function IntText(n: int): string {
    if n < 0 then "-" + NatText(-n) else NatText(n)
  }

  /** `str(n)` starts with a sign or a digit and ends with a digit: nothing to strip. */
  lemma IntTextStripped(n: int)
    ensures Stripped(IntText(n))
  {
    var text := IntText(n);
    var digits := NatText(if n < 0 then -n else n);
    assert text[|text| - 1] == digits[|digits| - 1];
    assert IsDigit(text[|text| - 1]) && (IsDigit(text[0]) || text[0] == '-');
  }

  /** `int(str(n)) == n`. */
  lemma ParseIntText(n: int)
    ensures ParseInt(IntText(n)) == Some(n)
  {
    var text := IntText(n);
    IntTextStripped(n);
    StripStripped(text);
    assert LeadingSpace(text) == 0 && TrailingSpace(text) == 0;
    assert text[..0] == [] && text[|text|..] == [];
    if n < 0 {
      assert text[1..] == NatText(-n);
    }
  }

  /** `int()` reads a number surrounded by whitespace it skips, such as spaces and line breaks. */
  lemma PaddedIntText(n: int, pre: string, post: string)
    requires AllIntSpace(pre) && AllIntSpace(post)
    ensures ParseInt(pre + IntText(n) + post) == Some(n)
  {
    var x := IntText(n);
    IntTextStripped(n);
    SkippablePadding(pre, x, post);
    ParseIntText(n);
    StripStripped(x);
  }

  /** Padding of whitespace `int()` skips is removed by `strip()` and passes the padding check. */
  lemma SkippablePadding(pre: string, x: string, post: string)
    requires AllIntSpace(pre) && AllIntSpace(post) && x != "" && Stripped(x)
    ensures Strip(pre + x + post) == x && IntPadding(pre + x + post)
  {
    assert AllSpace(pre) && AllSpace(post);
    StripPadded(pre, x, post);
    var text := pre + x + post;
    assert text[..|pre|] == pre && text[|text| - |post|..] == post;
  }

  /** `int()` refuses text that starts with an information separator, as in `int("\x1c5")`. */
  lemma SeparatorRefused(c: char, s: string)
    requires '\U{1C}' <= c <= '\U{1F}'
    ensures ParseInt([c] + s) == None
  {
    var text := [c] + s;
    assert IsSpace(text[0]) && !IsIntSpace(text[0]);
    assert LeadingSpace(text) >= 1;
    assert text[..LeadingSpace(text)][0] == c;
  }
}
