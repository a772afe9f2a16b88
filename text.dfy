/**
 * The handful of Python string operations the query translators rely on:
 * `str.strip()`, `str.split(",")`, `sep.join(...)`, `str.lower()`, `in`,
 * `str.startswith`, `str.replace(pat, "")`, and a count of the `%s`
 * placeholders a psycopg2 statement binds.
 */
module Text {
  import opened Wrappers

  // ---------------------------------------------------------------- whitespace

  /** The characters for which Python's `str.isspace()` holds; `str.strip()` removes exactly these. */
  predicate IsSpace(c: char) {
    || ('\t' <= c <= '\r')
    || ('\U{1C}' <= c <= ' ')
    || c == '\U{85}' || c == '\U{A0}' || c == '\U{1680}'
    || ('\U{2000}' <= c <= '\U{200A}')
    || c == '\U{2028}' || c == '\U{2029}' || c == '\U{202F}' || c == '\U{205F}' || c == '\U{3000}'
  }

  predicate AllSpace(s: string) {
    forall k | 0 <= k < |s| :: IsSpace(s[k])
  }

  /** A string with no whitespace at either end: what `strip()` returns. */
  predicate Stripped(s: string) {
    s == "" || (!IsSpace(s[0]) && !IsSpace(s[|s| - 1]))
  }

  /** Number of whitespace characters at the start of `s`. */
  function LeadingSpace(s: string): (n: nat)
    ensures n <= |s|
    ensures forall k | 0 <= k < n :: IsSpace(s[k])
    ensures n < |s| ==> !IsSpace(s[n])
  {
    if |s| > 0 && IsSpace(s[0]) then 1 + LeadingSpace(s[1..]) else 0
  }

  /** Number of whitespace characters at the end of `s`. */
  function TrailingSpace(s: string): (n: nat)
    ensures n <= |s|
    ensures forall k | |s| - n <= k < |s| :: IsSpace(s[k])
    ensures n < |s| ==> !IsSpace(s[|s| - 1 - n])
  {
    if |s| > 0 && IsSpace(s[|s| - 1]) then 1 + TrailingSpace(s[..|s| - 1]) else 0
  }

  /** Python's `s.strip()`: `s` without its leading and trailing whitespace. */
  function Strip(s: string): (r: string)
    ensures Stripped(r)
    ensures r == "" <==> AllSpace(s)
    ensures forall c | c in r :: c in s
  {
    var a := LeadingSpace(s);
    var t := s[a..];
    var r := t[..|t| - TrailingSpace(t)];
    assert a < |s| ==> !IsSpace(t[0]);
    assert forall c | c in r :: c in s by {
      forall c | c in r ensures c in s {
        var k :| 0 <= k < |r| && r[k] == c;
        assert s[a + k] == c;
      }
    }
    r
  }

  /** A text is the whitespace before its stripped core, the core, and the whitespace after it. */
  lemma StripSplitsText(s: string)
    ensures var a := LeadingSpace(s);
      && a + |Strip(s)| <= |s|
      && s == s[..a] + Strip(s) + s[a + |Strip(s)|..]
      && AllSpace(s[..a]) && AllSpace(s[a + |Strip(s)|..])
  {
    var a := LeadingSpace(s);
    var n := StripCore(s);
    Thirds(s, a, a + n);
    LeadingSpaceAll(s);
  }

  /** Strip(s) is the slice of `s` after its leading whitespace, followed only by whitespace. */
  lemma StripCore(s: string) returns (n: nat)
    ensures LeadingSpace(s) + n <= |s| && n == |Strip(s)|
    ensures Strip(s) == s[LeadingSpace(s)..LeadingSpace(s) + n]
    ensures AllSpace(s[LeadingSpace(s) + n..])
  {
    var a := LeadingSpace(s);
    var t := s[a..];
    n := |t| - TrailingSpace(t);
    assert Strip(s) == t[..n];
    var tail := s[a + n..];
    assert tail == t[n..];
  }

  lemma LeadingSpaceAll(s: string)
    ensures AllSpace(s[..LeadingSpace(s)])
  {
    var pre := s[..LeadingSpace(s)];
    assert forall k | 0 <= k < |pre| :: pre[k] == s[k];
  }

  lemma Thirds(s: string, i: nat, j: nat)
    requires i <= j <= |s|
    ensures s == s[..i] + s[i..j] + s[j..]
  {
  }

  /** Stripping a string that has no whitespace at its ends changes nothing. */
  lemma StripStripped(s: string)
    requires Stripped(s)
    ensures Strip(s) == s
  {
    if s != "" {
      assert LeadingSpace(s) == 0;
      assert TrailingSpace(s) == 0;
    }
  }

  /** Leading whitespace before a text that starts with something else is counted exactly. */
  lemma {:induction false} LeadingSpaceBefore(pre: string, x: string)
    requires AllSpace(pre) && x != "" && !IsSpace(x[0])
    ensures LeadingSpace(pre + x) == |pre|
    decreases |pre|
  {
    if pre != "" {
      assert (pre + x)[1..] == pre[1..] + x;
      assert IsSpace(pre[0]);
      LeadingSpaceBefore(pre[1..], x);
    } else {
      assert pre + x == x;
    }
  }

  /** Trailing whitespace after a text that ends with something else is counted exactly. */
  lemma {:induction false} TrailingSpaceAfter(x: string, post: string)
    requires AllSpace(post) && x != "" && !IsSpace(x[|x| - 1])
    ensures TrailingSpace(x + post) == |post|
    decreases |post|
  {
    if post != "" {
      var s := x + post;
      assert s[..|s| - 1] == x + post[..|post| - 1];
      assert IsSpace(post[|post| - 1]);
      TrailingSpaceAfter(x, post[..|post| - 1]);
    } else {
      assert x + post == x;
    }
  }

  /** Whitespace around a text without whitespace at its ends is exactly what `strip()` removes. */
  lemma StripPadded(pre: string, x: string, post: string)
    requires AllSpace(pre) && AllSpace(post) && x != "" && Stripped(x)
    ensures LeadingSpace(pre + x + post) == |pre|
    ensures TrailingSpace(pre + x + post) == |post|
    ensures Strip(pre + x + post) == x
  {
    var text := pre + x + post;
    assert text == pre + (x + post);
    LeadingSpaceBefore(pre, x + post);
    TrailingSpaceAfter(pre + x, post);
    TrailingSpaceAfter(x, post);
    assert text[|pre|..] == x + post;
    assert (x + post)[..|x|] == x;
  }

  // ------------------------------------------------------------ split and join

  /** Python's `sep.join(parts)`. */
  function JoinWith(parts: seq<string>, sep: string): string {
    if |parts| == 0 then ""
    else if |parts| == 1 then parts[0]
    else parts[0] + sep + JoinWith(parts[1..], sep)
  }

  /** Python's `s.split(sep)` for a one-character separator: every segment, empty ones included. */
  function Split(s: string, sep: char): (parts: seq<string>)
    ensures |parts| >= 1
    ensures forall p | p in parts :: sep !in p
    decreases |s|
  {
    if |s| == 0 then [""]
    else
      var rest := Split(s[1..], sep);
      if s[0] == sep then [""] + rest else [[s[0]] + rest[0]] + rest[1..]
  }

  /** Joining the segments with the separator gives the original string back. */
  lemma {:induction false} JoinSplit(s: string, sep: char)
    ensures JoinWith(Split(s, sep), [sep]) == s
    decreases |s|
  {
    if |s| > 0 {
      var rest := Split(s[1..], sep);
      JoinSplit(s[1..], sep);
      if s[0] == sep {
        assert Split(s, sep) == [""] + rest;
        assert ([""] + rest)[1..] == rest;
      } else {
        var parts := [[s[0]] + rest[0]] + rest[1..];
        assert Split(s, sep) == parts;
        if |rest| == 1 {
          assert s == [s[0]] + s[1..];
        } else {
          assert parts[1..] == rest[1..];
          assert JoinWith(rest, [sep]) == rest[0] + [sep] + JoinWith(rest[1..], [sep]);
          assert s == [s[0]] + s[1..];
        }
      }
    }
  }

  /** A string without the separator is a single segment. */
  lemma {:induction false} SplitNoSeparator(x: string, sep: char)
    requires sep !in x
    ensures Split(x, sep) == [x]
    decreases |x|
  {
    if |x| > 0 {
      assert sep !in x[1..] by {
        forall c | c in x[1..] ensures c in x { }
      }
      SplitNoSeparator(x[1..], sep);
      assert x == [x[0]] + x[1..];
    }
  }

  /** A separator-free prefix followed by the separator is split off as the first segment. */
  lemma {:induction false} SplitAfterPrefix(x: string, sep: char, y: string)
    requires sep !in x
    ensures Split(x + [sep] + y, sep) == [x] + Split(y, sep)
    decreases |x|
  {
    var s := x + [sep] + y;
    if |x| == 0 {
      assert s == [sep] + y;
      assert s[1..] == y;
    } else {
      assert s[1..] == x[1..] + [sep] + y;
      assert sep !in x[1..] by {
        forall c | c in x[1..] ensures c in x { }
      }
      SplitAfterPrefix(x[1..], sep, y);
      assert x == [x[0]] + x[1..];
    }
  }

  /** Splitting undoes joining: the two are inverse on separator-free segments. */
  lemma {:induction false} SplitJoin(parts: seq<string>, sep: char)
    requires |parts| >= 1
    requires forall p | p in parts :: sep !in p
    ensures Split(JoinWith(parts, [sep]), sep) == parts
    decreases |parts|
  {
    if |parts| == 1 {
      SplitNoSeparator(parts[0], sep);
    } else {
      SplitJoin(parts[1..], sep);
      SplitAfterPrefix(parts[0], sep, JoinWith(parts[1..], [sep]));
      assert parts == [parts[0]] + parts[1..];
    }
  }

  /** `[x.strip() for x in parts if x.strip()]`. */
  function StripNonBlank(parts: seq<string>): (items: seq<string>)
    ensures |items| <= |parts|
    ensures forall x | x in items :: x != "" && Stripped(x)
  {
    if |parts| == 0 then []
    else ItemOf(parts[0]) + StripNonBlank(parts[1..])
  }

  /** What one segment contributes: its stripped text, or nothing when that is blank. */
  function ItemOf(part: string): (items: seq<string>)
    ensures |items| <= 1
    ensures forall x | x in items :: x != "" && Stripped(x)
  {
    if Strip(part) == "" then [] else [Strip(part)]
  }

  /** A segment that strips to nothing is dropped, so fewer items than segments remain. */
  lemma {:induction false} StripNonBlankDropsBlank(parts: seq<string>, i: nat)
    requires i < |parts| && Strip(parts[i]) == ""
    ensures |StripNonBlank(parts)| < |parts|
  {
    if i > 0 {
      StripNonBlankDropsBlank(parts[1..], i - 1);
    }
  }

  /** A character absent from every segment is absent from every stripped item. */
  lemma {:induction false} StripNonBlankAvoids(parts: seq<string>, c: char)
    requires forall p | p in parts :: c !in p
    ensures forall x | x in StripNonBlank(parts) :: c !in x
  {
    if |parts| > 0 {
      assert parts[0] in parts;
      StripNonBlankAvoids(parts[1..], c);
    }
  }

  /**
   * The comma-separated list convention shared by `select` and the `in`
   * operator: `[x.strip() for x in s.split(",") if x.strip()]`.
   */
  function CommaItems(s: string): (items: seq<string>)
    ensures forall x | x in items :: x != "" && Stripped(x) && ',' !in x
    ensures |items| <= |Split(s, ',')|
  {
    StripNonBlankAvoids(Split(s, ','), ',');
    StripNonBlank(Split(s, ','))
  }

  /** A comma-free first segment gives its item, then the rest of the list gives its items. */
  lemma CommaItemsCons(p: string, t: string)
    requires ',' !in p
    ensures CommaItems(p + "," + t) == (if Strip(p) == "" then [] else [Strip(p)]) + CommaItems(t)
  {
    SplitAfterPrefix(p, ',', t);
    var parts := [p] + Split(t, ',');
    assert parts[0] == p && parts[1..] == Split(t, ',');
    assert StripNonBlank(parts) == ItemOf(p) + StripNonBlank(Split(t, ','));
  }

  /** A segment with no comma is one item, stripped, or none when it is blank. */
  lemma CommaItemsSegment(p: string)
    requires ',' !in p
    ensures CommaItems(p) == (if Strip(p) == "" then [] else [Strip(p)])
  {
    SplitNoSeparator(p, ',');
    assert [p][1..] == [];
  }

  lemma {:induction false} StripNonBlankIdentity(items: seq<string>)
    requires forall x | x in items :: x != "" && Stripped(x)
    ensures StripNonBlank(items) == items
  {
    if |items| > 0 {
      assert items[0] in items;
      assert forall x | x in items[1..] :: x in items;
      StripStripped(items[0]);
      StripNonBlankIdentity(items[1..]);
      assert items == [items[0]] + items[1..];
    }
  }

  /** A list written the natural way, `a,b,c`, is read back item for item. */
  lemma CommaItemsRoundTrip(items: seq<string>)
    requires forall x | x in items :: x != "" && Stripped(x) && ',' !in x
    ensures CommaItems(JoinWith(items, ",")) == items
  {
    if |items| == 0 {
      assert Split("", ',') == [""];
      assert Strip("") == "";
    } else {
      SplitJoin(items, ',');
      StripNonBlankIdentity(items);
    }
  }

  // ------------------------------------------------------------------ lowering

  function LowerChar(c: char): char {
    if 'A' <= c <= 'Z' then (c as int + 32) as char else c
  }

  /**
   * Python's `s.lower()`, on ASCII letters. It is only ever compared with
   * lower-case ASCII words here ("null", "true", "false").
   */
  function Lower(s: string): (r: string)
    ensures |r| == |s|
    ensures forall i | 0 <= i < |s| :: r[i] == LowerChar(s[i])
  {
    if |s| == 0 then "" else [LowerChar(s[0])] + Lower(s[1..])
  }

  // -------------------------------------------------------------- occurrences

  predicate OccursAt(s: string, pat: string, i: int) {
    0 <= i && i + |pat| <= |s| && s[i..i + |pat|] == pat
  }

  /** First position at or after `from` where `pat` occurs in `s`. */
  function IndexOfFrom(s: string, pat: string, from: nat): (r: Option<nat>)
    ensures r.Some? ==> from <= r.value && OccursAt(s, pat, r.value)
    ensures r.Some? ==> forall j | from <= j < r.value :: !OccursAt(s, pat, j)
    ensures r.None? ==> forall j | from <= j :: !OccursAt(s, pat, j)
    decreases |s| - from
  {
    if from + |pat| > |s| then None
    else if OccursAt(s, pat, from) then Some(from)
    else IndexOfFrom(s, pat, from + 1)
  }

  /** Python's `s.find(pat)`, as an option. */
  function IndexOf(s: string, pat: string): (r: Option<nat>)
    ensures r.Some? ==> OccursAt(s, pat, r.value) && forall j | 0 <= j < r.value :: !OccursAt(s, pat, j)
    ensures r.None? ==> forall j :: !OccursAt(s, pat, j)
  {
    IndexOfFrom(s, pat, 0)
  }

  /** Python's `pat in s`. */
  predicate Contains(s: string, pat: string) {
    exists j | 0 <= j <= |s| :: OccursAt(s, pat, j)
  }

  /** Python's `s.startswith(prefix)`. */
  predicate StartsWith(s: string, prefix: string) {
    |prefix| <= |s| && s[..|prefix|] == prefix
  }

  /** Python's `s.replace(pat, "")`: every non-overlapping occurrence, scanned left to right, removed. */
  function RemoveAll(s: string, pat: string): string
    requires |pat| > 0
    decreases |s|
  {
    if |s| < |pat| then s
    else if s[..|pat|] == pat then RemoveAll(s[|pat|..], pat)
    else [s[0]] + RemoveAll(s[1..], pat)
  }

  /** Text without the pattern's first character passes through the removal unchanged. */
  lemma {:induction false} RemoveAllSkips(t: string, rest: string, pat: string)
    requires |pat| > 0 && pat[0] !in t
    ensures RemoveAll(t + rest, pat) == t + RemoveAll(rest, pat)
    decreases |t|
  {
    if t == [] {
      assert t + rest == rest;
    } else {
      var s := t + rest;
      assert s[0] == t[0] && t[0] in t;
      assert s[1..] == t[1..] + rest;
      assert forall c | c in t[1..] :: c in t;
      RemoveAllSkips(t[1..], rest, pat);
      if |s| >= |pat| {
        assert s[..|pat|][0] == t[0];
        assert RemoveAll(s, pat) == [t[0]] + RemoveAll(t[1..] + rest, pat);
        assert t == [t[0]] + t[1..];
      } else {
        assert RemoveAll(rest, pat) == rest;
      }
    }
  }

  /** With no occurrence left, removing occurrences changes nothing. */
  lemma {:induction false} RemoveAllAbsent(s: string, pat: string)
    requires |pat| > 0
    requires !Contains(s, pat)
    ensures RemoveAll(s, pat) == s
    decreases |s|
  {
    if |s| >= |pat| {
      assert !OccursAt(s, pat, 0);
      assert !Contains(s[1..], pat) by {
        forall j | OccursAt(s[1..], pat, j) ensures false {
          assert s[1..][j..j + |pat|] == s[j + 1..j + 1 + |pat|];
          assert OccursAt(s, pat, j + 1);
        }
      }
      RemoveAllAbsent(s[1..], pat);
      assert s == [s[0]] + s[1..];
    }
  }

  /** A string containing none of the pattern's characters has no occurrence of it. */
  lemma NotContainsByChar(s: string, pat: string, c: char)
    requires c in pat && c !in s
    ensures !Contains(s, pat)
  {
    var k :| 0 <= k < |pat| && pat[k] == c;
    forall j | 0 <= j <= |s| ensures !OccursAt(s, pat, j) {
      if j + |pat| <= |s| {
        assert s[j..j + |pat|][k] == s[j + k];
        assert s[j + k] in s;
      }
    }
  }

  // ------------------------------------------------------------- placeholders

  /** Number of `%s` placeholders in a statement text: the values psycopg2 will bind into it. */
  function Placeholders(s: string): nat {
    if |s| < 2 then 0
    else Placeholders(s[..|s| - 1]) + (if s[|s| - 2] == '%' && s[|s| - 1] == 's' then 1 else 0)
  }

  /** Two texts whose junction cannot form `%s` count their placeholders separately. */
  lemma {:induction false} PlaceholdersConcat(a: string, b: string)
    requires a == "" || b == "" || a[|a| - 1] != '%' || b[0] != 's'
    ensures Placeholders(a + b) == Placeholders(a) + Placeholders(b)
    decreases |b|
  {
    if |b| == 0 {
      assert a + b == a;
    } else if |a| == 0 {
      assert a + b == b;
    } else if |b| == 1 {
      assert (a + b)[..|a + b| - 1] == a;
    } else {
      var init := b[..|b| - 1];
      assert (a + b)[..|a + b| - 1] == a + init;
      PlaceholdersConcat(a, init);
    }
  }

  /** A text without `%` binds nothing. */
  lemma {:induction false} NoPercentNoPlaceholders(s: string)
    requires '%' !in s
    ensures Placeholders(s) == 0
    decreases |s|
  {
    if |s| >= 2 {
      assert s[|s| - 2] in s;
      assert forall c | c in s[..|s| - 1] :: c in s;
      NoPercentNoPlaceholders(s[..|s| - 1]);
    }
  }

  /** Total number of placeholders in a list of texts. */
  function SumPlaceholders(parts: seq<string>): nat {
    if parts == [] then 0 else Placeholders(parts[0]) + SumPlaceholders(parts[1..])
  }

  /** A separator that neither binds nor completes a `%s` adds no placeholder to a join. */
  lemma {:induction false} JoinPlaceholders(parts: seq<string>, sep: string)
    requires |sep| > 0 && sep[0] != 's' && sep[|sep| - 1] != '%'
    requires Placeholders(sep) == 0
    ensures Placeholders(JoinWith(parts, sep)) == SumPlaceholders(parts)
    decreases |parts|
  {
    if |parts| == 1 {
      assert parts[1..] == [];
    } else if |parts| > 1 {
      var rest := JoinWith(parts[1..], sep);
      JoinPlaceholders(parts[1..], sep);
      PlaceholdersConcat(parts[0], sep);
      PlaceholdersConcat(parts[0] + sep, rest);
      assert JoinWith(parts, sep) == (parts[0] + sep) + rest;
    }
  }

  /** A character found in neither the parts nor the separator is not in their join. */
  lemma {:induction false} JoinWithAvoids(parts: seq<string>, sep: string, c: char)
    requires c !in sep
    requires forall p | p in parts :: c !in p
    ensures c !in JoinWith(parts, sep)
    decreases |parts|
  {
    if |parts| > 1 {
      assert parts[0] in parts;
      assert forall p | p in parts[1..] :: p in parts;
      JoinWithAvoids(parts[1..], sep, c);
    } else if |parts| == 1 {
      assert parts[0] in parts;
    }
  }
}
