/** The Python string operations the pipeline relies on, over `seq<char>`:
    `str.find`, `str.split(sep)`, `str.split(sep, 1)`, `str.strip()`,
    `str.replace(c, "")`, `str(n)` for a natural number and `s * n`.
    Separators are single characters, as everywhere in the pipeline. */
module Text {
  import opened Wrappers

  /** Index of the first occurrence of `c` in `s` (Python `s.find(c)`, with `None` for -1). */
  function IndexOf(s: string, c: char): (r: Option<nat>)
    ensures r.None? <==> c !in s
    ensures r.Some? ==> r.value < |s| && s[r.value] == c
    ensures r.Some? ==> forall j :: 0 <= j < r.value ==> s[j] != c
  {
    if |s| == 0 then None
    else if s[0] == c then Some(0)
    else match IndexOf(s[1..], c)
      case None => None
      case Some(i) => Some(i + 1)
  }

  /** The first occurrence of `c` in `a + [c] + b` is right after `a` when `a` has none. */
  lemma IndexOfJoined(a: string, c: char, b: string)
    requires c !in a
    ensures IndexOf(a + [c] + b, c) == Some(|a|)
  {
    var s := a + [c] + b;
    assert s[|a|] == c;
    assert forall j :: 0 <= j < |a| ==> s[j] == a[j];
  }

  /** Python `s.split(sep, 1)`: one part when `sep` does not occur, otherwise the
      text before the first `sep` and everything after it. */
  function SplitOnce(s: string, sep: char): (parts: seq<string>)
    ensures sep !in s ==> parts == [s]
    ensures sep in s ==> |parts| == 2 && sep !in parts[0] && parts[0] + [sep] + parts[1] == s
  {
    match IndexOf(s, sep)
    case None => [s]
    case Some(i) =>
      assert s == s[..i] + [sep] + s[i + 1..];
      [s[..i], s[i + 1..]]
  }

  /** Python `s.split(sep)` for a one-character separator. */
  function Split(s: string, sep: char): (fields: seq<string>)
    ensures |fields| >= 1
    ensures sep !in s ==> fields == [s]
    ensures sep in s ==> |fields| >= 2
    ensures forall k :: 0 <= k < |fields| ==> sep !in fields[k]
    decreases |s|
  {
    match IndexOf(s, sep)
    case None => [s]
    case Some(i) => [s[..i]] + Split(s[i + 1..], sep)
  }

  /** Python `sep.join(fields)`: the inverse of `Split`. */
  function Join(fields: seq<string>, sep: char): string
  {
    if |fields| == 0 then ""
    else if |fields| == 1 then fields[0]
    else fields[0] + [sep] + Join(fields[1..], sep)
  }

  /** Splitting at a separator that follows a separator-free prefix yields that prefix first. */
  lemma SplitJoined(a: string, sep: char, b: string)
    requires sep !in a
    ensures Split(a + [sep] + b, sep) == [a] + Split(b, sep)
  {
    var s := a + [sep] + b;
    IndexOfJoined(a, sep, b);
    assert s[..|a|] == a;
    assert s[|a| + 1..] == b;
  }

  /** Joining the fields of a split gives back the original string. */
  lemma {:induction false} JoinSplit(s: string, sep: char)
    ensures Join(Split(s, sep), sep) == s
    decreases |s|
  {
    match IndexOf(s, sep)
    case None =>
    case Some(i) =>
      var rest := s[i + 1..];
      JoinSplit(rest, sep);
      assert s == s[..i] + [sep] + rest;
      assert Split(s, sep)[1..] == Split(rest, sep);
  }

  /** Splitting the join of separator-free fields gives back the fields. */
  lemma {:induction false} SplitJoin(fields: seq<string>, sep: char)
    requires |fields| >= 1
    requires forall k :: 0 <= k < |fields| ==> sep !in fields[k]
    ensures Split(Join(fields, sep), sep) == fields
  {
    if |fields| == 1 {
    } else {
      SplitJoin(fields[1..], sep);
      SplitJoined(fields[0], sep, Join(fields[1..], sep));
      assert fields == [fields[0]] + fields[1..];
    }
  }

  /** Python's whitespace characters (`str.isspace`), the set `str.strip()` removes. */
  predicate IsSpace(ch: char)
  {
    ch == ' ' || '\t' <= ch <= '\r' || '\U{1C}' <= ch <= '\U{1F}' ||
    ch == '\U{85}' || ch == '\U{A0}' || ch == '\U{1680}' ||
    '\U{2000}' <= ch <= '\U{200A}' || ch == '\U{2028}' || ch == '\U{2029}' ||
    ch == '\U{202F}' || ch == '\U{205F}' || ch == '\U{3000}'
  }

  /** No whitespace at either end. */
  predicate Trimmed(s: string)
  {
    s == [] || (!IsSpace(s[0]) && !IsSpace(s[|s| - 1]))
  }

  /** Python `s.lstrip()`: drops the longest all-whitespace prefix. */
  function LStrip(s: string): (r: string)
    ensures |r| <= |s| && r == s[|s| - |r|..]
    ensures forall k :: 0 <= k < |s| - |r| ==> IsSpace(s[k])
    ensures r != [] ==> !IsSpace(r[0])
  {
    if |s| > 0 && IsSpace(s[0]) then LStrip(s[1..]) else s
  }

  /** Python `s.rstrip()`: drops the longest all-whitespace suffix. */
  function RStrip(s: string): (r: string)
    ensures |r| <= |s| && r == s[..|r|]
    ensures forall k :: |r| <= k < |s| ==> IsSpace(s[k])
    ensures r != [] ==> !IsSpace(r[|r| - 1])
  {
    if |s| > 0 && IsSpace(s[|s| - 1]) then RStrip(s[..|s| - 1]) else s
  }

  /** Python `s.strip()`. */
  function Strip(s: string): (r: string)
    ensures Trimmed(r)
  {
    RStrip(LStrip(s))
  }

  /** Stripping whitespace padding around a trimmed text gives back that text. */
  lemma {:induction false} StripPadded(pre: string, u: string, post: string)
    requires forall k :: 0 <= k < |pre| ==> IsSpace(pre[k])
    requires forall k :: 0 <= k < |post| ==> IsSpace(post[k])
    requires Trimmed(u)
    ensures Strip(pre + u + post) == u
  {
    assert pre + u + post == pre + (u + post);
    LStripPadded(pre, u + post);
    StripTrailing(u, post);
  }

  lemma StripTrailing(u: string, post: string)
    requires forall k :: 0 <= k < |post| ==> IsSpace(post[k])
    requires Trimmed(u)
    ensures RStrip(LStrip(u + post)) == u
  {
    if u == [] {
      assert u + post == post;
      LStripAllSpace(post);
    } else {
      assert (u + post)[0] == u[0];
      RStripPadded(u, post);
    }
  }

  lemma {:induction false} LStripPadded(pre: string, v: string)
    requires forall k :: 0 <= k < |pre| ==> IsSpace(pre[k])
    ensures LStrip(pre + v) == LStrip(v)
    decreases |pre|
  {
    if pre != [] {
      var s := pre + v;
      assert s[0] == pre[0] && IsSpace(pre[0]);
      assert s[1..] == pre[1..] + v;
      LStripPadded(pre[1..], v);
    } else {
      assert pre + v == v;
    }
  }

  lemma {:induction false} LStripAllSpace(s: string)
    requires forall k :: 0 <= k < |s| ==> IsSpace(s[k])
    ensures LStrip(s) == []
    decreases |s|
  {
    if s != [] {
      LStripAllSpace(s[1..]);
    }
  }

  lemma {:induction false} RStripPadded(u: string, post: string)
    requires forall k :: 0 <= k < |post| ==> IsSpace(post[k])
    requires u == [] || !IsSpace(u[|u| - 1])
    ensures RStrip(u + post) == u
    decreases |post|
  {
    if post != [] {
      var s := u + post;
      assert s[..|s| - 1] == u + post[..|post| - 1];
      RStripPadded(u, post[..|post| - 1]);
    } else {
      assert u + post == u;
    }
  }

  /** Python `s.replace(c, "")` for a one-character `c`. With `RemoveAllConcat`, the
      one-character case pins the result for every text. */
  function RemoveAll(s: string, c: char): (r: string)
    ensures c !in r
    ensures c !in s ==> r == s
    ensures |r| <= |s|
    ensures |s| == 1 ==> r == (if s[0] == c then "" else s)
  {
    if |s| == 0 then ""
    else if s[0] == c then RemoveAll(s[1..], c)
    else [s[0]] + RemoveAll(s[1..], c)
  }

  /** Removing a character from a concatenation removes it from each part. */
  lemma {:induction false} RemoveAllConcat(a: string, b: string, c: char)
    ensures RemoveAll(a + b, c) == RemoveAll(a, c) + RemoveAll(b, c)
  {
    var ab := a + b;
    if a == [] {
      assert ab == b;
    } else {
      assert ab[0] == a[0] && ab[1..] == a[1..] + b;
      RemoveAllConcat(a[1..], b, c);
      if a[0] != c {
        assert RemoveAll(ab, c) == [a[0]] + (RemoveAll(a[1..], c) + RemoveAll(b, c));
        assert RemoveAll(a, c) == [a[0]] + RemoveAll(a[1..], c);
      }
    }
  }

  /** Decimal digit characters. */
  predicate IsDigit(ch: char)
  {
    '0' <= ch <= '9'
  }

  /** Python `str(n)` for a natural number: its decimal digits, no leading zero. */
  function NatToString(n: nat): (r: string)
    ensures |r| >= 1
    ensures forall k :: 0 <= k < |r| ==> IsDigit(r[k])
    ensures r[0] == '0' ==> n == 0
  {
    if n < 10 then ["0123456789"[n]]
    else NatToString(n / 10) + ["0123456789"[n % 10]]
  }

  /** The number a string of decimal digits denotes. */
  function DecimalValue(s: string): nat
    requires forall k :: 0 <= k < |s| ==> IsDigit(s[k])
  {
    if |s| == 0 then 0
    else
      assert IsDigit(s[|s| - 1]);
      10 * DecimalValue(s[..|s| - 1]) + (s[|s| - 1] as int - '0' as int)
  }

  /** Reading back the decimal text of `n` gives `n`. */
  lemma {:induction false} DecimalRoundTrip(n: nat)
    ensures DecimalValue(NatToString(n)) == n
  {
    if n >= 10 {
      var prefix := NatToString(n / 10);
      var s := prefix + ["0123456789"[n % 10]];
      assert s[..|s| - 1] == prefix;
      DecimalRoundTrip(n / 10);
      assert s[|s| - 1] as int - '0' as int == n % 10;
    }
  }

  /** Python `s * n`: `n` copies of `s`, one after another (see `RepeatCopy`). */
  function Repeat(s: string, n: nat): (r: string)
    ensures |r| == n * |s|
    ensures n > 0 ==> r[..|s|] == s
  {
    if n == 0 then "" else s + Repeat(s, n - 1)
  }

  /** Copy `k` of `s * n` is the slice `[k * |s| : (k + 1) * |s|]`: together with the
      length, the result is exactly `n` copies of `s`. */
  lemma {:induction false} RepeatCopy(s: string, n: nat, k: nat)
    requires k < n
    ensures (k + 1) * |s| <= |Repeat(s, n)|
    ensures Repeat(s, n)[k * |s| .. (k + 1) * |s|] == s
    decreases k
  {
    var len := |s|;
    assert (k + 1) * len <= n * len by {
      MulMonotone(k + 1, n, len);
    }
    if k > 0 {
      var rest := Repeat(s, n - 1);
      RepeatCopy(s, n - 1, k - 1);
      MulShift(k, len);
      assert Repeat(s, n) == s + rest;
      assert (s + rest)[len + (k - 1) * len .. len + k * len] == rest[(k - 1) * len .. k * len];
    }
  }

  lemma MulMonotone(a: nat, b: nat, c: nat)
    requires a <= b
    ensures a * c <= b * c
  {
  }

  lemma MulShift(k: nat, len: nat)
    requires k > 0
    ensures k * len == len + (k - 1) * len
    ensures (k + 1) * len == len + k * len
  {
  }

  /** The smaller of two integers, Python `min`. */
  function Min(a: int, b: int): int
  {
    if a <= b then a else b
  }
}
