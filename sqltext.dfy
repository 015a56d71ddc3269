/**
 * Numbered SQL parameters. A statement refers to its bound values as `$1`,
 * `$2`, ...; the driver binds the k-th value to `$k`. This module reads the
 * parameter numbers out of a statement's text and provides the joins the
 * query builders assemble their text with.
 */
module SqlText {
  import opened Errors
  import opened Decimal

  /** The number the scanner is in the middle of reading, if any. */
  function Pending(cur: Option<nat>): seq<nat> {
    if cur.Some? then [cur.value] else []
  }

  /**
   * Scans `s` left to right. A `$` followed by a digit starts a parameter;
   * its number is the whole run of digits that follows, read most
   * significant digit first; `cur` is the number read so far.
   */
  function Scan(s: string, cur: Option<nat>): seq<nat>
    decreases |s|
  {
    if s == [] then Pending(cur)
    else Emitted(s, cur) + Scan(s[1..], Next(s, cur))
  }

  /** Whether the first character of `s` continues the number being read. */
  predicate Continues(s: string, cur: Option<nat>)
    requires s != []
  {
    cur.Some? && IsDigit(s[0])
  }

  /** The number completed before the first character of `s`, if any. */
  function Emitted(s: string, cur: Option<nat>): seq<nat>
    requires s != []
  {
    if Continues(s, cur) then [] else Pending(cur)
  }

  /** The number being read after the first character of `s`. */
  function Next(s: string, cur: Option<nat>): Option<nat>
    requires s != []
  {
    if Continues(s, cur) then Some(cur.value * 10 + DigitValue(s[0]))
    else if s[0] == '$' && |s| > 1 && IsDigit(s[1]) then Some(0)
    else None
  }

  /** The numbers of the parameters in `s`, left to right. */
  function Placeholders(s: string): seq<nat> {
    Scan(s, None)
  }

  /** How parameter `k` is written: `format!("${}", k)`. */
  function Param(k: nat): (s: string)
    ensures |s| > 0 && s[0] == '$'
  {
    "$" + DecimalString(k)
  }

  /** `from`, `from + 1`, ..., `from + n - 1`. */
  function Consecutive(from: nat, n: nat): (r: seq<nat>)
    ensures |r| == n
    ensures forall i :: 0 <= i < n ==> r[i] == from + i
  {
    seq(n, i requires 0 <= i < n => from + i)
  }

  lemma ConsecutiveAppend(from: nat, m: nat, n: nat)
    ensures Consecutive(from, m) + Consecutive(from + m, n) == Consecutive(from, m + n)
  {
  }

  /** Text may be followed by `s` without lengthening a parameter number it ends with. */
  predicate Separable(s: string) {
    s == [] || !IsDigit(s[0])
  }

  /** Text that cannot continue a number ends the number being read. */
  lemma ScanSeparable(b: string, c: nat)
    requires Separable(b)
    ensures Scan(b, Some(c)) == [c] + Scan(b, None)
  {
  }

  /**
   * The parameters of a concatenation are those of its parts, provided the
   * second part cannot extend a number the first part ends with.
   */
  lemma {:induction false} ScanAppend(a: string, b: string, cur: Option<nat>)
    requires Separable(b)
    ensures Scan(a + b, cur) == Scan(a, cur) + Scan(b, None)
    decreases |a|
  {
    if a == [] {
      assert a + b == b;
      if cur.Some? {
        ScanSeparable(b, cur.value);
      }
    } else {
      var ab := a + b;
      assert ab[0] == a[0] && ab[1..] == a[1..] + b;
      assert Next(ab, cur) == Next(a, cur);
      ScanAppend(a[1..], b, Next(a, cur));
    }
  }

  lemma PlaceholdersAppend(a: string, b: string)
    requires Separable(b)
    ensures Placeholders(a + b) == Placeholders(a) + Placeholders(b)
  {
    ScanAppend(a, b, None);
  }

  /** Text free of `$`. */
  predicate NoDollar(s: string) {
    '$' !in s
  }

  /** Text without a `$` has no parameters. */
  lemma {:induction false} PlaceholdersNone(s: string)
    requires NoDollar(s)
    ensures Placeholders(s) == []
    decreases |s|
  {
    if s != [] {
      PlaceholdersNone(s[1..]);
    }
  }

  /** Reading digits onto `c`, most significant first. */
  function Horner(c: nat, s: string): nat
    requires AllDigits(s)
    decreases |s|
  {
    if s == [] then c else Horner(c * 10 + DigitValue(s[0]), s[1..])
  }

  lemma {:induction false} HornerSnoc(c: nat, s: string, d: char)
    requires AllDigits(s) && IsDigit(d)
    ensures AllDigits(s + [d]) && Horner(c, s + [d]) == Horner(c, s) * 10 + DigitValue(d)
    decreases |s|
  {
    if s != [] {
      assert (s + [d])[1..] == s[1..] + [d];
      HornerSnoc(c * 10 + DigitValue(s[0]), s[1..], d);
    }
  }

  /** Reading a digit string from 0 gives its value. */
  lemma {:induction false} HornerDecimal(s: string)
    requires AllDigits(s)
    ensures Horner(0, s) == ParseDecimal(s)
    decreases |s|
  {
    if s != [] {
      var init := s[..|s| - 1];
      HornerDecimal(init);
      HornerSnoc(0, init, s[|s| - 1]);
      assert init + [s[|s| - 1]] == s;
    }
  }

  /** A run of digits read onto `c`. */
  lemma {:induction false} ScanDigits(s: string, c: nat)
    requires AllDigits(s)
    ensures Scan(s, Some(c)) == [Horner(c, s)]
    decreases |s|
  {
    if s != [] {
      ScanDigits(s[1..], c * 10 + DigitValue(s[0]));
    }
  }

  /** `$k` is read back as parameter k. */
  lemma PlaceholdersParam(k: nat)
    ensures Placeholders(Param(k)) == [k]
  {
    var s := Param(k);
    var digits := DecimalString(k);
    assert s[1..] == digits;
    ScanDigits(digits, 0);
    HornerDecimal(digits);
    ParseDecimalString(k);
  }

  /** `parts.join(sep)` */
  function Join(parts: seq<string>, sep: string): string
    decreases |parts|
  {
    if parts == [] then ""
    else if |parts| == 1 then parts[0]
    else parts[0] + sep + Join(parts[1..], sep)
  }

  lemma JoinSnoc(parts: seq<string>, p: string, sep: string)
    requires parts != []
    ensures Join(parts + [p], sep) == Join(parts, sep) + sep + p
    decreases |parts|
  {
    if |parts| > 1 {
      assert (parts + [p])[1..] == parts[1..] + [p];
      JoinSnoc(parts[1..], p, sep);
    }
  }

  /** The parameters of every part, in order. */
  function AllPlaceholders(parts: seq<string>): seq<nat>
    decreases |parts|
  {
    if parts == [] then [] else Placeholders(parts[0]) + AllPlaceholders(parts[1..])
  }

  lemma {:induction false} AllPlaceholdersSnoc(parts: seq<string>, p: string)
    ensures AllPlaceholders(parts + [p]) == AllPlaceholders(parts) + Placeholders(p)
    decreases |parts|
  {
    if parts == [] {
      assert AllPlaceholders([p]) == Placeholders(p) + AllPlaceholders([]);
    } else {
      assert (parts + [p])[1..] == parts[1..] + [p];
      AllPlaceholdersSnoc(parts[1..], p);
    }
  }

  /** Non-empty text that does not start with a digit. */
  predicate Starts(s: string) {
    s != [] && !IsDigit(s[0])
  }

  /**
   * Joining with a separator free of `$` keeps the parameters of the parts,
   * in order, when every part starts with something other than a digit.
   */
  lemma {:induction false} PlaceholdersJoin(parts: seq<string>, sep: string)
    requires forall i :: 0 <= i < |parts| ==> Starts(parts[i])
    requires Starts(sep) && NoDollar(sep)
    ensures Placeholders(Join(parts, sep)) == AllPlaceholders(parts)
    decreases |parts|
  {
    if parts == [] {
    } else if |parts| == 1 {
      assert AllPlaceholders(parts) == Placeholders(parts[0]) + AllPlaceholders([]);
    } else {
      var rest := Join(parts[1..], sep);
      PlaceholdersJoin(parts[1..], sep);
      assert Starts(parts[1]);
      assert Separable(rest) by {
        JoinStarts(parts[1..], sep);
      }
      PlaceholdersAppend(sep, rest);
      PlaceholdersNone(sep);
      PlaceholdersAppend(parts[0], sep + rest);
      assert parts[0] + sep + rest == parts[0] + (sep + rest);
    }
  }

  lemma JoinStarts(parts: seq<string>, sep: string)
    requires parts != [] && Starts(parts[0])
    ensures Join(parts, sep) != [] && Join(parts, sep)[0] == parts[0][0]
  {
  }

  /** The parameter list `$from, $from+1, ...` of an `IN (...)` clause. */
  function ParamList(from: nat, n: nat): string {
    Join(seq(n, i requires 0 <= i < n => Param(from + i)), ", ")
  }

  /** The parameters of `$from, ..., $from+n-1` are from..from+n-1. */
  lemma ParamListPlaceholders(from: nat, n: nat)
    ensures Placeholders(ParamList(from, n)) == Consecutive(from, n)
  {
    var parts := seq(n, i requires 0 <= i < n => Param(from + i));
    assert forall i :: 0 <= i < |parts| ==> parts[i] == Param(from + i) && Starts(parts[i]);
    PlaceholdersJoin(parts, ", ");
    ParamsPlaceholders(from, n);
  }

  lemma {:induction false} ParamsPlaceholders(from: nat, n: nat)
    ensures AllPlaceholders(seq(n, i requires 0 <= i < n => Param(from + i))) == Consecutive(from, n)
    decreases n
  {
    if n > 0 {
      var parts := seq(n, i requires 0 <= i < n => Param(from + i));
      assert parts[1..] == seq(n - 1, i requires 0 <= i < n - 1 => Param(from + 1 + i));
      ParamsPlaceholders(from + 1, n - 1);
      PlaceholdersParam(from);
      assert Consecutive(from, n) == [from] + Consecutive(from + 1, n - 1);
    }
  }

  /** Text without `$` in front of `s` adds no parameters. */
  lemma PlaceholdersPrefixed(prefix: string, s: string)
    requires NoDollar(prefix)
    requires Separable(s)
    ensures Placeholders(prefix + s) == Placeholders(s)
  {
    PlaceholdersNone(prefix);
    PlaceholdersAppend(prefix, s);
  }

  /** Text without `$` after `s` adds no parameters. */
  lemma PlaceholdersSuffixed(s: string, suffix: string)
    requires NoDollar(suffix)
    requires Separable(suffix)
    ensures Placeholders(s + suffix) == Placeholders(s)
  {
    PlaceholdersNone(suffix);
    PlaceholdersAppend(s, suffix);
  }

  /** Text without `$` on both sides of `mid` adds no parameters. */
  lemma PlaceholdersWrapped(prefix: string, mid: string, suffix: string)
    requires NoDollar(prefix)
    requires NoDollar(suffix)
    requires Separable(mid) && Separable(suffix)
    ensures Placeholders(prefix + mid + suffix) == Placeholders(mid)
  {
    var rest := mid + suffix;
    assert prefix + mid + suffix == prefix + rest;
    PlaceholdersSuffixed(mid, suffix);
    assert Separable(rest) by {
      if mid == [] {
        assert rest == suffix;
      } else {
        assert rest[0] == mid[0];
      }
    }
    PlaceholdersPrefixed(prefix, rest);
  }

  /** `head`, then the parts joined by `sep`, then `tail`. */
  function WrappedJoin(head: string, parts: seq<string>, sep: string, tail: string): string {
    head + Join(parts, sep) + tail
  }

  /** Parts joined by a separator, between text without `$`, keep their parameters, in order. */
  lemma PlaceholdersWrappedJoin(head: string, parts: seq<string>, sep: string, tail: string)
    requires NoDollar(head) && NoDollar(tail) && Separable(tail)
    requires Starts(sep) && NoDollar(sep)
    requires parts != [] && forall i :: 0 <= i < |parts| ==> Starts(parts[i])
    ensures Placeholders(WrappedJoin(head, parts, sep, tail)) == AllPlaceholders(parts)
  {
    PlaceholdersJoin(parts, sep);
    JoinStarts(parts, sep);
    PlaceholdersWrapped(head, Join(parts, sep), tail);
  }
}
