/** String helpers with the meaning Python gives them: `sep.join(parts)`, `str(n)` for a
    natural number, the slice `s[:n]` and the truthiness fallback `value or default`. */
module Text {
  import opened Wrappers

  /** Python's `sep.join(parts)`. */
  function Join(parts: seq<string>, sep: string): string
  {
    if |parts| == 0 then ""
    else if |parts| == 1 then parts[0]
    else parts[0] + sep + Join(parts[1..], sep)
  }

  /** Joining a concatenation puts exactly one separator between the two halves. */
  lemma {:induction false} JoinAppend(a: seq<string>, b: seq<string>, sep: string)
    requires a != [] && b != []
    ensures Join(a + b, sep) == Join(a, sep) + sep + Join(b, sep)
  {
    if |a| == 1 {
      assert (a + b)[1..] == b;
    } else {
      assert (a + b)[1..] == a[1..] + b;
      JoinAppend(a[1..], b, sep);
    }
  }

  /** Joining three pieces around a non-empty middle: the separators appear only next
      to pieces that are there. */
  lemma JoinAround(a: seq<string>, b: seq<string>, c: seq<string>, sep: string)
    requires b != []
    ensures Join(a + b + c, sep)
         == Join(a, sep) + (if a == [] then "" else sep) + Join(b, sep)
            + (if c == [] then "" else sep + Join(c, sep))
  {
    var left := Join(a, sep) + (if a == [] then "" else sep) + Join(b, sep);
    if a == [] {
      assert a + b == b;
    } else {
      JoinAppend(a, b, sep);
    }
    assert Join(a + b, sep) == left;
    if c == [] {
      assert a + b + c == a + b;
    } else {
      JoinAppend(a + b, c, sep);
    }
  }

  predicate IsDigits(s: string)
  {
    forall i :: 0 <= i < |s| ==> '0' <= s[i] <= '9'
  }

  function Digit(d: nat): (c: char)
    requires d < 10
    ensures '0' <= c <= '9' && c as int - '0' as int == d
  {
    (d + '0' as int) as char
  }

  /** Python's `str(n)` (and `f"{n}"`) for a natural number: decimal, no leading zero. */
  function NatToString(n: nat): (s: string)
    ensures |s| >= 1 && IsDigits(s)
    ensures s[0] == '0' ==> n == 0
  {
    if n < 10 then [Digit(n)] else NatToString(n / 10) + [Digit(n % 10)]
  }

  /** The number a string of decimal digits denotes. */
  function DecimalValue(s: string): nat
    requires IsDigits(s)
  {
    if s == [] then 0
    else DecimalValue(s[..|s| - 1]) * 10 + (s[|s| - 1] as int - '0' as int)
  }

  /** Reading back the decimal text of `n` gives `n`. */
  lemma {:induction false} NatToStringRoundTrip(n: nat)
    ensures DecimalValue(NatToString(n)) == n
  {
    var s := NatToString(n);
    if n >= 10 {
      assert s[..|s| - 1] == NatToString(n / 10);
      NatToStringRoundTrip(n / 10);
    }
  }

  /** Distinct numbers get distinct labels. */
  lemma NatToStringInjective(m: nat, n: nat)
    ensures NatToString(m) == NatToString(n) ==> m == n
  {
    NatToStringRoundTrip(m);
    NatToStringRoundTrip(n);
  }

  /** Two lines that each start with a decimal label and ". " are different when the
      labels are: the label ends at the first non-digit. */
  lemma LabelledLinesDistinct(m: nat, n: nat, x: string, y: string)
    requires m != n
    ensures NatToString(m) + ". " + x != NatToString(n) + ". " + y
  {
    var a, b := NatToString(m), NatToString(n);
    var p, q := a + ". " + x, b + ". " + y;
    if |a| < |b| {
      assert p[|a|] == '.' && q[|a|] == b[|a|];
    } else if |b| < |a| {
      assert q[|b|] == '.' && p[|b|] == a[|b|];
    } else {
      NatToStringInjective(m, n);
      var i :| 0 <= i < |a| && a[i] != b[i];
      assert p[i] == a[i] && q[i] == b[i];
    }
  }

  /** Python's slice `s[:n]`: the first min(n, |s|) characters. */
  function Prefix(s: string, n: nat): (r: string)
    ensures |r| == (if |s| < n then |s| else n)
    ensures r == s[..|r|]
  {
    if |s| <= n then s else s[..n]
  }

  /** Python's `value or default` for an `Optional[str]`: `None` and `""` are falsy. */
  function StrOr(value: Option<string>, default: string): (r: string)
    ensures value.Some? && value.value != "" ==> r == value.value
    ensures value.None? || value.value == "" ==> r == default
  {
    if value.Some? && value.value != "" then value.value else default
  }

  /** Python's `value or default` for an `Optional[int]`: `None` and `0` are falsy. */
  function IntOr(value: Option<int>, default: int): (r: int)
    ensures value.Some? && value.value != 0 ==> r == value.value
    ensures value.None? || value.value == 0 ==> r == default
  {
    if value.Some? && value.value != 0 then value.value else default
  }

  /** Appending two pieces in turn appends their concatenation. */
  lemma AppendAssoc<T>(a: seq<T>, b: seq<T>, c: seq<T>)
    ensures a + b + c == a + (b + c)
  {
  }

  /** The lines `for i, x in enumerate(xs, start): output.extend(entry(i, x))` appends. */
  function Enumerated<T>(xs: seq<T>, start: nat, entry: (nat, T) -> seq<string>): seq<string>
    decreases |xs|
  {
    if xs == [] then [] else entry(start, xs[0]) + Enumerated(xs[1..], start + 1, entry)
  }

  /** One more element appends one more entry, numbered after all the earlier ones. */
  lemma {:induction false} EnumeratedSnoc<T>(xs: seq<T>, x: T, start: nat, entry: (nat, T) -> seq<string>)
    ensures Enumerated(xs + [x], start, entry) == Enumerated(xs, start, entry) + entry(start + |xs|, x)
    decreases |xs|
  {
    if xs == [] {
      assert [x][1..] == [];
    } else {
      assert (xs + [x])[1..] == xs[1..] + [x];
      EnumeratedSnoc(xs[1..], x, start + 1, entry);
    }
  }

  /** The element at position k contributes the entry numbered start + k, after the
      entries of the elements before it and before those of the elements after it. */
  lemma {:induction false} EnumeratedSplit<T>(xs: seq<T>, k: nat, start: nat, entry: (nat, T) -> seq<string>)
    requires k < |xs|
    ensures Enumerated(xs, start, entry)
         == Enumerated(xs[..k], start, entry) + entry(start + k, xs[k]) + Enumerated(xs[k + 1..], start + k + 1, entry)
    decreases k
  {
    if k > 0 {
      EnumeratedSplit(xs[1..], k - 1, start + 1, entry);
      assert xs[1..][..k - 1] == xs[1..k];
      assert xs[1..][k..] == xs[k + 1..];
      assert xs[..k][1..] == xs[1..k];
    }
  }

  /** With one line per element, line k is the entry of element k, numbered start + k. */
  lemma {:induction false} EnumeratedSingleLines<T>(xs: seq<T>, start: nat, entry: (nat, T) -> seq<string>, k: nat)
    requires forall i: nat, x: T :: |entry(i, x)| == 1
    requires k < |xs|
    ensures |Enumerated(xs, start, entry)| == |xs|
    ensures Enumerated(xs, start, entry)[k] == entry(start + k, xs[k])[0]
    decreases k
  {
    EnumeratedLength(xs, start, entry);
    if k > 0 {
      EnumeratedSingleLines(xs[1..], start + 1, entry, k - 1);
    }
  }

  lemma {:induction false} EnumeratedLength<T>(xs: seq<T>, start: nat, entry: (nat, T) -> seq<string>)
    requires forall i: nat, x: T :: |entry(i, x)| == 1
    ensures |Enumerated(xs, start, entry)| == |xs|
    decreases |xs|
  {
    if xs != [] {
      EnumeratedLength(xs[1..], start + 1, entry);
    }
  }
}
