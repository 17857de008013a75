/**
 * String building for the hand-written SQL: `str.join`, `[s] * n`, and a count of
 * the `%` characters, which is how many `%s` placeholders a statement carries
 * when no identifier in it contains a `%`.
 */
module SqlText {

  /** `sep.join(parts)`. */
  function Join(parts: seq<string>, sep: string): string
  {
    if |parts| == 0 then ""
    else if |parts| == 1 then parts[0]
    else parts[0] + sep + Join(parts[1..], sep)
  }

  /** A join of parts whose first part is not empty is not empty. */
  lemma {:induction false} JoinNonEmpty(parts: seq<string>, sep: string)
    requires |parts| > 0 && |parts[0]| > 0
    ensures |Join(parts, sep)| > 0
  {
  }

  /** `[s] * n`. */
  function Repeat(s: string, n: nat): (r: seq<string>)
    ensures |r| == n
    ensures forall i :: 0 <= i < n ==> r[i] == s
  {
    if n == 0 then [] else [s] + Repeat(s, n - 1)
  }

  lemma RepeatSnoc(s: string, n: nat)
    ensures Repeat(s, n + 1) == Repeat(s, n) + [s]
  {
  }

  /** The number of `%` characters in s. */
  function Percents(s: string): nat
  {
    if |s| == 0 then 0 else (if s[0] == '%' then 1 else 0) + Percents(s[1..])
  }

  /** The `%` characters of all parts together. */
  function SumPercents(parts: seq<string>): nat
  {
    if |parts| == 0 then 0 else Percents(parts[0]) + SumPercents(parts[1..])
  }

  lemma {:induction false} PercentsConcat(a: string, b: string)
    ensures Percents(a + b) == Percents(a) + Percents(b)
  {
    if |a| > 0 {
      assert (a + b)[1..] == a[1..] + b;
      PercentsConcat(a[1..], b);
    } else {
      assert a + b == b;
    }
  }

  /** Joining with a separator free of `%` adds no `%`. */
  lemma {:induction false} PercentsJoin(parts: seq<string>, sep: string)
    requires Percents(sep) == 0
    ensures Percents(Join(parts, sep)) == SumPercents(parts)
  {
    if |parts| > 1 {
      PercentsJoin(parts[1..], sep);
      PercentsConcat(parts[0], sep);
      PercentsConcat(parts[0] + sep, Join(parts[1..], sep));
    }
  }

  /** `", ".join(["%s"] * n)` carries exactly n placeholders. */
  lemma PlaceholderList(n: nat)
    ensures Percents(Join(Repeat("%s", n), ", ")) == n
  {
    NoPercents(", ");
    PercentsJoin(Repeat("%s", n), ", ");
    PlaceholderPercents();
    SumPercentsUniform(Repeat("%s", n), 1);
  }

  /** A `%s` placeholder is one `%`. */
  lemma PlaceholderPercents()
    ensures Percents("%s") == 1
  {
  }

  /** Parts that each carry k placeholders carry k per part together. */
  lemma {:induction false} SumPercentsUniform(parts: seq<string>, k: nat)
    requires forall i :: 0 <= i < |parts| ==> Percents(parts[i]) == k
    ensures SumPercents(parts) == |parts| * k
  {
    if |parts| > 0 {
      SumPercentsUniform(parts[1..], k);
    }
  }

  /** A string without a `%` character carries no placeholder. */
  lemma {:induction false} NoPercents(s: string)
    requires '%' !in s
    ensures Percents(s) == 0
  {
    if |s| > 0 {
      assert s[0] in s;
      assert forall c :: c in s[1..] ==> c in s;
      NoPercents(s[1..]);
    }
  }

  /** A literal without `%` in front of a string adds no placeholder. */
  lemma LitPrefix(lit: string, s: string)
    requires '%' !in lit
    ensures Percents(lit + s) == Percents(s)
  {
    NoPercents(lit);
    PercentsConcat(lit, s);
  }

  lemma {:induction false} SumPercentsConcat(a: seq<string>, b: seq<string>)
    ensures SumPercents(a + b) == SumPercents(a) + SumPercents(b)
  {
    if |a| > 0 {
      assert (a + b)[1..] == a[1..] + b;
      SumPercentsConcat(a[1..], b);
    } else {
      assert a + b == b;
    }
  }
}
