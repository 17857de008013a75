/** Values, outcomes and list helpers shared by every module of the model. */
module Base {

  datatype Option<T> = None | Some(value: T)

  /** The exceptions the core raises or lets through. */
  datatype Error =
    | DoesNotExist                        // Model.DoesNotExist
    | MultipleObjectsReturned(count: nat) // Model.MultipleObjectsReturned, with the number of rows seen
    | ValueError                          // negative index, or a zero range() step
    | TypeError                           // an index that is neither a slice nor an int, or an unexpected keyword
    | FieldDoesNotExist(name: string)     // Options.get_field on an unknown name
    | AttributeError(name: string)        // getattr on a missing attribute
    | IndexError                          // a tuple index past the end of a row

  datatype Result<T> = Ok(value: T) | Err(error: Error)

  /** A database value as the cursor returns it or as a field holds it. */
  datatype Value =
    | Null
    | Int(i: int)
    | Text(s: string)
    | Bool(b: bool)
    | List(items: seq<Value>)

  /** One result row: the tuple a cursor yields. */
  type Row = seq<Value>

  /**
   * The answers of the database behind one alias, when `answers(using, k)` is what
   * that database answers to the k-th statement of a run sent to it.
   */
  function On<T>(answers: (string, nat) -> T, using: string): nat -> T
  {
    (k: nat) => answers(using, k)
  }

  /** r is s with some elements deleted, the rest kept in order. */
  predicate Subseq<T(==)>(r: seq<T>, s: seq<T>)
  {
    if |r| == 0 then true
    else if |s| == 0 then false
    else (r[0] == s[0] && Subseq(r[1..], s[1..])) || Subseq(r, s[1..])
  }

  /** Appending the same element to both sides keeps a subsequence one. */
  lemma {:induction false} SubseqSnoc<T>(r: seq<T>, s: seq<T>, x: T)
    requires Subseq(r, s)
    ensures Subseq(r, s + [x])
    ensures Subseq(r + [x], s + [x])
  {
    if |s| > 0 {
      assert (s + [x])[1..] == s[1..] + [x];
      if |r| == 0 {
        SubseqSnoc(r, s[1..], x);
      } else if r[0] == s[0] && Subseq(r[1..], s[1..]) {
        assert (r + [x])[1..] == r[1..] + [x];
        SubseqSnoc(r[1..], s[1..], x);
      } else {
        SubseqSnoc(r, s[1..], x);
      }
    }
  }

  /** A subsequence of a subsequence of s is a subsequence of s. */
  lemma {:induction false} SubseqTrans<T>(a: seq<T>, b: seq<T>, c: seq<T>)
    requires Subseq(a, b) && Subseq(b, c)
    ensures Subseq(a, c)
  {
    if |a| > 0 {
      if b[0] == c[0] && Subseq(b[1..], c[1..]) {
        if a[0] == b[0] && Subseq(a[1..], b[1..]) {
          SubseqTrans(a[1..], b[1..], c[1..]);
        } else {
          SubseqTrans(a, b[1..], c[1..]);
        }
      } else {
        SubseqTrans(a, b, c[1..]);
      }
    }
  }

  /** Every element of a subsequence of s is an element of s. */
  lemma {:induction false} SubseqIn<T>(r: seq<T>, s: seq<T>)
    requires Subseq(r, s)
    ensures forall x :: x in r ==> x in s
  {
    if |r| > 0 {
      if r[0] == s[0] && Subseq(r[1..], s[1..]) {
        SubseqIn(r[1..], s[1..]);
        assert forall x :: x in r ==> x == r[0] || x in r[1..];
      } else {
        SubseqIn(r, s[1..]);
      }
    }
  }

  /** A subsequence of a list with no element twice has no element twice. */
  lemma {:induction false} SubseqDistinct<T>(r: seq<T>, s: seq<T>)
    requires Subseq(r, s) && Distinct(s)
    ensures Distinct(r)
  {
    if |r| > 0 {
      assert Distinct(s[1..]);
      if r[0] == s[0] && Subseq(r[1..], s[1..]) {
        SubseqDistinct(r[1..], s[1..]);
        SubseqIn(r[1..], s[1..]);
        assert s[0] !in s[1..];
        forall i, j | 0 <= i < j < |r|
          ensures r[i] != r[j]
        {
          assert r[j] == r[1..][j - 1];
          if i > 0 {
            assert r[i] == r[1..][i - 1];
          }
        }
      } else {
        SubseqDistinct(r, s[1..]);
      }
    }
  }

  /** Extending the first i elements by the elements i .. j - 1 gives the first j. */
  lemma PrefixExtend<T>(s: seq<T>, i: nat, j: nat)
    requires i <= j <= |s|
    ensures s[..i] + s[i..j] == s[..j]
  {
  }

  function Min(a: int, b: int): int
  {
    if a <= b then a else b
  }

  /** No element occurs twice. */
  predicate Distinct<T(==)>(s: seq<T>)
  {
    forall i, j :: 0 <= i < j < |s| ==> s[i] != s[j]
  }
}
