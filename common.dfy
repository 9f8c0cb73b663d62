/** Value types shared by every component: optional values, fallible results
    and the fixed-width unsigned integers the Rust code uses. */
module Common {

  /** Rust's Option<T>. */
  datatype Option<T> = None | Some(value: T)

  /** A fallible result with a textual error, as anyhow::Result<T> and
      Result<T, String> are used at the command boundary. */
  datatype Result<T> = Ok(value: T) | Err(error: string)

  /** A fallible action with no value, Result<(), E>. */
  datatype Outcome = Pass | Fail(error: string)

  type u8 = x: int | 0 <= x < 0x100
  type u16 = x: int | 0 <= x < 0x1_0000
  type u32 = x: int | 0 <= x < 0x1_0000_0000

  /** The value of an Option, or a default (Option::unwrap_or). */
  function UnwrapOr<T>(o: Option<T>, default: T): T
  {
    match o
    case Some(v) => v
    case None => default
  }

  /** Concatenation is associative. */
  lemma AppendAssoc<T>(a: seq<T>, b: seq<T>, c: seq<T>)
    ensures a + (b + c) == (a + b) + c
  {
  }

  /** A prefix one element longer is the prefix and that element. */
  lemma TakeSnoc<T>(s: seq<T>, k: nat)
    requires k < |s|
    ensures s[..k + 1] == s[..k] + [s[k]]
  {
  }

  /** The value of an Option as a sequence of zero or one elements. */
  function Present<T>(o: Option<T>): (s: seq<T>)
    ensures |s| <= 1
  {
    match o
    case Some(v) => [v]
    case None => []
  }

  /** Applies `f` to each element in order and keeps the values present
      (Iterator::filter_map). */
  function FilterMap<T, U>(f: T -> Option<U>, xs: seq<T>): (ys: seq<U>)
    ensures |ys| <= |xs|
  {
    if |xs| == 0 then [] else Present(f(xs[0])) + FilterMap(f, xs[1..])
  }

  lemma {:induction false} FilterMapAppend<T, U>(f: T -> Option<U>, a: seq<T>, b: seq<T>)
    ensures FilterMap(f, a + b) == FilterMap(f, a) + FilterMap(f, b)
  {
    if |a| == 0 {
      assert a + b == b;
    } else {
      assert (a + b)[0] == a[0] && (a + b)[1..] == a[1..] + b;
      FilterMapAppend(f, a[1..], b);
      assert Present(f(a[0])) + (FilterMap(f, a[1..]) + FilterMap(f, b))
          == (Present(f(a[0])) + FilterMap(f, a[1..])) + FilterMap(f, b);
    }
  }

  /** When every element maps to a value, those values are the result. */
  lemma {:induction false} FilterMapEach<T, U>(f: T -> Option<U>, xs: seq<T>, ys: seq<U>)
    requires |xs| == |ys|
    requires forall i :: 0 <= i < |xs| ==> f(xs[i]) == Some(ys[i])
    ensures FilterMap(f, xs) == ys
  {
    if |xs| > 0 {
      assert forall i :: 0 <= i < |xs| - 1 ==> xs[1..][i] == xs[i + 1];
      FilterMapEach(f, xs[1..], ys[1..]);
      assert [ys[0]] + ys[1..] == ys;
    }
  }
}
