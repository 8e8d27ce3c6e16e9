/** Shared vocabulary: bytes, the digest function, Option/Result, and small sequence helpers. */
module Basics {

  type byte = bv8
  type Bytes = seq<byte>

  /**
   * MD5's `hexdigest()`, left uninterpreted: every property of the model holds for any digest
   * function, except where a lemma requires single-line digests (`SingleLineDigests`).
   */
  type Md5 = Bytes -> string

  datatype Option<+T> = None | Some(value: T) {
    predicate IsFailure() { None? }

    function PropagateFailure<U>(): Option<U>
      requires None?
    {
      None
    }

    function Extract(): T
      requires Some?
    {
      value
    }
  }

  datatype Result<+T, +E> = Ok(value: T) | Err(error: E)

  /** The concatenation of a sequence of pieces, in order. */
  function Concat<T>(parts: seq<seq<T>>): seq<T>
  {
    if parts == [] then [] else parts[0] + Concat(parts[1..])
  }

  lemma {:induction false} ConcatAppend<T>(parts: seq<seq<T>>, last: seq<T>)
    ensures Concat(parts + [last]) == Concat(parts) + last
  {
    if parts == [] {
      assert [] + [last] == [last];
    } else {
      assert (parts + [last])[1..] == parts[1..] + [last];
      ConcatAppend(parts[1..], last);
    }
  }

  /** `f` applied to each item, built from the back the way a loop over the items extends its output. */
  function Mapped<A, B>(f: A -> B, xs: seq<A>): (ys: seq<B>)
    ensures |ys| == |xs|
    decreases |xs|
  {
    if xs == [] then [] else Mapped(f, xs[..|xs| - 1]) + [f(xs[|xs| - 1])]
  }

  lemma {:induction false} MappedAt<A, B>(f: A -> B, xs: seq<A>, i: nat)
    requires i < |xs|
    ensures Mapped(f, xs)[i] == f(xs[i])
    decreases |xs|
  {
    var n := |xs| - 1;
    if i < n {
      MappedAt(f, xs[..n], i);
    }
  }

  /** One more item of the input, one more at the end of the output. */
  lemma MappedSnoc<A, B>(f: A -> B, xs: seq<A>, k: nat)
    requires k < |xs|
    ensures Mapped(f, xs[..k + 1]) == Mapped(f, xs[..k]) + [f(xs[k])]
  {
    assert xs[..k + 1][..k] == xs[..k];
  }

  /** Joining is compatible with splitting the list of parts anywhere. */
  lemma {:induction false} ConcatSplit<T>(parts: seq<seq<T>>, j: nat)
    requires j <= |parts|
    ensures Concat(parts) == Concat(parts[..j]) + Concat(parts[j..])
  {
    if j == 0 {
      assert parts[..0] == [] && parts[0..] == parts;
    } else {
      ConcatSplit(parts[1..], j - 1);
      assert parts[1..][..j - 1] == parts[..j][1..];
      assert parts[1..][j - 1..] == parts[j..];
    }
  }

  /** Part `i` sits in the joined sequence right after the parts before it. */
  lemma ConcatPlace<T>(parts: seq<seq<T>>, i: nat)
    requires i < |parts|
    ensures Concat(parts[..i + 1]) == Concat(parts[..i]) + parts[i]
    ensures var n := |Concat(parts[..i])|;
            n + |parts[i]| <= |Concat(parts)| && Concat(parts)[n..n + |parts[i]|] == parts[i]
  {
    ConcatAppend(parts[..i], parts[i]);
    assert parts[..i] + [parts[i]] == parts[..i + 1];
    ConcatSplit(parts, i + 1);
  }

  /** `make(0, items[0]), make(1, items[1]), ...`: each item with its position. */
  function Numbered<C, M>(make: (nat, C) -> M, items: seq<C>): (r: seq<M>)
    ensures |r| == |items|
    ensures forall k :: 0 <= k < |items| ==> r[k] == make(k, items[k])
  {
    seq(|items|, k requires 0 <= k < |items| => make(k, items[k]))
  }

  lemma NumberedAppend<C, M>(make: (nat, C) -> M, items: seq<C>, item: C)
    ensures Numbered(make, items + [item]) == Numbered(make, items) + [make(|items|, item)]
  {
    var longer := items + [item];
    assert forall k :: 0 <= k < |items| ==> longer[k] == items[k];
  }

  /** Numbering a prefix numbers the same items the same way. */
  lemma NumberedSplit<C, M>(make: (nat, C) -> M, items: seq<C>, k: nat)
    requires k < |items|
    ensures Numbered(make, items)[..k] == Numbered(make, items[..k])
    ensures Numbered(make, items)[k] == make(k, items[k])
  {
  }

  /**
   * The inverse of `Numbered` for pieces of a sequence: `extract(k, m)` checks that `m` is item `k`
   * and returns its piece; the pieces are joined in order, and the first failure fails the whole.
   */
  function CollectNumbered<M, T>(extract: (nat, M) -> Option<seq<T>>, msgs: seq<M>): Option<seq<T>>
    decreases |msgs|
  {
    if msgs == [] then Some([])
    else
      var n := |msgs| - 1;
      var front :- CollectNumbered(extract, msgs[..n]);
      var last :- extract(n, msgs[n]);
      Some(front + last)
  }

  /** Collecting numbered pieces gives back the pieces joined, when `extract` undoes `make`. */
  lemma {:induction false} CollectNumberedInverse<M, T>(extract: (nat, M) -> Option<seq<T>>,
                                                        make: (nat, seq<T>) -> M, pieces: seq<seq<T>>)
    requires forall k: nat, piece :: extract(k, make(k, piece)) == Some(piece)
    ensures CollectNumbered(extract, Numbered(make, pieces)) == Some(Concat(pieces))
    decreases |pieces|
  {
    if pieces != [] {
      var n := |pieces| - 1;
      var front := pieces[..n];
      NumberedSplit(make, pieces, n);
      CollectNumberedInverse(extract, make, front);
      ConcatAppend(front, pieces[n]);
      assert front + [pieces[n]] == pieces;
    }
  }

  predicate HasPrefix<T(==)>(prefix: seq<T>, s: seq<T>)
  {
    |prefix| <= |s| && s[..|prefix|] == prefix
  }

  /** `HasPrefix` fails as soon as one position disagrees. */
  lemma NoPrefixAt<T>(p: seq<T>, t: seq<T>, k: nat)
    requires k < |p| && k < |t| && p[k] != t[k]
    ensures !HasPrefix(p, t)
  {
  }

  /** The position of the last occurrence of `c` in `s`, if any. */
  function LastIndexOf<T(==)>(c: T, s: seq<T>): (r: Option<nat>)
    ensures r.Some? ==> r.value < |s| && s[r.value] == c && c !in s[r.value + 1..]
    ensures r.None? ==> c !in s
  {
    if s == [] then None
    else if s[|s| - 1] == c then Some(|s| - 1)
    else LastIndexOf(c, s[..|s| - 1])
  }

  lemma LastIndexOfSplit<T>(c: T, a: seq<T>, b: seq<T>)
    requires c !in b
    ensures LastIndexOf(c, a + [c] + b) == Some(|a|)
  {
    var s := a + [c] + b;
    assert s[|a|] == c;
    assert s[|a| + 1..] == b;
  }

  /** Python's `os.path.basename` on a POSIX path: what follows the last `/`. */
  function Basename(path: string): (name: string)
    ensures '/' !in name
    ensures |name| <= |path| && path[|path| - |name|..] == name
    ensures |name| < |path| ==> path[|path| - |name| - 1] == '/'
  {
    match LastIndexOf('/', path)
    case None => path
    case Some(i) => path[i + 1..]
  }
}
