/**
 * The collection operations of the Swift standard library that the core relies on:
 * `compactMap`, the `stride(from: 0, to: count, by: size).map { slice }` chunking idiom, and
 * the add-or-remove update of a set of users.
 */
module SeqUtil {
  import opened Wrappers

  /** `xs.compactMap(f)`: the present results of `f`, in order. */
  function CompactMap<A, B>(xs: seq<A>, f: A -> Option<B>): (r: seq<B>)
    ensures |r| <= |xs|
    ensures forall b :: b in r ==> exists a :: a in xs && f(a) == Some(b)
    ensures forall a :: a in xs && f(a).Some? ==> f(a).value in r
  {
    if xs == [] then []
    else
      var rest := CompactMap(xs[1..], f);
      assert forall a :: a in xs[1..] ==> a in xs;
      assert forall a :: a in xs ==> a == xs[0] || a in xs[1..];
      match f(xs[0])
      case Some(b) => [b] + rest
      case None => rest
  }

  /** `compactMap` distributes over concatenation, so it keeps the input order. */
  lemma {:induction false} CompactMapAppend<A, B>(xs: seq<A>, ys: seq<A>, f: A -> Option<B>)
    ensures CompactMap(xs + ys, f) == CompactMap(xs, f) + CompactMap(ys, f)
  {
    if xs == [] {
      assert xs + ys == ys;
    } else {
      assert (xs + ys)[0] == xs[0];
      assert (xs + ys)[1..] == xs[1..] + ys;
      CompactMapAppend(xs[1..], ys, f);
    }
  }

  /** When `f` never fails, `compactMap` is a plain `map`. */
  lemma {:induction false} CompactMapTotal<A, B>(xs: seq<A>, f: A -> Option<B>)
    requires forall i :: 0 <= i < |xs| ==> f(xs[i]).Some?
    ensures |CompactMap(xs, f)| == |xs|
    ensures forall i :: 0 <= i < |xs| ==> CompactMap(xs, f)[i] == f(xs[i]).value
  {
    if xs != [] {
      CompactMapTotal(xs[1..], f);
    }
  }

  /**
   * `stride(from: 0, to: |xs|, by: size).map { xs[$0 ..< min(|xs|, $0 + size)] }`:
   * consecutive slices of `size` elements, the last one possibly shorter.
   */
  function Chunks<T>(xs: seq<T>, size: nat): (r: seq<seq<T>>)
    requires size > 0
    ensures xs == [] <==> r == []
    decreases |xs|
  {
    if xs == [] then []
    else if |xs| <= size then [xs]
    else [xs[..size]] + Chunks(xs[size..], size)
  }

  function Flatten<T>(xss: seq<seq<T>>): seq<T>
  {
    if xss == [] then [] else xss[0] + Flatten(xss[1..])
  }

  /** Concatenating the chunks gives back the input. */
  lemma {:induction false} ChunksFlatten<T>(xs: seq<T>, size: nat)
    requires size > 0
    ensures Flatten(Chunks(xs, size)) == xs
    decreases |xs|
  {
    if xs == [] {
    } else if |xs| <= size {
      assert Chunks(xs, size) == [xs];
      assert Flatten([xs]) == xs + Flatten([xs][1..]);
      assert [xs][1..] == [];
    } else {
      var c := Chunks(xs, size);
      ChunksFlatten(xs[size..], size);
      assert c[0] == xs[..size];
      assert c[1..] == Chunks(xs[size..], size);
      assert xs == xs[..size] + xs[size..];
    }
  }

  /** Every chunk is non-empty and holds `size` elements, except the last, which holds at most `size`. */
  lemma {:induction false} ChunksSizes<T>(xs: seq<T>, size: nat)
    requires size > 0
    ensures forall i :: 0 <= i < |Chunks(xs, size)| ==> 0 < |Chunks(xs, size)[i]| <= size
    ensures forall i :: 0 <= i < |Chunks(xs, size)| - 1 ==> |Chunks(xs, size)[i]| == size
    // the chunk count is the ceiling of |xs| / size
    ensures (|Chunks(xs, size)| - 1) * size < |xs| <= |Chunks(xs, size)| * size || xs == []
    decreases |xs|
  {
    if xs == [] {
    } else if |xs| <= size {
    } else {
      var c := Chunks(xs, size);
      var rest := Chunks(xs[size..], size);
      ChunksSizes(xs[size..], size);
      assert c == [xs[..size]] + rest;
      assert forall i :: 1 <= i < |c| ==> c[i] == rest[i - 1];
      assert (|c| - 1) * size == (|rest| - 1) * size + size;
      assert |c| * size == |rest| * size + size;
    }
  }

  /** The chunks are exactly the stride slices: chunk `i` is `xs[i*size ..< min(|xs|, (i+1)*size)]`. */
  lemma {:induction false} ChunksStride<T>(xs: seq<T>, size: nat, i: nat)
    requires size > 0
    requires i < |Chunks(xs, size)|
    ensures i * size < |xs|
    ensures Chunks(xs, size)[i] == xs[i * size .. Min(|xs|, (i + 1) * size)]
    decreases |xs|
  {
    if |xs| <= size {
    } else if i > 0 {
      var rest := xs[size..];
      assert Chunks(xs, size)[i] == Chunks(rest, size)[i - 1];
      ChunksStride(rest, size, i - 1);
      assert (i - 1) * size + size == i * size;
      assert rest[(i - 1) * size .. Min(|rest|, i * size)] == xs[i * size .. Min(|xs|, (i + 1) * size)];
    }
  }

  lemma {:induction false} FlattenSnoc<T>(xss: seq<seq<T>>, ys: seq<T>)
    ensures Flatten(xss + [ys]) == Flatten(xss) + ys
  {
    if xss == [] {
      assert [] + [ys] == [ys];
    } else {
      assert (xss + [ys])[1..] == xss[1..] + [ys];
      FlattenSnoc(xss[1..], ys);
    }
  }

  function Min(a: int, b: int): int { if a < b then a else b }

  /**
   * A "liked by" / "reposted by" set after marking `x` as a member or not: `x` is in it exactly
   * when `member`, and every other element keeps its membership.
   */
  function Membership<T>(s: set<T>, member: bool, x: T): (r: set<T>)
    ensures x in r <==> member
    ensures forall y :: y in r && y != x ==> y in s
    ensures forall y :: y in s && y != x ==> y in r
  {
    if member then s + {x} else s - {x}
  }

  /** Marking the same membership twice changes nothing more. */
  lemma MembershipIdempotent<T>(s: set<T>, member: bool, x: T)
    ensures Membership(Membership(s, member, x), member, x) == Membership(s, member, x)
  {
  }

  /** Marking the opposite membership restores a set whose membership of `x` was the opposite. */
  lemma MembershipUndo<T>(s: set<T>, member: bool, x: T)
    requires x in s <==> !member
    ensures Membership(Membership(s, member, x), !member, x) == s
  {
  }

  /** A later marking of `x` overrides an earlier one. */
  lemma MembershipOverwrite<T>(s: set<T>, first: bool, second: bool, x: T)
    ensures Membership(Membership(s, first, x), second, x) == Membership(s, second, x)
  {
  }
}
