/** Byte strings and the CRLF search shared by the buffer and the HTTP parser. */
module Text {
  import opened Options

  predicate CRLFAt(s: string, j: int) {
    0 <= j && j + 1 < |s| && s[j] == '\r' && s[j + 1] == '\n'
  }

  /** The offset of the first CRLF, as std::search finds it. */
  function FirstCRLF(s: string): (r: Option<nat>)
    ensures r.Some? ==> CRLFAt(s, r.value) && forall j :: 0 <= j < r.value ==> !CRLFAt(s, j)
    ensures r.None? ==> forall j :: !CRLFAt(s, j)
  {
    if |s| < 2 then None
    else if CRLFAt(s, 0) then Some(0)
    else
      var rest := FirstCRLF(s[1..]);
      assert forall j :: 1 <= j ==> (CRLFAt(s, j) <==> CRLFAt(s[1..], j - 1));
      if rest.None? then None else Some(rest.value + 1)
  }

  lemma FirstCRLFIs(s: string, k: nat)
    requires CRLFAt(s, k) && forall j :: 0 <= j < k ==> !CRLFAt(s, j)
    ensures FirstCRLF(s) == Some(k)
  {
    var r := FirstCRLF(s);
    assert r.Some?;
    assert !(r.value < k) && !(k < r.value);
  }
}

/** Facts about sequences that proofs call by name. */
module Sequences {

  lemma Regroup<T>(a: seq<T>, b: seq<T>, c: seq<T>)
    ensures (a + b) + c == a + (b + c)
  {
  }

  /** What is left of two lists once the head and k more are gone. */
  lemma HeadDropped<T>(a: seq<T>, b: seq<T>, k: nat)
    requires a != [] && k < |a| + |b|
    ensures (a[1..] + b)[k..] == (a + b)[k + 1..]
  {
    assert a[1..] + b == (a + b)[1..];
    assert forall i :: 0 <= i < |a| + |b| - 1 - k ==> (a[1..] + b)[k..][i] == (a + b)[k + 1..][i];
  }

  /** The front of a list is its head and the front of the rest. */
  lemma HeadTaken<T>(a: seq<T>, k: nat)
    requires 0 < k <= |a|
    ensures a[..k] == [a[0]] + a[1..][..k - 1]
  {
  }

  lemma CutJoins<T>(v: seq<T>, k: nat)
    requires k <= |v|
    ensures v[..k] + v[k..] == v
  {
  }
}

/** Concatenation of a list of byte strings. */
module Flattening {

  function Flatten(parts: seq<string>): string {
    if parts == [] then "" else Flatten(parts[..|parts| - 1]) + parts[|parts| - 1]
  }

  lemma FlattenSnoc(parts: seq<string>, part: string)
    ensures Flatten(parts + [part]) == Flatten(parts) + part
  {
    assert (parts + [part])[..|parts|] == parts;
  }

  lemma FlattenCons(part: string, parts: seq<string>)
    ensures Flatten([part] + parts) == part + Flatten(parts)
  {
    FlattenConcat([part], parts);
    assert [part][..0] == [] && Flatten([part]) == "" + part == part;
  }

  lemma {:induction false} FlattenConcat(a: seq<string>, b: seq<string>)
    ensures Flatten(a + b) == Flatten(a) + Flatten(b)
  {
    if b == [] {
      assert a + b == a;
    } else {
      var front := b[..|b| - 1];
      assert a + b == (a + front) + [b[|b| - 1]];
      FlattenSnoc(a + front, b[|b| - 1]);
      FlattenConcat(a, front);
    }
  }
}

/** A step function carried along a list. */
module Folding {

  function Fold<S, A>(step: (S, A) -> S, s: S, xs: seq<A>): S {
    if xs == [] then s else step(Fold(step, s, xs[..|xs| - 1]), xs[|xs| - 1])
  }

  lemma {:induction false} FoldConcat<S, A>(step: (S, A) -> S, s: S, a: seq<A>, b: seq<A>)
    ensures Fold(step, s, a + b) == Fold(step, Fold(step, s, a), b)
    decreases |b|
  {
    if b == [] {
      assert a + b == a;
    } else {
      var n := |b| - 1;
      assert (a + b)[..|a| + n] == a + b[..n];
      FoldConcat(step, s, a, b[..n]);
    }
  }

  lemma {:induction false} FoldKeeps<S(!new), A(!new)>(step: (S, A) -> S, inv: S -> bool, s: S, xs: seq<A>)
    requires inv(s) && forall t, x :: inv(t) ==> inv(step(t, x))
    ensures inv(Fold(step, s, xs))
    decreases |xs|
  {
    if xs != [] {
      FoldKeeps(step, inv, s, xs[..|xs| - 1]);
    }
  }
}
