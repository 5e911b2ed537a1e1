/** The pattern shared by the two streaming generators and by the provider
    filter: walk a finite sequence item by item, keep some items' images,
    skip the others, and stop at the first item whose processing raises.
    An upstream stream is a finite sequence of chunks followed by how the
    iteration ended. */
module Relay {

  /** What processing one item does: nothing, produce one output, or raise. */
  datatype Step<+O, +E> = Skip | Keep(out: O) | Raise(error: E)

  /** How iterating the upstream ended after its last chunk. */
  datatype End<+E> = Completed | Broken(error: E)

  /** No item of `s` raises. */
  predicate NoRaise<C, O, E>(s: seq<C>, step: C -> Step<O, E>)
  {
    forall i :: 0 <= i < |s| ==> !step(s[i]).Raise?
  }

  /** How many items of `s` produce an output. */
  function KeptCount<C, O, E>(s: seq<C>, step: C -> Step<O, E>): nat
  {
    if s == [] then 0 else (if step(s[0]).Keep? then 1 else 0) + KeptCount(s[1..], step)
  }

  /** The outputs of the items of `s` that produce one, in the order of `s`. */
  function Kept<C, O, E>(s: seq<C>, step: C -> Step<O, E>): (r: seq<O>)
    ensures |r| == KeptCount(s, step)
  {
    if s == [] then []
    else (if step(s[0]).Keep? then [step(s[0]).out] else []) + Kept(s[1..], step)
  }

  /** Index of the first item that raises, or `|s|` when none does. */
  function FirstRaise<C, O, E>(s: seq<C>, step: C -> Step<O, E>): (k: nat)
    ensures k <= |s| && NoRaise(s[..k], step)
    ensures k < |s| ==> step(s[k]).Raise?
  {
    if s == [] then 0
    else if step(s[0]).Raise? then 0
    else
      var k := 1 + FirstRaise(s[1..], step);
      assert forall i :: 1 <= i < k ==> s[..k][i] == s[1..][..k - 1][i - 1];
      k
  }

  /** The first raising item is the one after a raise-free prefix. */
  lemma FirstRaiseExact<C, O, E>(s: seq<C>, step: C -> Step<O, E>, i: nat)
    requires i <= |s| && NoRaise(s[..i], step)
    requires i < |s| ==> step(s[i]).Raise?
    ensures FirstRaise(s, step) == i
  {
    var k := FirstRaise(s, step);
    assert forall m :: 0 <= m < i ==> s[..i][m] == s[m];
    assert forall m :: 0 <= m < k ==> s[..k][m] == s[m];
  }

  /** The output of a generator that processes the chunks `s` in order,
      yields `onError(e)` and stops at the first error `e` (a chunk that
      raises, or an iteration that ends `Broken`). */
  function Stream<C, O, E>(s: seq<C>, end: End<E>, step: C -> Step<O, E>, onError: E -> O): seq<O>
  {
    if s == [] then (if end.Broken? then [onError(end.error)] else [])
    else
      match step(s[0])
      case Skip => Stream(s[1..], end, step, onError)
      case Keep(o) => [o] + Stream(s[1..], end, step, onError)
      case Raise(e) => [onError(e)]
  }

  /** The single error output a stream ends with, if any. */
  function Terminal<C, O, E>(s: seq<C>, end: End<E>, step: C -> Step<O, E>, onError: E -> O): (t: seq<O>)
    ensures |t| <= 1
  {
    var k := FirstRaise(s, step);
    if k < |s| then [onError(step(s[k]).error)]
    else if end.Broken? then [onError(end.error)]
    else []
  }

  lemma {:induction false} KeptAppend<C, O, E>(a: seq<C>, b: seq<C>, step: C -> Step<O, E>)
    ensures Kept(a + b, step) == Kept(a, step) + Kept(b, step)
    ensures KeptCount(a + b, step) == KeptCount(a, step) + KeptCount(b, step)
  {
    if a == [] {
      assert a + b == b;
    } else {
      assert (a + b)[0] == a[0];
      assert (a + b)[1..] == a[1..] + b;
      KeptAppend(a[1..], b, step);
    }
  }

  /** Counting producers over a longer prefix never gives fewer. */
  lemma KeptCountMono<C, O, E>(s: seq<C>, step: C -> Step<O, E>, i: nat, j: nat)
    requires i <= |s| && j <= |s|
    ensures i <= j ==> KeptCount(s[..i], step) <= KeptCount(s[..j], step)
  {
    if i <= j {
      assert s[..j] == s[..i] + s[i..j];
      KeptAppend(s[..i], s[i..j], step);
    }
  }

  /** Nothing is dropped: an item that produces an output has it at the
      position given by the number of producing items before it. */
  lemma {:induction false} KeptAt<C, O, E>(s: seq<C>, step: C -> Step<O, E>, j: nat)
    requires j < |s| && step(s[j]).Keep?
    ensures KeptCount(s[..j], step) < |Kept(s, step)|
    ensures Kept(s, step)[KeptCount(s[..j], step)] == step(s[j]).out
  {
    assert s == s[..j] + [s[j]] + s[j + 1..];
    KeptAppend(s[..j] + [s[j]], s[j + 1..], step);
    KeptAppend(s[..j], [s[j]], step);
    assert Kept([s[j]], step) == [step(s[j]).out] by {
      assert [s[j]][1..] == [];
    }
  }

  /** Nothing is invented or duplicated: the output at position `i` is the
      image of exactly one producing item, the one with `i` producers before
      it. */
  lemma {:induction false} KeptFrom<C, O, E>(s: seq<C>, step: C -> Step<O, E>, i: nat)
    requires i < |Kept(s, step)|
    ensures exists j :: 0 <= j < |s| && KeptCount(s[..j], step) == i
                        && step(s[j]) == Keep(Kept(s, step)[i])
  {
    assert s != [];
    assert s[..0] == [];
    if step(s[0]).Keep? && i == 0 {
      assert step(s[0]) == Keep(Kept(s, step)[0]);
    } else {
      var d := if step(s[0]).Keep? then 1 else 0;
      assert Kept(s, step)[i] == Kept(s[1..], step)[i - d];
      KeptFrom(s[1..], step, i - d);
      var j :| 0 <= j < |s[1..]| && KeptCount(s[1..][..j], step) == i - d
                && step(s[1..][j]) == Keep(Kept(s[1..], step)[i - d]);
      assert s[..j + 1] == [s[0]] + s[1..][..j];
      KeptAppend([s[0]], s[1..][..j], step);
      assert KeptCount([s[0]], step) == d by {
        assert [s[0]][1..] == [];
      }
    }
  }

  /** Outputs come in the order of the items that produced them. */
  lemma KeptOrder<C, O, E>(s: seq<C>, step: C -> Step<O, E>, a: nat, b: nat) returns (i: nat, j: nat)
    requires a < b < |Kept(s, step)|
    ensures i < j < |s| && step(s[i]) == Keep(Kept(s, step)[a]) && step(s[j]) == Keep(Kept(s, step)[b])
  {
    KeptFrom(s, step, a);
    i :| 0 <= i < |s| && KeptCount(s[..i], step) == a && step(s[i]) == Keep(Kept(s, step)[a]);
    KeptFrom(s, step, b);
    j :| 0 <= j < |s| && KeptCount(s[..j], step) == b && step(s[j]) == Keep(Kept(s, step)[b]);
    KeptCountMono(s, step, j, i);
  }

  lemma TerminalTail<C, O, E>(s: seq<C>, end: End<E>, step: C -> Step<O, E>, onError: E -> O)
    requires s != [] && !step(s[0]).Raise?
    ensures FirstRaise(s, step) == 1 + FirstRaise(s[1..], step)
    ensures Terminal(s, end, step, onError) == Terminal(s[1..], end, step, onError)
  {
    var k := FirstRaise(s[1..], step);
    assert k < |s[1..]| ==> s[1..][k] == s[k + 1];
  }

  /** Unfolds `Kept` once on a non-empty prefix. */
  lemma KeptPrefixTail<C, O, E>(s: seq<C>, step: C -> Step<O, E>, k: nat)
    requires k < |s|
    ensures Kept(s[..k + 1], step)
            == (if step(s[0]).Keep? then [step(s[0]).out] else []) + Kept(s[1..][..k], step)
  {
    var p := s[..k + 1];
    assert p[0] == s[0];
    assert p[1..] == s[1..][..k];
  }

  /** Every stream is the outputs of the chunks before the first failure,
      in upstream order, followed by at most one error output. */
  lemma {:induction false} StreamShape<C, O, E>(s: seq<C>, end: End<E>, step: C -> Step<O, E>, onError: E -> O)
    ensures Stream(s, end, step, onError)
            == Kept(s[..FirstRaise(s, step)], step) + Terminal(s, end, step, onError)
  {
    if s != [] && !step(s[0]).Raise? {
      StreamShape(s[1..], end, step, onError);
      TerminalTail(s, end, step, onError);
      KeptPrefixTail(s, step, FirstRaise(s[1..], step));
    } else {
      assert s[..0] == [];
    }
  }

  /** A failure after the chunks already relayed adds exactly one error
      output after them. */
  lemma StreamBroken<C, O, E>(s: seq<C>, e: E, step: C -> Step<O, E>, onError: E -> O)
    requires NoRaise(s, step)
    ensures Stream(s, Broken(e), step, onError) == Stream(s, Completed, step, onError) + [onError(e)]
  {
    StreamShape(s, Broken(e), step, onError);
    StreamShape(s, Completed, step, onError);
  }
}
