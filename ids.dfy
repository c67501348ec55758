/** The fresh-id supply that stands in for `nanoid()`: a counter whose values
    are rendered as distinct strings, so every id it hands out differs from all
    earlier ones. */
module Ids {
  import Decimal

  /** The text of the `k`-th id. */
  function IdText(k: nat): (s: string)
    ensures |s| >= 4 && s[..3] == "id-"
  {
    "id-" + Decimal.NatText(k)
  }

  lemma IdTextInjective(a: nat, b: nat)
    ensures IdText(a) == IdText(b) ==> a == b
  {
    if IdText(a) == IdText(b) {
      assert IdText(a)[3..] == Decimal.NatText(a);
      assert IdText(b)[3..] == Decimal.NatText(b);
      Decimal.NatTextInjective(a, b);
    }
  }

  class IdSupply {
    var next: nat
    /** Every id handed out so far, in order. */
    ghost var issued: seq<string>

    ghost predicate Valid()
      reads this
    {
      |issued| == next &&
      forall k :: 0 <= k < next ==> issued[k] == IdText(k)
    }

    constructor()
      ensures Valid()
      ensures issued == []
    {
      next := 0;
      issued := [];
    }

    /** `nanoid()`: an id never handed out before. */
    method Mint() returns (id: string)
      requires Valid()
      modifies this
      ensures Valid()
      ensures id !in old(issued)
      ensures issued == old(issued) + [id]
    {
      id := IdText(next);
      forall k | 0 <= k < next
        ensures issued[k] != id
      {
        IdTextInjective(k, next);
      }
      issued := issued + [id];
      next := next + 1;
    }
  }
}
