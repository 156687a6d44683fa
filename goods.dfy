/** Goods: the catalogue entry of one tradeable good (Good.cs). */
module Goods {
  import opened Wrappers

  /** The definition read from a good's configuration file; only the fields the core uses. */
  datatype JsonGood = JsonGood(name: string, initialCost: real)

  /** A good. `index` is its identity; `mean`, `minimum` and `maximum` are the rolling price
      statistics the history fold writes, and `spaceOccupied` is the inventory space one unit
      takes. Those four are read by the market code but are not declared on the struct shown in
      Good.cs, so they are plain fields here. */
  datatype Good = Good(index: int, initialCost: real, mean: real, minimum: real, maximum: real,
                       spaceOccupied: int)
  {
    /** `Equals(Good)`: the identity of a good is its index alone. */
    predicate Equals(other: Good)
    {
      index == other.index
    }

    /** `Equals(object)`: `obj` is the boxed value, `None` when it is null or not a Good. */
    predicate EqualsObject(obj: Option<Good>)
    {
      match obj
      case Some(g) => Equals(g)
      case None => false
    }

    /** `GetHashCode`. */
    function HashCode(): int
    {
      index
    }
  }

  /** The `Good` constructor from a catalogue index and a parsed entry: the fields it does not
      set, among them `spaceOccupied`, keep their zero default. */
  function NewGood(index: int, json: JsonGood): (g: Good)
    ensures g.index == index && g.initialCost == json.initialCost
    ensures g.mean == 0.0 && g.minimum == 0.0 && g.maximum == 0.0 && g.spaceOccupied == 0
  {
    Good(index, json.initialCost, 0.0, 0.0, 0.0, 0)
  }

  /** `operator ==`. */
  predicate Eq(left: Good, right: Good)
  {
    left.Equals(right)
  }

  /** `operator !=`. */
  predicate Neq(left: Good, right: Good)
  {
    !left.Equals(right)
  }

  /** Good equality is an equivalence relation that ignores every field but the index. */
  lemma {:induction false} EqualsIsEquivalence(a: Good, b: Good, c: Good)
    ensures a.Equals(a)
    ensures a.Equals(b) ==> b.Equals(a)
    ensures a.Equals(b) && b.Equals(c) ==> a.Equals(c)
    ensures a.Equals(b) <==> a.index == b.index
  {
  }

  /** Equal goods have equal hash codes, and the hash code decides equality. */
  lemma {:induction false} HashAgreesWithEquals(a: Good, b: Good)
    ensures a.Equals(b) <==> a.HashCode() == b.HashCode()
  {
  }

  /** Two goods that differ in their initial cost, but share an index, are equal. */
  lemma {:induction false} EqualsIgnoresInitialCost(a: Good, cost: real)
    ensures a.Equals(a.(initialCost := cost))
    ensures cost != a.initialCost ==> a != a.(initialCost := cost)
  {
  }

  /** `Equals(object)` agrees with `Equals(Good)` on a boxed Good and is false otherwise. */
  lemma {:induction false} EqualsObjectAgrees(a: Good, obj: Option<Good>)
    ensures a.EqualsObject(obj) <==> obj.Some? && a.index == obj.value.index
  {
  }

  /** The operators are `Equals` and its negation. */
  lemma {:induction false} OperatorsAgree(a: Good, b: Good)
    ensures Eq(a, b) <==> a.index == b.index
    ensures Neq(a, b) <==> !Eq(a, b)
  {
  }
}
