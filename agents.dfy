/** Agents and their wallets (Agent.cs). */
module Agents {

  /** An economic agent. `logic` is the index of its archetype. `id` and `starving` are used by
      the initialisation and the market code but are not declared on the struct shown in
      Agent.cs, so they are plain fields here. */
  datatype Agent = Agent(logic: nat, skipping: bool, averageRequirement: real, starving: bool, id: int)

  /** The `Agent` constructor that takes only the archetype. */
  function NewAgent(logic: nat): (a: Agent)
    ensures a.logic == logic && !a.skipping && a.averageRequirement == 0.0
    ensures !a.starving && a.id == 0
  {
    Agent(logic, false, 0.0, false, 0)
  }

  /** The `Agent` constructor that takes an id and the archetype, which the initialisation calls. */
  function NewAgentWithId(id: int, logic: nat): (a: Agent)
    ensures a.logic == logic && a.id == id && !a.skipping && a.averageRequirement == 0.0 && !a.starving
  {
    NewAgent(logic).(id := id)
  }

  /** An agent's money: on hand, at the start of the round, and cumulative profit. */
  datatype Wallet = Wallet(money: real, moneyLastRound: real, profit: real)
  {
    /** `Equals(Wallet)`: field by field. */
    predicate Equals(other: Wallet)
    {
      money == other.money && moneyLastRound == other.moneyLastRound && profit == other.profit
    }

    /** `Equals(object)`: `obj` is the boxed value, `None` when it is null or not a Wallet. */
    predicate EqualsObject(obj: WalletBox)
    {
      match obj
      case BoxedWallet(w) => Equals(w)
      case NotAWallet => false
    }
  }

  datatype WalletBox = NotAWallet | BoxedWallet(wallet: Wallet)

  /** The `Wallet` constructor: a wallet holding `money`. */
  function NewWallet(money: real): (w: Wallet)
    ensures w.money == money && w.moneyLastRound == money && w.profit == 0.0
  {
    Wallet(money, money, 0.0)
  }

  /** `operator ==`. */
  predicate Eq(left: Wallet, right: Wallet)
  {
    left.Equals(right)
  }

  /** `operator !=`. */
  predicate Neq(left: Wallet, right: Wallet)
  {
    !left.Equals(right)
  }

  /** Field-wise equality is exactly value identity, hence reflexive, symmetric and transitive. */
  lemma {:induction false} WalletEqualsIsIdentity(a: Wallet, b: Wallet, c: Wallet)
    ensures a.Equals(b) <==> a == b
    ensures a.Equals(a)
    ensures a.Equals(b) ==> b.Equals(a)
    ensures a.Equals(b) && b.Equals(c) ==> a.Equals(c)
  {
  }

  /** `Equals(object)` is true only for a boxed wallet with equal fields. */
  lemma {:induction false} WalletEqualsObjectAgrees(a: Wallet, obj: WalletBox)
    ensures a.EqualsObject(obj) <==> obj.BoxedWallet? && obj.wallet == a
  {
  }

  /** The operators are `Equals` and its negation. */
  lemma {:induction false} WalletOperatorsAgree(a: Wallet, b: Wallet)
    ensures Eq(a, b) <==> a == b
    ensures Neq(a, b) <==> !Eq(a, b)
  {
  }
}
