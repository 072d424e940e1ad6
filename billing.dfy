/** The charge for a run: the cost of the actions, whether the player could
    pay it, and the player's money afterwards. */
module Billing {

  const Int32Min := -0x8000_0000
  const Int32Max := 0x7fff_ffff
  const TwoTo32 := 0x1_0000_0000

  /** C#'s unchecked 32-bit int arithmetic: the representative of `x` modulo
      2^32 in the int range. */
  function Wrap32(x: int): (r: int)
    ensures Int32Min <= r <= Int32Max
    ensures (x - r) % TwoTo32 == 0
    ensures Int32Min <= x <= Int32Max ==> r == x
  {
    var q := (x - Int32Min) / TwoTo32;
    assert x - Int32Min == q * TwoTo32 + (x - Int32Min) % TwoTo32;
    (x - Int32Min) % TwoTo32 + Int32Min
  }

  function Max(a: int, b: int): int
  {
    if a >= b then a else b
  }

  datatype Bill = Bill(totalCost: int, enoughCash: bool, money: int)

  /** The charge as the code computes it with 32-bit ints: the product of the
      action count and the cost wraps, and so does the subtraction. */
  function ChargeAsWritten(actions: int, cost: int, money: int): Bill
  {
    var total := Wrap32(actions * cost);
    Bill(total, money >= total, Max(0, Wrap32(money - total)))
  }

  /** A large configured cost makes the total wrap to a negative number: the
      player "can pay" and is credited instead of charged. */
  lemma OverflowCreditsMoney()
    ensures var b := ChargeAsWritten(3, 0x4000_0000, 100);
      b.totalCost == -0x4000_0000 && b.enoughCash && b.money == 100 + 0x4000_0000
  {
    assert 3 * 0x4000_0000 - TwoTo32 == -0x4000_0000;
  }

  /** The charge as intended, with the arithmetic carried out without
      overflow (a 64-bit long holds every product of two ints). */
  function Charge(actions: int, cost: int, money: int): (b: Bill)
    ensures b.totalCost == actions * cost
    ensures b.enoughCash <==> money >= actions * cost
    ensures b.money >= 0
    ensures b.enoughCash ==> b.money == money - actions * cost
    ensures !b.enoughCash ==> b.money == 0
    ensures actions >= 0 && cost >= 0 && money >= 0 ==> b.money <= money
  {
    var total := actions * cost;
    Bill(total, money >= total, Max(0, money - total))
  }

  /** Whenever no intermediate value leaves the int range the code as written
      computes the intended charge. */
  lemma ChargeAsWrittenAgrees(actions: int, cost: int, money: int)
    requires Int32Min <= actions * cost <= Int32Max
    requires Int32Min <= money - actions * cost <= Int32Max
    ensures ChargeAsWritten(actions, cost, money) == Charge(actions, cost, money)
  {
  }
}
