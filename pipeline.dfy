/** The structure the player defends. */
module Structure {

  /** Health after taking `amount` damage: never below zero. */
  function Floored(health: int, amount: int): (r: int)
    ensures r >= 0
    ensures r == 0 <==> health - amount <= 0
    ensures r > 0 ==> r == health - amount
  {
    if health - amount < 0 then 0 else health - amount
  }

  /** Several hits in a row floor once: taking a then b is taking a + b. */
  lemma FlooredTwice(health: int, a: int, b: int)
    requires a >= 0 && b >= 0
    ensures Floored(Floored(health, a), b) == Floored(health, a + b)
  {
  }

  class Pipeline {
    var health: int
    var exploded: bool

    constructor ()
      ensures health == 100 && !exploded
    {
      health, exploded := 100, false;
    }

    method TakeDamage(amount: int)
      modifies this`health
      ensures health == Floored(old(health), amount)
    {
      health := health - amount;
      if health < 0 {
        health := 0;
      }
    }

    method Explode()
      modifies this`exploded, this`health
      ensures exploded && health == 0
    {
      exploded := true;
      health := 0;
    }
  }
}
