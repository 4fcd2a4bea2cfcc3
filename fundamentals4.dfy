/**
 * typescript/src/fundamentals4.ts: classes with constructors, access
 * modifiers, `#` private fields, readonly properties, a guarded setter and a
 * static member. The non-public fields their class never writes
 * (`usedCoffeeMaker`, `howStrong`, `#balance`) and the readonly `capacity` are
 * `const` here. The other public fields stay `var`, since outside code may
 * assign them; the private `_sugar`, which the setter writes, is the variable
 * `storedSugar`.
 */
module Fundamentals4 {
  import opened JsValue

  /** Coffee: two public, mutable fields set by the constructor. */
  class Coffee {
    var isBlack: bool
    var price: int

    constructor (isBlack: bool, price: int)
      ensures this.isBlack == isBlack && this.price == price
    {
      this.isBlack := isBlack;
      this.price := price;
    }
  }

  /** The script that builds `bulletCoffee` and then reprices it. */
  method BulletCoffee() returns (c: Coffee)
    ensures fresh(c)
    ensures c.isBlack && c.price == 15
  {
    c := new Coffee(true, 20);
    c.price := 15;
  }

  /** MorningCoffee: a public variant, a private flag and a protected strength. */
  class MorningCoffee {
    var variant: string
    const usedCoffeeMaker: bool := false
    const howStrong: string := "very"

    constructor ()
      ensures variant == "Espresso"
    {
      variant := "Espresso";
    }

    /** reveal(): the private flag, which nothing sets. */
    function Reveal(): (r: bool)
      ensures !r
    {
      usedCoffeeMaker
    }
  }

  /**
   * StrongCoffee extends MorningCoffee: the inherited part is the `base`
   * object, and strength() reads the protected field through it.
   */
  class StrongCoffee {
    const base: MorningCoffee

    constructor ()
      ensures fresh(base) && base.variant == "Espresso"
    {
      base := new MorningCoffee();
    }

    /** strength(): the protected field, which nothing changes. */
    function Strength(): (r: string)
      ensures r == "very"
    {
      base.howStrong
    }

    /** The inherited reveal(). */
    function Reveal(): (r: bool)
      ensures !r
    {
      base.Reveal()
    }
  }

  /** Wallet: a `#balance` field that no method writes. */
  class Wallet {
    const balance: int := 100

    constructor ()
      ensures balance == 100
    {
    }

    function GetBalance(): (r: int)
      ensures r == 100
    {
      balance
    }
  }

  /** Cup: a readonly capacity, assigned once by the constructor. */
  class Cup {
    const capacity: int

    constructor (capacity: int)
      ensures this.capacity == capacity
    {
      this.capacity := capacity;
    }
  }

  /** EkChai: a static shop name and a public flavour parameter property. */
  class EkChai {
    static const shopName: string := "EkChaiCaffe"
    var flavour: string

    constructor (flavour: string)
      ensures this.flavour == flavour
    {
      this.flavour := flavour;
    }
  }

  const InitialSugar := 2
  const MaxSugar := 5
  const TooSweet := "Too Sweet"

  /** What the sugar setter does to the stored value: a value above the limit is refused. */
  function SugarAfterSet(stored: int, value: int): (r: int)
    ensures value <= MaxSugar ==> r == value
    ensures value > MaxSugar ==> r == stored
    ensures stored <= MaxSugar ==> r <= MaxSugar
  {
    if value > MaxSugar then stored else value
  }

  /** How the sugar setter ends: it throws "Too Sweet" exactly for a value above the limit. */
  function SetterOutcome(value: int): (r: Completion<()>)
    ensures r.Normal? <==> value <= MaxSugar
    ensures r.Threw? ==> r.error == Error(TooSweet)
  {
    if value > MaxSugar then Threw(Error(TooSweet)) else Normal(())
  }

  /** ModernChai: private `_sugar` behind a getter and a guarded setter. */
  class ModernChai {
    var storedSugar: int

    /** The setter's guard keeps the stored sugar within the limit. */
    ghost predicate Valid()
      reads this
    {
      storedSugar <= MaxSugar
    }

    constructor ()
      ensures Valid()
      ensures Sugar() == InitialSugar
    {
      storedSugar := InitialSugar;
    }

    /** The `sugar` getter. */
    function Sugar(): (r: int)
      reads this
      ensures Valid() ==> r <= MaxSugar
    {
      storedSugar
    }

    /** The `sugar` setter. */
    method SetSugar(value: int) returns (outcome: Completion<()>)
      requires Valid()
      modifies this
      ensures Valid()
      ensures outcome == SetterOutcome(value)
      ensures Sugar() == SugarAfterSet(old(Sugar()), value)
    {
      if value > MaxSugar {
        return Threw(Error(TooSweet));
      }
      storedSugar := value;
      outcome := Normal(());
    }
  }

  /** The script that makes a ModernChai and sets its sugar to 3. */
  method ModernChaiScript() returns (c: ModernChai, outcome: Completion<()>)
    ensures fresh(c) && c.Valid()
    ensures outcome.Normal? && c.Sugar() == 3
  {
    c := new ModernChai();
    outcome := c.SetSugar(3);
  }

  /**
   * The stored sugar after attempting each value in turn (refused ones are
   * skipped); from a stored value within the limit, no sequence of sets leaves it.
   */
  function SugarAfterSets(stored: int, values: seq<int>): (r: int)
    ensures values == [] ==> r == stored
    ensures stored <= MaxSugar ==> r <= MaxSugar
    decreases |values|
  {
    if values == [] then stored
    else SugarAfterSets(SugarAfterSet(stored, values[0]), values[1..])
  }

  /**
   * After any sequence of sets, the stored sugar is either where it started or
   * one of the values that was accepted.
   */
  lemma {:induction false} SetsKeepAcceptedValue(stored: int, values: seq<int>)
    ensures var r := SugarAfterSets(stored, values);
      r == stored || (r in values && r <= MaxSugar)
    decreases |values|
  {
    if values != [] {
      SetsKeepAcceptedValue(SugarAfterSet(stored, values[0]), values[1..]);
      var r := SugarAfterSets(stored, values);
      assert r in values[1..] ==> r in values;
    }
  }

  /** A refused set leaves the stored sugar as it was, whatever came before. */
  lemma {:induction false} RefusedSetIsNoOp(stored: int, values: seq<int>, v: int)
    requires v > MaxSugar
    ensures SugarAfterSets(stored, values + [v]) == SugarAfterSets(stored, values)
    decreases |values|
  {
    if values != [] {
      assert (values + [v])[1..] == values[1..] + [v];
      RefusedSetIsNoOp(SugarAfterSet(stored, values[0]), values[1..], v);
    } else {
      assert (values + [v])[1..] == [];
    }
  }

  /** An accepted set is what the getter reads next, whatever came before. */
  lemma {:induction false} AcceptedSetIsRead(stored: int, values: seq<int>, v: int)
    requires v <= MaxSugar
    ensures SugarAfterSets(stored, values + [v]) == v
    decreases |values|
  {
    if values != [] {
      assert (values + [v])[1..] == values[1..] + [v];
      AcceptedSetIsRead(SugarAfterSet(stored, values[0]), values[1..], v);
    } else {
      assert (values + [v])[1..] == [];
    }
  }
}
