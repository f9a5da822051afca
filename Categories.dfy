/** The four household usage categories of the calculator, and the record that
    holds one figure per category (an input set or an emission breakdown). */
module Categories {

  /** A usage category, in the order in which the calculator declares its keys. */
  datatype Category = Water | Electricity | Food | Car {

    /** The object key under which the calculator stores this category. */
    function Name(): string {
      match this
      case Water => "water"
      case Electricity => "electricity"
      case Food => "food"
      case Car => "car"
    }

    /** Position of the category in the declaration order `water, electricity, food, car`. */
    function Rank(): (r: nat)
      ensures r < |AllCategories| && AllCategories[r] == this
    {
      match this
      case Water => 0
      case Electricity => 1
      case Food => 2
      case Car => 3
    }
  }

  /** The declaration order, which is also the enumeration order of the record's keys. */
  const AllCategories: seq<Category> := [Water, Electricity, Food, Car]

  /** One real figure per category, as the calculator's plain objects hold them. */
  datatype Breakdown = Breakdown(water: real, electricity: real, food: real, car: real) {

    /** The figure stored under category `c`. */
    function Get(c: Category): real {
      match c
      case Water => water
      case Electricity => electricity
      case Food => food
      case Car => car
    }

    /** The sum of the four figures: the left-to-right sum from 0 over the keys
        in declaration order, so every category contributes exactly once. */
    function Total(): (t: real)
      ensures t == SumOver(this, AllCategories)
    {
      SumOverAllCategories(this);
      0.0 + water + electricity + food + car
    }
  }

  /** Two categories with the same key are the same category. */
  lemma NameInjective(c: Category, d: Category)
    ensures c.Name() == d.Name() <==> c == d
  {
    if c != d {
      assert c.Name()[0] != d.Name()[0] || |c.Name()| != |d.Name()|;
    }
  }

  /** Sum of the figures of `b` under the categories listed in `cs`. */
  function SumOver(b: Breakdown, cs: seq<Category>): real {
    if cs == [] then 0.0 else SumOver(b, cs[..|cs| - 1]) + b.Get(cs[|cs| - 1])
  }

  /** The left fold over the four keys, unfolded one key at a time. */
  lemma SumOverAllCategories(b: Breakdown)
    ensures SumOver(b, AllCategories) == 0.0 + b.water + b.electricity + b.food + b.car
  {
    calc {
      SumOver(b, AllCategories);
      == { assert AllCategories[..3] == [Water, Electricity, Food]; }
      SumOver(b, [Water, Electricity, Food]) + b.car;
      == { assert [Water, Electricity, Food][..2] == [Water, Electricity]; }
      SumOver(b, [Water, Electricity]) + b.food + b.car;
      == { assert [Water, Electricity][..1] == [Water]; }
      SumOver(b, [Water]) + b.electricity + b.food + b.car;
      == { assert [Water][..0] == []; }
      0.0 + b.water + b.electricity + b.food + b.car;
    }
  }

  /** Totals are linear: scaling every figure scales the total. */
  lemma TotalScales(b: Breakdown, k: real)
    ensures Breakdown(b.water * k, b.electricity * k, b.food * k, b.car * k).Total() == b.Total() * k
  {
  }
}
