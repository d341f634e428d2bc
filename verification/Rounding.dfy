/** Rounding profiles: prices forced to an ending, or to a multiple. */
module Rounding {
  import Money

  datatype Direction = Up | Down | Nearest

  /** A charm ending is in hundredths of a major unit, a step in minor units. */
  datatype Profile = Step(step: int, direction: Direction) | Charm(ending: int, direction: Direction)

  function WithDirection(p: Profile, d: Direction): Profile {
    p.(direction := d)
  }

  /** Minor units in a major one: 1, 100 or 1000. */
  type PerMajor = n: int | n == 1 || n == 100 || n == 1000 witness 100

  /** What the code accepts; anything else it refuses to apply. */
  predicate ValidProfile(p: Profile, perMajor: PerMajor) {
    if p.Step? then p.step >= 1 else perMajor == 1 || 0 <= p.ending < 100
  }

  function RoundStep(amount: int, step: int, direction: Direction): int
    requires step > 0
  {
    var lower := amount / step * step;
    match direction
    case Down => lower
    case Up => if lower == amount then lower else lower + step
    case Nearest =>
      if amount - lower < lower + step - amount then lower
      else if lower + step - amount < amount - lower then lower + step
      else if amount >= 0 then lower + step else lower
  }

  /** The closer of two endings to `amount`; a tie goes to the higher. */
  function Closer(amount: int, a: int, b: int): int {
    var da, db := if amount < a then a - amount else amount - a, if amount < b then b - amount else amount - b;
    if db < da || (db == da && b > a) then b else a
  }

  /**
   * Among the endings in the major units around `amount`, the one the direction asks for. A price
   * that is not negative is never offered a negative ending, and `Down` finding none below gives zero.
   */
  function RoundCharm(amount: int, ending: int, perMajor: int, direction: Direction): int
    requires perMajor > 0
  {
    var mid := amount / perMajor * perMajor + ending;
    AmongEndings(amount, mid - perMajor, mid, mid + perMajor, direction)
  }

  function AmongEndings(amount: int, low: int, mid: int, high: int, direction: Direction): int {
    var lowOffered := amount < 0 || low >= 0;
    match direction
    case Up =>
      if lowOffered && low >= amount then low else if mid >= amount then mid else high
    case Down =>
      if high <= amount then high else if mid <= amount then mid
      else if lowOffered && low <= amount then low
      else if amount >= 0 then 0 else low
    case Nearest =>
      if lowOffered then Closer(amount, Closer(amount, low, mid), high) else Closer(amount, mid, high)
  }

  /** A charm degrades to whole units where there is nothing below them. */
  function Apply(amount: int, p: Profile, perMajor: PerMajor): int
    requires ValidProfile(p, perMajor)
  {
    if p.Step? then (if p.step == 1 then amount else RoundStep(amount, p.step, p.direction))
    else if perMajor == 1 then amount
    else RoundCharm(amount, p.ending * perMajor / 100, perMajor, p.direction)
  }

  // ------------------------------------------------------------- properties

  /** `g` is one of the prices a grid of this spacing and offset allows. */
  ghost predicate OnGrid(g: int, unit: int, offset: int) {
    exists k: int :: g == k * unit + offset
  }

  lemma Floors(amount: int, unit: int)
    requires unit > 0
    ensures amount / unit * unit <= amount < amount / unit * unit + unit
  {
  }

  lemma GridSteps(k: int, j: int, unit: int)
    requires unit > 0
    ensures k < j ==> k * unit + unit <= j * unit
    ensures k > j ==> k * unit >= j * unit + unit
  {
    if k < j {
      Money.MulMonotone(k + 1, j, unit);
      Money.Products(k, unit);
    } else if k > j {
      Money.MulMonotone(j + 1, k, unit);
      Money.Products(j, unit);
    }
  }

  /** How far `r` is from `amount`. */
  function Distance(amount: int, r: int): int {
    if amount < r then r - amount else amount - r
  }

  /** A grid price at or past one side of the interval holding `amount`. */
  lemma GridAround(amount: int, unit: int, offset: int, g: int)
    requires unit > 0 && 0 <= offset < unit && OnGrid(g, unit, offset)
    ensures var base := amount / unit * unit;
            g <= base - unit + offset || g == base + offset || g >= base + unit + offset
  {
    var k: int :| g == k * unit + offset;
    GridSteps(k, amount / unit, unit);
    if k < amount / unit {
    } else if k > amount / unit {
    }
  }

  /** Of the prices allowed, `r` is the one a direction asks for next to `g`; at the same distance, the higher of two or the lower. */
  predicate Beats(amount: int, direction: Direction, r: int, g: int, tiesUp: bool) {
    && (direction == Nearest ==> Distance(amount, r) <= Distance(amount, g))
    && (direction == Nearest && Distance(amount, r) == Distance(amount, g) ==> if tiesUp then r >= g else r <= g)
    && (direction == Down ==> r <= amount && (g <= amount ==> g <= r))
    && (direction == Up ==> r >= amount && (g >= amount ==> r <= g))
  }

  /**
   * Nearest is nearest: no ending a price could take is closer, and of two as close the higher wins.
   * Down never raises and up never lowers, and neither passes over an ending on its side. A price that
   * is not negative takes no negative ending.
   */
  lemma CharmIsBest(amount: int, ending: int, perMajor: int, direction: Direction, g: int)
    requires 0 <= ending < perMajor && (amount >= 0 ==> g >= 0) && OnGrid(g, perMajor, ending)
    ensures var r := RoundCharm(amount, ending, perMajor, direction);
            (amount >= 0 ==> r >= 0) && Beats(amount, direction, r, g, true)
  {
    var base := amount / perMajor * perMajor;
    assert base <= amount < base + perMajor by {
      Floors(amount, perMajor);
    }
    assert g <= base - perMajor + ending || g == base + ending || g >= base + perMajor + ending by {
      GridAround(amount, perMajor, ending, g);
    }
    assert amount >= 0 ==> base >= 0 by {
      Floors(amount, perMajor);
      GridSteps(amount / perMajor, -1, perMajor);
    }
    BestEnding(amount, base, perMajor, ending, direction, g);
  }

  /** The ending chosen beats any other, wherever the major unit holding `amount` starts. */
  lemma BestEnding(amount: int, base: int, unit: int, ending: int, direction: Direction, g: int)
    requires base <= amount < base + unit && 0 <= ending < unit && (amount >= 0 ==> g >= 0 && base >= 0)
    requires g <= base - unit + ending || g == base + ending || g >= base + unit + ending
    ensures var r := AmongEndings(amount, base + ending - unit, base + ending, base + ending + unit, direction);
            (amount >= 0 ==> r >= 0) && Beats(amount, direction, r, g, true)
  {
  }

  /** The same of multiples of a step; of two as close, the one further from zero. */
  lemma StepIsBest(amount: int, step: int, direction: Direction, g: int)
    requires step > 0 && OnGrid(g, step, 0)
    ensures var r := RoundStep(amount, step, direction);
            (amount >= 0 ==> r >= 0) && Beats(amount, direction, r, g, amount >= 0)
  {
    Floors(amount, step);
    GridAround(amount, step, 0, g);
    if amount >= 0 {
      GridSteps(amount / step, -1, step);
    }
  }

  /** A price a profile allows: a multiple of its step, or one whose last digits are its ending, in hundredths of a major unit. */
  predicate Allows(p: Profile, perMajor: PerMajor, g: int)
    requires ValidProfile(p, perMajor)
  {
    if p.Step? then g % p.step == 0
    else perMajor == 1 || 100 * (g % perMajor) == p.ending * perMajor
  }

  /**
   * A profile applied gives a price it allows, and of all it allows the one its direction asks for.
   * The one price it gives that it does not allow is the zero below the smallest ending.
   */
  lemma AppliesTheProfile(amount: int, p: Profile, perMajor: PerMajor, g: int)
    requires ValidProfile(p, perMajor) && Allows(p, perMajor, g) && (amount >= 0 ==> g >= 0)
    ensures var r := Apply(amount, p, perMajor);
            && Beats(amount, p.direction, r, g, p.Charm? || amount >= 0)
            && (Allows(p, perMajor, r) || (p.Charm? && p.direction == Down && r == 0 && amount >= 0))
  {
    if p.Step? {
      if p.step > 1 {
        StepAllows(amount, p.step, p.direction, g);
      }
    } else if perMajor != 1 {
      var ending := p.ending * perMajor / 100;
      assert 100 * ending == p.ending * perMajor;
      CharmAllows(amount, ending, perMajor, p.direction, g);
    }
  }

  lemma StepAllows(amount: int, step: int, direction: Direction, g: int)
    requires step > 1 && g % step == 0
    ensures Beats(amount, direction, RoundStep(amount, step, direction), g, amount >= 0)
    ensures RoundStep(amount, step, direction) % step == 0
  {
    assert g == g / step * step + 0;
    StepIsBest(amount, step, direction, g);
    var q := amount / step;
    Money.Products(q, step);
    Leaves(q, step, 0);
    Leaves(q + 1, step, 0);
  }

  lemma CharmAllows(amount: int, ending: int, perMajor: int, direction: Direction, g: int)
    requires 0 <= ending < perMajor && (amount >= 0 ==> g >= 0) && g % perMajor == ending
    ensures var r := RoundCharm(amount, ending, perMajor, direction);
            && Beats(amount, direction, r, g, true)
            && (r % perMajor == ending || (direction == Down && r == 0 && amount >= 0))
  {
    assert g == g / perMajor * perMajor + ending;
    CharmIsBest(amount, ending, perMajor, direction, g);
    var q := amount / perMajor;
    Money.Products(q, perMajor);
    Money.Products(q - 1, perMajor);
    Leaves(q - 1, perMajor, ending);
    Leaves(q, perMajor, ending);
    Leaves(q + 1, perMajor, ending);
  }

  /** What a multiple of `unit` and an offset leaves over `unit`. */
  lemma Leaves(k: int, unit: int, offset: int)
    requires unit > 0 && 0 <= offset < unit
    ensures (k * unit + offset) % unit == offset
  {
    FloorOfGrid(k, unit, offset);
  }

  /** Multiples of `unit` plus an offset sit where they are found. */
  lemma FloorOfGrid(k: int, unit: int, offset: int)
    requires unit > 0 && 0 <= offset < unit
    ensures (k * unit + offset) / unit * unit == k * unit
  {
    Floors(k * unit + offset, unit);
    GridSteps(k, (k * unit + offset) / unit, unit);
  }

  /** A price on the grid is left where it is. */
  lemma CharmKeepsGrid(k: int, ending: int, perMajor: int, direction: Direction)
    requires 0 <= ending < perMajor && k * perMajor + ending >= 0
    ensures RoundCharm(k * perMajor + ending, ending, perMajor, direction) == k * perMajor + ending
  {
    FloorOfGrid(k, perMajor, ending);
  }

  lemma StepKeepsGrid(k: int, step: int, direction: Direction)
    requires step > 0
    ensures RoundStep(k * step, step, direction) == k * step
  {
    FloorOfGrid(k, step, 0);
  }

  /** Charm results are endings, or the zero below the smallest. */
  lemma CharmLandsOnGrid(amount: nat, ending: int, perMajor: int, direction: Direction) returns (k: int)
    requires 0 <= ending < perMajor
    ensures var r := RoundCharm(amount, ending, perMajor, direction);
            (r == k * perMajor + ending && r >= 0) || (direction == Down && r == 0 && ending > 0)
  {
    var q := amount / perMajor;
    OnCandidate(amount, ending, perMajor, direction, q * perMajor);
    Money.Products(q, perMajor);
    Money.Products(q - 1, perMajor);
    var r, base := RoundCharm(amount, ending, perMajor, direction), q * perMajor;
    k := if r == base - perMajor + ending then q - 1 else if r == base + ending then q else q + 1;
  }

  lemma OnCandidate(amount: nat, ending: int, perMajor: int, direction: Direction, base: int)
    requires 0 <= ending < perMajor && base == amount / perMajor * perMajor
    ensures var r := RoundCharm(amount, ending, perMajor, direction);
            (r >= 0 && (r == base - perMajor + ending || r == base + ending || r == base + perMajor + ending))
            || (direction == Down && r == 0 && ending > 0)
  {
    Floors(amount, perMajor);
  }

  /** Rounding a rounded price changes nothing, in every profile and direction. */
  lemma RoundingIsIdempotent(amount: nat, p: Profile, perMajor: PerMajor)
    requires ValidProfile(p, perMajor)
    ensures Apply(Apply(amount, p, perMajor), p, perMajor) == Apply(amount, p, perMajor)
  {
    if p.Step? {
      if p.step > 1 {
        StepIsIdempotent(amount, p.step, p.direction);
      }
    } else if perMajor != 1 {
      CharmIsIdempotent(amount, p.ending * perMajor / 100, perMajor, p.direction);
    }
  }

  lemma StepIsIdempotent(amount: nat, step: int, direction: Direction)
    requires step > 1
    ensures RoundStep(RoundStep(amount, step, direction), step, direction) == RoundStep(amount, step, direction)
  {
    var q := amount / step;
    assert (q + 1) * step == q * step + step;
    StepKeepsGrid(q, step, direction);
    StepKeepsGrid(q + 1, step, direction);
  }

  lemma CharmIsIdempotent(amount: nat, ending: int, perMajor: int, direction: Direction)
    requires 0 <= ending < perMajor
    ensures var r := RoundCharm(amount, ending, perMajor, direction);
            r >= 0 && RoundCharm(r, ending, perMajor, direction) == r
  {
    var k := CharmLandsOnGrid(amount, ending, perMajor, direction);
    var r := RoundCharm(amount, ending, perMajor, direction);
    if r == k * perMajor + ending && r >= 0 {
      CharmKeepsGrid(k, ending, perMajor, direction);
    }
  }

  /** Whatever the profile: down never raises a price, up never lowers one, and none becomes negative. */
  lemma RoundingKeepsDirection(amount: nat, p: Profile, perMajor: PerMajor)
    requires ValidProfile(p, perMajor)
    ensures var r := Apply(amount, p, perMajor);
            r >= 0 && (p.direction == Down ==> r <= amount) && (p.direction == Up ==> r >= amount)
  {
    if p.Step? {
      if p.step > 1 {
        assert 0 == 0 * p.step + 0;
        StepIsBest(amount, p.step, p.direction, 0);
      }
    } else if perMajor != 1 {
      var ending := p.ending * perMajor / 100;
      assert ending == 0 * perMajor + ending;
      CharmIsBest(amount, ending, perMajor, p.direction, ending);
    }
  }
}
