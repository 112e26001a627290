/** The ship registry of the game: the ship record, the random draws that
    create and grow ships, and the two sums the passive-income tick reads. */
module Fleet {

  /** A value of `Math.random()`: a real in [0, 1). */
  type Unit = r: real | 0.0 <= r < 1.0

  /** One cruise ship. `x`, `y` (canvas position) and `hue` (the hue of its
      HSL colour) are fixed at purchase; `level` and `passengers` only grow. */
  datatype Ship = Ship(id: nat, x: real, y: real, level: nat, passengers: nat, hue: real)

  /** `Math.floor(r * n)`: a uniform index below `n`. */
  function Draw(r: Unit, n: nat): (k: nat)
    requires n > 0
    ensures k < n
    ensures k as real <= r * n as real < k as real + 1.0
  {
    ScaledBelow(r, n);
    (r * n as real).Floor
  }

  lemma ScaledBelow(r: Unit, n: nat)
    requires n > 0
    ensures 0.0 <= r * n as real < n as real
  {
    assert n as real - r * n as real == (1.0 - r) * n as real;
  }

  /** Passengers of a new ship, and passengers added by an upgrade:
      `Math.floor(Math.random() * 10) + 5`. */
  function NewPassengers(r: Unit): (p: nat)
    ensures 5 <= p <= 14
  {
    Draw(r, 10) + 5
  }

  /** Passengers one advertising campaign adds to one ship:
      `Math.floor(Math.random() * 5) + 1`. */
  function AdPassengers(r: Unit): (p: nat)
    ensures 1 <= p <= 5
  {
    Draw(r, 5) + 1
  }

  /** The hue of a new ship's colour: `Math.random() * 360`. */
  function Hue(r: Unit): (h: real)
    ensures 0.0 <= h < 360.0
  {
    r * 360.0
  }

  /** The income one ship earns per tick. */
  function Yield(s: Ship): nat
  {
    s.passengers * s.level
  }

  /** Σ passengers × level, summed left to right like `reduce`. */
  function Income(ships: seq<Ship>): nat
  {
    if ships == [] then 0 else Income(ships[..|ships| - 1]) + Yield(ships[|ships| - 1])
  }

  /** Σ passengers, summed left to right like `reduce`. */
  function TotalPassengers(ships: seq<Ship>): nat
  {
    if ships == [] then 0 else TotalPassengers(ships[..|ships| - 1]) + ships[|ships| - 1].passengers
  }

  /** Ship ids strictly increase in list order. */
  predicate IdsIncreasing(ships: seq<Ship>)
  {
    forall i, j :: 0 <= i < j < |ships| ==> ships[i].id < ships[j].id
  }

  /** `s'` is `s` after growth: as many ships or more, and each of the ships
      of `s` still there with at least its level and passengers. */
  predicate Dominates(s: seq<Ship>, s': seq<Ship>)
  {
    |s| <= |s'| &&
    forall i :: 0 <= i < |s| ==> s[i].level <= s'[i].level && s[i].passengers <= s'[i].passengers
  }

  /** A ship after an upgrade: one level more and 5..14 more passengers. */
  function Upgraded(s: Ship, r: Unit): (u: Ship)
    ensures u.id == s.id && u.x == s.x && u.y == s.y && u.hue == s.hue
    ensures u.level == s.level + 1
    ensures s.passengers + 5 <= u.passengers <= s.passengers + 14
  {
    s.(level := s.level + 1, passengers := s.passengers + NewPassengers(r))
  }

  /** A ship after an advertising campaign: 1..5 more passengers. */
  function Advertised(s: Ship, r: Unit): (u: Ship)
    ensures u.id == s.id && u.x == s.x && u.y == s.y && u.hue == s.hue && u.level == s.level
    ensures s.passengers + 1 <= u.passengers <= s.passengers + 5
  {
    s.(passengers := s.passengers + AdPassengers(r))
  }

  /** Every ship advertised, ship `i` with draw `rolls(i)`. */
  function AllAdvertised(ships: seq<Ship>, rolls: nat -> Unit): seq<Ship>
  {
    if ships == [] then []
    else AllAdvertised(ships[..|ships| - 1], rolls) + [Advertised(ships[|ships| - 1], rolls(|ships| - 1))]
  }

  lemma {:induction false} AllAdvertisedAt(ships: seq<Ship>, rolls: nat -> Unit)
    ensures |AllAdvertised(ships, rolls)| == |ships|
    ensures forall k :: 0 <= k < |ships| ==> AllAdvertised(ships, rolls)[k] == Advertised(ships[k], rolls(k))
  {
    if ships != [] {
      AllAdvertisedAt(ships[..|ships| - 1], rolls);
    }
  }

  /** Appending a ship adds its yield and its passengers to the two sums. */
  lemma {:induction false} SumsAppend(ships: seq<Ship>, s: Ship)
    ensures Income(ships + [s]) == Income(ships) + Yield(s)
    ensures TotalPassengers(ships + [s]) == TotalPassengers(ships) + s.passengers
  {
    assert (ships + [s])[..|ships|] == ships;
  }

  /** Replacing ship `i` by `t` changes each sum by the difference between
      the two ships. */
  lemma {:induction false} SumsUpdate(ships: seq<Ship>, i: nat, t: Ship)
    requires i < |ships|
    ensures Income(ships[i := t]) + Yield(ships[i]) == Income(ships) + Yield(t)
    ensures TotalPassengers(ships[i := t]) + ships[i].passengers == TotalPassengers(ships) + t.passengers
  {
    var n := |ships|;
    var init := ships[..n - 1];
    if i == n - 1 {
      assert ships[i := t][..n - 1] == init;
    } else {
      assert ships[i := t][..n - 1] == init[i := t];
      SumsUpdate(init, i, t);
    }
  }

  /** Growth never lowers either sum. */
  lemma {:induction false} SumsMonotone(s: seq<Ship>, s': seq<Ship>)
    requires Dominates(s, s')
    ensures Income(s) <= Income(s')
    ensures TotalPassengers(s) <= TotalPassengers(s')
    decreases |s'|
  {
    if |s| < |s'| {
      SumsMonotone(s, s'[..|s'| - 1]);
    } else if s != [] {
      var n := |s|;
      SumsMonotone(s[..n - 1], s'[..n - 1]);
      var a, b := s[n - 1], s'[n - 1];
      assert a.passengers * a.level <= b.passengers * a.level;
      assert b.passengers * a.level <= b.passengers * b.level;
    }
  }

  /** Advertising adds between one and five passengers per ship. */
  lemma {:induction false} AllAdvertisedPassengers(ships: seq<Ship>, rolls: nat -> Unit)
    ensures TotalPassengers(ships) + |ships| <= TotalPassengers(AllAdvertised(ships, rolls))
    ensures TotalPassengers(AllAdvertised(ships, rolls)) <= TotalPassengers(ships) + 5 * |ships|
  {
    if ships != [] {
      var n := |ships|;
      AllAdvertisedPassengers(ships[..n - 1], rolls);
      SumsAppend(AllAdvertised(ships[..n - 1], rolls), Advertised(ships[n - 1], rolls(n - 1)));
    }
  }

  /** Ids that strictly increase are pairwise distinct. */
  lemma IdsDistinct(ships: seq<Ship>, i: nat, j: nat)
    requires IdsIncreasing(ships)
    requires i < |ships| && j < |ships| && i != j
    ensures ships[i].id != ships[j].id
  {
    if i > j {
      assert ships[j].id < ships[i].id;
    }
  }

  /** The worked example: ships with (passengers, level) (5, 1) and (8, 2)
      earn 5·1 + 8·2 = 21 per tick and carry 13 passengers. */
  lemma IncomeExample(a: Ship, b: Ship)
    requires a.passengers == 5 && a.level == 1
    requires b.passengers == 8 && b.level == 2
    ensures Income([a, b]) == 21
    ensures TotalPassengers([a, b]) == 13
  {
    SumsAppend([], a);
    assert [] + [a] == [a];
    SumsAppend([a], b);
    assert [a] + [b] == [a, b];
  }
}
