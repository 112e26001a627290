/** The game economy as values: the game state, the three priced actions,
    the passive-income tick, the enable predicates of the three buttons, and
    what holds after any interleaving of actions and ticks. */
module Economy {
  import opened Fleet

  const StartMoney := 1000
  const StartReputation := 50
  const ShipPrice := 500
  const UpgradePrice := 300
  const AdvertisePrice := 200
  const MaxReputation := 100
  const UpgradeReputation := 2
  const AdvertiseReputation := 5

  /** The game state: money, the passenger total shown to the player (as of
      the last tick), reputation, the ships in purchase order and the last
      id handed out. */
  datatype State = State(money: int, passengers: int, reputation: int, ships: seq<Ship>, lastShipId: nat)

  /** The state at the start of a session. */
  const Initial := State(StartMoney, 0, StartReputation, [], 0)

  /** What an action returns (`true` when it went through) and the state after it. */
  datatype Outcome = Outcome(ok: bool, next: State)

  /** One thing that can happen in a session, with the random draws it makes. */
  datatype Action =
    | Buy(x: real, y: real, passengerDraw: Unit, hueDraw: Unit)
    | Upgrade(targetDraw: Unit, passengerDraw: Unit)
    | Advert(draws: nat -> Unit)
    | Tick

  /** The invariant of the game state: money is never negative, reputation
      stays in [0, 100], ids strictly increase, are positive and never above
      the id counter, and every ship has level 1 or more. */
  predicate Valid(s: State)
  {
    s.money >= 0 && s.passengers >= 0 &&
    0 <= s.reputation <= MaxReputation &&
    IdsIncreasing(s.ships) &&
    forall i :: 0 <= i < |s.ships| ==> 1 <= s.ships[i].id <= s.lastShipId && s.ships[i].level >= 1
  }

  /** `s'` is a later state of the same session than `s`: the id counter has
      not gone down, no ship has gone, and every ship keeps its id, position
      and colour and has not lost a level or a passenger. */
  predicate Evolves(s: State, s': State)
  {
    s.lastShipId <= s'.lastShipId &&
    Dominates(s.ships, s'.ships) &&
    forall i :: 0 <= i < |s.ships| ==>
      s'.ships[i].id == s.ships[i].id && s'.ships[i].x == s.ships[i].x &&
      s'.ships[i].y == s.ships[i].y && s'.ships[i].hue == s.ships[i].hue
  }

  /** `Math.min(100, r + delta)`. */
  function RaiseReputation(r: int, delta: nat): (r': int)
    ensures r' <= MaxReputation
    ensures r <= MaxReputation ==> r <= r'
    ensures r' <= r + delta
    ensures r' == r + delta || r' == MaxReputation
  {
    if r + delta < MaxReputation then r + delta else MaxReputation
  }

  /** The buy button is disabled exactly when money is below the ship price. */
  predicate BuyDisabled(s: State)
  {
    s.money < ShipPrice
  }

  /** The upgrade button is disabled when money is short or there is no ship. */
  predicate UpgradeDisabled(s: State)
  {
    s.money < UpgradePrice || |s.ships| == 0
  }

  /** The advertise button is disabled exactly when money is short. */
  predicate AdvertiseDisabled(s: State)
  {
    s.money < AdvertisePrice
  }

  /** Buying a ship at (`x`, `y`): rejected when the buy button is disabled;
      otherwise costs 500 and appends one level-1 ship with the next id. */
  function AddShip(s: State, x: real, y: real, passengerDraw: Unit, hueDraw: Unit): (o: Outcome)
    ensures o.ok == !BuyDisabled(s)
    ensures !o.ok ==> o.next == s
    ensures o.ok ==>
      o.next.money == s.money - ShipPrice &&
      o.next.lastShipId == s.lastShipId + 1 &&
      o.next.reputation == s.reputation && o.next.passengers == s.passengers &&
      |o.next.ships| == |s.ships| + 1 && o.next.ships[..|s.ships|] == s.ships
    ensures o.ok ==>
      var ship := o.next.ships[|s.ships|];
      ship.id == o.next.lastShipId && ship.level == 1 && 5 <= ship.passengers <= 14 &&
      ship.x == x && ship.y == y && 0.0 <= ship.hue < 360.0
  {
    if s.money < ShipPrice then Outcome(false, s)
    else
      var id := s.lastShipId + 1;
      var ship := Ship(id, x, y, 1, NewPassengers(passengerDraw), Hue(hueDraw));
      assert (s.ships + [ship])[..|s.ships|] == s.ships;
      Outcome(true, s.(money := s.money - ShipPrice, lastShipId := id, ships := s.ships + [ship]))
  }

  /** Upgrading the ship at index `Math.floor(targetDraw * |ships|)`: rejected
      when the upgrade button is disabled; otherwise costs 300, upgrades that
      one ship, leaves every other ship as it was, and raises reputation by 2
      up to 100. */
  function UpgradeRandomShip(s: State, targetDraw: Unit, passengerDraw: Unit): (o: Outcome)
    ensures o.ok == !UpgradeDisabled(s)
    ensures !o.ok ==> o.next == s
    ensures o.ok ==>
      var i := Draw(targetDraw, |s.ships|);
      o.next.money == s.money - UpgradePrice &&
      o.next.reputation == RaiseReputation(s.reputation, UpgradeReputation) &&
      o.next.lastShipId == s.lastShipId && o.next.passengers == s.passengers &&
      |o.next.ships| == |s.ships| &&
      o.next.ships[i] == Upgraded(s.ships[i], passengerDraw) &&
      forall j :: 0 <= j < |s.ships| && j != i ==> o.next.ships[j] == s.ships[j]
  {
    if s.money < UpgradePrice || |s.ships| == 0 then Outcome(false, s)
    else
      var i := Draw(targetDraw, |s.ships|);
      Outcome(true, s.(money := s.money - UpgradePrice,
                       ships := s.ships[i := Upgraded(s.ships[i], passengerDraw)],
                       reputation := RaiseReputation(s.reputation, UpgradeReputation)))
  }

  /** Advertising: rejected when the advertise button is disabled; otherwise
      costs 200, raises reputation by 5 up to 100, and gives ship `k` between
      1 and 5 more passengers (draw `draws(k)`), changing nothing else. */
  function Advertise(s: State, draws: nat -> Unit): (o: Outcome)
    ensures o.ok == !AdvertiseDisabled(s)
    ensures !o.ok ==> o.next == s
    ensures o.ok ==>
      o.next.money == s.money - AdvertisePrice &&
      o.next.reputation == RaiseReputation(s.reputation, AdvertiseReputation) &&
      o.next.lastShipId == s.lastShipId && o.next.passengers == s.passengers &&
      |o.next.ships| == |s.ships| &&
      forall k :: 0 <= k < |s.ships| ==> o.next.ships[k] == Advertised(s.ships[k], draws(k))
  {
    if s.money < AdvertisePrice then Outcome(false, s)
    else
      AllAdvertisedAt(s.ships, draws);
      Outcome(true, s.(money := s.money - AdvertisePrice,
                       reputation := RaiseReputation(s.reputation, AdvertiseReputation),
                       ships := AllAdvertised(s.ships, draws)))
  }

  /** The passive-income tick: money grows by Σ passengers × level and the
      passenger total is recomputed; the ships are not touched. */
  function IncomeTick(s: State): (t: State)
    ensures t.money == s.money + Income(s.ships) && t.money >= s.money
    ensures t.passengers == TotalPassengers(s.ships)
    ensures t.ships == s.ships && t.reputation == s.reputation && t.lastShipId == s.lastShipId
  {
    s.(money := s.money + Income(s.ships), passengers := TotalPassengers(s.ships))
  }

  /** The state after one action. */
  function Step(s: State, a: Action): State
  {
    match a
    case Buy(x, y, pd, hd) => AddShip(s, x, y, pd, hd).next
    case Upgrade(td, pd) => UpgradeRandomShip(s, td, pd).next
    case Advert(draws) => Advertise(s, draws).next
    case Tick => IncomeTick(s)
  }

  /** The state after a sequence of actions, in order. */
  function Run(s: State, acts: seq<Action>): State
    decreases |acts|
  {
    if acts == [] then s else Run(Step(s, acts[0]), acts[1..])
  }

  /** The session starts in a valid state. */
  lemma InitialValid()
    ensures Valid(Initial)
    ensures Initial.money == 1000 && Initial.reputation == 50 && Initial.ships == []
  {
  }

  /** Every action and every tick keeps the invariant. */
  lemma StepValid(s: State, a: Action)
    requires Valid(s)
    ensures Valid(Step(s, a))
  {
    match a
    case Buy(x, y, pd, hd) => AddShipValid(s, x, y, pd, hd);
    case Upgrade(td, pd) => UpgradeValid(s, td, pd);
    case Advert(draws) => AdvertiseValid(s, draws);
    case Tick =>
  }

  lemma AddShipValid(s: State, x: real, y: real, pd: Unit, hd: Unit)
    requires Valid(s)
    ensures Valid(AddShip(s, x, y, pd, hd).next)
  {
    var o := AddShip(s, x, y, pd, hd);
    if o.ok {
      var t, n := o.next, |s.ships|;
      assert forall i :: 0 <= i < n ==> t.ships[i] == s.ships[i] by {
        forall i | 0 <= i < n ensures t.ships[i] == s.ships[i] {
          assert t.ships[..n][i] == s.ships[i];
        }
      }
      forall i, j | 0 <= i < j < |t.ships|
        ensures t.ships[i].id < t.ships[j].id
      {
        if j < n {
          assert s.ships[i].id < s.ships[j].id;
        }
      }
    }
  }

  lemma UpgradeValid(s: State, td: Unit, pd: Unit)
    requires Valid(s)
    ensures Valid(UpgradeRandomShip(s, td, pd).next)
  {
    var o := UpgradeRandomShip(s, td, pd);
    if o.ok {
      var t, k := o.next, Draw(td, |s.ships|);
      assert forall i :: 0 <= i < |t.ships| ==> t.ships[i].id == s.ships[i].id && t.ships[i].level >= s.ships[i].level by {
        forall i | 0 <= i < |t.ships|
          ensures t.ships[i].id == s.ships[i].id && t.ships[i].level >= s.ships[i].level
        {
          if i != k {
            assert t.ships[i] == s.ships[i];
          }
        }
      }
    }
  }

  lemma AdvertiseValid(s: State, draws: nat -> Unit)
    requires Valid(s)
    ensures Valid(Advertise(s, draws).next)
  {
    var o := Advertise(s, draws);
    if o.ok {
      var t := o.next;
      assert forall i :: 0 <= i < |t.ships| ==> t.ships[i].id == s.ships[i].id && t.ships[i].level == s.ships[i].level by {
        forall i | 0 <= i < |t.ships|
          ensures t.ships[i].id == s.ships[i].id && t.ships[i].level == s.ships[i].level
        {
          assert t.ships[i] == Advertised(s.ships[i], draws(i));
        }
      }
    }
  }

  /** Every action and every tick only lets the session move forward. */
  lemma StepEvolves(s: State, a: Action)
    ensures Evolves(s, Step(s, a))
  {
    match a
    case Buy(x, y, pd, hd) =>
      var o := AddShip(s, x, y, pd, hd);
      if o.ok {
        forall i | 0 <= i < |s.ships|
          ensures o.next.ships[i] == s.ships[i]
        {
          assert o.next.ships[..|s.ships|][i] == s.ships[i];
        }
      }
    case Upgrade(td, pd) =>
    case Advert(draws) =>
    case Tick =>
  }

  lemma EvolvesTransitive(s: State, s': State, s'': State)
    requires Evolves(s, s') && Evolves(s', s'')
    ensures Evolves(s, s'')
  {
  }

  /** Any run of actions and ticks from a valid state ends in a valid,
      later state. */
  lemma {:induction false} RunValid(s: State, acts: seq<Action>)
    requires Valid(s)
    ensures Valid(Run(s, acts))
    ensures Evolves(s, Run(s, acts))
    decreases |acts|
  {
    if acts != [] {
      var t := Step(s, acts[0]);
      StepValid(s, acts[0]);
      StepEvolves(s, acts[0]);
      RunValid(t, acts[1..]);
      EvolvesTransitive(s, t, Run(t, acts[1..]));
    }
  }

  /** From the start of a session, under any interleaving of actions and
      ticks, money is never negative, reputation stays in [0, 100], and ship
      ids strictly increase (so are distinct) and never exceed the counter. */
  lemma SessionSafe(acts: seq<Action>)
    ensures Run(Initial, acts).money >= 0
    ensures 0 <= Run(Initial, acts).reputation <= 100
    ensures IdsIncreasing(Run(Initial, acts).ships)
    ensures forall i :: 0 <= i < |Run(Initial, acts).ships| ==>
      Run(Initial, acts).ships[i].id <= Run(Initial, acts).lastShipId
  {
    InitialValid();
    RunValid(Initial, acts);
  }

  /** Income per tick never falls over a session: ships are never removed
      and never lose levels or passengers. */
  lemma IncomeNeverFalls(s: State, acts: seq<Action>)
    requires Valid(s)
    ensures Income(s.ships) <= Income(Run(s, acts).ships)
    ensures TotalPassengers(s.ships) <= TotalPassengers(Run(s, acts).ships)
  {
    RunValid(s, acts);
    SumsMonotone(s.ships, Run(s, acts).ships);
  }

  /** A bought ship gets an id no ship of the session has had: above every
      existing id. */
  lemma AddShipFreshId(s: State, x: real, y: real, pd: Unit, hd: Unit)
    requires Valid(s)
    ensures var o := AddShip(s, x, y, pd, hd);
      o.ok ==> forall i :: 0 <= i < |s.ships| ==> s.ships[i].id < o.next.ships[|s.ships|].id
  {
  }

  /** What each successful action does to the next tick's income and
      passenger total: a purchase adds the new ship's passengers to both; an
      upgrade adds the difference between the upgraded and the old ship; an
      advertising campaign adds 1 to 5 passengers per ship. */
  lemma AddShipSums(s: State, x: real, y: real, pd: Unit, hd: Unit)
    ensures var o := AddShip(s, x, y, pd, hd);
      o.ok ==>
        var p := o.next.ships[|s.ships|].passengers;
        Income(o.next.ships) == Income(s.ships) + p &&
        TotalPassengers(o.next.ships) == TotalPassengers(s.ships) + p
  {
    var o := AddShip(s, x, y, pd, hd);
    if o.ok {
      var ship := o.next.ships[|s.ships|];
      assert o.next.ships == s.ships + [ship];
      SumsAppend(s.ships, ship);
    }
  }

  lemma UpgradeSums(s: State, td: Unit, pd: Unit)
    ensures var o := UpgradeRandomShip(s, td, pd);
      o.ok ==>
        var i := Draw(td, |s.ships|);
        Income(o.next.ships) == Income(s.ships) + Yield(o.next.ships[i]) - Yield(s.ships[i]) &&
        TotalPassengers(s.ships) + 5 <= TotalPassengers(o.next.ships) <= TotalPassengers(s.ships) + 14
  {
    var o := UpgradeRandomShip(s, td, pd);
    if o.ok {
      var i := Draw(td, |s.ships|);
      assert o.next.ships == s.ships[i := Upgraded(s.ships[i], pd)];
      SumsUpdate(s.ships, i, Upgraded(s.ships[i], pd));
    }
  }

  lemma AdvertiseSums(s: State, draws: nat -> Unit)
    ensures var o := Advertise(s, draws);
      o.ok ==>
        TotalPassengers(s.ships) + |s.ships| <= TotalPassengers(o.next.ships) <= TotalPassengers(s.ships) + 5 * |s.ships| &&
        Income(s.ships) <= Income(o.next.ships)
  {
    var o := Advertise(s, draws);
    if o.ok {
      AllAdvertisedAt(s.ships, draws);
      assert o.next.ships == AllAdvertised(s.ships, draws);
      AllAdvertisedPassengers(s.ships, draws);
      SumsMonotone(s.ships, o.next.ships);
    }
  }

  /** One tick over ships with (passengers, level) (5, 1) and (8, 2) adds 21
      to money and sets the passenger total to 13. */
  lemma TickExample(s: State)
    requires |s.ships| == 2
    requires s.ships[0].passengers == 5 && s.ships[0].level == 1
    requires s.ships[1].passengers == 8 && s.ships[1].level == 2
    ensures IncomeTick(s).money == s.money + 21
    ensures IncomeTick(s).passengers == 13
  {
    assert s.ships == [s.ships[0], s.ships[1]];
    IncomeExample(s.ships[0], s.ships[1]);
  }

  /** From the start: buy (1000 → 500), upgrade the only ship (→ 200, level
      2), advertise (200 is not below 200, so → 0). Reputation ends at
      50 + 2 + 5 = 57. */
  lemma Scenario(x: real, y: real, pd: Unit, hd: Unit, td: Unit, ud: Unit, draws: nat -> Unit)
    ensures var t := Run(Initial, [Buy(x, y, pd, hd), Upgrade(td, ud), Advert(draws)]);
      t.money == 0 && t.reputation == 57 && |t.ships| == 1 &&
      t.ships[0].id == 1 && t.ships[0].level == 2 && t.lastShipId == 1
  {
    var acts := [Buy(x, y, pd, hd), Upgrade(td, ud), Advert(draws)];
    var s1 := Step(Initial, acts[0]);
    var s2 := Step(s1, acts[1]);
    var s3 := Step(s2, acts[2]);
    assert Run(Initial, acts) == Run(s1, acts[1..]);
    assert Run(s1, acts[1..]) == Run(s2, acts[1..][1..]);
    assert Run(s2, acts[1..][1..]) == Run(s3, acts[1..][1..][1..]);
    assert acts[1..][1..][1..] == [];
    assert s1.money == 500 && |s1.ships| == 1 && s1.ships[0].id == 1 && s1.ships[0].level == 1;
    assert Draw(td, 1) == 0;
    assert s2.money == 200 && s2.reputation == 52 && s2.ships[0].level == 2;
  }
}
