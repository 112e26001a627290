/** The game-state object of a session, whose fields the actions and the
    income tick update in place. Each method is proved against the matching
    function of `Economy`, and keeps that module's invariant. */
module Tycoon {
  import opened Fleet
  import opened Economy

  /** Where the buy button puts a new ship on a `width` × `height` canvas:
      x in the middle 60% of the width, y in the band from 70% to 90% of the
      height. */
  function ButtonPlacement(width: real, height: real, xDraw: Unit, yDraw: Unit): (p: (real, real))
    requires width >= 0.0 && height >= 0.0
    ensures 0.2 * width <= p.0 <= 0.8 * width
    ensures 0.7 * height <= p.1 <= 0.9 * height
  {
    var dx := Scaled(xDraw, width * 0.6);
    var dy := Scaled(yDraw, height * 0.2);
    (width * 0.2 + dx, height * 0.7 + dy)
  }

  /** `r * w`, a point of [0, `w`]. */
  function Scaled(r: Unit, w: real): (d: real)
    requires w >= 0.0
    ensures 0.0 <= d <= w
  {
    NonNegativeProduct(r, w);
    NonNegativeProduct(1.0 - r, w);
    assert w - r * w == (1.0 - r) * w;
    r * w
  }

  lemma NonNegativeProduct(a: real, b: real)
    requires a >= 0.0 && b >= 0.0
    ensures a * b >= 0.0
  {
  }

  class GameState {
    var money: int
    var passengers: int
    var reputation: int
    var ships: seq<Ship>
    var lastShipId: nat

    /** The fields as a value of `Economy.State`. */
    function Snapshot(): State
      reads this
    {
      State(money, passengers, reputation, ships, lastShipId)
    }

    ghost predicate Valid()
      reads this
    {
      Economy.Valid(Snapshot())
    }

    /** A new session: 1000 money, reputation 50, no ships. */
    constructor ()
      ensures Valid()
      ensures Snapshot() == Initial
    {
      money, passengers, reputation, ships, lastShipId := StartMoney, 0, StartReputation, [], 0;
      InitialValid();
    }

    /** Buys a ship at (`x`, `y`), or returns false and changes nothing. */
    method AddShip(x: real, y: real, passengerDraw: Unit, hueDraw: Unit) returns (ok: bool)
      requires Valid()
      modifies this
      ensures Valid()
      ensures var o := Economy.AddShip(old(Snapshot()), x, y, passengerDraw, hueDraw);
        ok == o.ok && Snapshot() == o.next
    {
      if money < ShipPrice {
        return false;
      }
      money := money - ShipPrice;
      lastShipId := lastShipId + 1;
      var ship := Ship(lastShipId, x, y, 1, NewPassengers(passengerDraw), Hue(hueDraw));
      ships := ships + [ship];
      ok := true;
      AddShipValid(old(Snapshot()), x, y, passengerDraw, hueDraw);
    }

    /** The buy button: places the ship at random in the lower band of the
        canvas and buys it there. */
    method BuyButton(width: real, height: real, xDraw: Unit, yDraw: Unit, passengerDraw: Unit, hueDraw: Unit)
      returns (ok: bool)
      requires Valid()
      requires width >= 0.0 && height >= 0.0
      modifies this
      ensures Valid()
      ensures var p := ButtonPlacement(width, height, xDraw, yDraw);
        var o := Economy.AddShip(old(Snapshot()), p.0, p.1, passengerDraw, hueDraw);
        ok == o.ok && Snapshot() == o.next
    {
      var p := ButtonPlacement(width, height, xDraw, yDraw);
      ok := AddShip(p.0, p.1, passengerDraw, hueDraw);
    }

    /** Upgrades the ship at index `Math.floor(targetDraw * |ships|)`, or
        returns false and changes nothing. */
    method UpgradeRandomShip(targetDraw: Unit, passengerDraw: Unit) returns (ok: bool)
      requires Valid()
      modifies this
      ensures Valid()
      ensures var o := Economy.UpgradeRandomShip(old(Snapshot()), targetDraw, passengerDraw);
        ok == o.ok && Snapshot() == o.next
    {
      if money < UpgradePrice || |ships| == 0 {
        return false;
      }
      money := money - UpgradePrice;
      var i := Draw(targetDraw, |ships|);
      var ship := ships[i];
      ship := ship.(level := ship.level + 1);
      ship := ship.(passengers := ship.passengers + NewPassengers(passengerDraw));
      ships := ships[i := ship];
      reputation := RaiseReputation(reputation, UpgradeReputation);
      ok := true;
      UpgradeValid(old(Snapshot()), targetDraw, passengerDraw);
    }

    /** Runs an advertising campaign, adding passengers to every ship one by
        one, or returns false and changes nothing. */
    method Advertise(draws: nat -> Unit) returns (ok: bool)
      requires Valid()
      modifies this
      ensures Valid()
      ensures var o := Economy.Advertise(old(Snapshot()), draws);
        ok == o.ok && Snapshot() == o.next
    {
      if money < AdvertisePrice {
        return false;
      }
      money := money - AdvertisePrice;
      reputation := RaiseReputation(reputation, AdvertiseReputation);
      var k := 0;
      while k < |ships|
        invariant 0 <= k <= |ships| == |old(ships)|
        invariant forall j :: 0 <= j < k ==> ships[j] == Advertised(old(ships)[j], draws(j))
        invariant forall j :: k <= j < |ships| ==> ships[j] == old(ships)[j]
        invariant money == old(money) - AdvertisePrice
        invariant reputation == RaiseReputation(old(reputation), AdvertiseReputation)
        invariant passengers == old(passengers) && lastShipId == old(lastShipId)
      {
        ships := ships[k := ships[k].(passengers := ships[k].passengers + AdPassengers(draws(k)))];
        assert ships[k] == Advertised(old(ships)[k], draws(k));
        k := k + 1;
      }
      ok := true;
      AllAdvertisedAt(old(ships), draws);
      assert ships == AllAdvertised(old(ships), draws);
      assert Snapshot() == Economy.Advertise(old(Snapshot()), draws).next;
      AdvertiseValid(old(Snapshot()), draws);
    }

    /** One passive-income tick: money grows by Σ passengers × level and the
        passenger total is recomputed. */
    method IncomeTick()
      requires Valid()
      modifies this
      ensures Valid()
      ensures Snapshot() == Economy.IncomeTick(old(Snapshot()))
    {
      var income := Income(ships);
      money := money + income;
      passengers := TotalPassengers(ships);
      StepValid(old(Snapshot()), Tick);
    }
  }
}
