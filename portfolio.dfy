/** The holdings kept in the session (`st.session_state['portfolio']`) and the
    operation that adds a purchase to them (`portfoy_ekle`). The timestamp, which the
    source reads from the clock, is a parameter. */
module Holdings {
  import opened Frames

  /** One holding: the number of shares (`adet`), the average cost (`alis_fiyati`)
      and the time of the last purchase (`tarih`). */
  datatype Position = Position(quantity: int, cost: real, stamp: string)

  /** A holding after buying `qty` more shares at `price`: the quantities add and the
      cost becomes the quantity-weighted mean. The division needs a non-zero total. */
  function Merge(p: Position, qty: int, price: real, now: string): (r: Position)
    requires p.quantity + qty != 0
    ensures r.quantity == p.quantity + qty
    // The total paid is preserved: new cost times new quantity is old outlay plus new outlay.
    ensures r.cost * r.quantity as real == p.cost * p.quantity as real + price * qty as real
    ensures r.stamp == now
  {
    var total := p.quantity + qty;
    Position(total, (p.cost * p.quantity as real + price * qty as real) / total as real, now)
  }

  function Min(a: real, b: real): real { if a <= b then a else b }
  function Max(a: real, b: real): real { if a <= b then b else a }

  /** For positive quantities the averaged cost lies between the old cost and the
      new price. */
  lemma MergedCostBetween(p: Position, qty: int, price: real, now: string)
    requires p.quantity > 0 && qty > 0
    ensures var r := Merge(p, qty, price, now);
      Min(p.cost, price) <= r.cost <= Max(p.cost, price)
  {
    var r := Merge(p, qty, price, now);
    var m, n := p.quantity as real, qty as real;
    var lo, hi := Min(p.cost, price), Max(p.cost, price);
    assert r.cost * (m + n) == p.cost * m + price * n;
    assert lo * m <= p.cost * m <= hi * m;
    assert lo * n <= price * n <= hi * n;
    assert lo * (m + n) <= r.cost * (m + n) <= hi * (m + n);
  }

  /** Buying the same share twice at the same price leaves the average cost unchanged. */
  lemma MergeSamePrice(p: Position, qty: int, now: string)
    requires p.quantity > 0 && qty > 0
    ensures Merge(p, qty, p.cost, now).cost == p.cost
  {
    MergedCostBetween(p, qty, p.cost, now);
  }

  /** The holdings, keyed by ticker name without the ".IS" suffix. */
  class Portfolio {
    var entries: map<string, Position>

    /** Every holding has at least one share, as the purchase form allows only
        quantities of at least one. */
    predicate Valid()
      reads this
    {
      forall h :: h in entries ==> entries[h].quantity >= 1
    }

    /** The session starts with an empty portfolio. */
    constructor ()
      ensures entries == map[]
      ensures Valid()
    {
      entries := map[];
    }

    /** The holding of `hisse`, if any. */
    function Lookup(hisse: string): (r: Option<Position>)
      reads this
      ensures r.Some? <==> hisse in entries
      ensures r.Some? ==> r.value == entries[hisse]
    {
      if hisse in entries then Some(entries[hisse]) else None
    }

    /** Record a purchase of `adet` shares of `hisse` at `alisFiyati`, stamped `now`. A
        known ticker is merged; a new one is inserted as given. No other entry changes. */
    method Add(hisse: string, adet: int, alisFiyati: real, now: string)
      modifies this
      requires hisse in entries ==> entries[hisse].quantity + adet != 0
      ensures hisse in old(entries) ==>
        entries == old(entries)[hisse := Merge(old(entries)[hisse], adet, alisFiyati, now)]
      ensures hisse !in old(entries) ==>
        entries == old(entries)[hisse := Position(adet, alisFiyati, now)]
      ensures entries.Keys == old(entries).Keys + {hisse}
      ensures forall h :: h in old(entries) && h != hisse ==> entries[h] == old(entries)[h]
      ensures old(Valid()) && adet >= 1 ==> Valid()
    {
      if hisse in entries {
        var mevcut := entries[hisse];
        entries := entries[hisse := Merge(mevcut, adet, alisFiyati, now)];
      } else {
        entries := entries[hisse := Position(adet, alisFiyati, now)];
      }
    }
  }
}
