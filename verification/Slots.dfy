/** Which cell of a ring a ticket lands on. */
module Slots {

  /**
   The cell of ticket p in a ring of `cap` cells: laps of `cap` tickets are taken off until the ticket is a
   cell number. The program masks with `cap - 1` instead, which module Words shows to be the same for the
   powers of two it insists on.
   */
  function Cell(p: nat, cap: nat): (c: nat)
    requires cap > 0
    ensures c < cap && c <= p
  {
    if p < cap then p else Cell(p - cap, cap)
  }

  /** Two tickets less than one lap apart that share a cell are the same ticket. */
  lemma {:induction false} SameLap(p: nat, q: nat, cap: nat)
    requires cap > 0 && Cell(p, cap) == Cell(q, cap)
    requires p < q + cap && q < p + cap
    ensures p == q
    decreases p + q
  {
    if p >= cap && q >= cap {
      SameLap(p - cap, q - cap, cap);
    }
  }

  /** Tickets that share a cell and differ are at least one lap apart. */
  lemma Laps(p: nat, q: nat, cap: nat)
    requires cap > 0
    ensures Cell(p, cap) == Cell(q, cap) ==> p == q || p + cap <= q || q + cap <= p
  {
    if Cell(p, cap) == Cell(q, cap) && p < q + cap && q < p + cap {
      SameLap(p, q, cap);
    }
  }

  /** The next ticket lands on another cell, once there are two. */
  lemma NextTicket(p: nat, cap: nat)
    requires cap >= 2
    ensures Cell(p + 1, cap) != Cell(p, cap)
  {
    Laps(p, p + 1, cap);
  }

  /** The cell of a ticket is the remainder of its number. */
  lemma {:induction false} CellIsRemainder(p: nat, cap: nat)
    requires cap > 0
    ensures Cell(p, cap) == p % cap
  {
    if p >= cap {
      CellIsRemainder(p - cap, cap);
      var q := (p - cap) / cap;
      assert p == (q + 1) * cap + (p - cap) % cap by {
        assert (q + 1) * cap == q * cap + cap;
      }
      OneRemainder(p / cap, p % cap, q + 1, (p - cap) % cap, cap);
    } else {
      OneRemainder(p / cap, p % cap, 0, p, cap);
    }
  }

  lemma OneRemainder(q1: int, r1: int, q2: int, r2: int, cap: int)
    requires cap > 0 && q1 * cap + r1 == q2 * cap + r2 && 0 <= r1 < cap && 0 <= r2 < cap
    ensures r1 == r2
  {
    if q1 > q2 {
      AtLeastOneLap(q1, q2, cap);
    } else if q1 < q2 {
      AtLeastOneLap(q2, q1, cap);
    }
  }

  lemma AtLeastOneLap(more: int, less: int, cap: int)
    requires more > less && cap > 0
    ensures more * cap >= less * cap + cap
  {
    var k := more - less - 1;
    assert k * cap >= 0;
    assert more * cap == (less + 1 + k) * cap == less * cap + cap + k * cap;
  }
}
