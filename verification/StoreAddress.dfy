/** How scull finds a byte: list item, slot in the item's array, offset in the quantum
    (higher_scull/high_scull/main.c, and the same arithmetic in
    alloc_mem/code/scullslab/main.c). */
module StoreAddress {
  type Positive = n: nat | 0 < n witness 1

  /** The parameters scull_quantum and scull_qset. */
  datatype Shape = Shape(quantum: Positive, qset: Positive)

  function ItemSize(g: Shape): (r: Positive) {
    MulPositive(g.quantum, g.qset);
    g.quantum * g.qset
  }

  datatype Place = Place(item: nat, slot: nat, offset: nat)

  /** The computation made by every read and write. */
  function Locate(g: Shape, pos: nat): Place {
    var rest := pos % ItemSize(g);
    Place(pos / ItemSize(g), rest / g.quantum, rest % g.quantum)
  }

  /** The position a place stands for. */
  function Position(g: Shape, at: Place): nat {
    (at.item * g.qset + at.slot) * g.quantum + at.offset
  }

  ghost predicate InShape(g: Shape, at: Place) {
    at.slot < g.qset && at.offset < g.quantum
  }

  lemma MulPositive(a: Positive, b: Positive)
    ensures a * b > 0
  {
  }

  lemma MulAtLeast(a: nat, b: nat, c: nat)
    requires a <= b
    ensures a * c <= b * c
  {
  }

  lemma MulAbove(a: nat, b: nat, c: nat)
    requires a < b
    ensures a * c + c <= b * c
  {
    MulAtLeast(a + 1, b, c);
    assert (a + 1) * c == a * c + c;
  }

  /** Division with remainder is unique. */
  lemma DivModUnique(x: nat, d: Positive, a: nat, b: nat)
    requires x == a * d + b && b < d
    ensures x / d == a && x % d == b
  {
    var a', b' := x / d, x % d;
    assert x == a' * d + b';
    if a < a' {
      MulAbove(a, a', d);
    } else if a' < a {
      MulAbove(a', a, d);
    }
  }

  lemma PositionOfParts(g: Shape, at: Place)
    ensures Position(g, at) == at.item * ItemSize(g) + (at.slot * g.quantum + at.offset)
  {
    assert (at.item * g.qset + at.slot) * g.quantum == at.item * g.qset * g.quantum + at.slot * g.quantum;
    assert at.item * g.qset * g.quantum == at.item * (g.quantum * g.qset);
  }

  lemma InsideItem(g: Shape, at: Place)
    requires InShape(g, at)
    ensures at.slot * g.quantum + at.offset < ItemSize(g)
  {
    MulAbove(at.slot, g.qset, g.quantum);
  }

  /** Places in the shape and positions correspond one to one. */
  lemma LocateInvertsPosition(g: Shape, at: Place)
    requires InShape(g, at)
    ensures Locate(g, Position(g, at)) == at
  {
    hide Position;
    PositionOfParts(g, at);
    var rest := at.slot * g.quantum + at.offset;
    InsideItem(g, at);
    DivModUnique(Position(g, at), ItemSize(g), at.item, rest);
    DivModUnique(rest, g.quantum, at.slot, at.offset);
  }

  lemma PositionInvertsLocate(g: Shape, pos: nat)
    ensures InShape(g, Locate(g, pos))
    ensures Position(g, Locate(g, pos)) == pos
  {
    var at := Locate(g, pos);
    var rest := pos % ItemSize(g);
    assert pos == at.item * ItemSize(g) + rest;
    assert rest == at.slot * g.quantum + at.offset;
    if g.qset <= at.slot {
      MulAtLeast(g.qset, at.slot, g.quantum);
    }
    PositionOfParts(g, at);
  }

  /** The two-level address is one level in disguise: the quantum numbered pos / quantum,
      at offset pos % quantum. */
  lemma LocateIsFlat(g: Shape, pos: nat)
    ensures var at := Locate(g, pos);
            && InShape(g, at)
            && pos / g.quantum == at.item * g.qset + at.slot
            && pos % g.quantum == at.offset
  {
    PositionInvertsLocate(g, pos);
    var at := Locate(g, pos);
    DivModUnique(pos, g.quantum, at.item * g.qset + at.slot, at.offset);
  }

  /** Two positions share a slot exactly when they share a quantum. */
  lemma SameSlot(g: Shape, p: nat, q: nat)
    ensures (Locate(g, p).item == Locate(g, q).item && Locate(g, p).slot == Locate(g, q).slot)
       <==> p / g.quantum == q / g.quantum
  {
    var a, b := Locate(g, p), Locate(g, q);
    LocateIsFlat(g, p);
    LocateIsFlat(g, q);
    if p / g.quantum == q / g.quantum {
      DivModUnique(p / g.quantum, g.qset, a.item, a.slot);
      DivModUnique(q / g.quantum, g.qset, b.item, b.slot);
    }
  }

  /** A span that stays inside its quantum. */
  lemma WithinQuantum(g: Shape, pos: nat, p: nat)
    requires pos <= p < pos + (g.quantum - pos % g.quantum)
    ensures p / g.quantum == pos / g.quantum
    ensures p % g.quantum == pos % g.quantum + (p - pos)
  {
    DivModUnique(p, g.quantum, pos / g.quantum, pos % g.quantum + (p - pos));
  }

  /** Within one quantum, offsets differ as positions do. */
  lemma OffsetsDiffer(g: Shape, p: nat, q: nat)
    requires p / g.quantum == q / g.quantum
    ensures p - q == p % g.quantum - q % g.quantum
  {
    assert p == (p / g.quantum) * g.quantum + p % g.quantum;
    assert q == (q / g.quantum) * g.quantum + q % g.quantum;
  }

  /** Later positions are in the same or a later list item. */
  lemma ItemMonotone(g: Shape, p: nat, q: nat)
    requires p <= q
    ensures Locate(g, p).item <= Locate(g, q).item
  {
    var d := ItemSize(g);
    if q / d < p / d {
      MulAbove(q / d, p / d, d);
    }
  }
}
