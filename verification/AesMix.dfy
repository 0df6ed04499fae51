/** Sums of bytes in GF(2^8). */
module ByteSums {
  datatype Byte = Byte(v: bv8)

  const ZERO := Byte(0)

  function Xb(a: Byte, b: Byte): Byte { Byte(a.v ^ b.v) }

  lemma Comm(a: Byte, b: Byte)
    ensures Xb(a, b) == Xb(b, a)
  {
  }

  lemma Assoc(a: Byte, b: Byte, c: Byte)
    ensures Xb(Xb(a, b), c) == Xb(a, Xb(b, c))
  {
  }

  lemma RawUndo(a: bv8, b: bv8)
    ensures a ^ (a ^ b) == b
  {
  }

  lemma Undo(a: Byte, b: Byte)
    ensures Xb(a, Xb(a, b)) == b
  {
    RawUndo(a.v, b.v);
  }

  lemma Zero(a: Byte)
    ensures Xb(a, a) == ZERO && Xb(a, ZERO) == a && Xb(ZERO, a) == a
  {
  }

  function Total(s: seq<Byte>): Byte { if s == [] then ZERO else Xb(s[0], Total(s[1..])) }

  lemma {:induction false} TotalAppend(s: seq<Byte>, t: seq<Byte>)
    ensures Total(s + t) == Xb(Total(s), Total(t))
  {
    hide Xb;
    if s == [] {
      assert s + t == t;
      Zero(Total(t));
    } else {
      assert (s + t)[1..] == s[1..] + t;
      TotalAppend(s[1..], t);
      Assoc(s[0], Total(s[1..]), Total(t));
    }
  }

  lemma TotalOne(a: Byte)
    ensures Total([a]) == a
  {
    hide Xb;
    Zero(a);
  }

  /** The order of a sum does not matter. */
  lemma TotalSwap(s: seq<Byte>, t: seq<Byte>, u: seq<Byte>, v: seq<Byte>)
    ensures Total(s + t + u + v) == Total(s + u + t + v)
  {
    hide Xb, Total;
    TotalAppend(s + t + u, v);
    TotalAppend(s + t, u);
    TotalAppend(s, t);
    TotalAppend(s + u + t, v);
    TotalAppend(s + u, t);
    TotalAppend(s, u);
    Assoc(Total(s), Total(t), Total(u));
    Comm(Total(t), Total(u));
    Assoc(Total(s), Total(u), Total(t));
  }

  /** Two equal terms cancel. */
  lemma TotalCancel(a: Byte, s: seq<Byte>)
    ensures Total([a, a] + s) == Total(s)
  {
    hide Xb, Total;
    assert [a, a] + s == [a] + ([a] + s);
    TotalAppend([a], [a] + s);
    TotalAppend([a], s);
    TotalOne(a);
    Undo(a, Total(s));
  }

  function Sum(a: Byte, b: Byte, c: Byte, d: Byte): Byte { Xb(Xb(Xb(a, b), c), d) }

  lemma Two(a: Byte, b: Byte)
    ensures Xb(a, b) == Total([a, b])
  {
    hide Xb, Total;
    TotalAppend([a], [b]);
    TotalOne(a);
    TotalOne(b);
    assert [a] + [b] == [a, b];
  }

  lemma Joined(s: seq<Byte>, t: seq<Byte>, u: seq<Byte>, v: seq<Byte>)
    ensures Sum(Total(s), Total(t), Total(u), Total(v)) == Total(s + t + u + v)
  {
    hide Xb, Total;
    TotalAppend(s, t);
    TotalAppend(s + t, u);
    TotalAppend(s + t + u, v);
  }

  lemma Four(a: Byte, b: Byte, c: Byte, d: Byte)
    ensures Sum(a, b, c, d) == Total([a, b, c, d])
  {
    hide Xb, Total, Sum;
    TotalOne(a);
    TotalOne(b);
    TotalOne(c);
    TotalOne(d);
    Joined([a], [b], [c], [d]);
    assert [a] + [b] + [c] + [d] == [a, b, c, d];
  }
}

/** MixColumns and its inverse. */
module AesMix {
  import opened ByteSums

  /** Multiplication by x. */
  function M2(a: Byte): Byte { Byte(((a.v & 0x7f) << 1) ^ ((a.v >> 7) * 0x1b)) }

  lemma M2Linear(a: Byte, b: Byte)
    ensures M2(Xb(a, b)) == Xb(M2(a), M2(b))
  {
  }

  function M3(a: Byte): Byte { Xb(M2(a), a) }
  function M9(a: Byte): Byte { Xb(M2(M2(M2(a))), a) }
  function M11(a: Byte): Byte { Xb(Xb(M2(M2(M2(a))), M2(a)), a) }
  function M13(a: Byte): Byte { Xb(Xb(M2(M2(M2(a))), M2(M2(a))), a) }
  function M14(a: Byte): Byte { Xb(Xb(M2(M2(M2(a))), M2(M2(a))), M2(a)) }

  /** One byte of MixColumns and of its inverse. */
  function MixRow(a: Byte, b: Byte, c: Byte, d: Byte): Byte { Sum(M2(a), M3(b), c, d) }

  function InvRow(a: Byte, b: Byte, c: Byte, d: Byte): Byte { Sum(M14(a), M11(b), M13(c), M9(d)) }

  /** One byte of MixColumns applied twice. */
  function SqRow(a: Byte, c: Byte): Byte { Xb(a, M2(M2(Xb(a, c)))) }

  lemma MixTerms(a: Byte, b: Byte, c: Byte, d: Byte)
    ensures MixRow(a, b, c, d) == Total([M2(a), M2(b), b, c, d])
  {
    hide Xb, Total, Sum, M2;
    TotalOne(M2(a));
    Two(M2(b), b);
    TotalOne(c);
    TotalOne(d);
    Joined([M2(a)], [M2(b), b], [c], [d]);
    assert [M2(a)] + [M2(b), b] + [c] + [d] == [M2(a), M2(b), b, c, d];
  }

  lemma Double(a: Byte, b: Byte)
    ensures M2(M2(Xb(a, b))) == Xb(M2(M2(a)), M2(M2(b)))
  {
    hide Xb, M2;
    M2Linear(a, b);
    M2Linear(M2(a), M2(b));
  }

  /** MixColumns in terms of the sum of the column. */
  lemma MixIs(a: Byte, b: Byte, c: Byte, d: Byte)
    ensures MixRow(a, b, c, d) == Sum(a, Sum(a, b, c, d), M2(a), M2(b))
  {
    hide Xb, Total, Sum, M2, MixRow;
    MixTerms(a, b, c, d);
    Four(a, b, c, d);
    TotalOne(a);
    TotalOne(M2(a));
    TotalOne(M2(b));
    Joined([a], [a, b, c, d], [M2(a)], [M2(b)]);
    assert [a] + [a, b, c, d] + [M2(a)] + [M2(b)] == [a, a] + [b, c, d, M2(a), M2(b)];
    TotalCancel(a, [b, c, d, M2(a), M2(b)]);
    TotalSwap([], [b, c, d], [M2(a), M2(b)], []);
    assert [] + [b, c, d] + [M2(a), M2(b)] + [] == [b, c, d, M2(a), M2(b)];
    assert [] + [M2(a), M2(b)] + [b, c, d] + [] == [M2(a), M2(b), b, c, d];
  }

  // ---- the algebra of a column ----

  lemma Interchange(p: Byte, q: Byte, r: Byte, s: Byte)
    ensures Xb(Xb(p, q), Xb(r, s)) == Xb(Xb(p, r), Xb(q, s))
  {
    hide Xb;
    Assoc(p, q, Xb(r, s));
    Assoc(q, r, s);
    Comm(q, r);
    Assoc(r, q, s);
    Assoc(p, r, Xb(q, s));
  }

  lemma Cancel(p: Byte, q: Byte, r: Byte)
    ensures Xb(Xb(p, r), Xb(q, r)) == Xb(p, q) && Xb(Xb(p, r), r) == p && Xb(Xb(p, q), Xb(q, r)) == Xb(p, r)
  {
    hide Xb;
    Interchange(p, r, q, r);
    Zero(r);
    Zero(Xb(p, q));
    Assoc(p, r, r);
    Zero(p);
    Assoc(p, q, Xb(q, r));
    Undo(q, r);
  }

  /** The sum of a column. */
  function T(a: Byte, b: Byte, c: Byte, d: Byte): Byte { Xb(Xb(a, c), Xb(b, d)) }

  lemma SumIsT(a: Byte, b: Byte, c: Byte, d: Byte)
    ensures Sum(a, b, c, d) == T(a, b, c, d) == T(b, c, d, a)
  {
    hide Xb;
    Assoc(a, b, c);
    Comm(b, c);
    Assoc(a, c, b);
    Assoc(Xb(a, c), b, d);
    Comm(Xb(a, c), Xb(b, d));
    Comm(a, c);
  }

  lemma MixForm(a: Byte, b: Byte, c: Byte, d: Byte)
    ensures MixRow(a, b, c, d) == Xb(Xb(a, T(a, b, c, d)), M2(Xb(a, b)))
  {
    hide Xb, M2, MixRow, T;
    MixIs(a, b, c, d);
    SumIsT(a, b, c, d);
    M2Linear(a, b);
    Assoc(Xb(a, T(a, b, c, d)), M2(a), M2(b));
  }

  /** The sum of two bytes of a mixed column that are one or two apart. */
  lemma MixPair(a: Byte, b: Byte, c: Byte, d: Byte)
    ensures Xb(MixRow(a, b, c, d), MixRow(b, c, d, a)) == Xb(Xb(a, b), M2(Xb(a, c)))
    ensures Xb(MixRow(a, b, c, d), MixRow(c, d, a, b)) == Xb(Xb(a, c), M2(T(a, b, c, d)))
  {
    hide Xb, M2, MixRow;
    var t := T(a, b, c, d);
    MixForm(a, b, c, d);
    MixForm(b, c, d, a);
    MixForm(c, d, a, b);
    SumIsT(a, b, c, d);
    SumIsT(b, c, d, a);
    Interchange(Xb(a, t), M2(Xb(a, b)), Xb(b, t), M2(Xb(b, c)));
    Cancel(a, b, t);
    M2Linear(Xb(a, b), Xb(b, c));
    Cancel(a, b, c);
    Interchange(Xb(a, t), M2(Xb(a, b)), Xb(c, t), M2(Xb(c, d)));
    Cancel(a, c, t);
    M2Linear(Xb(a, b), Xb(c, d));
    Interchange(a, b, c, d);
  }

  /** Mixing keeps the sum of a column. */
  lemma MixTotal(a: Byte, b: Byte, c: Byte, d: Byte)
    ensures T(MixRow(a, b, c, d), MixRow(b, c, d, a), MixRow(c, d, a, b), MixRow(d, a, b, c)) == T(a, b, c, d)
  {
    hide Xb, M2, MixRow;
    MixPair(a, b, c, d);
    MixPair(b, c, d, a);
    SumIsT(a, b, c, d);
    Cancel(Xb(a, c), Xb(b, d), M2(T(a, b, c, d)));
  }

  /** Mixing twice. */
  lemma MixMix(a: Byte, b: Byte, c: Byte, d: Byte)
    ensures MixRow(MixRow(a, b, c, d), MixRow(b, c, d, a), MixRow(c, d, a, b), MixRow(d, a, b, c)) == SqRow(a, c)
  {
    hide Xb, M2, MixRow, T;
    var t, e := T(a, b, c, d), M2(Xb(a, b));
    MixForm(MixRow(a, b, c, d), MixRow(b, c, d, a), MixRow(c, d, a, b), MixRow(d, a, b, c));
    MixTotal(a, b, c, d);
    MixPair(a, b, c, d);
    M2Linear(Xb(a, b), M2(Xb(a, c)));
    MixForm(a, b, c, d);
    Assoc(Xb(a, t), e, t);
    Comm(e, t);
    Assoc(Xb(a, t), t, e);
    Cancel(a, e, t);
    Cancel(a, e, M2(M2(Xb(a, c))));
  }

  /** Mixing four times changes nothing. */
  lemma SqSq(a: Byte, c: Byte)
    ensures SqRow(SqRow(a, c), SqRow(c, a)) == a
  {
    hide Xb, M2;
    var p := M2(M2(Xb(a, c)));
    Comm(a, c);
    Cancel(a, c, p);
  }

  /** The inverse row with its terms collected. */
  lemma InvTerms(a: Byte, b: Byte, c: Byte, d: Byte)
    ensures var (u, v) := (Xb(a, c), Xb(b, d));
            InvRow(a, b, c, d) == Xb(Xb(Xb(M2(M2(M2(u))), M2(M2(u))), Xb(M2(a), c)), Xb(M2(M2(M2(v))), Xb(M2(b), v)))
  {
    hide Xb, M2, Sum;
    var (u, v) := (Xb(a, c), Xb(b, d));
    SumIsT(M14(a), M11(b), M13(c), M9(d));
    Double(a, c);
    Double(b, d);
    M2Linear(M2(M2(a)), M2(M2(c)));
    M2Linear(M2(M2(b)), M2(M2(d)));
    // M14(a) + M13(c)
    Interchange(Xb(M2(M2(M2(a))), M2(M2(a))), M2(a), Xb(M2(M2(M2(c))), M2(M2(c))), c);
    Interchange(M2(M2(M2(a))), M2(M2(a)), M2(M2(M2(c))), M2(M2(c)));
    // M11(b) + M9(d)
    Assoc(M2(M2(M2(b))), M2(b), b);
    Interchange(M2(M2(M2(b))), Xb(M2(b), b), M2(M2(M2(d))), d);
    Assoc(M2(b), b, d);
  }

  /** The inverse is mixing three times. */
  lemma InvForm(a: Byte, b: Byte, c: Byte, d: Byte)
    ensures InvRow(a, b, c, d) == MixRow(SqRow(a, c), SqRow(b, d), SqRow(c, a), SqRow(d, b))
  {
    hide Xb, M2, MixRow, InvRow, Sum;
    var (u, v) := (Xb(a, c), Xb(b, d));
    var (p, q) := (M2(M2(u)), M2(M2(v)));
    Comm(a, c);
    Comm(b, d);
    MixForm(Xb(a, p), Xb(b, q), Xb(c, p), Xb(d, q));
    Cancel(a, c, p);
    Cancel(b, d, q);
    Interchange(a, p, b, q);
    M2Linear(Xb(a, b), Xb(p, q));
    M2Linear(a, b);
    M2Linear(p, q);
    InvTerms(a, b, c, d);
    Seven(a, c, u, v, p, M2(a), M2(b), M2(p), M2(q));
  }

  lemma Seven(a: Byte, c: Byte, u: Byte, v: Byte, p: Byte, a1: Byte, b1: Byte, p1: Byte, q1: Byte)
    requires u == Xb(a, c)
    ensures Xb(Xb(Xb(p1, p), Xb(a1, c)), Xb(q1, Xb(b1, v))) == Xb(Xb(Xb(a, p), Xb(u, v)), Xb(Xb(a1, b1), Xb(p1, q1)))
  {
    hide Xb;
    // right: (a + p) + (u + v) = p + (c + v)
    Interchange(a, p, u, v);
    Undo(a, c);
    // left: ((p1 + p) + (a1 + c)) + (q1 + (b1 + v))
    Interchange(Xb(p1, p), Xb(a1, c), q1, Xb(b1, v));
    Interchange(a1, c, b1, v);
    Comm(Xb(a1, b1), Xb(c, v));
    Assoc(p1, p, q1);
    Comm(p, q1);
    Assoc(p1, q1, p);
    Comm(Xb(p1, q1), p);
    Interchange(p, Xb(p1, q1), Xb(c, v), Xb(a1, b1));
    Comm(Xb(p1, q1), Xb(a1, b1));
    Interchange(p, c, v, v);
    Assoc(p, c, v);
    Assoc(c, p, v);
    Comm(c, p);
  }
}
