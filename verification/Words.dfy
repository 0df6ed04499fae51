/** 32-bit words: the operations the ciphers use, and their laws.  The laws are proved on bits
    here, once; proofs elsewhere hide the operations and work with the laws alone. */
module WordXor {
  function X(a: bv32, b: bv32): bv32 { a ^ b }

  function A(a: bv32, b: bv32): bv32 { a & b }

  lemma XComm(a: bv32, b: bv32)
    ensures X(a, b) == X(b, a)
  {
  }

  lemma XAssoc(a: bv32, b: bv32, c: bv32)
    ensures X(a, X(b, c)) == X(X(a, b), c)
  {
  }

  lemma XSelf(a: bv32, b: bv32)
    ensures X(a, X(a, b)) == b && X(a, a) == 0 && X(a, 0) == a
  {
  }

  lemma AndX(a: bv32, b: bv32, k: bv32)
    ensures A(X(a, b), k) == X(A(a, k), A(b, k))
  {
  }
}

module Words {
  import opened WordXor

  function O(a: bv32, b: bv32): bv32 { a | b }

  function N(a: bv32): bv32 { !a }

  function RotL1(a: bv32): bv32 { (a << 1) | (a >> 31) }

  lemma OrAnd(a: bv32, k: bv32)
    ensures O(a, k) == X(A(a, N(k)), k)
  {
  }

  lemma NotX(a: bv32)
    ensures N(a) == X(a, 0xffffffff)
  {
  }

  lemma OrX(a: bv32, b: bv32, k: bv32)
    ensures O(X(a, b), k) == X(O(a, k), A(b, N(k)))
  {
    hide *;
    OrAnd(X(a, b), k);
    OrAnd(a, k);
    AndX(a, b, N(k));
    XAssoc(A(a, N(k)), A(b, N(k)), k);
    XComm(A(b, N(k)), k);
    XAssoc(A(a, N(k)), k, A(b, N(k)));
  }

  lemma RotX(a: bv32, b: bv32)
    ensures RotL1(X(a, b)) == X(RotL1(a), RotL1(b))
  {
  }
}
