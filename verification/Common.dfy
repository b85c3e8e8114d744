// Vocabulary shared by the other modules.
module Common {
  datatype Option<+T> = None | Some(value: T)

  type byte = b: int | 0 <= b < 256

  type Bytes = seq<byte>

  const GENERATION_MAX := 4294967295

  lemma MulSign(n: int, d: int)
    requires n > 0
    ensures d >= 1 ==> n * d >= n
    ensures d <= -1 ==> n * d + n <= 0
  {
  }

  lemma {:induction false} MultipleMod(n: nat, q: nat, r: nat)
    requires r < n
    ensures (n * q + r) % n == r
  {
    var m := n * q + r;
    var d := m / n - q;
    assert m == n * (m / n) + m % n;
    assert n * (m / n) == n * q + n * d;
    MulSign(n, d);
  }
}
