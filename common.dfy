/** Vocabulary shared by every part of the CV-2612 protocol model: the index
    domains of the parameter tree, addresses on the MIDI wire, the modulator
    slots, and the 32-bit integer semantics of JavaScript's bitwise operators. */
module Common {

  /** The four patches, six channels per patch and four operators per channel. */
  type PatchId = x: int | 0 <= x < 4
  type ChannelId = x: int | 0 <= x < 6
  type OperatorId = x: int | 0 <= x < 4

  datatype Option<T> = None | Some(value: T)

  /** A MIDI (channel, control change number) pair. */
  datatype Address = Address(ch: int, cc: int)

  /** The three external modulators a parameter can be bound to. */
  datatype BindingKey = X | Y | Z

  /** The lists of binding indices held by the three modulators. */
  datatype Slots = Slots(x: seq<int>, y: seq<int>, z: seq<int>)

  function Slot(s: Slots, k: BindingKey): seq<int>
  {
    match k
    case X => s.x
    case Y => s.y
    case Z => s.z
  }

  /** One Control Change message as handed to `sendCC(channel, number, value)`;
      on the wire it is the three bytes [0xB0 + ch, cc, val]. */
  datatype Cc = Cc(ch: int, cc: int, val: int)

  function Pow2(n: nat): (r: nat)
    ensures r >= 1
  {
    if n == 0 then 1 else 2 * Pow2(n - 1)
  }

  lemma {:induction false} Pow2Add(a: nat, b: nat)
    ensures Pow2(a) * Pow2(b) == Pow2(a + b)
  {
    if a > 0 {
      Pow2Add(a - 1, b);
    }
  }

  lemma {:induction false} MulMonotone(a: int, b: int, k: nat)
    requires a <= b
    ensures a * k <= b * k
    decreases k
  {
    if k > 0 {
      MulMonotone(a, b, k - 1);
      assert a * k == a * (k - 1) + a;
      assert b * k == b * (k - 1) + b;
    }
  }

  /** Exact division undoes multiplication. */
  lemma MulDivCancel(a: int, k: int)
    requires k > 0
    ensures (a * k) / k == a
  {
    var q := (a * k) / k;
    var r := (a * k) % k;
    assert q * k + r == a * k;
    var d := q - a;
    assert d * k == -r;
  }

  /** ToInt32 of an integral JavaScript number: wrap into [-2^31, 2^31). */
  function Int32(x: int): (r: int)
    ensures -0x8000_0000 <= r < 0x8000_0000
    ensures (r - x) % 0x1_0000_0000 == 0
  {
    (x + 0x8000_0000) % 0x1_0000_0000 - 0x8000_0000
  }

  /** JavaScript `x << s` for a shift count below 32. */
  function Shl(x: int, s: nat): (r: int)
    requires s < 32
  {
    Int32(x * Pow2(s))
  }

  /** JavaScript `x >> s` (sign-propagating) for a shift count below 32:
      Dafny's division by a positive divisor rounds toward negative infinity. */
  function Shr(x: int, s: nat): (r: int)
    requires s < 32
  {
    Int32(x) / Pow2(s)
  }

  /** The 32 bits JavaScript's bitwise operators see in an integral number. */
  function ToBv32(x: int): bv32
  {
    (x % 0x1_0000_0000) as bv32
  }

  /** An in-range value keeps its magnitude under ToInt32 and `<<`. */
  lemma ShlSmall(x: int, s: nat)
    requires s < 32 && 0 <= x && x * Pow2(s) < 0x8000_0000
    ensures Shl(x, s) == x * Pow2(s)
  {
    var y := x * Pow2(s);
    MulMonotone(0, x, Pow2(s));
    assert 0 <= y + 0x8000_0000 < 0x1_0000_0000;
    assert (y + 0x8000_0000) % 0x1_0000_0000 == y + 0x8000_0000;
  }
}
