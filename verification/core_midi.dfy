/**
 * The older MIDI sender (src/core/midi/midi.ts). It never rejects its input: the channel
 * is clamped into 1..16 and the data bytes are masked to seven bits with JavaScript's
 * 32-bit bitwise operators, which are written out here on integers.
 */
module CoreMidi {
  import opened Wrappers
  import opened Midi

  function Pow2(k: nat): (p: nat)
    ensures p >= 1
  {
    if k == 0 then 1 else 2 * Pow2(k - 1)
  }

  /** Bitwise and of two non-negative integers. */
  function AndBits(a: nat, b: nat): nat {
    if a == 0 || b == 0 then 0
    else 2 * AndBits(a / 2, b / 2) + (if a % 2 == 1 && b % 2 == 1 then 1 else 0)
  }

  /** Bitwise or of two non-negative integers. */
  function OrBits(a: nat, b: nat): nat
    decreases a + b
  {
    if a == 0 then b
    else if b == 0 then a
    else 2 * OrBits(a / 2, b / 2) + (if a % 2 == 1 || b % 2 == 1 then 1 else 0)
  }

  /** Masking with k one-bits keeps the low k bits: `a & (2^k - 1) == a % 2^k`. */
  lemma {:induction false} AndLowMask(a: nat, k: nat)
    ensures AndBits(a, Pow2(k) - 1) == a % Pow2(k)
  {
    if k == 0 {
      assert Pow2(k) == 1;
    } else if a == 0 {
      assert AndBits(a, Pow2(k) - 1) == 0;
    } else {
      var p := Pow2(k - 1);
      assert Pow2(k) == 2 * p;
      AndBitsStep(a, Pow2(k) - 1, p);
      AndLowMask(a / 2, k - 1);
      DivModPow2(a, k);
      assert AndBits(a, Pow2(k) - 1) == 2 * ((a / 2) % p) + a % 2;
    }
  }

  /** One unfolding of `AndBits` against an odd mask. */
  lemma AndBitsStep(a: nat, m: nat, p: nat)
    requires a > 0 && p > 0 && m == 2 * p - 1
    ensures AndBits(a, m) == 2 * AndBits(a / 2, p - 1) + a % 2
  {
    assert m / 2 == p - 1 && m % 2 == 1;
  }

  lemma DivModPow2(a: nat, k: nat)
    requires k > 0
    ensures a % Pow2(k) == 2 * ((a / 2) % Pow2(k - 1)) + a % 2
  {
    var p := Pow2(k - 1);
    var q := (a / 2) / p;
    var r := (a / 2) % p;
    assert a / 2 == q * p + r;
    assert a == q * (2 * p) + (2 * r + a % 2);
    assert 0 <= 2 * r + a % 2 < 2 * p;
    LemmaModUnique(a, 2 * p, q, 2 * r + a % 2);
  }

  lemma LemmaModUnique(a: int, d: int, q: int, r: int)
    requires d > 0 && 0 <= r < d && a == q * d + r
    ensures a % d == r
  {
    var q', r' := a / d, a % d;
    assert q' * d + r' == q * d + r;
    if q' > q {
      assert (q' - q) * d == q' * d - q * d;
      MulAtLeast(q' - q, d);
    } else if q' < q {
      assert (q - q') * d == q * d - q' * d;
      MulAtLeast(q - q', d);
    }
  }

  lemma MulAtLeast(x: int, d: int)
    requires x >= 1 && d > 0
    ensures x * d >= d
  {
    var y := x - 1;
    assert x * d == y * d + d;
    assert y * d >= 0;
  }

  lemma Pow2Small()
    ensures Pow2(4) == 16 && Pow2(7) == 128
  {
    assert Pow2(1) == 2;
    assert Pow2(2) == 4;
    assert Pow2(3) == 8;
    assert Pow2(4) == 16;
    assert Pow2(5) == 32;
    assert Pow2(6) == 64;
  }

  /** Or-ing a value below 2^k into a multiple of 2^k adds it: `(h | n) == h + n`. */
  lemma {:induction false} OrDisjoint(h: nat, n: nat, k: nat)
    requires h % Pow2(k) == 0 && n < Pow2(k)
    ensures OrBits(h, n) == h + n
    decreases k
  {
    if h != 0 && n != 0 {
      assert k > 0;
      DivModPow2(h, k);
      assert h % 2 == 0;
      assert (h / 2) % Pow2(k - 1) == 0;
      OrDisjoint(h / 2, n / 2, k - 1);
    }
  }

  /** `Math.trunc(x)`, the integer part that `ToInt32` keeps. */
  function Trunc(x: real): int {
    if x >= 0.0 then x.Floor else -((-x).Floor)
  }

  /** The 32 bits of `ToInt32(x)`, read as an unsigned number. */
  function Int32Bits(x: real): nat {
    Trunc(x) % 0x1_0000_0000
  }

  /** `x & 0x7F`: the low seven bits, always a data byte, equal to Euclidean `trunc(x) % 128`. */
  function Mask7(x: real): (b: int)
    ensures 0 <= b < 128
    ensures b == Trunc(x) % 128
    ensures IsInteger(x) ==> b == x.Floor % 128
  {
    Mask7Value(x);
    AndBits(Int32Bits(x), 0x7F)
  }

  lemma Mask7Value(x: real)
    ensures AndBits(Int32Bits(x), 0x7F) == Trunc(x) % 128
  {
    Pow2Small();
    AndLowMask(Int32Bits(x), 7);
    ModOfMod(Trunc(x), 128, 33554432);
  }

  lemma ModOfMod(a: int, m: int, n: int)
    requires m > 0 && n > 0
    ensures a % (m * n) % m == a % m
  {
    var q := a / (m * n);
    var r := a % (m * n);
    assert a == q * (m * n) + r;
    assert a == (q * n) * m + r;
    var q2 := r / m;
    assert r == q2 * m + r % m;
    assert a == (q * n + q2) * m + r % m;
    LemmaModUnique(a, m, q * n + q2, r % m);
  }

  /** `Math.max(1, Math.min(16, Math.floor(channel)))` */
  function ClampChannel(channel: real): (ch: MidiChannel)
    ensures 1 <= channel.Floor <= 16 ==> ch == channel.Floor
    ensures channel.Floor < 1 ==> ch == 1
    ensures channel.Floor > 16 ==> ch == 16
  {
    var f := channel.Floor;
    var lower := if 16 < f then 16 else f;
    if 1 > lower then 1 else lower
  }

  /** `0xB0 | ((ch - 1) & 0x0F)`: a Control Change status byte whose low nibble is ch - 1. */
  function StatusByte(ch: MidiChannel): (s: int)
    ensures 0xB0 <= s <= 0xBF
    ensures s == 0xB0 + ch - 1
  {
    StatusByteValue(ch);
    OrBits(0xB0, AndBits(ch - 1, 0x0F))
  }

  lemma StatusByteValue(ch: MidiChannel)
    ensures OrBits(0xB0, AndBits(ch - 1, 0x0F)) == 0xB0 + ch - 1
  {
    var n: nat := ch - 1;
    Pow2Small();
    AndLowMask(n, 4);
    assert AndBits(n, 0x0F) == n;
    OrDisjoint(0xB0, n, 4);
  }

  /** The three bytes `sendCC(channel, cc, value)` passes to `output.send`. */
  function ControlChangeFrame(channel: real, cc: real, value: real): (f: seq<int>)
    ensures |f| == 3
    ensures 0xB0 <= f[0] <= 0xBF && f[0] - 0xB0 + 1 == ClampChannel(channel)
    ensures 0 <= f[1] < 128 && f[1] == Trunc(cc) % 128
    ensures 0 <= f[2] < 128 && f[2] == Trunc(value) % 128
  {
    [StatusByte(ClampChannel(channel)), Mask7(cc), Mask7(value)]
  }

  /**
   * `MidiService`: one optional output port and the frames sent to it. `failing` is the
   * browser's part: the ports whose `send` throws, with the message.
   */
  class MidiService {
    var output: Option<string>
    /** What `output.send` received, as (port, bytes) in order. */
    var sent: seq<(string, seq<int>)>
    const failing: map<string, string>

    constructor (failing: map<string, string>)
      ensures output == None && sent == [] && this.failing == failing
    {
      output := None;
      sent := [];
      this.failing := failing;
    }

    /** `init()`: binds the first output the host lists, or none. */
    method Init(firstOutput: Option<string>)
      modifies this
      ensures output == firstOutput && sent == old(sent)
    {
      output := firstOutput;
    }

    /** `isReady()` */
    function IsReady(): (r: bool)
      reads this
      ensures r <==> output.Some?
    {
      output != None
    }

    /**
     * `sendCC(channel, cc, value)`: sends nothing without an output; otherwise the frame
     * goes to the output, whose `send` may throw, uncaught, with nothing sent.
     */
    method SendCC(channel: real, cc: real, value: real) returns (thrown: Option<string>)
      modifies this
      ensures output == old(output)
      ensures old(output).None? ==> thrown == None && sent == old(sent)
      ensures old(output).Some? && old(output).value in failing ==>
        thrown == Some(failing[old(output).value]) && sent == old(sent)
      ensures old(output).Some? && old(output).value !in failing ==>
        thrown == None && sent == old(sent) + [(old(output).value, ControlChangeFrame(channel, cc, value))]
    {
      if output.None? {
        return None;
      }
      var frame := [StatusByte(ClampChannel(channel)), Mask7(cc), Mask7(value)];
      if output.value in failing {
        return Some(failing[output.value]);
      }
      sent := sent + [(output.value, frame)];
      return None;
    }
  }
}
