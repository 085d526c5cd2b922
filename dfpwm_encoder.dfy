/** The PCM-to-DFPWM encoding loop of the audio pipeline. It reads signed
    16-bit little-endian samples two bytes at a time and keeps two
    integers, `charge` and `strength`, across the whole stream. For every
    complete sample it writes ONE WHOLE BYTE, 0xFF when the sample's level
    lies above `charge` and 0x00 otherwise; bits are not packed eight to a
    byte. A trailing odd byte is dropped. */
module DfpwmEncoder {

  type Byte = x: int | 0 <= x < 256

  /** The two locals the encoding loop carries from sample to sample. */
  datatype State = State(charge: int, strength: int)

  /** `charge = 0`, `strength = 0` before the first sample. */
  const Initial := State(0, 0)

  /** The ranges the loop keeps its state in: `charge` is a level in
      0..255 and `strength` a step-size estimate in 0..127. */
  predicate Valid(st: State) {
    0 <= st.charge <= 255 && 0 <= st.strength <= 127
  }

  function Min(a: int, b: int): int { if a <= b then a else b }
  function Max(a: int, b: int): int { if a >= b then a else b }
  function Abs(a: int): int { if a >= 0 then a else -a }

  /** `struct.unpack('<h', chunk)[0]`: two bytes, low byte first, read as a
      two's-complement 16-bit integer. */
  function Sample(lo: Byte, hi: Byte): (s: int)
    ensures -32768 <= s <= 32767
    ensures s < 0 <==> hi >= 128
  {
    var u := lo + 256 * hi;
    if u >= 32768 then u - 65536 else u
  }

  /** `target | 0x80` for a target in 0..255. */
  function SetTopBit(t: Byte): Byte {
    if t >= 128 then t else t + 128
  }

  /** The level the loop steers `charge` toward: `(sample >> 8) & 0xFF`,
      with `| 0x80` applied to negative samples. Python's `>>` rounds toward
      minus infinity and `& 0xFF` keeps the low eight bits of the two's
      complement, which for a positive divisor are Dafny's `/` and `%`. */
  function Target(sample: int): Byte {
    var masked := (sample / 256) % 256;
    if sample < 0 then SetTopBit(masked) else masked
  }

  /** The target is exactly the unsigned high byte of the sample pair, so the
      `| 0x80` never changes anything and the level is not a signed rescale. */
  lemma TargetIsHighByte(lo: Byte, hi: Byte)
    ensures Target(Sample(lo, hi)) == hi
    ensures Sample(lo, hi) < 0 ==> (Sample(lo, hi) / 256) % 256 >= 128
  {
    var s := Sample(lo, hi);
    if hi >= 128 {
      assert s == lo + 256 * (hi - 256);
      assert s / 256 == hi - 256;
      assert (s / 256) % 256 == hi;
    } else {
      assert s == lo + 256 * hi;
      assert s / 256 == hi;
    }
  }

  /** One pass of the loop body for one target level: the state after the
      sample and the byte written. */
  function Step(st: State, target: Byte): (State, Byte) {
    var diff := target - st.charge;
    var output: Byte := if diff > 0 then 0xFF else 0x00;
    var charge := if diff > 0 then st.charge + Min(diff, st.strength + 1)
                  else st.charge + Max(diff, -st.strength - 1);
    var strength := if Abs(diff) > 0 then Min(127, st.strength + 1) else Max(0, st.strength - 1);
    (State(charge, strength), output)
  }

  /** What one step does: the byte says whether the target lies above the
      charge; the charge moves toward the target by at most strength + 1
      and never past it; the strength decays on the target (floored at 0)
      and grows off it (saturating at 127); the ranges are kept. */
  lemma StepMeaning(st: State, target: Byte)
    ensures var r := Step(st, target);
      && r.1 == (if target > st.charge then 0xFF else 0x00)
      && (st.strength >= 0 ==> Abs(r.0.charge - st.charge) <= st.strength + 1)
      && (st.strength >= 0 && target > st.charge ==> st.charge < r.0.charge <= target)
      && (st.strength >= 0 && target < st.charge ==> target <= r.0.charge < st.charge)
      && (st.strength >= 0 && target == st.charge ==> r.0.charge == st.charge)
      && (target == st.charge ==> r.0.strength == Max(0, st.strength - 1))
      && (target != st.charge ==> r.0.strength == Min(127, st.strength + 1))
      && (Valid(st) ==> Valid(r.0))
  {
  }

  /** The level of the k-th complete sample of a PCM byte stream. */
  function TargetAt(pcm: seq<Byte>, k: nat): Byte
    requires 2 * k + 1 < |pcm|
  {
    Target(Sample(pcm[2 * k], pcm[2 * k + 1]))
  }

  /** The state and the bytes written after the first n samples. */
  function Run(pcm: seq<Byte>, n: nat): (State, seq<Byte>)
    requires 2 * n <= |pcm|
  {
    if n == 0 then (Initial, [])
    else
      var prev := Run(pcm, n - 1);
      var next := Step(prev.0, TargetAt(pcm, n - 1));
      (next.0, prev.1 + [next.1])
  }

  /** The encoded stream for a whole PCM byte stream: one byte per complete
      two-byte sample. */
  function Encode(pcm: seq<Byte>): seq<Byte> {
    Run(pcm, |pcm| / 2).1
  }

  /** The encoder state just before sample k is read. */
  function StateBefore(pcm: seq<Byte>, k: nat): State
    requires 2 * k <= |pcm|
  {
    Run(pcm, k).0
  }

  /** After n samples, n bytes have been written and the state is in range. */
  lemma {:induction false} RunShape(pcm: seq<Byte>, n: nat)
    requires 2 * n <= |pcm|
    ensures |Run(pcm, n).1| == n
    ensures Valid(Run(pcm, n).0)
  {
    if n > 0 {
      RunShape(pcm, n - 1);
      StepMeaning(Run(pcm, n - 1).0, TargetAt(pcm, n - 1));
    }
  }

  /** Later samples never rewrite bytes already written. */
  lemma {:induction false} RunPrefix(pcm: seq<Byte>, k: nat, n: nat)
    requires k <= n && 2 * n <= |pcm|
    ensures |Run(pcm, k).1| == k && |Run(pcm, n).1| == n
    ensures Run(pcm, k).1 == Run(pcm, n).1[..k]
    decreases n
  {
    RunShape(pcm, k);
    RunShape(pcm, n);
    if k < n {
      RunPrefix(pcm, k, n - 1);
      RunShape(pcm, n - 1);
      assert Run(pcm, n).1 == Run(pcm, n - 1).1 + [Step(Run(pcm, n - 1).0, TargetAt(pcm, n - 1)).1];
      assert Run(pcm, n).1[..n - 1] == Run(pcm, n - 1).1;
    }
  }

  /** Output length: one byte per complete sample, so floor(n / 2) bytes for
      n input bytes; a trailing odd byte produces nothing. */
  lemma EncodeLength(pcm: seq<Byte>)
    ensures |Encode(pcm)| == |pcm| / 2
  {
    RunShape(pcm, |pcm| / 2);
  }

  /** The meaning of every output byte: byte k is 0xFF exactly when the high
      byte of sample k lies above the charge reached after the first k
      samples, and 0x00 otherwise. */
  lemma EncodeByte(pcm: seq<Byte>, k: nat)
    requires k < |pcm| / 2
    ensures |Encode(pcm)| == |pcm| / 2
    ensures Encode(pcm)[k] == (if pcm[2 * k + 1] > StateBefore(pcm, k).charge then 0xFF else 0x00)
  {
    RunPrefix(pcm, k + 1, |pcm| / 2);
    RunShape(pcm, k);
    TargetIsHighByte(pcm[2 * k], pcm[2 * k + 1]);
    StepMeaning(Run(pcm, k).0, TargetAt(pcm, k));
    assert Run(pcm, k + 1).1[k] == Step(Run(pcm, k).0, TargetAt(pcm, k)).1;
  }

  /** Every byte written is full scale: 0xFF or 0x00. */
  lemma EncodeFullScale(pcm: seq<Byte>)
    ensures forall k :: 0 <= k < |Encode(pcm)| ==> Encode(pcm)[k] == 0xFF || Encode(pcm)[k] == 0x00
  {
    EncodeLength(pcm);
    forall k | 0 <= k < |Encode(pcm)|
      ensures Encode(pcm)[k] == 0xFF || Encode(pcm)[k] == 0x00
    {
      EncodeByte(pcm, k);
    }
  }

  /** Starting from charge = strength = 0, the state stays in range after
      every sample: strength in 0..127 and charge in 0..255. */
  lemma StateStaysInRange(pcm: seq<Byte>, k: nat)
    requires 2 * k <= |pcm|
    ensures 0 <= StateBefore(pcm, k).strength <= 127
    ensures 0 <= StateBefore(pcm, k).charge <= 255
  {
    RunShape(pcm, k);
  }

  /** A stream of silence (all bytes zero) keeps charge and strength at 0
      and encodes to a run of 0x00 bytes. */
  lemma {:induction false} SilenceEncodesToZeros(pcm: seq<Byte>, n: nat)
    requires 2 * n <= |pcm|
    requires forall i :: 0 <= i < |pcm| ==> pcm[i] == 0
    ensures Run(pcm, n).0 == Initial
    ensures Run(pcm, n).1 == seq(n, _ => 0x00)
  {
    if n > 0 {
      SilenceEncodesToZeros(pcm, n - 1);
      assert TargetAt(pcm, n - 1) == 0;
    }
  }

  /** The encoding loop of the source: read two bytes, stop when fewer than
      two are left, derive the target level, compare it with `charge`,
      write 0xFF or 0x00, then update `charge` and `strength`. */
  method EncodePcm(pcm: seq<Byte>) returns (out: seq<Byte>)
    ensures out == Encode(pcm)
    ensures |out| == |pcm| / 2
    ensures forall k :: 0 <= k < |out| ==> out[k] == 0xFF || out[k] == 0x00
  {
    var charge, strength := 0, 0;
    out := [];
    var pos := 0;
    ghost var n := 0;
    while true
      invariant pos == 2 * n && pos <= |pcm|
      invariant (State(charge, strength), out) == Run(pcm, n)
      decreases |pcm| - pos
    {
      if |pcm| - pos < 2 {
        break;
      }
      ghost var before := State(charge, strength);
      var lo, hi := pcm[pos], pcm[pos + 1];
      pos := pos + 2;
      var sample := Sample(lo, hi);
      var target := Target(sample);
      var diff := target - charge;
      var output: Byte;
      if diff > 0 {
        output := 0xFF;
        charge := charge + Min(diff, strength + 1);
      } else {
        output := 0x00;
        charge := charge + Max(diff, -strength - 1);
      }
      if Abs(diff) > 0 {
        strength := Min(127, strength + 1);
      } else {
        strength := Max(0, strength - 1);
      }
      out := out + [output];
      assert Run(pcm, n + 1) == (Step(before, target).0, Run(pcm, n).1 + [Step(before, target).1]);
      assert (State(charge, strength), output) == Step(before, target);
      n := n + 1;
    }
    assert n == |pcm| / 2;
    EncodeFullScale(pcm);
    EncodeLength(pcm);
  }
}
