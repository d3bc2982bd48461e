/** The personal clocks of `FloatingDust` (src/components/ThreeBackground.jsx:91-134).

    Each of the 500 dust motes carries its own time `t`, advanced by half its
    speed every frame; everything the frame then draws (a sin/cos wobble
    around the mote's x/y/z factors) is a function of that clock and is not
    part of this model. */
module FloatingDust {
  import ParticleNetwork
  import Vectors

  const DustCount: nat := 500

  /** One mote as created by the `useMemo` loop. `mx` and `my` are pointer
      offsets that nothing ever changes from 0. */
  datatype Mote = Mote(t: real, factor: real, speed: real,
                       xFactor: real, yFactor: real, zFactor: real,
                       mx: real, my: real)

  /** A mote from six uniform draws of `Math.random()`. */
  function SpawnMote(r0: real, r1: real, r2: real, r3: real, r4: real, r5: real): Mote {
    Mote(r0 * 100.0, 20.0 + r1 * 100.0, 0.01 + r2 / 200.0,
         -50.0 + r3 * 100.0, -50.0 + r4 * 100.0, -50.0 + r5 * 100.0,
         0.0, 0.0)
  }

  /** What every mote satisfies: its speed lies in [0.01, 0.015) and the
      pointer offsets are 0. */
  predicate WellFormed(m: Mote) {
    0.01 <= m.speed < 0.015 && m.mx == 0.0 && m.my == 0.0
  }

  /** `t = particle.t += speed / 2`: one frame of a mote's clock. */
  function Advance(m: Mote): Mote {
    m.(t := m.t + m.speed / 2.0)
  }

  /** The mote after n frames. */
  function Advanced(m: Mote, n: nat): Mote {
    if n == 0 then m else Advance(Advanced(m, n - 1))
  }

  /** A fresh mote starts with its clock in [0, 100), factor in [20, 120),
      each position factor in [-50, 50), and is well formed. */
  lemma SpawnMoteRanges(r0: real, r1: real, r2: real, r3: real, r4: real, r5: real)
    requires ParticleNetwork.IsDraw(r0) && ParticleNetwork.IsDraw(r1) && ParticleNetwork.IsDraw(r2)
    requires ParticleNetwork.IsDraw(r3) && ParticleNetwork.IsDraw(r4) && ParticleNetwork.IsDraw(r5)
    ensures var m := SpawnMote(r0, r1, r2, r3, r4, r5);
      WellFormed(m) && 0.0 <= m.t < 100.0 && 20.0 <= m.factor < 120.0 &&
      -50.0 <= m.xFactor < 50.0 && -50.0 <= m.yFactor < 50.0 && -50.0 <= m.zFactor < 50.0
  {
  }

  /** One frame moves the clock strictly forward, by between 0.005 and
      0.0075, and touches nothing else, so the mote stays well formed. */
  lemma AdvanceTicks(m: Mote)
    requires WellFormed(m)
    ensures var r := Advance(m);
      WellFormed(r) && 0.005 <= r.t - m.t < 0.0075 &&
      r.(t := m.t) == m
  {
  }

  /** After n frames the clock reads t + n·speed/2, and only the clock has
      changed. */
  lemma {:induction false} AdvancedClock(m: Mote, n: nat)
    ensures Advanced(m, n).t == m.t + (n as real) * (m.speed / 2.0)
    ensures Advanced(m, n).(t := m.t) == m
  {
    if n > 0 {
      AdvancedClock(m, n - 1);
    }
  }

  /** The clock of a well-formed mote is strictly increasing in the number
      of frames. */
  lemma {:induction false} ClockIncreasing(m: Mote, n: nat, k: nat)
    requires WellFormed(m) && n < k
    ensures Advanced(m, n).t < Advanced(m, k).t
  {
    AdvancedClock(m, n);
    AdvancedClock(m, k);
    var gap, half := (k - n) as real, m.speed / 2.0;
    assert 0.0 < gap && 0.0 < half;
    assert (k as real) * half == (n as real) * half + gap * half;
    Vectors.MulPos(gap, half);
  }

  /** The pointer terms of the position formula, `(mx / 10) * a` and
      `(my / 10) * b`, for the wobble values a and b of a frame. */
  function PointerTerms(m: Mote, a: real, b: real): (real, real) {
    ((m.mx / 10.0) * a, (m.my / 10.0) * b)
  }

  /** Since nothing changes `mx` and `my` from 0, the pointer terms add
      nothing to any mote's position on any frame, whatever the wobble. */
  lemma PointerTermsVanish(m: Mote, n: nat, a: real, b: real)
    requires WellFormed(m)
    ensures WellFormed(Advanced(m, n))
    ensures PointerTerms(Advanced(m, n), a, b) == (0.0, 0.0)
  {
    AdvancedClock(m, n);
  }

  /** The instanced mesh's motes. */
  class Dust {
    var motes: array<Mote>

    /** Creates `DustCount` motes from six draws each. */
    constructor (draws: seq<real>)
      requires |draws| == 6 * DustCount
      ensures fresh(motes) && motes.Length == DustCount
      ensures forall k :: 0 <= k < DustCount ==>
        motes[k] == SpawnMote(draws[6 * k], draws[6 * k + 1], draws[6 * k + 2],
                              draws[6 * k + 3], draws[6 * k + 4], draws[6 * k + 5])
    {
      var temp: seq<Mote> := [];
      var i := 0;
      while i < DustCount
        invariant 0 <= i <= DustCount && |temp| == i
        invariant forall k :: 0 <= k < i ==>
          temp[k] == SpawnMote(draws[6 * k], draws[6 * k + 1], draws[6 * k + 2],
                               draws[6 * k + 3], draws[6 * k + 4], draws[6 * k + 5])
      {
        temp := temp + [SpawnMote(draws[6 * i], draws[6 * i + 1], draws[6 * i + 2],
                                  draws[6 * i + 3], draws[6 * i + 4], draws[6 * i + 5])];
        i := i + 1;
      }
      motes := new Mote[DustCount](k requires 0 <= k < DustCount => temp[k]);
    }

    /** One `useFrame` callback: every mote's clock advances once. */
    method Frame()
      modifies motes
      ensures forall k :: 0 <= k < motes.Length ==> motes[k] == Advance(old(motes[k]))
    {
      var i := 0;
      while i < motes.Length
        invariant 0 <= i <= motes.Length
        invariant forall k :: 0 <= k < i ==> motes[k] == Advance(old(motes[k]))
        invariant forall k :: i <= k < motes.Length ==> motes[k] == old(motes[k])
      {
        motes[i] := Advance(motes[i]);
        i := i + 1;
      }
    }
  }
}
