/** The quantum transport view: three particles per network node on a ring
    round a nucleus, coloured by their qutrit state `i % 3`, with an
    entanglement line from every third particle back to its predecessor.
    Time is local to the animation effect and advances by one tick (0.02
    of the source's time unit) per frame while the simulation runs. */
module TransportVisualization {
  import opened Canvas

  datatype Props = Props(isSimulating: bool, networkSize: int, coherence: int)

  /** An RGBA colour. */
  datatype Rgba = Rgba(r: int, g: int, b: int, a: real)

  /** The state colours of a frame: cyan, purple and orange, all at the
      alpha `coherence / 100`. The three states are told apart by hue
      alone, and a coherence on the slider's 0 to 100 scale gives an alpha
      between 0 and 1. */
  function StateColors(coherence: int): (cs: seq<Rgba>)
    ensures |cs| == 3
    ensures cs[0].a == cs[1].a == cs[2].a == coherence as real / 100.0
    ensures (cs[0].r, cs[0].g, cs[0].b) != (cs[1].r, cs[1].g, cs[1].b)
    ensures (cs[0].r, cs[0].g, cs[0].b) != (cs[2].r, cs[2].g, cs[2].b)
    ensures (cs[1].r, cs[1].g, cs[1].b) != (cs[2].r, cs[2].g, cs[2].b)
    ensures 0 <= coherence <= 100 ==> 0.0 <= cs[0].a <= 1.0
  {
    var a := coherence as real / 100.0;
    [Rgba(34, 211, 238, a), Rgba(168, 85, 247, a), Rgba(251, 146, 60, a)]
  }

  /** The colour of an entanglement line: cyan at a fifth of that alpha. */
  function LineColor(coherence: int): Rgba
  {
    Rgba(34, 211, 238, 0.2 * coherence as real / 100.0)
  }

  /** A draw command: particle `i` with its state, its place round the ring
      as a fraction of a turn, and its colour (dot and glow alike); a line
      from particle `from` to particle `to`; the nucleus. */
  datatype Cmd =
    | Particle(index: nat, state: nat, slot: real, color: Rgba)
    | Line(from: nat, to: nat, color: Rgba)
    | Nucleus

  function Particles(p: Props): int
  {
    p.networkSize * 3
  }

  /** What particle `i` draws: itself and, when it is a positive multiple
      of three, the line back to particle `i - 1`. */
  function ParticleCmds(p: Props, i: nat): seq<Cmd>
    requires i < Particles(p)
  {
    [Particle(i, i % 3, i as real / Particles(p) as real, StateColors(p.coherence)[i % 3])] +
    (if i > 0 && i % 3 == 0 then [Line(i, i - 1, LineColor(p.coherence))] else [])
  }

  /** The commands of the first `i` particles, in drawing order. */
  function CmdsUpTo(p: Props, i: nat): seq<Cmd>
    requires i <= Particles(p)
  {
    if i == 0 then [] else CmdsUpTo(p, i - 1) + ParticleCmds(p, i - 1)
  }

  /** A whole frame's commands: every particle, then the nucleus. */
  function FrameCmds(p: Props): seq<Cmd>
  {
    (if Particles(p) > 0 then CmdsUpTo(p, Particles(p)) else []) + [Nucleus]
  }

  function CountLines(cmds: seq<Cmd>): nat
  {
    if cmds == [] then 0 else CountLines(cmds[..|cmds| - 1]) + (if cmds[|cmds| - 1].Line? then 1 else 0)
  }

  function CountState(cmds: seq<Cmd>, s: nat): nat
  {
    if cmds == [] then 0
    else CountState(cmds[..|cmds| - 1], s) + (if cmds[|cmds| - 1].Particle? && cmds[|cmds| - 1].state == s then 1 else 0)
  }

  lemma {:induction false} CountsAppend(a: seq<Cmd>, b: seq<Cmd>, s: nat)
    ensures CountLines(a + b) == CountLines(a) + CountLines(b)
    ensures CountState(a + b, s) == CountState(a, s) + CountState(b, s)
    decreases |b|
  {
    if b != [] {
      var b' := b[..|b| - 1];
      assert (a + b)[..|a + b| - 1] == a + b';
      CountsAppend(a, b', s);
    } else {
      assert a + b == a;
    }
  }

  /** Particle `i`'s commands hold one particle, in state `i % 3`, and a
      line exactly when `i` is a positive multiple of three. */
  lemma ParticleCmdsCounts(p: Props, i: nat, s: nat)
    requires i < Particles(p)
    ensures CountLines(ParticleCmds(p, i)) == (if i > 0 && i % 3 == 0 then 1 else 0)
    ensures CountState(ParticleCmds(p, i), s) == (if i % 3 == s then 1 else 0)
  {
    var c := ParticleCmds(p, i);
    var first := [c[0]];
    assert first[..0] == [];
    assert CountLines(first) == 0 && CountState(first, s) == (if i % 3 == s then 1 else 0);
    if i > 0 && i % 3 == 0 {
      assert |c| == 2 && c[1].Line? && c[..1] == first;
    } else {
      assert c == first;
    }
  }

  /** After the first `i` particles there are `(i - 1) / 3` lines, one for
      each positive multiple of three below `i`. */
  lemma {:induction false} LinesUpTo(p: Props, i: nat)
    requires i <= Particles(p)
    ensures CountLines(CmdsUpTo(p, i)) == (if i == 0 then 0 else (i - 1) / 3)
  {
    if i > 0 {
      LinesUpTo(p, i - 1);
      CountsAppend(CmdsUpTo(p, i - 1), ParticleCmds(p, i - 1), 0);
      ParticleCmdsCounts(p, i - 1, 0);
      if i >= 2 {
        var q, r := (i - 2) / 3, (i - 2) % 3;
        if r == 2 {
          DivModUnique(i - 1, 3, q + 1, 0);
        } else {
          DivModUnique(i - 1, 3, q, r + 1);
        }
      }
    }
  }

  /** One more particle adds one to the count of its own state. */
  lemma OneMore(p: Props, i: nat, s: nat)
    requires i + 1 <= Particles(p)
    ensures CountState(CmdsUpTo(p, i + 1), s) == CountState(CmdsUpTo(p, i), s) + (if i % 3 == s then 1 else 0)
  {
    CountsAppend(CmdsUpTo(p, i), ParticleCmds(p, i), s);
    ParticleCmdsCounts(p, i, s);
  }

  /** Three more particles from a multiple of three add one to each state. */
  lemma ThreeMore(p: Props, k: nat, s: nat)
    requires 3 * k + 3 <= Particles(p) && s < 3
    ensures CountState(CmdsUpTo(p, 3 * k + 3), s) == CountState(CmdsUpTo(p, 3 * k), s) + 1
  {
    var b := 3 * k;
    DivModUnique(b, 3, k, 0);
    DivModUnique(b + 1, 3, k, 1);
    DivModUnique(b + 2, 3, k, 2);
    var c0 := CountState(CmdsUpTo(p, b), s);
    OneMore(p, b, s);
    var c1 := CountState(CmdsUpTo(p, b + 1), s);
    assert c1 == c0 + (if s == 0 then 1 else 0);
    OneMore(p, b + 1, s);
    var c2 := CountState(CmdsUpTo(p, b + 2), s);
    assert c2 == c1 + (if s == 1 then 1 else 0);
    OneMore(p, b + 2, s);
    assert CountState(CmdsUpTo(p, b + 3), s) == c2 + (if s == 2 then 1 else 0);
  }

  /** After `3 * k` particles each state has been drawn `k` times. */
  lemma {:induction false} StatesUpTo(p: Props, k: nat, s: nat)
    requires 3 * k <= Particles(p) && s < 3
    ensures CountState(CmdsUpTo(p, 3 * k), s) == k
  {
    if k > 0 {
      var j := k - 1;
      assert 3 * j + 3 == 3 * k;
      StatesUpTo(p, j, s);
      ThreeMore(p, j, s);
    }
  }

  /** With `n` nodes a frame draws `n` particles in each of the three
      states and `n - 1` entanglement lines, then the nucleus. */
  lemma FrameCounts(p: Props, s: nat)
    requires p.networkSize >= 1 && s < 3
    ensures CountState(FrameCmds(p), s) == p.networkSize
    ensures CountLines(FrameCmds(p)) == p.networkSize - 1
  {
    var body := CmdsUpTo(p, Particles(p));
    CountsAppend(body, [Nucleus], s);
    assert [Nucleus][..0] == [];
    StatesUpTo(p, p.networkSize, s);
    LinesUpTo(p, Particles(p));
    DivModUnique(3 * p.networkSize - 1, 3, p.networkSize - 1, 2);
  }

  /** Every line in the first `i` particles' commands goes from a positive
      multiple of three back to its predecessor, in the line colour, and
      every such particle below `i` has one. */
  lemma {:induction false} LinesJoin(p: Props, i: nat, from: nat, to: nat, color: Rgba)
    requires i <= Particles(p)
    ensures Line(from, to, color) in CmdsUpTo(p, i) <==>
      0 < from < i && from % 3 == 0 && to == from - 1 && color == LineColor(p.coherence)
  {
    if i > 0 {
      LinesJoin(p, i - 1, from, to, color);
    }
  }

  /** Each line of a frame joins two of its particles, one in state 0 and
      one in state 2. */
  lemma LineEnds(p: Props, from: nat, to: nat, color: Rgba)
    requires Line(from, to, color) in FrameCmds(p)
    ensures from < Particles(p) && to < Particles(p)
    ensures ParticleCmds(p, from)[0].state == 0 && ParticleCmds(p, to)[0].state == 2
  {
    assert Particles(p) > 0;
    assert Line(from, to, color) in CmdsUpTo(p, Particles(p));
    LinesJoin(p, Particles(p), from, to, color);
    DivModUnique(to, 3, from / 3 - 1, 2);
  }

  /** A particle's colour is its state's colour; the three share the
      coherence alpha, and the line is cyan, state 0's colour, at a fifth of
      it. */
  lemma ColorsShareAlpha(p: Props, i: nat)
    requires i < Particles(p)
    ensures ParticleCmds(p, i)[0].color == StateColors(p.coherence)[i % 3]
    ensures forall s :: 0 <= s < 3 ==> StateColors(p.coherence)[s].a == p.coherence as real / 100.0
    ensures LineColor(p.coherence) == StateColors(p.coherence)[0].(a := StateColors(p.coherence)[0].a / 5.0)
  {
  }

  /** The particles are evenly spaced round the ring, in order, starting at
      the ring's phase and never completing the turn. */
  lemma Slots(p: Props, i: nat)
    requires i + 1 < Particles(p)
    ensures 0.0 <= ParticleCmds(p, i)[0].slot < ParticleCmds(p, i + 1)[0].slot < 1.0
    ensures ParticleCmds(p, i + 1)[0].slot - ParticleCmds(p, i)[0].slot == 1.0 / Particles(p) as real
  {
    SlotSpacing(i, Particles(p));
  }

  lemma SlotSpacing(i: nat, m: nat)
    requires i + 1 < m
    ensures 0.0 <= i as real / m as real < (i + 1) as real / m as real < 1.0
    ensures (i + 1) as real / m as real - i as real / m as real == 1.0 / m as real
  {
    var n := m as real;
    assert (i + 1) as real / n == i as real / n + 1.0 / n;
    assert (i + 1) as real < n;
  }

  /** The particle loop of `draw`, then the nucleus. */
  method DrawParticles(p: Props) returns (cmds: seq<Cmd>)
    ensures cmds == FrameCmds(p)
  {
    var particles := p.networkSize * 3;
    var colors := StateColors(p.coherence);
    cmds := [];
    ghost var last: nat := if particles > 0 then particles else 0;
    var i := 0;
    while i < particles
      invariant i <= last
      invariant cmds == if i == 0 then [] else CmdsUpTo(p, i)
    {
      var state := i % 3;
      cmds := cmds + [Particle(i, state, i as real / particles as real, colors[state])];
      if i > 0 && i % 3 == 0 {
        cmds := cmds + [Line(i, i - 1, Rgba(34, 211, 238, 0.2 * p.coherence as real / 100.0))];
      }
      i := i + 1;
    }
    cmds := cmds + [Nucleus];
  }

  /** One frame: its commands and the ring's rotation phase `time * 0.5`,
      in hundredths of the source's time unit per tick. */
  datatype TransportFrame = TransportFrame(cmds: seq<Cmd>, phase: real)

  function FrameAt(p: Props, ticks: nat): TransportFrame
  {
    TransportFrame(FrameCmds(p), ticks as real / 100.0)
  }

  class Transport {
    /** The effect's local clock, in ticks. */
    var ticks: nat
    /** Whether an animation callback of the current effect is pending. */
    var scheduled: bool
    /** The props the current effect's draw was created with. */
    var props: Props

    constructor Mount(p: Props)
      ensures ticks == 0 && !scheduled && props == p
    {
      ticks := 0;
      scheduled := false;
      props := p;
    }

    /** `draw`: the frame at the current time, then one tick more while
        simulating. */
    method Draw() returns (f: TransportFrame)
      modifies this`ticks
      ensures f == FrameAt(props, old(ticks))
      ensures ticks == old(ticks) + (if props.isSimulating then 1 else 0)
    {
      var cmds := DrawParticles(props);
      f := TransportFrame(cmds, ticks as real / 100.0);
      if props.isSimulating {
        ticks := ticks + 1;
      }
    }

    /** The effect runs for `p`: without a canvas or context it returns at
        once; otherwise its clock starts at zero, the first frame is drawn
        straight away and the next is scheduled. */
    method RunEffect(p: Props, canvasPresent: bool, hasContext: bool) returns (f: Option<TransportFrame>)
      requires !scheduled
      modifies this
      ensures !(canvasPresent && hasContext) ==>
        f == None && ticks == old(ticks) && !scheduled && props == old(props)
      ensures canvasPresent && hasContext ==>
        props == p && scheduled && f == Some(FrameAt(p, 0)) &&
        ticks == (if p.isSimulating then 1 else 0)
    {
      if !canvasPresent || !hasContext {
        return None;
      }
      props := p;
      ticks := 0;
      var frame := Draw();
      scheduled := true;
      f := Some(frame);
    }

    /** The pending animation callback fires and draws the next frame. */
    method Fire() returns (f: TransportFrame)
      requires scheduled
      modifies this`ticks
      ensures f == FrameAt(props, old(ticks))
      ensures ticks == old(ticks) + (if props.isSimulating then 1 else 0)
    {
      f := Draw();
    }

    /** The cleanup cancels the pending callback. */
    method Cleanup()
      modifies this`scheduled
      ensures !scheduled
    {
      scheduled := false;
    }
  }

  /** While simulating the ring turns a hundredth per frame; a coherence
      change re-runs the effect, which puts the ring back at phase zero. */
  method CoherenceChangeResetsRing(p: Props, c: int) returns (third: TransportFrame, reset: Option<TransportFrame>)
    requires p.isSimulating
    ensures third.phase == 0.02
    ensures reset == Some(FrameAt(p.(coherence := c), 0)) && reset.value.phase == 0.0
  {
    var t := new Transport.Mount(p);
    var first := t.RunEffect(p, true, true);
    var second := t.Fire();
    third := t.Fire();
    t.Cleanup();
    reset := t.RunEffect(p.(coherence := c), true, true);
  }
}
