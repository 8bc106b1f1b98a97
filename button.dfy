/**
 * src/ui/button.py: the menu buttons. A button lightens its colour by 30 for
 * the hover colour, tracks whether the mouse is over it, and keeps a pulse
 * that `draw` moves up and down between 0 and `pulse_max`; a change of
 * hover state restarts the pulse.
 */
module Buttons {
  import opened Geometry

  /** An RGB colour; a valid one has every channel in 0..255. */
  datatype Color = Color(r: int, g: int, b: int)

  predicate ValidColor(c: Color)
  {
    0 <= c.r <= 255 && 0 <= c.g <= 255 && 0 <= c.b <= 255
  }

  function MinInt(a: int, b: int): int { if a <= b then a else b }

  /** `lighten_color`: add `amount` to every channel, clamped at 255. */
  function Lighten(c: Color, amount: int): Color
  {
    Color(MinInt(255, c.r + amount), MinInt(255, c.g + amount), MinInt(255, c.b + amount))
  }

  /** Lightening a valid colour by a non-negative amount gives a valid colour no darker in any channel, exact below the clamp. */
  lemma LightenBounds(c: Color, amount: int)
    requires ValidColor(c) && amount >= 0
    ensures var l := Lighten(c, amount);
      ValidColor(l) && l.r >= c.r && l.g >= c.g && l.b >= c.b
      && (c.r + amount <= 255 ==> l.r == c.r + amount)
      && (c.g + amount <= 255 ==> l.g == c.g + amount)
      && (c.b + amount <= 255 ==> l.b == c.b + amount)
      && (amount >= 255 ==> l == Color(255, 255, 255))
  {
  }

  /** Lightening twice is lightening once by the sum, so the highlight of the hover colour is the colour lightened by 80. */
  lemma LightenTwice(c: Color, a: int, b: int)
    requires b >= 0
    ensures Lighten(Lighten(c, a), b) == Lighten(c, a + b)
  {
  }

  // ---------------------------------------------------------------------------
  // The pulse.

  /** `pulse_speed` and `pulse_max` as the constructor sets them; nothing changes them afterwards. */
  const PULSE_SPEED: real := 0.1
  const PULSE_MAX: real := 5.0

  /** `pulse_effect` and `pulse_direction`. */
  datatype Pulse = Pulse(effect: real, direction: int)

  /** The pulse of a new button and after a hover change. */
  const Rest := Pulse(0.0, 1)

  /** The first lines of `draw`: move by `pulse_speed` in the current direction, and turn round at or past either end. */
  function PulseStep(p: Pulse): Pulse
  {
    var e := p.effect + PULSE_SPEED * p.direction as real;
    Pulse(e, if e >= PULSE_MAX || e <= 0.0 then -p.direction else p.direction)
  }

  function PulseSteps(p: Pulse, n: nat): Pulse
    decreases n
  {
    if n == 0 then p else PulseStep(PulseSteps(p, n - 1))
  }

  /**
   * What the pulse keeps: rising from below `pulse_max`, or falling from above
   * 0, and never more than one step past either end.
   */
  predicate PulseBounded(p: Pulse)
  {
    (p.direction == 1 && -PULSE_SPEED < p.effect < PULSE_MAX)
    || (p.direction == -1 && 0.0 < p.effect < PULSE_MAX + PULSE_SPEED)
  }

  lemma RestBounded()
    ensures PulseBounded(Rest)
  {
  }

  /** One step keeps the pulse bounded: the direction stays 1 or -1 and the effect strictly between `-pulse_speed` and `pulse_max + pulse_speed`. */
  lemma PulseStepKeepsBounded(p: Pulse)
    requires PulseBounded(p)
    ensures PulseBounded(PulseStep(p))
    ensures PulseStep(p).direction in {-1, 1} && -PULSE_SPEED < PulseStep(p).effect < PULSE_MAX + PULSE_SPEED
  {
  }

  /** Hence any number of `draw` calls from a bounded pulse. */
  lemma {:induction false} PulseStepsKeepBounded(p: Pulse, n: nat)
    requires PulseBounded(p)
    ensures PulseBounded(PulseSteps(p, n))
    ensures -PULSE_SPEED < PulseSteps(p, n).effect < PULSE_MAX + PULSE_SPEED
    decreases n
  {
    if n > 0 {
      PulseStepsKeepBounded(p, n - 1);
      PulseStepKeepsBounded(PulseSteps(p, n - 1));
    }
  }

  lemma {:induction false} PulseStepsAdd(p: Pulse, m: nat, n: nat)
    ensures PulseSteps(p, m + n) == PulseSteps(PulseSteps(p, m), n)
    decreases n
  {
    if n > 0 {
      PulseStepsAdd(p, m, n - 1);
      assert m + n - 1 == m + (n - 1);
    }
  }

  /** With exact arithmetic the pulse climbs from rest by a tenth per step and turns round on the 50th, at exactly 5. */
  lemma {:induction false} PulseRises(n: nat)
    requires n <= 50
    ensures PulseSteps(Rest, n) == Pulse(n as real / 10.0, if n == 50 then -1 else 1)
    decreases n
  {
    if n > 0 {
      PulseRises(n - 1);
    }
  }

  /** From the top it falls by a tenth per step and turns round on the 50th, at exactly 0. */
  lemma {:induction false} PulseFalls(n: nat)
    requires n <= 50
    ensures PulseSteps(Pulse(5.0, -1), n) == Pulse(5.0 - n as real / 10.0, if n == 50 then 1 else -1)
    decreases n
  {
    if n > 0 {
      PulseFalls(n - 1);
    }
  }

  /** So a button left alone pulses with a period of 100 draws. */
  lemma PulsePeriod()
    ensures PulseSteps(Rest, 100) == Rest
  {
    PulseRises(50);
    PulseFalls(50);
    PulseStepsAdd(Rest, 50, 50);
  }

  /** The font size `draw` asks for: 36, plus the pulse while hovered, truncated by `int`. */
  function FontSize(hovered: bool, p: Pulse): (s: int)
    ensures !hovered ==> s == 36
    ensures PulseBounded(p) ==> 35 <= s <= 41
  {
    var size := 36.0 + (if hovered then p.effect else 0.0);
    if size >= 0.0 then size.Floor else -((-size).Floor)
  }

  // ---------------------------------------------------------------------------
  // The button object.

  class Button {
    const rect: Rect
    const text: string
    const color: Color
    const hoverColor: Color
    var isHovered: bool
    var pulseEffect: real
    var pulseDirection: int

    function PulseOf(): Pulse
      reads this
    {
      Pulse(pulseEffect, pulseDirection)
    }

    ghost predicate Valid()
      reads this
    {
      PulseBounded(PulseOf())
    }

    /** `is_clicked`: half-open containment of the position in the button's rectangle. */
    predicate IsClicked(px: int, py: int)
    {
      Contains(rect, px, py)
    }

    /** `__init__`: the rectangle, the text, the colour and its lightened hover colour, not hovered, pulse at rest. */
    constructor (x: int, y: int, width: int, height: int, caption: string, c: Color)
      ensures rect == Rect(x, y, width, height) && text == caption && color == c && hoverColor == Lighten(c, 30)
      ensures !isHovered && PulseOf() == Rest && Valid()
    {
      rect := Rect(x, y, width, height);
      text := caption;
      color := c;
      hoverColor := Lighten(c, 30);
      isHovered := false;
      pulseEffect, pulseDirection := 0.0, 1;
    }

    /** The pulse step at the top of `draw`. */
    method StepPulse()
      requires Valid()
      modifies this
      ensures PulseOf() == PulseStep(old(PulseOf())) && isHovered == old(isHovered) && Valid()
    {
      pulseEffect := pulseEffect + PULSE_SPEED * pulseDirection as real;
      if pulseEffect >= PULSE_MAX || pulseEffect <= 0.0 {
        pulseDirection := -pulseDirection;
      }
      PulseStepKeepsBounded(old(PulseOf()));
    }

    /** The colour `draw` fills the button with. */
    function CurrentColor(): Color
      reads this
    {
      if isHovered then hoverColor else color
    }

    /** `update`: hovered exactly when the mouse is inside; the pulse restarts only when that changed. */
    method Update(mx: int, my: int)
      requires Valid()
      modifies this
      ensures isHovered == IsClicked(mx, my)
      ensures PulseOf() == if isHovered != old(isHovered) then Rest else old(PulseOf())
      ensures Valid()
    {
      var prev := isHovered;
      isHovered := Contains(rect, mx, my);
      if prev != isHovered {
        pulseEffect := 0.0;
        pulseDirection := 1;
      }
    }
  }
}
