/** The animated background of the main window.

    The panel keeps a running flag, the delay between ticks, a colour mode,
    a draw pattern and a list of circles.  Each tick either repaints the
    whole background with one new colour (solid fill) or replaces the circle
    list by twenty freshly drawn circles.  The random generator is a class
    whose draws come from an arbitrary source: the k-th draw of nextInt(n)
    is source(k) % n, so every value in [0, n) can come out and nothing
    else can. */
module Animation {

  /** A colour channel; the colour constructor rejects anything outside [0, 255]. */
  type Channel = x: int | 0 <= x <= 255

  datatype Color = Color(r: Channel, g: Channel, b: Channel)

  datatype ColorMode = Random | Blues | Greens | Grayscale

  datatype DrawPattern = SolidFill | Circles

  datatype Circle = Circle(x: int, y: int, radius: int, color: Color)

  /** The panel's background colour: the look-and-feel default until a solid-fill tick paints it. */
  datatype Background = LookAndFeelDefault | Painted(color: Color)

  /** How a tick ended: normally, or with the IllegalArgumentException that
      nextInt raises for a width or height that is not positive. */
  datatype TickOutcome = Completed | IllegalArgument

  const MinDelay: int := 50
  const DefaultDelay: int := 500
  /** Circles generated per tick.  A function rather than a constant: a literal
      count passed to DrawnCircles would let the verifier unfold it twenty times. */
  function CircleCount(): nat { 20 }

  /** The colours a mode can produce. */
  predicate InPalette(mode: ColorMode, c: Color)
  {
    match mode
    case Random => true
    case Blues => c.r == 0 && c.g == 0 && 127 <= c.b <= 254
    case Greens => c.r == 0 && c.b == 0 && 127 <= c.g <= 254
    case Grayscale => c.r == c.g == c.b
  }

  /** The circles a tick can produce on a panel of the given size. */
  predicate InBounds(c: Circle, mode: ColorMode, width: int, height: int)
  {
    0 <= c.x < width && 0 <= c.y < height && 10 <= c.radius <= 49 && InPalette(mode, c.color)
  }

  /** The delay that setAnimationDelay stores: never below 50 ms. */
  function ClampDelay(delay: int): (d: int)
    ensures d >= MinDelay
    ensures delay >= MinDelay ==> d == delay
    ensures delay < MinDelay ==> d == MinDelay
  {
    if delay < MinDelay then MinDelay else delay
  }

  lemma ClampDelayIdempotent(delay: int)
    ensures ClampDelay(ClampDelay(delay)) == ClampDelay(delay)
  {
  }

  /** Number of nextInt calls one generated colour consumes. */
  function ColorDraws(mode: ColorMode): nat
  {
    if mode == Random then 3 else 1
  }

  /** Number of nextInt calls one generated circle consumes: x, y, radius, then its colour. */
  function CircleDraws(mode: ColorMode): nat
  {
    3 + ColorDraws(mode)
  }

  /** Number of nextInt calls a complete circles tick consumes. */
  function TickDraws(mode: ColorMode): nat
  {
    CircleCount() * CircleDraws(mode)
  }

  /** The colour generated from the draws source(at), source(at + 1), ... */
  function DrawnColor(mode: ColorMode, source: nat -> nat, at: nat): (c: Color)
    ensures InPalette(mode, c)
  {
    match mode
    case Random => Color(source(at) % 256, source(at + 1) % 256, source(at + 2) % 256)
    case Blues => Color(0, 0, source(at) % 128 + 127)
    case Greens => Color(0, source(at) % 128 + 127, 0)
    case Grayscale =>
      var gray := source(at) % 256;
      Color(gray, gray, gray)
  }

  /** Every colour of a mode's palette is produced by some sequence of draws. */
  lemma EveryPaletteColorDrawn(mode: ColorMode, c: Color)
    requires InPalette(mode, c)
    ensures exists source: nat -> nat :: DrawnColor(mode, source, 0) == c
  {
    match mode
    case Random =>
      var source: nat -> nat := (k: nat) => if k == 0 then c.r as nat else if k == 1 then c.g as nat else c.b as nat;
      SmallRemainder(c.r, 256);
      SmallRemainder(c.g, 256);
      SmallRemainder(c.b, 256);
      assert DrawnColor(mode, source, 0) == c;
    case Blues =>
      var source: nat -> nat := (k: nat) => (c.b - 127) as nat;
      SmallRemainder(c.b - 127, 128);
      assert DrawnColor(mode, source, 0) == c;
    case Greens =>
      var source: nat -> nat := (k: nat) => (c.g - 127) as nat;
      SmallRemainder(c.g - 127, 128);
      assert DrawnColor(mode, source, 0) == c;
    case Grayscale =>
      var source: nat -> nat := (k: nat) => c.r as nat;
      SmallRemainder(c.r, 256);
      assert DrawnColor(mode, source, 0) == c;
  }

  /** The circle generated from the draws starting at source(at). */
  function DrawnCircle(mode: ColorMode, source: nat -> nat, at: nat, width: int, height: int): (c: Circle)
    requires width > 0 && height > 0
    ensures InBounds(c, mode, width, height)
  {
    Circle(source(at) % width, source(at + 1) % height, source(at + 2) % 40 + 10,
           DrawnColor(mode, source, at + 3))
  }

  /** Every circle within the bounds is produced by some sequence of draws. */
  lemma EveryBoundedCircleDrawn(mode: ColorMode, c: Circle, width: int, height: int)
    requires width > 0 && height > 0
    requires InBounds(c, mode, width, height)
    ensures exists source: nat -> nat :: DrawnCircle(mode, source, 0, width, height) == c
  {
    EveryPaletteColorDrawn(mode, c.color);
    var colorSource: nat -> nat :| DrawnColor(mode, colorSource, 0) == c.color;
    var source: nat -> nat := (k: nat) =>
      if k == 0 then c.x as nat
      else if k == 1 then c.y as nat
      else if k == 2 then (c.radius - 10) as nat
      else colorSource(k - 3);
    SmallRemainder(c.x, width);
    SmallRemainder(c.y, height);
    SmallRemainder(c.radius - 10, 40);
    assert DrawnColor(mode, source, 3) == DrawnColor(mode, colorSource, 0);
    assert DrawnCircle(mode, source, 0, width, height) == c;
  }

  lemma SmallRemainder(a: int, n: int)
    requires 0 <= a < n
    ensures a % n == a
  {
  }

  /** The first n circles generated from the draws starting at source(at), in
      the order they are added: circle i is drawn from source(at + i * CircleDraws(mode)) on. */
  function DrawnCircles(mode: ColorMode, source: nat -> nat, at: nat, width: int, height: int, n: nat): (cs: seq<Circle>)
    requires width > 0 && height > 0
    ensures |cs| == n
    ensures forall c :: c in cs ==> InBounds(c, mode, width, height)
  {
    seq(n, i requires 0 <= i < n => DrawnCircle(mode, source, at + i * CircleDraws(mode), width, height))
  }

  /** Drawing one more circle appends it to the ones drawn before. */
  lemma DrawnCirclesExtend(mode: ColorMode, source: nat -> nat, at: nat, width: int, height: int, n: nat)
    requires width > 0 && height > 0
    ensures DrawnCircles(mode, source, at, width, height, n + 1)
         == DrawnCircles(mode, source, at, width, height, n)
            + [DrawnCircle(mode, source, at + n * CircleDraws(mode), width, height)]
  {
  }

  /** java.util.Random as seen by the panel: a counter over a source of draws. */
  class RandomGenerator {
    const source: nat -> nat
    var drawn: nat

    constructor (source: nat -> nat)
      ensures this.source == source && drawn == 0
    {
      this.source := source;
      drawn := 0;
    }

    /** nextInt(bound): its callers must pass a positive bound. */
    method NextInt(bound: int) returns (v: int)
      requires bound > 0
      modifies this`drawn
      ensures 0 <= v < bound
      ensures v == source(old(drawn)) % bound
      ensures drawn == old(drawn) + 1
    {
      v := source(drawn) % bound;
      drawn := drawn + 1;
    }
  }

  /** The animation thread object: started once, and possibly asked to stop by an interrupt. */
  class AnimationThread {
    var started: bool
    var interrupted: bool

    constructor ()
      ensures !started && !interrupted
    {
      started, interrupted := false, false;
    }

    method Start()
      modifies this`started
      ensures started
    {
      started := true;
    }

    method Interrupt()
      modifies this`interrupted
      ensures interrupted
    {
      interrupted := true;
    }
  }

  class AnimatedBackgroundPanel {
    var running: bool
    var animationThread: AnimationThread?
    var animationDelay: int
    var currentColorMode: ColorMode
    var currentDrawPattern: DrawPattern
    const random: RandomGenerator
    var circles: seq<Circle>
    var background: Background

    /** The delay is at least 50 ms, a running panel has a thread, a solid
        fill has no circles, and the circle list is empty or a full tick's worth. */
    ghost predicate Valid()
      reads this
    {
      animationDelay >= MinDelay &&
      (running ==> animationThread != null) &&
      (currentDrawPattern == SolidFill ==> circles == []) &&
      (|circles| == 0 || |circles| == CircleCount()) &&
      (forall c :: c in circles ==> 0 <= c.x && 0 <= c.y && 10 <= c.radius <= 49)
    }

    constructor (source: nat -> nat)
      ensures Valid()
      ensures !running && animationThread == null
      ensures animationDelay == DefaultDelay
      ensures currentColorMode == Random && currentDrawPattern == SolidFill
      ensures circles == [] && background == LookAndFeelDefault
      ensures fresh(random) && random.source == source && random.drawn == 0
    {
      running := false;
      animationThread := null;
      animationDelay := DefaultDelay;
      currentColorMode := Random;
      currentDrawPattern := SolidFill;
      random := new RandomGenerator(source);
      circles := [];
      background := LookAndFeelDefault;
    }

    /** One tick: repaint the background colour, or regenerate the twenty circles. */
    method UpdateAnimationState(width: int, height: int) returns (outcome: TickOutcome)
      requires Valid()
      modifies this`circles, this`background, random
      ensures Valid()
      ensures currentDrawPattern == SolidFill ==>
        && outcome == Completed
        && background == Painted(DrawnColor(currentColorMode, random.source, old(random.drawn)))
        && random.drawn == old(random.drawn) + ColorDraws(currentColorMode)
        && circles == old(circles)
      ensures currentDrawPattern == Circles && width > 0 && height > 0 ==>
        && outcome == Completed
        && circles == DrawnCircles(currentColorMode, random.source, old(random.drawn), width, height, CircleCount())
        && |circles| == CircleCount()
        && (forall c :: c in circles ==> InBounds(c, currentColorMode, width, height))
        && random.drawn == old(random.drawn) + TickDraws(currentColorMode)
        && background == old(background)
      ensures currentDrawPattern == Circles && !(width > 0 && height > 0) ==>
        && outcome == IllegalArgument
        && circles == []
        && random.drawn == old(random.drawn) + (if width > 0 then 1 else 0)
        && background == old(background)
    {
      if currentDrawPattern == SolidFill {
        var newColor := GenerateColor();
        background := Painted(newColor);
        outcome := Completed;
      } else {
        outcome := RegenerateCircles(width, height);
      }
    }

    /** The circles branch of a tick: clear the list in place, then add twenty circles one at a time. */
    method RegenerateCircles(width: int, height: int) returns (outcome: TickOutcome)
      modifies this`circles, random
      ensures width > 0 && height > 0 ==>
        && outcome == Completed
        && circles == DrawnCircles(currentColorMode, random.source, old(random.drawn), width, height, CircleCount())
        && random.drawn == old(random.drawn) + TickDraws(currentColorMode)
      ensures !(width > 0 && height > 0) ==>
        && outcome == IllegalArgument
        && circles == []
        && random.drawn == old(random.drawn) + (if width > 0 then 1 else 0)
    {
      circles := [];
      ghost var start := random.drawn;
      ghost var perCircle := CircleDraws(currentColorMode);
      for i := 0 to CircleCount()
        invariant i > 0 ==> width > 0 && height > 0
        invariant i == 0 ==> circles == [] && random.drawn == start
        invariant i > 0 ==>
          && circles == DrawnCircles(currentColorMode, random.source, start, width, height, i)
          && random.drawn == start + i * perCircle
      {
        if width <= 0 {
          return IllegalArgument;
        }
        if height <= 0 {
          // x is drawn, then nextInt(getHeight()) throws
          var x := random.NextInt(width);
          return IllegalArgument;
        }
        ghost var at := random.drawn;
        var circle := NextCircle(width, height);
        assert at == start + i * perCircle;
        assert random.drawn == start + (i + 1) * perCircle;
        DrawnCirclesExtend(currentColorMode, random.source, start, width, height, i);
        circles := circles + [circle];
      }
      outcome := Completed;
    }

    /** One `new Circle(x, y, radius, generateColor())` with its four kinds of draws, in that order. */
    method NextCircle(width: int, height: int) returns (c: Circle)
      requires width > 0 && height > 0
      modifies random
      ensures c == DrawnCircle(currentColorMode, random.source, old(random.drawn), width, height)
      ensures random.drawn == old(random.drawn) + CircleDraws(currentColorMode)
    {
      var x := random.NextInt(width);
      var y := random.NextInt(height);
      var radius := random.NextInt(40);
      var color := GenerateColor();
      c := Circle(x, y, radius + 10, color);
    }

    /** generateColor: one colour of the current mode, drawn from the generator. */
    method GenerateColor() returns (c: Color)
      modifies random
      ensures c == DrawnColor(currentColorMode, random.source, old(random.drawn))
      ensures InPalette(currentColorMode, c)
      ensures random.drawn == old(random.drawn) + ColorDraws(currentColorMode)
    {
      match currentColorMode
      case Random =>
        var r := random.NextInt(256);
        var g := random.NextInt(256);
        var b := random.NextInt(256);
        c := Color(r, g, b);
      case Blues =>
        var b := random.NextInt(128);
        c := Color(0, 0, b + 127);
      case Greens =>
        var g := random.NextInt(128);
        c := Color(0, g + 127, 0);
      case Grayscale =>
        var gray := random.NextInt(256);
        c := Color(gray, gray, gray);
    }

    /** Starts a new thread unless one is recorded and the flag is set. */
    method StartAnimation()
      requires Valid()
      modifies this`running, this`animationThread
      ensures Valid()
      ensures old(animationThread != null && running) ==>
        running && animationThread == old(animationThread)
      ensures old(animationThread == null || !running) ==>
        && running
        && animationThread != null && fresh(animationThread)
        && animationThread.started && !animationThread.interrupted
    {
      if animationThread == null || !running {
        running := true;
        var thread := new AnimationThread();
        animationThread := thread;
        thread.Start();
      }
    }

    /** Clears the flag and interrupts the recorded thread, without waiting for it to end. */
    method StopAnimation()
      requires Valid()
      modifies this`running, animationThread
      ensures Valid()
      ensures !running
      ensures animationThread == old(animationThread)
      ensures animationThread != null ==>
        animationThread.interrupted && animationThread.started == old(animationThread.started)
    {
      running := false;
      if animationThread != null {
        animationThread.Interrupt();
      }
    }

    method SetAnimationDelay(delay: int)
      requires Valid()
      modifies this`animationDelay
      ensures Valid()
      ensures animationDelay == ClampDelay(delay)
    {
      animationDelay := ClampDelay(delay);
    }

    method SetColorMode(mode: ColorMode)
      requires Valid()
      modifies this`currentColorMode
      ensures Valid()
      ensures currentColorMode == mode
    {
      currentColorMode := mode;
    }

    /** Clears the circles whenever the previous pattern was Circles, even when Circles is selected again. */
    method SetDrawPattern(pattern: DrawPattern)
      requires Valid()
      modifies this`currentDrawPattern, this`circles
      ensures Valid()
      ensures currentDrawPattern == pattern
      ensures circles == if old(currentDrawPattern) == Circles then [] else old(circles)
    {
      if currentDrawPattern == Circles {
        circles := [];
      }
      currentDrawPattern := pattern;
    }
  }
}
