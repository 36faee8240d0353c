/** The player character's animation state machine: the four texture
    lists with their fallback rule, the frame counter that advances the
    animation every six updates and restarts it when the turn direction
    changes, and the wave-mode transparency. */
module Characters {
  import opened Constants

  /** A sprite texture: one loaded from an image file, or the soft square
      generated when no idle image loads. */
  datatype Texture = Loaded(path: string) | SoftSquare(size: nat)

  /** The size of the generated fallback square. */
  const FallbackSize: nat := 32

  /** The animation names the character switches between. */
  datatype Animation = Forward | Left | Right

  /** The four texture lists: idle, forward run, left run, right run. */
  datatype TextureLists = TextureLists(idle: seq<Texture>, run: seq<Texture>, left: seq<Texture>, right: seq<Texture>)

  predicate AllNonEmpty(t: TextureLists)
  {
    t.idle != [] && t.run != [] && t.left != [] && t.right != []
  }

  /** The fallback rule applied to whatever loaded: a missing idle list
      becomes the soft square, a missing run list the idle list, and a
      missing left or right list the run list. Afterwards no list is
      empty, and a list that loaded is kept as loaded. */
  function Fallback(loaded: TextureLists): (r: TextureLists)
    ensures AllNonEmpty(r)
    ensures loaded.idle != [] ==> r.idle == loaded.idle
    ensures loaded.run != [] ==> r.run == loaded.run
    ensures loaded.left != [] ==> r.left == loaded.left
    ensures loaded.right != [] ==> r.right == loaded.right
    ensures loaded.run == [] ==> r.run == r.idle
    ensures loaded.left == [] ==> r.left == r.run
    ensures loaded.right == [] ==> r.right == r.run
    ensures loaded.idle == [] ==> r.idle == [SoftSquare(FallbackSize)]
  {
    var idle := if loaded.idle == [] then [SoftSquare(FallbackSize)] else loaded.idle;
    var run := if loaded.run == [] then idle else loaded.run;
    var left := if loaded.left == [] then run else loaded.left;
    var right := if loaded.right == [] then run else loaded.right;
    TextureLists(idle, run, left, right)
  }

  /** Every list after the fallback consists of loaded images or is the
      single soft square: nothing else is ever shown. */
  lemma FallbackOnlyLoadedOrSquare(loaded: TextureLists)
    ensures var r := Fallback(loaded);
      forall t :: t in r.idle + r.run + r.left + r.right ==>
        t in loaded.idle + loaded.run + loaded.left + loaded.right || t == SoftSquare(FallbackSize)
  {
  }

  /** The animation a turn direction selects: a positive turn plays the
      "left" animation, a negative one the "right" animation. */
  function TargetAnimation(turnDirection: int): (a: Animation)
    ensures a == Left <==> turnDirection > 0
    ensures a == Right <==> turnDirection < 0
    ensures a == Forward <==> turnDirection == 0
  {
    if turnDirection > 0 then Left
    else if turnDirection < 0 then Right
    else Forward
  }

  function ListFor(lists: TextureLists, a: Animation): seq<Texture>
  {
    match a
    case Forward => lists.run
    case Left => lists.left
    case Right => lists.right
  }

  /** The animation part of the character's state. */
  datatype AnimState = AnimState(animation: Animation, frame: int, counter: int, texture: Texture)

  /** The counter is below six and the frame indexes the animation's list. */
  predicate AnimOk(lists: TextureLists, s: AnimState)
  {
    0 <= s.counter <= 5 && 0 <= s.frame < |ListFor(lists, s.animation)|
  }

  /** One animation update: count the tick; on a change of animation
      restart it at frame 0 with the counter cleared; when the counter
      reaches six, clear it and show the next frame, wrapping around. */
  function AnimStep(lists: TextureLists, s: AnimState, turnDirection: int): AnimState
  {
    var target := TargetAnimation(turnDirection);
    var list := ListFor(lists, target);
    var s := s.(counter := s.counter + 1);
    var s := if target != s.animation then s.(animation := target, frame := 0, counter := 0) else s;
    if s.counter >= 6 then
      var s := s.(counter := 0);
      if list != [] then
        var frame := (s.frame + 1) % |list|;
        s.(frame := frame, texture := list[frame])
      else s
    else s
  }

  /** An update keeps the counter within 0..5 and the frame a valid index
      of the current animation's list. */
  lemma AnimStepKeepsOk(lists: TextureLists, s: AnimState, turnDirection: int)
    requires AllNonEmpty(lists) && AnimOk(lists, s)
    ensures AnimOk(lists, AnimStep(lists, s, turnDirection))
  {
  }

  /** A change of animation restarts it and nothing else: frame and
      counter are cleared and the texture is left as it was. */
  lemma AnimStepOnChange(lists: TextureLists, s: AnimState, turnDirection: int)
    requires TargetAnimation(turnDirection) != s.animation
    ensures AnimStep(lists, s, turnDirection) == AnimState(TargetAnimation(turnDirection), 0, 0, s.texture)
  {
  }

  /** With the animation unchanged, the frame advances exactly on the tick
      that brings the counter to six, to the next frame modulo the list's
      length, and only then does the texture change. */
  lemma AnimStepSameAnimation(lists: TextureLists, s: AnimState, turnDirection: int)
    requires AllNonEmpty(lists) && AnimOk(lists, s)
    requires TargetAnimation(turnDirection) == s.animation
    ensures var list := ListFor(lists, s.animation);
      var r := AnimStep(lists, s, turnDirection);
      && r.animation == s.animation
      && (s.counter == 5 ==> r == AnimState(s.animation, (s.frame + 1) % |list|, 0, list[(s.frame + 1) % |list|]))
      && (s.counter < 5 ==> r == s.(counter := s.counter + 1))
  {
  }

  /** n consecutive updates with the same turn direction. */
  function AnimRun(lists: TextureLists, s: AnimState, turnDirection: int, n: nat): AnimState
  {
    if n == 0 then s else AnimStep(lists, AnimRun(lists, s, turnDirection, n - 1), turnDirection)
  }

  /** Holding a steady direction, the animation shows one frame per six
      updates: after n updates the counter is (c + n) mod 6 and the frame
      has moved on by (c + n) div 6 positions, wrapping around the list. */
  lemma {:induction false} AnimRunCadence(lists: TextureLists, s: AnimState, turnDirection: int, n: nat)
    requires AllNonEmpty(lists) && AnimOk(lists, s)
    requires TargetAnimation(turnDirection) == s.animation
    ensures var r := AnimRun(lists, s, turnDirection, n);
      var len := |ListFor(lists, s.animation)|;
      && r.animation == s.animation
      && r.counter == (s.counter + n) % 6
      && r.frame == (s.frame + (s.counter + n) / 6) % len
  {
    if n > 0 {
      AnimRunCadence(lists, s, turnDirection, n - 1);
      CadenceStep(lists, s, turnDirection, AnimRun(lists, s, turnDirection, n - 1), s.counter + n - 1);
    }
  }

  /** One more update from a state c ticks into a steady run. */
  lemma CadenceStep(lists: TextureLists, s: AnimState, turnDirection: int, prev: AnimState, c: int)
    requires AllNonEmpty(lists) && AnimOk(lists, s) && c >= 0
    requires TargetAnimation(turnDirection) == s.animation
    requires prev.animation == s.animation && prev.counter == c % 6
    requires prev.frame == (s.frame + c / 6) % |ListFor(lists, s.animation)|
    ensures var r := AnimStep(lists, prev, turnDirection);
      && r.animation == s.animation
      && r.counter == (c + 1) % 6
      && r.frame == (s.frame + (c + 1) / 6) % |ListFor(lists, s.animation)|
  {
    var len := |ListFor(lists, s.animation)|;
    var a := s.frame + c / 6;
    AnimStepSameAnimation(lists, prev, turnDirection);
    if c % 6 == 5 {
      assert (c + 1) / 6 == c / 6 + 1 && (c + 1) % 6 == 0;
      assert s.frame + (c + 1) / 6 == a + 1;
      ModAddOne(a, len);
    } else {
      assert (c + 1) / 6 == c / 6 && (c + 1) % 6 == c % 6 + 1;
      assert s.frame + (c + 1) / 6 == a;
    }
  }

  /** Adding one before or after reducing modulo m gives the same residue. */
  lemma ModAddOne(a: int, m: int)
    requires m > 0
    ensures (a % m + 1) % m == (a + 1) % m
  {
    var q := a / m;
    if a % m + 1 < m {
      ModUnique(a + 1, m, q, a % m + 1);
      ModUnique(a % m + 1, m, 0, a % m + 1);
    } else {
      ModUnique(a + 1, m, q + 1, 0);
      ModUnique(a % m + 1, m, 1, 0);
    }
  }

  /** The residue modulo m is the unique r in [0, m) with a = q*m + r. */
  lemma ModUnique(a: int, m: int, q: int, r: int)
    requires m > 0 && 0 <= r < m && a == q * m + r
    ensures a % m == r
  {
    var d := a / m;
    var k := q - d;
    assert a == d * m + a % m;
    assert k * m == q * m - d * m;
    assert k * m == a % m - r;
    if k > 0 {
      MulAtLeast(k, m);
    } else if k < 0 {
      MulAtLeast(-k, m);
    }
  }

  lemma MulAtLeast(k: int, m: int)
    requires k >= 1 && m > 0
    ensures k * m >= m
  {
    assert k * m == (k - 1) * m + m;
    assert (k - 1) * m >= 0;
  }

  /** The transparency wave mode gives the character. */
  function AlphaFor(enabled: bool): (alpha: int)
    ensures enabled ==> alpha == WaveModeAlpha
    ensures !enabled ==> alpha == OpaqueAlpha
    ensures 0 <= alpha <= 255
  {
    if enabled then WaveModeAlpha else OpaqueAlpha
  }

  /** The character sprite's animation and wave-mode state. */
  class Character {
    var idleTextures: seq<Texture>
    var runTextures: seq<Texture>
    var runLeftTextures: seq<Texture>
    var runRightTextures: seq<Texture>
    var texture: Texture
    var currentFrame: int
    var frameCounter: int
    var currentAnimation: Animation
    var inWaveMode: bool
    var alpha: int

    function Lists(): TextureLists
      reads this
    {
      TextureLists(idleTextures, runTextures, runLeftTextures, runRightTextures)
    }

    function State(): AnimState
      reads this
    {
      AnimState(currentAnimation, currentFrame, frameCounter, texture)
    }

    ghost predicate Valid()
      reads this
    {
      && AllNonEmpty(Lists()) && AnimOk(Lists(), State())
      && alpha == AlphaFor(inWaveMode)
    }

    /** Takes the lists the image loaders produced (any of them possibly
        empty, since a failed load is skipped), applies the fallback rule
        and starts the forward animation on the first run frame. */
    constructor (loaded: TextureLists)
      ensures Valid()
      ensures Lists() == Fallback(loaded)
      ensures State() == AnimState(Forward, 0, 0, Fallback(loaded).run[0])
      ensures !inWaveMode && alpha == OpaqueAlpha
    {
      idleTextures := loaded.idle;
      runTextures := loaded.run;
      runLeftTextures := loaded.left;
      runRightTextures := loaded.right;
      texture := SoftSquare(FallbackSize);
      currentFrame := 0;
      frameCounter := 0;
      currentAnimation := Forward;
      inWaveMode := false;
      alpha := OpaqueAlpha;
      new;
      if idleTextures == [] {
        idleTextures := [SoftSquare(FallbackSize)];
      }
      if runTextures == [] {
        runTextures := idleTextures;
      }
      if runLeftTextures == [] {
        runLeftTextures := runTextures;
      }
      if runRightTextures == [] {
        runRightTextures := runTextures;
      }
      texture := if runTextures != [] then runTextures[0] else idleTextures[0];
    }

    /** One animation update for the given turn direction. */
    method UpdateAnimation(turnDirection: int)
      requires Valid()
      modifies this
      ensures Valid()
      ensures State() == AnimStep(old(Lists()), old(State()), turnDirection)
      ensures Lists() == old(Lists()) && inWaveMode == old(inWaveMode) && alpha == old(alpha)
    {
      frameCounter := frameCounter + 1;
      var targetAnimation: Animation;
      var textureList: seq<Texture>;
      if turnDirection > 0 {
        targetAnimation, textureList := Left, runLeftTextures;
      } else if turnDirection < 0 {
        targetAnimation, textureList := Right, runRightTextures;
      } else {
        targetAnimation, textureList := Forward, runTextures;
      }
      if targetAnimation != currentAnimation {
        currentAnimation := targetAnimation;
        currentFrame := 0;
        frameCounter := 0;
      }
      if frameCounter >= 6 {
        frameCounter := 0;
        if textureList != [] {
          currentFrame := (currentFrame + 1) % |textureList|;
          texture := textureList[currentFrame];
        }
      }
      AnimStepKeepsOk(old(Lists()), old(State()), turnDirection);
    }

    /** Switches the wave-mode look on or off. */
    method SetWaveMode(enabled: bool)
      modifies this
      ensures inWaveMode == enabled && alpha == AlphaFor(enabled)
      ensures Lists() == old(Lists()) && State() == old(State())
    {
      inWaveMode := enabled;
      if enabled {
        alpha := WaveModeAlpha;
      } else {
        alpha := OpaqueAlpha;
      }
    }
  }
}
