/** The discrete core of the "Sky Jumper" mini-game: the colour helpers
    lightenColor/darkenColor, level generation, and one frame of the game
    state update (velocities, coins, score, lives, win and game over). */
module Platformer {
  import opened Numeric

  // ---------------------------------------------------------------------
  // Hexadecimal colours
  // ---------------------------------------------------------------------

  /** A digit parseInt(_, 16) accepts, in either case. */
  predicate IsHexDigit(c: char) {
    '0' <= c <= '9' || 'a' <= c <= 'f' || 'A' <= c <= 'F'
  }

  /** A digit Number.prototype.toString(16) produces. */
  predicate IsLowerHexDigit(c: char) {
    '0' <= c <= '9' || 'a' <= c <= 'f'
  }

  predicate AllHex(s: string) {
    forall i :: 0 <= i < |s| ==> IsHexDigit(s[i])
  }

  predicate AllLowerHex(s: string) {
    forall i :: 0 <= i < |s| ==> IsLowerHexDigit(s[i])
  }

  function DigitValue(c: char): (d: nat)
    requires IsHexDigit(c)
    ensures d < 16
  {
    if '0' <= c <= '9' then c as int - '0' as int
    else if 'a' <= c <= 'f' then c as int - 'a' as int + 10
    else c as int - 'A' as int + 10
  }

  /** The lower-case digit toString(16) writes for d. */
  function HexDigit(d: nat): (c: char)
    requires d < 16
    ensures IsLowerHexDigit(c) && DigitValue(c) == d
  {
    if d < 10 then ('0' as int + d) as char else ('a' as int + d - 10) as char
  }

  lemma DigitOfValue(c: char)
    requires IsLowerHexDigit(c)
    ensures HexDigit(DigitValue(c)) == c
  {
  }

  /** parseInt(s, 16) for a string made only of hex digits. */
  function HexValue(s: string): nat
    requires AllHex(s)
  {
    if s == [] then 0 else HexValue(s[..|s| - 1]) * 16 + DigitValue(s[|s| - 1])
  }

  /** n.toString(16): most significant digit first, no leading zeros. */
  function ToHex(n: nat): (s: string)
    ensures 1 <= |s| && AllLowerHex(s)
  {
    if n < 16 then [HexDigit(n)] else ToHex(n / 16) + [HexDigit(n % 16)]
  }

  function Pow16(k: nat): (p: nat)
    ensures 1 <= p
  {
    if k == 0 then 1 else 16 * Pow16(k - 1)
  }

  /** Six hex digits span exactly the 24 bits of a colour. */
  lemma Pow16Six()
    ensures Pow16(6) == 0x100_0000
  {
  }

  /** parseInt(_, 16) undoes toString(16). */
  lemma {:induction false} HexRoundTrip(n: nat)
    ensures HexValue(ToHex(n)) == n
  {
    if n >= 16 {
      var t := ToHex(n / 16);
      HexRoundTrip(n / 16);
      assert ToHex(n)[..|ToHex(n)| - 1] == t;
    }
  }

  /** A number in [16^k, 2 * 16^k) prints as a '1' followed by k digits, and
      those k digits spell the number minus 16^k. */
  lemma {:induction false} ToHexAfterLeadingOne(n: nat, k: nat)
    requires Pow16(k) <= n < 2 * Pow16(k)
    ensures |ToHex(n)| == k + 1 && ToHex(n)[0] == '1'
    ensures HexValue(ToHex(n)[1..]) == n - Pow16(k)
  {
    if k > 0 {
      var p := Pow16(k - 1);
      assert 16 * p <= n < 32 * p;
      assert p <= n / 16 < 2 * p;
      ToHexAfterLeadingOne(n / 16, k - 1);
      var t := ToHex(n / 16);
      var d := HexDigit(n % 16);
      assert ToHex(n) == t + [d];
      assert ToHex(n)[1..] == t[1..] + [d];
      assert (t[1..] + [d])[..k - 1] == t[1..];
      calc {
        HexValue(ToHex(n)[1..]);
        HexValue(t[1..]) * 16 + n % 16;
        (n / 16 - p) * 16 + n % 16;
        n - 16 * p;
      }
    }
  }

  /** Printing 16^|s| + (the value of s) gives back '1' + s, for lower-case s:
      toString(16) has only one way to write a number. */
  lemma {:induction false} ToHexOfPadded(s: string)
    requires AllLowerHex(s)
    ensures AllHex(s) && ToHex(Pow16(|s|) + HexValue(s)) == "1" + s
  {
    if s != [] {
      var t := s[..|s| - 1];
      var c := s[|s| - 1];
      ToHexOfPadded(t);
      var n := Pow16(|s|) + HexValue(s);
      assert n == 16 * (Pow16(|t|) + HexValue(t)) + DigitValue(c);
      assert n / 16 == Pow16(|t|) + HexValue(t) && n % 16 == DigitValue(c);
      DigitOfValue(c);
      assert ToHex(n) == ("1" + t) + [c];
      assert s == t + [c];
    }
  }

  /** A colour string parseInt can read after the '#' is removed. */
  predicate IsColor(s: string) {
    |s| == 7 && s[0] == '#' && AllHex(s[1..])
  }

  /** The form the colour helpers return: '#' and six lower-case digits. */
  predicate IsLowerColor(s: string) {
    |s| == 7 && s[0] == '#' && AllLowerHex(s[1..])
  }

  /** parseInt(color.replace("#", ""), 16). */
  function ParseColor(s: string): (num: nat)
    requires IsColor(s)
    ensures num < 0x100_0000
  {
    HexValueBound(s[1..]);
    Pow16Six();
    HexValue(s[1..])
  }

  lemma {:induction false} HexValueBound(s: string)
    requires AllHex(s)
    ensures HexValue(s) < Pow16(|s|)
  {
    if s != [] {
      HexValueBound(s[..|s| - 1]);
    }
  }

  datatype Rgb = Rgb(r: int, g: int, b: int)

  predicate IsChannel(c: int) {
    0 <= c < 256
  }

  function Pack(c: Rgb): int {
    c.r * 0x1_0000 + c.g * 0x100 + c.b
  }

  /** num >> 16, num >> 8 & 0xFF and num & 0xFF; below 2^24 the 32-bit shifts
      and masks are plain division and remainder. */
  function Channels(num: nat): (c: Rgb)
    requires num < 0x100_0000
    ensures IsChannel(c.r) && IsChannel(c.g) && IsChannel(c.b) && Pack(c) == num
  {
    Rgb(num / 0x1_0000, (num / 0x100) % 0x100, num % 0x100)
  }

  /** Splitting a packed colour gives back its channels. */
  lemma ChannelsOfPack(c: Rgb)
    requires IsChannel(c.r) && IsChannel(c.g) && IsChannel(c.b)
    ensures 0 <= Pack(c) < 0x100_0000 && Channels(Pack(c)) == c
  {
  }

  /** "#" + (0x1000000 + R * 0x10000 + G * 0x100 + B).toString(16).slice(1):
      the added 16^6 makes toString write seven digits, and dropping the
      leading '1' leaves the six zero-padded digits of the colour. */
  function FormatColor(c: Rgb): (s: string)
    requires IsChannel(c.r) && IsChannel(c.g) && IsChannel(c.b)
    ensures IsLowerColor(s) && IsColor(s) && ParseColor(s) == Pack(c)
  {
    Pow16Six();
    ChannelsOfPack(c);
    ToHexAfterLeadingOne(0x100_0000 + Pack(c), 6);
    var s := "#" + ToHex(0x100_0000 + Pack(c))[1..];
    assert s[1..] == ToHex(0x100_0000 + Pack(c))[1..];
    s
  }

  /** Reading back a formatted colour gives its channels. */
  lemma ChannelsOfFormat(c: Rgb)
    requires IsChannel(c.r) && IsChannel(c.g) && IsChannel(c.b)
    ensures Channels(ParseColor(FormatColor(c))) == c
  {
    ChannelsOfPack(c);
  }

  function Min(a: int, b: int): int {
    if a < b then a else b
  }

  function Max(a: int, b: int): int {
    if a > b then a else b
  }

  /** Every channel raised by amt, saturating at 255. */
  function Lighten(c: Rgb, amt: nat): (o: Rgb)
    requires IsChannel(c.r) && IsChannel(c.g) && IsChannel(c.b)
    ensures IsChannel(o.r) && IsChannel(o.g) && IsChannel(o.b)
    ensures c.r <= o.r <= c.r + amt && c.g <= o.g <= c.g + amt && c.b <= o.b <= c.b + amt
    ensures (o.r == 255 || o.r == c.r + amt) && (o.g == 255 || o.g == c.g + amt) && (o.b == 255 || o.b == c.b + amt)
  {
    Rgb(Min(255, c.r + amt), Min(255, c.g + amt), Min(255, c.b + amt))
  }

  /** Every channel lowered by amt, saturating at 0. */
  function Darken(c: Rgb, amt: nat): (o: Rgb)
    requires IsChannel(c.r) && IsChannel(c.g) && IsChannel(c.b)
    ensures IsChannel(o.r) && IsChannel(o.g) && IsChannel(o.b)
    ensures c.r - amt <= o.r <= c.r && c.g - amt <= o.g <= c.g && c.b - amt <= o.b <= c.b
    ensures (o.r == 0 || o.r == c.r - amt) && (o.g == 0 || o.g == c.g - amt) && (o.b == 0 || o.b == c.b - amt)
  {
    Rgb(Max(0, c.r - amt), Max(0, c.g - amt), Max(0, c.b - amt))
  }

  /** lightenColor, with amt = Math.round(2.55 * percent) already computed:
      the colour written back has the lightened channels. */
  function LightenColor(color: string, amt: nat): (out: string)
    requires IsColor(color)
    ensures IsLowerColor(out) && IsColor(out)
    ensures Channels(ParseColor(out)) == Lighten(Channels(ParseColor(color)), amt)
  {
    var o := Lighten(Channels(ParseColor(color)), amt);
    ChannelsOfFormat(o);
    FormatColor(o)
  }

  /** darkenColor: the colour written back has the darkened channels. */
  function DarkenColor(color: string, amt: nat): (out: string)
    requires IsColor(color)
    ensures IsLowerColor(out) && IsColor(out)
    ensures Channels(ParseColor(out)) == Darken(Channels(ParseColor(color)), amt)
  {
    var o := Darken(Channels(ParseColor(color)), amt);
    ChannelsOfFormat(o);
    FormatColor(o)
  }


  /** Formatting the channels of a lower-case colour rebuilds the same string. */
  lemma FormatOfParse(color: string)
    requires IsLowerColor(color)
    ensures IsColor(color) && FormatColor(Channels(ParseColor(color))) == color
  {
    var s := color[1..];
    assert AllHex(s);
    ToHexOfPadded(s);
    Pow16Six();
    var c := Channels(ParseColor(color));
    assert 0x100_0000 + Pack(c) == Pow16(|s|) + HexValue(s);
    assert ToHex(0x100_0000 + Pack(c))[1..] == s;
    assert color == "#" + s;
  }

  /** With amt = 0 both helpers hand back a lower-case colour unchanged, and
      any colour with its digits lower-cased. */
  lemma ZeroAmountIsIdentity(color: string)
    requires IsColor(color)
    ensures ParseColor(LightenColor(color, 0)) == ParseColor(color)
    ensures ParseColor(DarkenColor(color, 0)) == ParseColor(color)
    ensures IsLowerColor(color) ==> LightenColor(color, 0) == color && DarkenColor(color, 0) == color
  {
    var c := Channels(ParseColor(color));
    assert Rgb(Min(255, c.r + 0), Min(255, c.g + 0), Min(255, c.b + 0)) == c;
    assert Rgb(Max(0, c.r - 0), Max(0, c.g - 0), Max(0, c.b - 0)) == c;
    if IsLowerColor(color) {
      FormatOfParse(color);
    }
  }

  // ---------------------------------------------------------------------
  // Level generation
  // ---------------------------------------------------------------------

  datatype PlatformKind = Ground | Floating

  datatype Platform = Platform(x: real, y: real, width: real, height: real, color: string, kind: PlatformKind)

  datatype Coin = Coin(x: real, y: real, radius: real, collected: bool)

  /** Every obstacle the level holds is a moving spike. */
  datatype Obstacle = Obstacle(x: real, y: real, width: real, height: real,
                               initialX: real, moveRange: real, moveSpeed: real)

  datatype Level = Level(platforms: seq<Platform>, coins: seq<Coin>, obstacles: seq<Obstacle>)

  const PLATFORM_SPACING := 150
  const COIN_RADIUS := 12.0
  const OBSTACLE_SIZE := 40.0

  /** What generateLevel reads from Math.sin and Math.random, in the order it
      reads them: per floating platform i, Math.sin(i * 0.8), a width draw and
      a coin draw; per extra coin, an x and a y draw; per obstacle, a platform
      draw, an offset draw and a speed draw. */
  datatype LevelInputs = LevelInputs(
    sines: seq<real>,
    widthDraws: seq<real>,
    coinDraws: seq<real>,
    extraCoinDraws: seq<(real, real)>,
    obstacleDraws: seq<(real, real, real)>)

  /** Enough inputs for a level with `count` floating platforms. */
  predicate ValidInputs(inputs: LevelInputs, count: nat) {
    && |inputs.sines| >= count
    && |inputs.widthDraws| >= count && (forall i :: 0 <= i < |inputs.widthDraws| ==> IsDraw(inputs.widthDraws[i]))
    && |inputs.coinDraws| >= count
    && |inputs.extraCoinDraws| >= count / 2
    && (forall i :: 0 <= i < |inputs.extraCoinDraws| ==>
          IsDraw(inputs.extraCoinDraws[i].0) && IsDraw(inputs.extraCoinDraws[i].1))
    && |inputs.obstacleDraws| >= count / 3
    && (forall i :: 0 <= i < |inputs.obstacleDraws| ==>
          IsDraw(inputs.obstacleDraws[i].0) && IsDraw(inputs.obstacleDraws[i].1) && IsDraw(inputs.obstacleDraws[i].2))
  }

  function GroundPlatform(w: nat, h: nat): Platform {
    Platform(0.0, h as real - 50.0, w as real, 50.0, "#8B4513", Ground)
  }

  /** A spike standing on platform p that patrols its width. */
  predicate OnPlatform(o: Obstacle, p: Platform) {
    && o.y == p.y - OBSTACLE_SIZE && o.width == OBSTACLE_SIZE && o.height == OBSTACLE_SIZE
    && o.initialX == p.x && o.moveRange == p.width - OBSTACLE_SIZE
    && p.x <= o.x <= p.x + o.moveRange
    && 1.0 <= o.moveSpeed < 2.0
  }

  /** The x of floating platform i: evenly spaced across the width, shifted
      left by half a platform. */
  function PlatformX(w: nat, count: nat, i: nat): real {
    (w as real) / ((count + 1) as real) * ((i + 1) as real) - 75.0
  }

  /** The y of floating platform i: a sine wave over three stepped rows. */
  function PlatformY(h: nat, sine: real, i: nat): real {
    h as real - 150.0 - sine * 100.0 - ((i % 3) as real) * 80.0
  }

  /** Every obstacle stands on one of the floating platforms. */
  predicate AllSupported(obstacles: seq<Obstacle>, platforms: seq<Platform>) {
    forall k :: 0 <= k < |obstacles| ==>
      exists j :: 1 <= j < |platforms| && OnPlatform(obstacles[k], platforms[j])
  }

  /** generateLevel for a canvas of w by h pixels. */
  method GenerateLevel(w: nat, h: nat, inputs: LevelInputs) returns (level: Level)
    requires ValidInputs(inputs, w / PLATFORM_SPACING)
    ensures var count := w / PLATFORM_SPACING;
      && |level.platforms| == 1 + count
      && |level.obstacles| == count / 3
      && count / 2 <= |level.coins| <= count + count / 2
    ensures level.platforms[0] == GroundPlatform(w, h)
    ensures forall i :: 1 <= i < |level.platforms| ==>
      level.platforms[i].kind == Floating && level.platforms[i].height == 20.0
      && 100.0 <= level.platforms[i].width < 180.0
    ensures forall i :: 0 <= i < |level.coins| ==>
      !level.coins[i].collected && level.coins[i].radius == COIN_RADIUS
    ensures AllSupported(level.obstacles, level.platforms)
  {
    var count := w / PLATFORM_SPACING;
    var platforms := [GroundPlatform(w, h)];
    var coins: seq<Coin> := [];
    for i := 0 to count
      invariant |platforms| == 1 + i && platforms[0] == GroundPlatform(w, h)
      invariant forall k :: 1 <= k < |platforms| ==>
        platforms[k].kind == Floating && platforms[k].height == 20.0 && 100.0 <= platforms[k].width < 180.0
      invariant |coins| <= i
      invariant forall k :: 0 <= k < |coins| ==> !coins[k].collected && coins[k].radius == COIN_RADIUS
    {
      var x := PlatformX(w, count, i);
      var y := PlatformY(h, inputs.sines[i], i);
      ScaledDraw(inputs.widthDraws[i], 80.0);
      var width := 100.0 + Scale(inputs.widthDraws[i], 80.0);
      platforms := platforms + [Platform(x, y, width, 20.0, "#CD853F", Floating)];
      if inputs.coinDraws[i] > 0.3 {
        coins := coins + [Coin(x + width / 2.0, y - 40.0, COIN_RADIUS, false)];
      }
    }
    var extraCoins := count / 2;
    var floatingCoins := |coins|;
    for i := 0 to extraCoins
      invariant |coins| == floatingCoins + i
      invariant forall k :: 0 <= k < |coins| ==> !coins[k].collected && coins[k].radius == COIN_RADIUS
    {
      var (rx, ry) := inputs.extraCoinDraws[i];
      coins := coins + [Coin(Scale(rx, w as real - 100.0) + 50.0, Scale(ry, h as real - 250.0) + 50.0, COIN_RADIUS, false)];
    }
    var obstacles: seq<Obstacle> := [];
    var obstacleCount := count / 3;
    for i := 0 to obstacleCount
      invariant |obstacles| == i
      invariant AllSupported(obstacles, platforms)
    {
      var (pick, offset, speed) := inputs.obstacleDraws[i];
      var index := Pick(pick, count) + 1;
      // `if (platform)`: an index past the end would read undefined, but
      // Math.floor(r * count) + 1 always names a floating platform.
      if index < |platforms| {
        var p := platforms[index];
        ScaledDraw(offset, p.width - OBSTACLE_SIZE);
        var o := Obstacle(p.x + Scale(offset, p.width - OBSTACLE_SIZE), p.y - OBSTACLE_SIZE,
                          OBSTACLE_SIZE, OBSTACLE_SIZE, p.x, p.width - OBSTACLE_SIZE, 1.0 + speed);
        assert OnPlatform(o, platforms[index]);
        obstacles := obstacles + [o];
      }
    }
    level := Level(platforms, coins, obstacles);
  }

  // ---------------------------------------------------------------------
  // One frame of the game
  // ---------------------------------------------------------------------

  const PLAYER_WIDTH := 40.0
  const PLAYER_HEIGHT := 40.0
  const MAX_SPEED := 7.0
  const JUMP_POWER := 17.0
  const GRAVITY := 0.65
  const FRICTION := 0.92
  const ACCELERATION := 1.2
  const MAX_FALL_SPEED := 20.0
  const START_LIVES := 3
  const START_X := 100.0
  const START_Y := 450.0

  predicate LeftHeld(keys: set<string>) {
    "ArrowLeft" in keys || "a" in keys || "A" in keys
  }

  predicate RightHeld(keys: set<string>) {
    "ArrowRight" in keys || "d" in keys || "D" in keys
  }

  predicate JumpHeld(keys: set<string>) {
    " " in keys || "ArrowUp" in keys
  }

  /** The new velocityX: speed up towards a held direction (left wins over
      right) up to the speed cap, or slow down by friction and snap to rest
      below 0.05. */
  function HorizontalVelocity(vx: real, keys: set<string>): (r: real)
    ensures -MAX_SPEED <= vx <= MAX_SPEED ==> -MAX_SPEED <= r <= MAX_SPEED
    ensures LeftHeld(keys) ==> -MAX_SPEED <= r && (-MAX_SPEED < vx ==> r < vx)
    ensures !LeftHeld(keys) && RightHeld(keys) ==> r <= MAX_SPEED && (vx < MAX_SPEED ==> vx < r)
    ensures !LeftHeld(keys) && !RightHeld(keys) ==> Abs(r) <= Abs(vx) && (r == 0.0 || (r < 0.0 <==> vx < 0.0))
  {
    if LeftHeld(keys) then
      (if vx - ACCELERATION < -MAX_SPEED then -MAX_SPEED else vx - ACCELERATION)
    else if RightHeld(keys) then
      (if vx + ACCELERATION > MAX_SPEED then MAX_SPEED else vx + ACCELERATION)
    else
      var slowed := vx * FRICTION;
      if Abs(slowed) < 0.05 then 0.0 else slowed
  }

  /** The new velocityY: a jump replaces it by the jump impulse, gravity is
      added, and the result is capped at the terminal fall speed. */
  function FallVelocity(vy: real, jump: bool): (r: real)
    ensures r <= MAX_FALL_SPEED
    ensures jump ==> r < 0.0
    ensures !jump ==> r <= vy + GRAVITY && (vy + GRAVITY <= MAX_FALL_SPEED ==> r == vy + GRAVITY)
  {
    var v := (if jump then -JUMP_POWER else vy) + GRAVITY;
    if v > MAX_FALL_SPEED then MAX_FALL_SPEED else v
  }

  /** Leaving the screen on one side re-enters on the other. */
  function Wrap(x: real, w: real): (r: real)
    requires 0.0 <= w
    ensures -PLAYER_WIDTH <= r <= w
    ensures -PLAYER_WIDTH <= x <= w ==> r == x
  {
    var r := if x < -PLAYER_WIDTH then w else x;
    if r > w then -PLAYER_WIDTH else r
  }

  /** The player's feet are inside the platform's thickness while falling. */
  predicate LandsOn(px: real, py: real, vy: real, p: Platform) {
    && px < p.x + p.width && px + PLAYER_WIDTH > p.x
    && py + PLAYER_HEIGHT > p.y && py + PLAYER_HEIGHT < p.y + p.height
    && vy >= 0.0
  }

  /** The player's vertical state during the platform pass: height, vertical
      speed, and whether some platform has caught them yet. */
  datatype Vertical = Vertical(y: real, vy: real, landed: bool)

  /** One platform of the pass: if it catches the player as they are now,
      their feet go on its top, the fall stops and they have landed. */
  function Catch(px: real, s: Vertical, p: Platform): Vertical {
    if LandsOn(px, s.y, s.vy, p) then Vertical(p.y - PLAYER_HEIGHT, 0.0, true) else s
  }

  /** The platform pass as a left fold: the platforms are tried in order,
      each against the state the earlier ones left. */
  function Settle(px: real, s: Vertical, platforms: seq<Platform>): Vertical
    decreases |platforms|
  {
    if platforms == [] then s else Settle(px, Catch(px, s, platforms[0]), platforms[1..])
  }

  /** Settle over a suffix, one platform at a time. */
  lemma SettleFrom(px: real, s: Vertical, platforms: seq<Platform>, i: nat)
    requires i < |platforms|
    ensures Settle(px, s, platforms[i..]) == Settle(px, Catch(px, s, platforms[i]), platforms[i + 1..])
  {
    assert platforms[i..][1..] == platforms[i + 1..];
  }

  /** The pass lands the player exactly when some platform catches them
      where they were before it; when none does, nothing changes. */
  lemma {:induction false} SettleLands(px: real, s: Vertical, platforms: seq<Platform>)
    ensures Settle(px, s, platforms).landed <==>
      s.landed || exists i :: 0 <= i < |platforms| && LandsOn(px, s.y, s.vy, platforms[i])
    ensures (forall i :: 0 <= i < |platforms| ==> !LandsOn(px, s.y, s.vy, platforms[i])) ==>
      Settle(px, s, platforms) == s
    decreases |platforms|
  {
    if platforms != [] {
      var rest := platforms[1..];
      var c := Catch(px, s, platforms[0]);
      SettleLands(px, c, rest);
      if LandsOn(px, s.y, s.vy, platforms[0]) {
        assert c.landed;
      } else {
        assert c == s;
        if exists i :: 0 <= i < |platforms| && LandsOn(px, s.y, s.vy, platforms[i]) {
          var i :| 0 <= i < |platforms| && LandsOn(px, s.y, s.vy, platforms[i]);
          assert rest[i - 1] == platforms[i];
        }
        if exists i :: 0 <= i < |rest| && LandsOn(px, s.y, s.vy, rest[i]) {
          var i :| 0 <= i < |rest| && LandsOn(px, s.y, s.vy, rest[i]);
          assert platforms[i + 1] == rest[i];
        }
      }
    }
  }

  /** When the pass changes anything, the player ends standing at rest on
      the top of a platform j whose test succeeded against the state the
      platforms before j left. */
  lemma {:induction false} SettleOnCatcher(px: real, s: Vertical, platforms: seq<Platform>)
    ensures var r := Settle(px, s, platforms);
      r != s ==>
        exists j ::
          && 0 <= j < |platforms|
          && LandsOn(px, Settle(px, s, platforms[..j]).y, Settle(px, s, platforms[..j]).vy, platforms[j])
          && r == Vertical(platforms[j].y - PLAYER_HEIGHT, 0.0, true)
    decreases |platforms|
  {
    if platforms != [] {
      var rest := platforms[1..];
      var c := Catch(px, s, platforms[0]);
      var r := Settle(px, c, rest);
      SettleOnCatcher(px, c, rest);
      assert platforms[..0] == [];
      if r != c {
        var j :| 0 <= j < |rest|
          && LandsOn(px, Settle(px, c, rest[..j]).y, Settle(px, c, rest[..j]).vy, rest[j])
          && r == Vertical(rest[j].y - PLAYER_HEIGHT, 0.0, true);
        assert platforms[..j + 1][0] == platforms[0] && platforms[..j + 1][1..] == rest[..j];
        assert Settle(px, s, platforms[..j + 1]) == Settle(px, c, rest[..j]);
        assert platforms[j + 1] == rest[j];
      } else if r != s {
        assert LandsOn(px, s.y, s.vy, platforms[0]);
      }
    }
  }

  /** The player's centre is closer to the coin's centre than the player's
      half width plus the coin's radius. */
  predicate Touches(px: real, py: real, c: Coin) {
    WithinReach(px + PLAYER_WIDTH / 2.0 - c.x, py + PLAYER_HEIGHT / 2.0 - c.y, PLAYER_WIDTH / 2.0 + c.radius)
  }

  /** The player's box overlaps the obstacle's box. */
  predicate HitsObstacle(px: real, py: real, o: Obstacle) {
    && px < o.x + o.width && px + PLAYER_WIDTH > o.x
    && py < o.y + o.height && py + PLAYER_HEIGHT > o.y
  }

  /** A coin after the player, standing at (px, py), passes over it. */
  function Collect(c: Coin, px: real, py: real): (r: Coin)
    ensures r.collected <==> c.collected || Touches(px, py, c)
    ensures r.(collected := c.collected) == c
  {
    if !c.collected && Touches(px, py, c) then c.(collected := true) else c
  }

  /** The number of collected coins. */
  function CollectedCount(coins: seq<Coin>): (n: nat)
    ensures n <= |coins|
    ensures n == |coins| <==> forall i :: 0 <= i < |coins| ==> coins[i].collected
    ensures n == 0 <==> forall i :: 0 <= i < |coins| ==> !coins[i].collected
  {
    if coins == [] then 0
    else (if coins[0].collected then 1 else 0) + CollectedCount(coins[1..])
  }

  /** Collecting one uncollected coin raises the count by exactly one. */
  lemma {:induction false} CollectOneMore(coins: seq<Coin>, i: nat)
    requires i < |coins| && !coins[i].collected
    ensures CollectedCount(coins[i := coins[i].(collected := true)]) == CollectedCount(coins) + 1
  {
    var after := coins[i := coins[i].(collected := true)];
    if i == 0 {
      assert after[1..] == coins[1..];
    } else {
      assert after[1..] == coins[1..][i - 1 := coins[i].(collected := true)];
      CollectOneMore(coins[1..], i - 1);
    }
  }

  /** Where a patrolling spike may be: within one step of its range, and
      outside the range only while heading back into it. */
  predicate InPatrol(o: Obstacle) {
    var s := Abs(o.moveSpeed);
    && 0.0 <= o.moveRange && 0.0 < s
    && o.initialX - s <= o.x <= o.initialX + o.moveRange + s
    && (o.x < o.initialX ==> o.moveSpeed > 0.0)
    && (o.x > o.initialX + o.moveRange ==> o.moveSpeed < 0.0)
  }

  /** One step of a moving spike: advance by its speed, and turn round once
      it has left its range. */
  function Patrol(o: Obstacle): (r: Obstacle)
    ensures Abs(r.moveSpeed) == Abs(o.moveSpeed)
    ensures r.(x := o.x, moveSpeed := o.moveSpeed) == o
    ensures InPatrol(o) ==> InPatrol(r)
  {
    if o.moveSpeed == 0.0 then o
    else
      var x := o.x + o.moveSpeed;
      var turn := x < o.initialX || x > o.initialX + o.moveRange;
      o.(x := x, moveSpeed := if turn then -o.moveSpeed else o.moveSpeed)
  }

  /** A freshly placed spike starts inside its patrol. */
  lemma SupportedInPatrol(obstacles: seq<Obstacle>, platforms: seq<Platform>)
    requires AllSupported(obstacles, platforms)
    ensures forall k :: 0 <= k < |obstacles| ==> InPatrol(obstacles[k])
  {
    forall k | 0 <= k < |obstacles|
      ensures InPatrol(obstacles[k])
    {
      var j :| 1 <= j < |platforms| && OnPlatform(obstacles[k], platforms[j]);
    }
  }

  /** Every spike of a pass takes its patrol step. */
  function PatrolAll(obstacles: seq<Obstacle>): (r: seq<Obstacle>)
    ensures |r| == |obstacles| && forall k :: 0 <= k < |r| ==> r[k] == Patrol(obstacles[k])
  {
    seq(|obstacles|, k requires 0 <= k < |obstacles| => Patrol(obstacles[k]))
  }

  /** The lives a pass over the spikes costs a player starting at (px, py):
      the spikes are tested in order, and after a hit the player stands at the
      start position, where the remaining spikes are tested. */
  function CountHits(px: real, py: real, obstacles: seq<Obstacle>): (n: nat)
    ensures n <= |obstacles|
    decreases |obstacles|
  {
    if obstacles == [] then 0
    else if HitsObstacle(px, py, obstacles[0]) then 1 + CountHits(START_X, START_Y, obstacles[1..])
    else CountHits(px, py, obstacles[1..])
  }

  /** CountHits over a suffix, one spike at a time. */
  lemma CountHitsFrom(px: real, py: real, obstacles: seq<Obstacle>, i: nat)
    requires i < |obstacles|
    ensures CountHits(px, py, obstacles[i..]) ==
      if HitsObstacle(px, py, obstacles[i]) then 1 + CountHits(START_X, START_Y, obstacles[i + 1..])
      else CountHits(px, py, obstacles[i + 1..])
  {
    assert obstacles[i..][1..] == obstacles[i + 1..];
  }

  /** A pass costs at least one life exactly when some spike overlaps the
      player where they stand. */
  lemma {:induction false} HitIffOverlap(px: real, py: real, obstacles: seq<Obstacle>)
    ensures CountHits(px, py, obstacles) > 0 <==>
      exists i :: 0 <= i < |obstacles| && HitsObstacle(px, py, obstacles[i])
  {
    if obstacles != [] {
      var rest := obstacles[1..];
      HitIffOverlap(px, py, rest);
      if exists i :: 0 <= i < |rest| && HitsObstacle(px, py, rest[i]) {
        var i :| 0 <= i < |rest| && HitsObstacle(px, py, rest[i]);
        assert obstacles[i + 1] == rest[i];
      }
      if exists i :: 0 <= i < |obstacles| && HitsObstacle(px, py, obstacles[i]) {
        var i :| 0 <= i < |obstacles| && HitsObstacle(px, py, obstacles[i]);
        if i > 0 {
          assert rest[i - 1] == obstacles[i];
        }
      }
    }
  }

  /** The 'platformerScore' message sent when the level is won. */
  datatype ScoreReport = ScoreReport(playerName: string, score: int, time: int, timestamp: int)

  /** The mutable state of one round of the mini-game. */
  class Game {
    const name: string
    var canvasWidth: nat
    var canvasHeight: nat
    var x: real
    var y: real
    var velocityX: real
    var velocityY: real
    var isJumping: bool
    const platforms: seq<Platform>
    var coins: seq<Coin>
    var obstacles: seq<Obstacle>
    var score: int
    var lives: int
    var gameOver: bool
    var won: bool
    const startTime: int
    var playTime: int

    /** Velocities stay within the caps. */
    predicate Moving()
      reads this
    {
      -MAX_SPEED <= velocityX <= MAX_SPEED && velocityY <= MAX_FALL_SPEED
    }

    /** The score counts the collected coins, and the level is won exactly
        when a non-empty set of coins has all been collected. */
    predicate Scoring()
      reads this
    {
      score == CollectedCount(coins) && (won <==> 0 < |coins| && score == |coins|)
    }

    /** Lives only go down from the start, and the game is over exactly when
        none are left. */
    predicate Living()
      reads this
    {
      lives <= START_LIVES && (gameOver <==> lives <= 0)
    }

    predicate Patrolling()
      reads this
    {
      forall k :: 0 <= k < |obstacles| ==> InPatrol(obstacles[k])
    }

    predicate Valid()
      reads this
    {
      Moving() && Scoring() && Living() && Patrolling()
    }

    /** initPlatformerGame followed by generateLevel. */
    constructor (name: string, w: nat, h: nat, now: int, inputs: LevelInputs)
      requires ValidInputs(inputs, w / PLATFORM_SPACING)
      ensures Valid()
      ensures this.name == name && canvasWidth == w && canvasHeight == h && startTime == now
      ensures x == START_X && y == START_Y && velocityX == 0.0 && velocityY == 0.0 && !isJumping
      ensures score == 0 && lives == START_LIVES && !gameOver && !won && playTime == 0
      ensures |platforms| == 1 + w / PLATFORM_SPACING && platforms[0] == GroundPlatform(w, h)
      ensures |obstacles| == (w / PLATFORM_SPACING) / 3
      ensures forall i :: 0 <= i < |coins| ==> !coins[i].collected
    {
      var level := GenerateLevel(w, h, inputs);
      SupportedInPatrol(level.obstacles, level.platforms);
      this.name := name;
      canvasWidth, canvasHeight := w, h;
      x, y, velocityX, velocityY, isJumping := START_X, START_Y, 0.0, 0.0, false;
      platforms, coins, obstacles := level.platforms, level.coins, level.obstacles;
      score, lives, gameOver, won := 0, START_LIVES, false, false;
      startTime, playTime := now, 0;
    }

    /** The window's resize listener. */
    method Resize(w: nat, h: nat)
      modifies this`canvasWidth, this`canvasHeight
      ensures canvasWidth == w && canvasHeight == h
    {
      canvasWidth, canvasHeight := w, h;
    }

    /** Velocity rules, jump, gravity, the move itself and the horizontal wrap. */
    method Steer(keys: set<string>)
      requires Moving()
      modifies this`x, this`y, this`velocityX, this`velocityY, this`isJumping
      ensures Moving()
      ensures velocityX == HorizontalVelocity(old(velocityX), keys)
      ensures velocityY == FallVelocity(old(velocityY), JumpHeld(keys) && !old(isJumping))
      ensures x == Wrap(old(x) + velocityX, canvasWidth as real) && y == old(y) + velocityY
      ensures isJumping == (old(isJumping) || JumpHeld(keys))
    {
      velocityX := HorizontalVelocity(velocityX, keys);
      var jump := JumpHeld(keys) && !isJumping;
      if jump {
        isJumping := true;
      }
      velocityY := FallVelocity(velocityY, jump);
      x := Wrap(x + velocityX, canvasWidth as real);
      y := y + velocityY;
    }

    /** The platform pass: the player is airborne unless some platform
        catches them while falling; a catch puts the feet on its top and
        stops the fall, and the platforms after it are tried from there. */
    method Land()
      requires Moving()
      modifies this`y, this`velocityY, this`isJumping
      ensures Moving()
      ensures Vertical(y, velocityY, !isJumping) == Settle(x, Vertical(old(y), old(velocityY), false), platforms)
      ensures isJumping <==> forall i :: 0 <= i < |platforms| ==> !LandsOn(x, old(y), old(velocityY), platforms[i])
      ensures isJumping ==> y == old(y) && velocityY == old(velocityY)
      ensures !isJumping ==> velocityY == 0.0 && exists i :: 0 <= i < |platforms| && y == platforms[i].y - PLAYER_HEIGHT
    {
      ghost var start := Vertical(y, velocityY, false);
      isJumping := true;
      for i := 0 to |platforms|
        invariant Settle(x, Vertical(y, velocityY, !isJumping), platforms[i..]) == Settle(x, start, platforms)
        invariant Moving()
      {
        SettleFrom(x, Vertical(y, velocityY, !isJumping), platforms, i);
        var p := platforms[i];
        if LandsOn(x, y, velocityY, p) {
          y := p.y - PLAYER_HEIGHT;
          velocityY := 0.0;
          isJumping := false;
        }
      }
      assert platforms[|platforms|..] == [];
      SettleLands(x, start, platforms);
      SettleOnCatcher(x, start, platforms);
    }

    /** The coin pass: every uncollected coin the player touches becomes
        collected and scores one; reaching the coin total wins the level and
        reports the score, which can happen only once. */
    method CollectCoins(now: int) returns (submitted: seq<ScoreReport>)
      requires Scoring()
      modifies this`coins, this`score, this`won
      ensures Scoring()
      ensures |coins| == |old(coins)|
      ensures forall i :: 0 <= i < |coins| ==> coins[i] == Collect(old(coins)[i], x, y)
      ensures submitted != [] <==> !old(won) && won
      ensures submitted != [] ==> submitted == [ScoreReport(name, score, playTime, now)]
    {
      submitted := [];
      for i := 0 to |coins|
        invariant |coins| == |old(coins)|
        invariant forall k :: 0 <= k < i ==> coins[k] == Collect(old(coins)[k], x, y)
        invariant forall k :: i <= k < |coins| ==> coins[k] == old(coins)[k]
        invariant Scoring()
        invariant submitted != [] <==> !old(won) && won
        invariant submitted != [] ==> submitted == [ScoreReport(name, score, playTime, now)]
      {
        var c := coins[i];
        if !c.collected && Touches(x, y, c) {
          CollectOneMore(coins, i);
          coins := coins[i := c.(collected := true)];
          score := score + 1;
          if score >= |coins| {
            won := true;
            submitted := submitted + [ScoreReport(name, score, playTime, now)];
          }
        }
      }
    }

    /** One spike against the player: an overlap costs a life and puts
        the player back at the start, at rest; losing the last life ends the
        game. */
    method TouchSpike(o: Obstacle) returns (hit: bool)
      requires Moving() && Living()
      modifies this`lives, this`gameOver, this`x, this`y, this`velocityX, this`velocityY
      ensures Moving() && Living()
      ensures hit <==> HitsObstacle(old(x), old(y), o)
      ensures lives == old(lives) - (if hit then 1 else 0)
      ensures hit ==> x == START_X && y == START_Y && velocityX == 0.0 && velocityY == 0.0
      ensures !hit ==> x == old(x) && y == old(y) && velocityX == old(velocityX) && velocityY == old(velocityY)
    {
      hit := HitsObstacle(x, y, o);
      if hit {
        lives := lives - 1;
        x, y, velocityX, velocityY := START_X, START_Y, 0.0, 0.0;
        if lives <= 0 {
          gameOver := true;
        }
      }
    }

    /** The obstacle pass: each spike patrols one step and is then tested
        against the player, wherever the earlier spikes have left them; a
        pass costs a life exactly when some spike overlaps the player where
        they stood. */
    method HitObstacles() returns (hits: nat)
      requires Moving() && Living() && Patrolling()
      modifies this`obstacles, this`lives, this`gameOver, this`x, this`y, this`velocityX, this`velocityY
      ensures Moving() && Living() && Patrolling()
      ensures obstacles == PatrolAll(old(obstacles))
      ensures hits == CountHits(old(x), old(y), obstacles) && lives == old(lives) - hits
      ensures hits > 0 <==> exists i :: 0 <= i < |obstacles| && HitsObstacle(old(x), old(y), obstacles[i])
      ensures hits == 0 ==> x == old(x) && y == old(y) && velocityX == old(velocityX) && velocityY == old(velocityY)
      ensures hits > 0 ==> x == START_X && y == START_Y && velocityX == 0.0 && velocityY == 0.0
    {
      hits := SpikePass();
      HitIffOverlap(old(x), old(y), obstacles);
    }

    /** The loop over the spikes. */
    method SpikePass() returns (hits: nat)
      requires Moving() && Living()
      modifies this`obstacles, this`lives, this`gameOver, this`x, this`y, this`velocityX, this`velocityY
      ensures Moving() && Living()
      ensures obstacles == PatrolAll(old(obstacles))
      ensures hits == CountHits(old(x), old(y), obstacles) && lives == old(lives) - hits
      ensures hits == 0 ==> x == old(x) && y == old(y) && velocityX == old(velocityX) && velocityY == old(velocityY)
      ensures hits > 0 ==> x == START_X && y == START_Y && velocityX == 0.0 && velocityY == 0.0
    {
      ghost var patrolled := PatrolAll(obstacles);
      hits := 0;
      for i := 0 to |obstacles|
        invariant |obstacles| == |patrolled|
        invariant forall k :: 0 <= k < |obstacles| ==> obstacles[k] == if k < i then patrolled[k] else old(obstacles)[k]
        invariant Moving() && Living()
        invariant hits + CountHits(x, y, patrolled[i..]) == CountHits(old(x), old(y), patrolled)
        invariant lives == old(lives) - hits
        invariant (x, y, velocityX, velocityY) ==
          if hits == 0 then (old(x), old(y), old(velocityX), old(velocityY)) else (START_X, START_Y, 0.0, 0.0)
      {
        var o := Patrol(obstacles[i]);
        obstacles := obstacles[i := o];
        CountHitsFrom(x, y, patrolled, i);
        var hit := TouchSpike(o);
        if hit {
          hits := hits + 1;
        }
      }
      assert patrolled[|patrolled|..] == [];
      assert obstacles == patrolled;
    }

    /** Falling more than 100 pixels below the screen costs a life and puts
        the player back above the ground. */
    method FallOff() returns (fell: bool)
      requires Moving() && Living()
      modifies this`lives, this`gameOver, this`x, this`y, this`velocityX, this`velocityY
      ensures Moving() && Living()
      ensures fell <==> old(y) > canvasHeight as real + 100.0
      ensures lives == old(lives) - (if fell then 1 else 0)
      ensures fell ==> x == START_X && y == canvasHeight as real - 200.0 && velocityX == 0.0 && velocityY == 0.0
      ensures !fell ==> x == old(x) && y == old(y) && velocityX == old(velocityX) && velocityY == old(velocityY)
    {
      fell := y > canvasHeight as real + 100.0;
      if fell {
        lives := lives - 1;
        x, y, velocityX, velocityY := START_X, canvasHeight as real - 200.0, 0.0, 0.0;
        if lives <= 0 {
          gameOver := true;
        }
      }
    }

    /** The first part of a frame, from the state before it: the move and
        the platform pass leave the player at (atX, atY) with velocity (atVX, atVY), airborne
        when `jumping`.  Only the state before the frame is read. */
    twostate predicate Moved(keys: set<string>, atX: real, atY: real, atVX: real, atVY: real, jumping: bool)
    {
      var vx := HorizontalVelocity(old(velocityX), keys);
      var vy := FallVelocity(old(velocityY), JumpHeld(keys) && !old(isJumping));
      && atX == Wrap(old(x) + vx, old(canvasWidth) as real) && atVX == vx
      && Vertical(atY, atVY, !jumping) == Settle(atX, Vertical(old(y) + vy, vy, false), platforms)
    }

    /** The play time, the move and the platform pass. */
    method Move(keys: set<string>, now: int)
      requires Valid()
      modifies this`playTime, this`x, this`y, this`velocityX, this`velocityY, this`isJumping
      ensures Valid()
      ensures playTime == (now - startTime) / 1000
      ensures Moved(keys, x, y, velocityX, velocityY, isJumping)
    {
      playTime := (now - startTime) / 1000;
      Steer(keys);
      Land();
      assert Scoring() && Living() && Patrolling();
    }

    /** The rest of a frame, from the coins, spikes, lives and win flag
        before it and the player's position (atX, atY) and velocity
        (atVX, atVY) after the move: the coin pass, the spike pass and the
        fall check, ending in the current state. */
    predicate Interacted(coins0: seq<Coin>, obstacles0: seq<Obstacle>, lives0: int, won0: bool,
                         atX: real, atY: real, atVX: real, atVY: real,
                         now: int, submitted: seq<ScoreReport>, hits: nat, fell: bool)
      reads this
    {
      && |coins| == |coins0|
      && (forall i :: 0 <= i < |coins| ==> coins[i] == Collect(coins0[i], atX, atY))
      && (submitted != [] <==> !won0 && won)
      && (submitted != [] ==> submitted == [ScoreReport(name, |coins|, playTime, now)])
      && obstacles == PatrolAll(obstacles0)
      && hits == CountHits(atX, atY, obstacles)
      && (fell <==> (if hits > 0 then START_Y else atY) > canvasHeight as real + 100.0)
      && lives == lives0 - hits - (if fell then 1 else 0)
      && (fell ==> x == START_X && y == canvasHeight as real - 200.0 && velocityX == 0.0 && velocityY == 0.0)
      && (!fell && hits > 0 ==> x == START_X && y == START_Y && velocityX == 0.0 && velocityY == 0.0)
      && (!fell && hits == 0 ==> x == atX && y == atY && velocityX == atVX && velocityY == atVY)
    }

    /** After the coin, spike and fall passes no coin has been un-collected
        or changed otherwise, the collected count has not fallen, and the
        lives have fallen by at most one per spike plus one for the fall. */
    lemma InteractedKeeps(coins0: seq<Coin>, obstacles0: seq<Obstacle>, lives0: int, won0: bool,
                          atX: real, atY: real, atVX: real, atVY: real,
                          now: int, submitted: seq<ScoreReport>, hits: nat, fell: bool)
      requires Interacted(coins0, obstacles0, lives0, won0, atX, atY, atVX, atVY, now, submitted, hits, fell)
      ensures forall i :: 0 <= i < |coins| ==>
        coins[i].(collected := false) == coins0[i].(collected := false)
        && (coins0[i].collected ==> coins[i].collected)
      ensures CollectedCount(coins0) <= CollectedCount(coins)
      ensures lives0 - |obstacles0| - 1 <= lives <= lives0
    {
      CollectKeepsCoins(coins0, coins, atX, atY);
    }

    /** Everything updatePlatformerGame does once the player has moved:
        the coin pass, the spike pass and the fall check, all starting from
        where the move left the player. */
    method Interact(now: int) returns (submitted: seq<ScoreReport>, hits: nat, fell: bool)
      requires Valid()
      modifies this`coins, this`score, this`won, this`obstacles, this`lives, this`gameOver,
               this`x, this`y, this`velocityX, this`velocityY
      ensures Valid()
      ensures Interacted(old(coins), old(obstacles), old(lives), old(won),
                         old(x), old(y), old(velocityX), old(velocityY), now, submitted, hits, fell)
    {
      submitted := CollectCoins(now);
      assert Moving() && Living() && Patrolling();
      hits := HitObstacles();
      assert Scoring();
      fell := FallOff();
      assert Scoring() && Patrolling();
    }

    /** updatePlatformerGame at time `now`: the reports it sends are
        returned; the ghost results name where the move left the player and
        how many lives the spikes and the fall cost. */
    method Update(keys: set<string>, now: int)
      returns (submitted: seq<ScoreReport>, ghost atX: real, ghost atY: real, ghost atVX: real, ghost atVY: real,
               ghost hits: nat, ghost fell: bool)
      requires Valid()
      modifies this
      ensures Valid()
      ensures playTime == (now - startTime) / 1000
      ensures canvasWidth == old(canvasWidth) && canvasHeight == old(canvasHeight)
      ensures Moved(keys, atX, atY, atVX, atVY, isJumping)
      ensures Interacted(old(coins), old(obstacles), old(lives), old(won), atX, atY, atVX, atVY, now, submitted, hits, fell)
    {
      Move(keys, now);
      atX, atY, atVX, atVY := x, y, velocityX, velocityY;
      submitted, hits, fell := Interact(now);
    }

    /** One pass of the game loop: once the level is won or lost the loop
        stops and nothing is updated; otherwise it is one Update. */
    method Frame(keys: set<string>, now: int)
      returns (running: bool, submitted: seq<ScoreReport>, ghost atX: real, ghost atY: real,
               ghost atVX: real, ghost atVY: real, ghost hits: nat, ghost fell: bool)
      requires Valid()
      modifies this
      ensures Valid()
      ensures running <==> !old(gameOver) && !old(won)
      ensures running ==> playTime == (now - startTime) / 1000
      ensures running ==> canvasWidth == old(canvasWidth) && canvasHeight == old(canvasHeight)
      ensures running ==> Moved(keys, atX, atY, atVX, atVY, isJumping)
      ensures running ==>
        Interacted(old(coins), old(obstacles), old(lives), old(won), atX, atY, atVX, atVY, now, submitted, hits, fell)
      ensures !running ==> submitted == [] && unchanged(this)
    {
      running := !gameOver && !won;
      if running {
        submitted, atX, atY, atVX, atVY, hits, fell := Update(keys, now);
      } else {
        submitted, atX, atY, atVX, atVY, hits, fell := [], x, y, velocityX, velocityY, 0, false;
      }
    }
  }

  /** A coin pass only ever sets collected flags, so it never lowers the
      count of collected coins. */
  lemma CollectKeepsCoins(before: seq<Coin>, after: seq<Coin>, px: real, py: real)
    requires |before| == |after|
    requires forall i :: 0 <= i < |before| ==> after[i] == Collect(before[i], px, py)
    ensures forall i :: 0 <= i < |after| ==>
      after[i].(collected := false) == before[i].(collected := false)
      && (before[i].collected ==> after[i].collected)
    ensures CollectedCount(before) <= CollectedCount(after)
  {
    forall i | 0 <= i < |after|
      ensures after[i].(collected := false) == before[i].(collected := false)
      ensures before[i].collected ==> after[i].collected
    {
      assert after[i] == Collect(before[i], px, py);
    }
    CollectedCountGrows(before, after);
  }

  /** Collecting coins never lowers the count. */
  lemma {:induction false} CollectedCountGrows(before: seq<Coin>, after: seq<Coin>)
    requires |before| == |after|
    requires forall i :: 0 <= i < |before| ==> before[i].collected ==> after[i].collected
    ensures CollectedCount(before) <= CollectedCount(after)
  {
    if before != [] {
      CollectedCountGrows(before[1..], after[1..]);
    }
  }
}
