/** Model of client.js: the local mirror of the registry kept by the socket
    handlers, the bounded chat log, the collision predicate and the
    axis-separated movement of `handleMovement`, and the particle list. */
module Client {
  import opened Numeric
  import opened Server

  // ---------------------------------------------------------------------------
  // Chat log: the children of #chat-messages

  datatype ChatLine = ChatLine(username: string, message: string, isSystem: bool)

  const CHAT_LIMIT: nat := 50

  /** addChatMessage: append, then drop the first child once there are more than 50. */
  function AppendChat(log: seq<ChatLine>, line: ChatLine): seq<ChatLine> {
    var appended := log + [line];
    if |appended| > CHAT_LIMIT then appended[1..] else appended
  }

  function AppendAllChat(log: seq<ChatLine>, lines: seq<ChatLine>): seq<ChatLine>
    decreases |lines|
  {
    if lines == [] then log else AppendAllChat(AppendChat(log, lines[0]), lines[1..])
  }

  /** The last `n` elements of `s` (all of them when there are fewer). */
  function Latest<T>(s: seq<T>, n: nat): seq<T> {
    if |s| <= n then s else s[|s| - n..]
  }

  lemma LatestOfLatest<T>(a: seq<T>, b: seq<T>, n: nat)
    ensures Latest(Latest(a, n) + b, n) == Latest(a + b, n)
  {
    if |a| > n {
      var a' := a[|a| - n..];
      if |a' + b| > n {
        assert (a' + b)[|a' + b| - n..] == (a + b)[|a + b| - n..];
      } else {
        assert b == [];
        assert a + b == a;
      }
    }
  }

  /** The log is a bounded FIFO: starting from at most 50 lines, appending any
      lines leaves exactly the 50 most recent of them all, oldest first. */
  lemma {:induction false} ChatKeepsLatest(log: seq<ChatLine>, lines: seq<ChatLine>)
    requires |log| <= CHAT_LIMIT
    ensures AppendAllChat(log, lines) == Latest(log + lines, CHAT_LIMIT)
    ensures |AppendAllChat(log, lines)| <= CHAT_LIMIT
    decreases |lines|
  {
    if lines != [] {
      var next := AppendChat(log, lines[0]);
      assert next == Latest(log + [lines[0]], CHAT_LIMIT);
      ChatKeepsLatest(next, lines[1..]);
      LatestOfLatest(log + [lines[0]], lines[1..], CHAT_LIMIT);
      assert log + [lines[0]] + lines[1..] == log + lines;
    }
  }

  // ---------------------------------------------------------------------------
  // The mirror kept by the socket handlers

  /** The part of `gameState` the socket handlers write. */
  datatype Mirror = Mirror(myId: Option<ConnId>, players: Registry, chat: seq<ChatLine>, world: WorldObjects)

  function JoinNotice(p: Player): ChatLine {
    ChatLine("", p.username + " bergabung!", true)
  }

  function LeaveNotice(p: Player): ChatLine {
    ChatLine("", p.username + " keluar", true)
  }

  /** One socket handler applied to the mirror. */
  function Receive(v: Mirror, e: Event): Mirror {
    match e
    case Init(id, ps) => v.(myId := Some(id), players := ps)
    case WorldObjectsLoaded(w) => v.(world := w)
    case PlayerJoined(p) =>
      v.(players := v.players[p.id := p], chat := AppendChat(v.chat, JoinNotice(p)))
    case PlayerMoved(id, x, y) =>
      if id in v.players then v.(players := v.players[id := v.players[id].(x := x, y := y)]) else v
    case ChatMessage(username, message, _) =>
      v.(chat := AppendChat(v.chat, ChatLine(username, message, false)))
    case PlayerLeft(id) =>
      if id in v.players then
        v.(players := v.players - {id}, chat := AppendChat(v.chat, LeaveNotice(v.players[id])))
      else v
    case UpdatePlayers(ps) => v.(players := ps)
  }

  function ReceiveAll(v: Mirror, es: seq<Event>): Mirror
    decreases |es|
  {
    if es == [] then v else ReceiveAll(Receive(v, es[0]), es[1..])
  }

  lemma ReceiveOne(v: Mirror, e: Event)
    ensures ReceiveAll(v, [e]) == Receive(v, e)
  {
    assert [e][1..] == [];
  }

  /** `gameState.myPlayer`: the entry of the client's own id. */
  function MyPlayer(v: Mirror): Option<Player> {
    if v.myId.Some? && v.myId.value in v.players then Some(v.players[v.myId.value]) else None
  }

  /** What handleMovement does to the mirror before it emits `move`: the
      position is written through myPlayer, which is players[myId]. */
  function LocalMove(v: Mirror, x: real, y: real): Mirror {
    match MyPlayer(v)
    case Some(p) => v.(players := v.players[v.myId.value := p.(x := x, y := y)])
    case None => v
  }

  /** Client `me` takes part in one server step: a move of its own is first
      applied locally, then it receives whatever the step delivers to it. */
  function Observe(world: WorldObjects, reg: Registry, v: Mirror, me: ConnId, a: Action): Mirror
    requires Admissible(a)
  {
    var local := if a.conn == me && a.request.Move? then LocalMove(v, a.request.x, a.request.y) else v;
    ReceiveAll(local, Deliver(me, a.conn, Step(world, reg, a).emits))
  }

  /** The mirror of client `me` after `trace`, run alongside RunRegistry. */
  function RunView(world: WorldObjects, reg: Registry, v: Mirror, me: ConnId, trace: seq<Action>): Mirror
    requires AllAdmissible(trace)
  {
    if trace == [] then v
    else
      var t := trace[..|trace| - 1];
      Observe(world, RunRegistry(world, reg, t), RunView(world, reg, v, me, t), me, trace[|trace| - 1])
  }

  /** The client's map equals the server's registry and holds its own entry. */
  ghost predicate Mirrors(v: Mirror, me: ConnId, reg: Registry) {
    v.myId == Some(me) && me in reg && v.players == reg
  }

  /** Once client `me` has joined, every server step that is not its own
      disconnect keeps its mirror equal to the registry. */
  lemma MirrorStep(world: WorldObjects, reg: Registry, v: Mirror, me: ConnId, a: Action)
    requires Mirrors(v, me, reg) && Admissible(a)
    requires !(a.conn == me && a.request.Disconnect?)
    ensures Mirrors(Observe(world, reg, v, me, a), me, Step(world, reg, a).registry)
  {
    var s := a.conn;
    var t := Step(world, reg, a);
    match a.request
    case Join(username) =>
      if s == me {
        assert Deliver(me, s, t.emits) == [Init(me, t.registry)];
        ReceiveOne(v, Init(me, t.registry));
      } else {
        assert Deliver(me, s, t.emits) == [PlayerJoined(t.registry[s])];
        ReceiveOne(v, PlayerJoined(t.registry[s]));
      }
    case GetWorldObjects =>
      if s == me {
        assert Deliver(me, s, t.emits) == [WorldObjectsLoaded(world)];
        ReceiveOne(v, WorldObjectsLoaded(world));
      } else {
        assert Deliver(me, s, t.emits) == [];
      }
    case Move(x, y) =>
      if s == me || s !in reg {
        assert Deliver(me, s, t.emits) == [];
      } else {
        assert Deliver(me, s, t.emits) == [PlayerMoved(s, x, y)];
        ReceiveOne(v, PlayerMoved(s, x, y));
      }
    case Chat(message) =>
      if s in reg {
        assert Deliver(me, s, t.emits) == [ChatMessage(reg[s].username, message, a.entropy.now)];
        ReceiveOne(v, ChatMessage(reg[s].username, message, a.entropy.now));
      } else {
        assert Deliver(me, s, t.emits) == [];
      }
    case Disconnect =>
      if s in reg {
        assert Deliver(me, s, t.emits) == [PlayerLeft(s)];
        ReceiveOne(v, PlayerLeft(s));
      } else {
        assert Deliver(me, s, t.emits) == [];
      }
  }

  /** The client's `init` handler replaces whatever it had collected before
      joining with the registry the server holds right after the join. */
  lemma JoinStartsMirror(world: WorldObjects, reg: Registry, v: Mirror, me: ConnId, a: Action)
    requires a.conn == me && a.request.Join? && Admissible(a)
    ensures Mirrors(Observe(world, reg, v, me, a), me, Step(world, reg, a).registry)
  {
    var t := Step(world, reg, a);
    assert Deliver(me, me, t.emits) == [Init(me, t.registry)];
    ReceiveOne(v, Init(me, t.registry));
  }

  /** Mirror consistency: from its own join on, and as long as it stays
      connected, a client that applies the events server.js delivers to it
      holds exactly the server's registry, whatever it held before. */
  lemma {:induction false} MirrorFollowsServer(world: WorldObjects, reg: Registry, v: Mirror, me: ConnId,
                                               trace: seq<Action>)
    requires AllAdmissible(trace) && |trace| > 0
    requires trace[0].conn == me && trace[0].request.Join?
    requires forall i :: 0 < i < |trace| ==> !(trace[i].conn == me && trace[i].request.Disconnect?)
    ensures Mirrors(RunView(world, reg, v, me, trace), me, RunRegistry(world, reg, trace))
  {
    var t := trace[..|trace| - 1];
    if t == [] {
      assert RunView(world, reg, v, me, t) == v;
      JoinStartsMirror(world, reg, v, me, trace[0]);
    } else {
      assert t[0] == trace[0];
      MirrorFollowsServer(world, reg, v, me, t);
      MirrorStep(world, RunRegistry(world, reg, t), RunView(world, reg, v, me, t), me, trace[|trace| - 1]);
    }
  }

  // ---------------------------------------------------------------------------
  // Collision

  const PLAYER_SIZE: real := 40.0
  const PLAYER_SPEED: real := 5.0
  const PLAYER_RADIUS: real := PLAYER_SIZE / 2.0

  /** The circle crosses a world edge. */
  predicate OutsideWorld(x: real, y: real, radius: real) {
    x - radius < 0.0 || x + radius > WORLD_WIDTH || y - radius < 0.0 || y + radius > WORLD_HEIGHT
  }

  datatype Obstruction = TreeTrunk | Boulder | HouseBlock

  predicate Hits(kind: Obstruction, o: Decoration, x: real, y: real, radius: real) {
    match kind
    case TreeTrunk => WithinReach(x - o.x, y - o.y, radius + o.size / 2.5)
    case Boulder => WithinReach(x - o.x, y - o.y, radius + o.size / 2.0)
    case HouseBlock =>
      var houseWidth := o.size;
      var houseHeight := o.size / 1.5;
      && x + radius > o.x - houseWidth / 2.0
      && x - radius < o.x + houseWidth / 2.0
      && y + radius > o.y - houseHeight / 2.0
      && y - radius < o.y + houseHeight / 2.0
  }

  /** One `for ... of` loop of checkCollision, which returns at the first hit. */
  function AnyHit(objs: seq<Decoration>, kind: Obstruction, x: real, y: real, radius: real): (hit: bool)
    ensures hit <==> exists i :: 0 <= i < |objs| && Hits(kind, objs[i], x, y, radius)
  {
    if objs == [] then false
    else
      var rest := AnyHit(objs[1..], kind, x, y, radius);
      assert forall i :: 0 < i < |objs| ==> objs[i] == objs[1..][i - 1];
      Hits(kind, objs[0], x, y, radius) || rest
  }

  /** checkCollision: world edges, then trees, rocks and houses; bushes never block. */
  function CheckCollision(w: WorldObjects, x: real, y: real, radius: real): (hit: bool)
    ensures hit <==>
              || OutsideWorld(x, y, radius)
              || (exists i :: 0 <= i < |w.trees| && Hits(TreeTrunk, w.trees[i], x, y, radius))
              || (exists i :: 0 <= i < |w.rocks| && Hits(Boulder, w.rocks[i], x, y, radius))
              || (exists i :: 0 <= i < |w.houses| && Hits(HouseBlock, w.houses[i], x, y, radius))
  {
    || OutsideWorld(x, y, radius)
    || AnyHit(w.trees, TreeTrunk, x, y, radius)
    || AnyHit(w.rocks, Boulder, x, y, radius)
    || AnyHit(w.houses, HouseBlock, x, y, radius)
  }

  // ---------------------------------------------------------------------------
  // Movement

  datatype Direction = Direction(dx: int, dy: int)

  predicate Held(keys: set<string>, key: string, arrow: string) {
    key in keys || arrow in keys
  }

  /** The key-derived direction of handleMovement, before normalisation. */
  function KeyDirection(keys: set<string>): (d: Direction)
    ensures -1 <= d.dx <= 1 && -1 <= d.dy <= 1
    ensures d.dx < 0 <==> Held(keys, "a", "arrowleft") && !Held(keys, "d", "arrowright")
    ensures d.dx > 0 <==> Held(keys, "d", "arrowright") && !Held(keys, "a", "arrowleft")
    ensures d.dy < 0 <==> Held(keys, "w", "arrowup") && !Held(keys, "s", "arrowdown")
    ensures d.dy > 0 <==> Held(keys, "s", "arrowdown") && !Held(keys, "w", "arrowup")
  {
    var up := if Held(keys, "w", "arrowup") then -1 else 0;
    var down := if Held(keys, "s", "arrowdown") then 1 else 0;
    var left := if Held(keys, "a", "arrowleft") then -1 else 0;
    var right := if Held(keys, "d", "arrowright") then 1 else 0;
    Direction(left + right, up + down)
  }

  /** The step vector: a diagonal is scaled by 0.707 on both axes. */
  function StepVector(d: Direction): (real, real) {
    if d.dx != 0 && d.dy != 0 then (d.dx as real * 0.707, d.dy as real * 0.707)
    else (d.dx as real, d.dy as real)
  }

  /** The outcome of handleMovement's collision resolution from (x, y) for
      the step (dx, dy), by which trial moves collide: a free axis is always
      taken; when both axes are free but the combined step is blocked, the
      axis with the larger component is kept (Y on a tie); when both axes
      are blocked the player stays put. */
  predicate ResolvedAs(w: WorldObjects, x: real, y: real, dx: real, dy: real, finalX: real, finalY: real) {
    var newX, newY := x + dx * PLAYER_SPEED, y + dy * PLAYER_SPEED;
    var blockedX := CheckCollision(w, newX, y, PLAYER_RADIUS);
    var blockedY := CheckCollision(w, x, newY, PLAYER_RADIUS);
    if blockedX && blockedY then finalX == x && finalY == y
    else if blockedX then finalX == x && finalY == newY
    else if blockedY then finalX == newX && finalY == y
    else if !CheckCollision(w, newX, newY, PLAYER_RADIUS) then finalX == newX && finalY == newY
    else if Abs(dx) > Abs(dy) then finalX == newX && finalY == y
    else finalX == x && finalY == newY
  }

  /** The collision resolution of handleMovement: try X alone, Y alone, and on
      a diagonal both together, falling back to one axis. */
  method ResolveMove(w: WorldObjects, x: real, y: real, dx: real, dy: real) returns (finalX: real, finalY: real)
    ensures ResolvedAs(w, x, y, dx, dy, finalX, finalY)
    ensures finalX == x || finalX == x + dx * PLAYER_SPEED
    ensures finalY == y || finalY == y + dy * PLAYER_SPEED
    ensures (finalX != x || finalY != y) ==> !CheckCollision(w, finalX, finalY, PLAYER_RADIUS)
  {
    var newX := x + dx * PLAYER_SPEED;
    var newY := y + dy * PLAYER_SPEED;
    finalX, finalY := x, y;
    if !CheckCollision(w, newX, y, PLAYER_RADIUS) {
      finalX := newX;
    }
    if !CheckCollision(w, x, newY, PLAYER_RADIUS) {
      finalY := newY;
    }
    if finalX != x && finalY != y {
      if CheckCollision(w, finalX, finalY, PLAYER_RADIUS) {
        if Abs(dx) > Abs(dy) {
          finalY := y;
        } else {
          finalX := x;
        }
      }
    }
  }

  // ---------------------------------------------------------------------------
  // Particles

  datatype Particle = Particle(x: real, y: real, vx: real, vy: real, life: int, maxLife: int, size: real, kind: string)

  const PARTICLE_LIFE: int := 30

  /** createParticle, with its three Math.random() draws as inputs. */
  function NewParticle(x: real, y: real, kind: string, r1: real, r2: real, r3: real): (p: Particle)
    requires IsDraw(r1) && IsDraw(r2) && IsDraw(r3)
    ensures p.life == p.maxLife == PARTICLE_LIFE
    ensures p.x == x && p.y == y && p.kind == kind
    ensures -1.0 <= p.vx < 1.0 && -2.0 <= p.vy < 0.0 && 2.0 <= p.size < 5.0
  {
    Particle(x, y, (r1 - 0.5) * 2.0, (r2 - 0.5) * 2.0 - 1.0, PARTICLE_LIFE, PARTICLE_LIFE, r3 * 3.0 + 2.0, kind)
  }

  /** The update part of one iteration of updateAndDrawParticles. */
  function Advance(p: Particle): Particle {
    p.(x := p.x + p.vx, y := p.y + p.vy, vy := p.vy + 0.1, life := p.life - 1)
  }

  /** One frame of the particle list: each particle advanced, the ones whose
      life reached 0 dropped. */
  function Tick(ps: seq<Particle>): seq<Particle> {
    if ps == [] then [] else Survivor(ps[0]) + Tick(ps[1..])
  }

  /** What one frame leaves of a single particle. */
  function Survivor(p: Particle): seq<Particle> {
    var q := Advance(p);
    if q.life <= 0 then [] else [q]
  }

  /** Tick over a suffix, one particle at a time. */
  lemma TickFrom(ps: seq<Particle>, i: nat)
    requires i < |ps|
    ensures Tick(ps[i..]) == Survivor(ps[i]) + Tick(ps[i + 1..])
  {
    assert ps[i..][1..] == ps[i + 1..];
  }

  /** Every particle alive: life in 1..30 and maxLife 30. */
  predicate LiveParticles(ps: seq<Particle>) {
    forall p :: p in ps ==> 0 < p.life <= PARTICLE_LIFE && p.maxLife == PARTICLE_LIFE
  }

  /** A frame never lengthens the list, keeps every particle's identity fields,
      and decrements each survivor's life by exactly 1. */
  lemma {:induction false} TickShape(ps: seq<Particle>)
    ensures |Tick(ps)| <= |ps|
    ensures forall q :: q in Tick(ps) ==> q.life > 0
    ensures forall q :: q in Tick(ps) ==> exists i :: 0 <= i < |ps| && q == Advance(ps[i])
  {
    if ps != [] {
      TickShape(ps[1..]);
      forall q | q in Tick(ps[1..])
        ensures exists i :: 0 <= i < |ps| && q == Advance(ps[i])
      {
        var i :| 0 <= i < |ps[1..]| && q == Advance(ps[1..][i]);
        assert ps[1..][i] == ps[i + 1];
      }
    }
  }

  /** Survivors keep their relative order: a frame acts on each part of the list separately. */
  lemma {:induction false} TickAppend(a: seq<Particle>, b: seq<Particle>)
    ensures Tick(a + b) == Tick(a) + Tick(b)
  {
    if a != [] {
      assert (a + b)[0] == a[0] && (a + b)[1..] == a[1..] + b;
      TickAppend(a[1..], b);
      var head := Survivor(a[0]);
      assert head + (Tick(a[1..]) + Tick(b)) == (head + Tick(a[1..])) + Tick(b);
    } else {
      assert a + b == b;
    }
  }

  /** A frame keeps a list of live particles live. */
  lemma {:induction false} TickKeepsLive(ps: seq<Particle>)
    requires LiveParticles(ps)
    ensures LiveParticles(Tick(ps))
  {
    if ps != [] {
      TickKeepsLive(ps[1..]);
    }
  }

  function TickN(n: nat, ps: seq<Particle>): seq<Particle> {
    if n == 0 then ps else Tick(TickN(n - 1, ps))
  }

  function AdvanceN(n: nat, p: Particle): Particle {
    if n == 0 then p else Advance(AdvanceN(n - 1, p))
  }

  /** A particle created with life 30 is on the list for the next 29 frames,
      with life 30 - n after n of them, and is gone after the 30th. */
  lemma {:induction false} ParticleLifetime(p: Particle, n: nat)
    requires p.life == PARTICLE_LIFE && n <= PARTICLE_LIFE
    ensures n < PARTICLE_LIFE ==> TickN(n, [p]) == [AdvanceN(n, p)] && AdvanceN(n, p).life == PARTICLE_LIFE - n
    ensures n == PARTICLE_LIFE ==> TickN(n, [p]) == []
  {
    if n > 0 {
      ParticleLifetime(p, n - 1);
      var q := AdvanceN(n - 1, p);
      assert Tick([q]) == (if Advance(q).life <= 0 then [] else [Advance(q)]) + Tick([]);
    }
  }

  // ---------------------------------------------------------------------------
  // gameState

  class GameState {
    var myId: Option<ConnId>
    var players: Registry
    var chat: seq<ChatLine>
    var world: WorldObjects
    var particles: seq<Particle>

    function View(): Mirror
      reads this
    {
      Mirror(myId, players, chat, world)
    }

    ghost predicate Valid()
      reads this
    {
      |chat| <= CHAT_LIMIT && LiveParticles(particles)
    }

    constructor ()
      ensures Valid()
      ensures myId == None && players == map[] && chat == [] && particles == []
      ensures world == WorldObjects([], [], [], [])
    {
      myId := None;
      players := map[];
      chat := [];
      world := WorldObjects([], [], [], []);
      particles := [];
    }

    /** addChatMessage, the part that keeps the list bounded. */
    method AddChatMessage(username: string, message: string, isSystem: bool)
      requires Valid()
      modifies this
      ensures Valid()
      ensures chat == AppendChat(old(chat), ChatLine(username, message, isSystem))
      ensures |old(chat)| < CHAT_LIMIT ==> chat == old(chat) + [ChatLine(username, message, isSystem)]
      ensures |old(chat)| == CHAT_LIMIT ==> chat == old(chat)[1..] + [ChatLine(username, message, isSystem)]
      ensures myId == old(myId) && players == old(players) && world == old(world) && particles == old(particles)
    {
      chat := chat + [ChatLine(username, message, isSystem)];
      if |chat| > CHAT_LIMIT {
        chat := chat[1..];
      }
    }

    /** socket.on('init'): take the snapshot and the own id. */
    method OnInit(id: ConnId, ps: Registry)
      requires Valid()
      modifies this
      ensures Valid() && View() == Receive(old(View()), Init(id, ps)) && particles == old(particles)
      ensures myId == Some(id) && players == ps
      ensures id in ps ==> MyPlayer(View()) == Some(ps[id])
    {
      myId := Some(id);
      players := ps;
    }

    /** socket.on('playerJoined'): insert or overwrite the entry under player.id. */
    method OnPlayerJoined(p: Player)
      requires Valid()
      modifies this
      ensures Valid() && View() == Receive(old(View()), PlayerJoined(p)) && particles == old(particles)
      ensures players == old(players)[p.id := p]
    {
      players := players[p.id := p];
      AddChatMessage("", p.username + " bergabung!", true);
    }

    /** socket.on('playerMoved'): only an existing entry moves; nothing is inserted. */
    method OnPlayerMoved(id: ConnId, x: real, y: real)
      requires Valid()
      modifies this
      ensures Valid() && View() == Receive(old(View()), PlayerMoved(id, x, y)) && particles == old(particles)
      ensures players.Keys == old(players).Keys
      ensures id in old(players) ==> players[id] == old(players)[id].(x := x, y := y)
      ensures forall k :: k in players && k != id ==> players[k] == old(players)[k]
    {
      if id in players {
        players := players[id := players[id].(x := x)];
        players := players[id := players[id].(y := y)];
      }
    }

    /** socket.on('playerLeft'): only an existing entry is deleted. */
    method OnPlayerLeft(id: ConnId)
      requires Valid()
      modifies this
      ensures Valid() && View() == Receive(old(View()), PlayerLeft(id)) && particles == old(particles)
      ensures players == old(players) - {id}
    {
      if id in players {
        AddChatMessage("", players[id].username + " keluar", true);
        players := players - {id};
      }
    }

    /** socket.on('chatMessage'). */
    method OnChatMessage(username: string, message: string, timestamp: int)
      requires Valid()
      modifies this
      ensures Valid() && View() == Receive(old(View()), ChatMessage(username, message, timestamp))
      ensures particles == old(particles)
    {
      AddChatMessage(username, message, false);
    }

    /** socket.on('updatePlayers'): replace the map; myPlayer follows myId. */
    method OnUpdatePlayers(ps: Registry)
      requires Valid()
      modifies this
      ensures Valid() && View() == Receive(old(View()), UpdatePlayers(ps)) && particles == old(particles)
      ensures players == ps && myId == old(myId)
    {
      players := ps;
    }

    /** socket.on('worldObjects'): the obstacles checkCollision reads. */
    method OnWorldObjects(w: WorldObjects)
      requires Valid()
      modifies this
      ensures Valid() && View() == Receive(old(View()), WorldObjectsLoaded(w)) && particles == old(particles)
      ensures world == w
    {
      world := w;
    }

    /** Dispatch of one delivered event to its handler. */
    method OnEvent(e: Event)
      requires Valid()
      modifies this
      ensures Valid() && View() == Receive(old(View()), e) && particles == old(particles)
    {
      match e
      case Init(id, ps) => OnInit(id, ps);
      case WorldObjectsLoaded(w) => OnWorldObjects(w);
      case PlayerJoined(p) => OnPlayerJoined(p);
      case PlayerMoved(id, x, y) => OnPlayerMoved(id, x, y);
      case ChatMessage(username, message, timestamp) => OnChatMessage(username, message, timestamp);
      case PlayerLeft(id) => OnPlayerLeft(id);
      case UpdatePlayers(ps) => OnUpdatePlayers(ps);
    }

    /** handleMovement: returns the `move` request it emits, if any. */
    method HandleMovement(keys: set<string>, chatOpen: bool) returns (sent: Option<Request>)
      requires Valid()
      modifies this
      ensures Valid()
      ensures myId == old(myId) && chat == old(chat) && world == old(world) && particles == old(particles)
      ensures sent.Some? <==> !chatOpen && MyPlayer(old(View())).Some? && KeyDirection(keys) != Direction(0, 0)
      ensures sent.None? ==> players == old(players)
      ensures sent.Some? ==> sent.value.Move? && View() == LocalMove(old(View()), sent.value.x, sent.value.y)
      ensures sent.Some? ==>
                var start, step := MyPlayer(old(View())).value, StepVector(KeyDirection(keys));
                ResolvedAs(world, start.x, start.y, step.0, step.1, sent.value.x, sent.value.y)
      ensures sent.Some? ==>
                var start := MyPlayer(old(View())).value;
                (sent.value.x != start.x || sent.value.y != start.y) ==>
                  !CheckCollision(world, sent.value.x, sent.value.y, PLAYER_RADIUS)
    {
      sent := None;
      var me := MyPlayer(View());
      if me.None? || chatOpen {
        return;
      }
      var d := KeyDirection(keys);
      if d != Direction(0, 0) {
        var (dx, dy) := StepVector(d);
        var p := me.value;
        var finalX, finalY := ResolveMove(world, p.x, p.y, dx, dy);
        var id := myId.value;
        players := players[id := p.(x := finalX)];
        players := players[id := players[id].(y := finalY)];
        sent := Some(Move(finalX, finalY));
      }
    }

    /** createParticle. */
    method CreateParticle(x: real, y: real, kind: string, r1: real, r2: real, r3: real)
      requires Valid() && IsDraw(r1) && IsDraw(r2) && IsDraw(r3)
      modifies this
      ensures Valid() && View() == old(View())
      ensures particles == old(particles) + [NewParticle(x, y, kind, r1, r2, r3)]
    {
      particles := particles + [NewParticle(x, y, kind, r1, r2, r3)];
    }

    /** The update/remove part of updateAndDrawParticles: every particle
        advances one frame and the ones whose life ran out are dropped, which
        keeps the live-particle invariant. */
    method UpdateParticles()
      requires Valid()
      modifies this`particles
      ensures Valid() && View() == old(View())
      ensures particles == Tick(old(particles))
    {
      TickKeepsLive(particles);
      SweepParticles();
    }

    /** The backward loop of updateAndDrawParticles: it advances each
        particle and splices out the dead ones. */
    method SweepParticles()
      modifies this`particles
      ensures particles == Tick(old(particles))
    {
      ghost var was := particles;
      var i := |particles|;
      while i > 0
        invariant 0 <= i <= |was| && i <= |particles|
        invariant particles[..i] == was[..i]
        invariant particles[i..] == Tick(was[i..])
      {
        i := i - 1;
        ghost var rest := particles[i + 1..];
        TickFrom(was, i);
        assert rest == Tick(was[i + 1..]) by {
          assert particles[i..][1..] == rest;
        }
        assert particles[i] == was[i] by {
          assert particles[..i + 1][i] == was[..i + 1][i];
        }
        var p := Advance(particles[i]);
        if p.life <= 0 {
          particles := particles[..i] + particles[i + 1..];
          assert particles[i..] == rest;
        } else {
          particles := particles[i := p];
          assert particles[i..] == [p] + rest;
        }
      }
      assert particles == particles[0..] && was == was[0..];
    }
  }
}
