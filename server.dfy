/** Model of server.js: the participant registry (`players`), the four session
    handlers `join`, `move`, `chat` and `disconnect`, the `getWorldObjects`
    handler and the world fixture built once by `generateWorldObjects`.

    Every outbound `emit` is returned as an `Emit` value whose audience says
    which sockets receive it; Math.random() draws and Date.now() are inputs. */
module Server {
  import opened Numeric

  datatype Option<T> = None | Some(value: T)

  /** A socket id. */
  type ConnId = string

  /** One registry entry. */
  datatype Player = Player(id: ConnId, username: string, x: real, y: real, color: string)

  /** The module-level `players` object: socket id to entry. */
  type Registry = map<ConnId, Player>

  const COLORS: seq<string> :=
    ["#FF6B6B", "#4ECDC4", "#45B7D1", "#FFA07A", "#98D8C8", "#F7DC6F", "#BB8FCE", "#85C1E2"]

  const WORLD_WIDTH: real := 3000.0
  const WORLD_HEIGHT: real := 3000.0

  /** One coordinate of getRandomSpawnPosition. */
  function SpawnCoord(r: real): (c: real)
    requires IsDraw(r)
    ensures 100.0 <= c < 2900.0
  {
    r * 2800.0 + 100.0
  }

  /** Math.floor(Math.random() * COLORS.length). */
  function ColorIndex(r: real): (k: int)
    requires IsDraw(r)
    ensures 0 <= k < |COLORS|
  {
    Pick(r, |COLORS|)
  }

  /** getRandomColor. */
  function RandomColor(r: real): (c: string)
    requires IsDraw(r)
    ensures c in COLORS
  {
    COLORS[ColorIndex(r)]
  }

  // ---------------------------------------------------------------------------
  // World fixture

  datatype Decoration = Decoration(x: real, y: real, size: real)

  datatype WorldObjects = WorldObjects(
    trees: seq<Decoration>,
    rocks: seq<Decoration>,
    bushes: seq<Decoration>,
    houses: seq<Decoration>)

  const TREE_COUNT: nat := 80
  const ROCK_COUNT: nat := 50
  const BUSH_COUNT: nat := 60
  const HOUSE_COUNT: nat := 8

  /** Each object consumes three draws, in the order x, y, size. */
  const WORLD_DRAWS: nat := 3 * (TREE_COUNT + ROCK_COUNT + BUSH_COUNT + HOUSE_COUNT)

  /** How one kind of object is scattered: inset `margin` from every world
      edge, size drawn from [sizeBase, sizeBase + sizeSpread). */
  datatype Placement = Placement(margin: real, sizeBase: real, sizeSpread: real)

  const TREE_RULE: Placement := Placement(100.0, 50.0, 30.0)
  const ROCK_RULE: Placement := Placement(100.0, 25.0, 20.0)
  const BUSH_RULE: Placement := Placement(100.0, 30.0, 15.0)
  const HOUSE_RULE: Placement := Placement(200.0, 70.0, 20.0)

  /** The object the loop body pushes for the draws rand[at], rand[at+1], rand[at+2]. */
  function Drawn(rand: seq<real>, at: nat, rule: Placement): Decoration
    requires at + 3 <= |rand|
  {
    Decoration(
      Scale(rand[at], WORLD_WIDTH - 2.0 * rule.margin) + rule.margin,
      Scale(rand[at + 1], WORLD_HEIGHT - 2.0 * rule.margin) + rule.margin,
      Scale(rand[at + 2], rule.sizeSpread) + rule.sizeBase)
  }

  predicate Within(rule: Placement, d: Decoration) {
    && rule.margin <= d.x < WORLD_WIDTH - rule.margin
    && rule.margin <= d.y < WORLD_HEIGHT - rule.margin
    && rule.sizeBase <= d.size < rule.sizeBase + rule.sizeSpread
  }

  predicate AllDraws(rand: seq<real>) {
    forall i :: 0 <= i < |rand| ==> IsDraw(rand[i])
  }

  /** Every object lies inside the inset of its kind and has a size in its kind's range. */
  predicate WellPlaced(w: WorldObjects) {
    && (forall d :: d in w.trees ==> Within(TREE_RULE, d))
    && (forall d :: d in w.rocks ==> Within(ROCK_RULE, d))
    && (forall d :: d in w.bushes ==> Within(BUSH_RULE, d))
    && (forall d :: d in w.houses ==> Within(HOUSE_RULE, d))
  }

  /** A drawn object respects its placement rule, whatever the draws. */
  lemma DrawnWithin(rand: seq<real>, at: nat, rule: Placement)
    requires at + 3 <= |rand| && AllDraws(rand)
    requires 0.0 < rule.margin && 2.0 * rule.margin < WORLD_WIDTH && 0.0 < rule.sizeSpread
    ensures Within(rule, Drawn(rand, at, rule))
  {
    ScaledDraw(rand[at], WORLD_WIDTH - 2.0 * rule.margin);
    ScaledDraw(rand[at + 1], WORLD_HEIGHT - 2.0 * rule.margin);
    ScaledDraw(rand[at + 2], rule.sizeSpread);
  }

  /** One of the counted `for` loops of generateWorldObjects: `count` pushes,
      the i-th using the draws at first + 3 * i. */
  method Scatter(rand: seq<real>, first: nat, count: nat, rule: Placement) returns (objs: seq<Decoration>)
    requires first + 3 * count <= |rand| && AllDraws(rand)
    requires 0.0 < rule.margin && 2.0 * rule.margin < WORLD_WIDTH && 0.0 < rule.sizeSpread
    ensures |objs| == count
    ensures forall i :: 0 <= i < count ==> objs[i] == Drawn(rand, first + 3 * i, rule)
    ensures forall d :: d in objs ==> Within(rule, d)
  {
    objs := [];
    for i := 0 to count
      invariant |objs| == i
      invariant forall k :: 0 <= k < i ==> objs[k] == Drawn(rand, first + 3 * k, rule)
      invariant forall d :: d in objs ==> Within(rule, d)
    {
      var d := Drawn(rand, first + 3 * i, rule);
      DrawnWithin(rand, first + 3 * i, rule);
      objs := objs + [d];
    }
  }

  /** generateWorldObjects: 80 trees, 50 rocks, 60 bushes and 8 houses, in that
      order of draws. */
  method GenerateWorldObjects(rand: seq<real>) returns (w: WorldObjects)
    requires |rand| >= WORLD_DRAWS && AllDraws(rand)
    ensures |w.trees| == TREE_COUNT && |w.rocks| == ROCK_COUNT
    ensures |w.bushes| == BUSH_COUNT && |w.houses| == HOUSE_COUNT
    ensures forall i :: 0 <= i < TREE_COUNT ==> w.trees[i] == Drawn(rand, 3 * i, TREE_RULE)
    ensures forall i :: 0 <= i < ROCK_COUNT ==> w.rocks[i] == Drawn(rand, 3 * (TREE_COUNT + i), ROCK_RULE)
    ensures forall i :: 0 <= i < BUSH_COUNT ==>
              w.bushes[i] == Drawn(rand, 3 * (TREE_COUNT + ROCK_COUNT + i), BUSH_RULE)
    ensures forall i :: 0 <= i < HOUSE_COUNT ==>
              w.houses[i] == Drawn(rand, 3 * (TREE_COUNT + ROCK_COUNT + BUSH_COUNT + i), HOUSE_RULE)
    ensures WellPlaced(w)
  {
    var trees := Scatter(rand, 0, TREE_COUNT, TREE_RULE);
    var rocks := Scatter(rand, 3 * TREE_COUNT, ROCK_COUNT, ROCK_RULE);
    var bushes := Scatter(rand, 3 * (TREE_COUNT + ROCK_COUNT), BUSH_COUNT, BUSH_RULE);
    var houses := Scatter(rand, 3 * (TREE_COUNT + ROCK_COUNT + BUSH_COUNT), HOUSE_COUNT, HOUSE_RULE);
    w := WorldObjects(trees, rocks, bushes, houses);
  }

  // ---------------------------------------------------------------------------
  // Event protocol

  /** Who receives an emit: `socket.emit` (the sender), `socket.broadcast.emit`
      (every other socket) or `io.emit` (every socket). */
  datatype Audience = ToSelf | ToOthers | ToAll

  datatype Event =
    | Init(selfId: ConnId, players: Registry)
    | WorldObjectsLoaded(objects: WorldObjects)
    | PlayerJoined(player: Player)
    | PlayerMoved(id: ConnId, x: real, y: real)
    | ChatMessage(username: string, message: string, timestamp: int)
    | PlayerLeft(id: ConnId)
      /** Listened for by client.js; server.js never emits it. */
    | UpdatePlayers(players: Registry)

  datatype Emit = Emit(audience: Audience, event: Event)

  /** An inbound socket event and its payload. */
  datatype Request =
    | Join(username: string)
    | GetWorldObjects
    | Move(x: real, y: real)
    | Chat(message: string)
    | Disconnect

  /** The outside inputs a handler may consume: the three Math.random() draws
      of a join (spawn x, spawn y, colour) and Date.now() for a chat. */
  datatype Entropy = Entropy(spawnX: real, spawnY: real, colorDraw: real, now: int)

  predicate ValidEntropy(e: Entropy) {
    IsDraw(e.spawnX) && IsDraw(e.spawnY) && IsDraw(e.colorDraw)
  }

  /** One inbound event on socket `conn`. */
  datatype Action = Action(conn: ConnId, request: Request, entropy: Entropy)

  /** Only a join consumes random draws. */
  predicate Admissible(a: Action) {
    a.request.Join? ==> ValidEntropy(a.entropy)
  }

  datatype Transition = Transition(registry: Registry, emits: seq<Emit>)

  function NewPlayer(id: ConnId, username: string, e: Entropy): Player
    requires ValidEntropy(e)
  {
    Player(id, username, SpawnCoord(e.spawnX), SpawnCoord(e.spawnY), RandomColor(e.colorDraw))
  }

  /** The handlers as one transition function: new registry and emits, in emit order. */
  function Step(world: WorldObjects, reg: Registry, a: Action): Transition
    requires Admissible(a)
  {
    var id := a.conn;
    match a.request
    case Join(username) =>
      var reg' := reg[id := NewPlayer(id, username, a.entropy)];
      Transition(reg', [Emit(ToSelf, Init(id, reg')), Emit(ToOthers, PlayerJoined(reg'[id]))])
    case GetWorldObjects =>
      Transition(reg, [Emit(ToSelf, WorldObjectsLoaded(world))])
    case Move(x, y) =>
      if id in reg then
        Transition(reg[id := reg[id].(x := x, y := y)], [Emit(ToOthers, PlayerMoved(id, x, y))])
      else
        Transition(reg, [])
    case Chat(message) =>
      if id in reg then
        Transition(reg, [Emit(ToAll, ChatMessage(reg[id].username, message, a.entropy.now))])
      else
        Transition(reg, [])
    case Disconnect =>
      if id in reg then Transition(reg - {id}, [Emit(ToOthers, PlayerLeft(id))])
      else Transition(reg, [])
  }

  /** Every entry is stored under its own id. */
  ghost predicate WellKeyed(reg: Registry) {
    forall k :: k in reg ==> reg[k].id == k
  }

  /** Does an emit by `sender` reach socket `recipient`? */
  predicate Reaches(audience: Audience, sender: ConnId, recipient: ConnId) {
    match audience
    case ToSelf => recipient == sender
    case ToOthers => recipient != sender
    case ToAll => true
  }

  /** The events socket `recipient` receives, in order, from emits made on behalf of `sender`. */
  function Deliver(recipient: ConnId, sender: ConnId, emits: seq<Emit>): (events: seq<Event>)
    ensures |events| <= |emits|
    ensures forall e :: e in events <==> exists i :: 0 <= i < |emits| && emits[i].event == e && Reaches(emits[i].audience, sender, recipient)
  {
    if emits == [] then []
    else
      var rest := Deliver(recipient, sender, emits[1..]);
      assert forall i :: 0 < i < |emits| ==> emits[i] == emits[1..][i - 1];
      if Reaches(emits[0].audience, sender, recipient) then [emits[0].event] + rest else rest
  }

  /** Delivery is selection in emit order: each part of an emit list is
      filtered separately and the results are concatenated, so the receiver
      sees its events once each and in the order they were emitted. */
  lemma {:induction false} DeliverAppend(recipient: ConnId, sender: ConnId, a: seq<Emit>, b: seq<Emit>)
    ensures Deliver(recipient, sender, a + b) == Deliver(recipient, sender, a) + Deliver(recipient, sender, b)
  {
    if a == [] {
      assert a + b == b;
    } else {
      assert (a + b)[0] == a[0];
      assert (a + b)[1..] == a[1..] + b;
      DeliverAppend(recipient, sender, a[1..], b);
    }
  }

  /** A single emit reaches a socket exactly when its audience does. */
  lemma DeliverOne(recipient: ConnId, sender: ConnId, e: Emit)
    ensures Deliver(recipient, sender, [e]) == if Reaches(e.audience, sender, recipient) then [e.event] else []
  {
    assert [e][1..] == [];
  }

  // ---------------------------------------------------------------------------
  // The server process

  class ServerState {
    var players: Registry
    const worldObjects: WorldObjects

    ghost predicate Valid()
      reads this
    {
      WellKeyed(players) && WellPlaced(worldObjects)
    }

    /** Process start: an empty registry and the fixture generated once. */
    constructor (rand: seq<real>)
      requires |rand| >= WORLD_DRAWS && AllDraws(rand)
      ensures Valid() && players == map[]
      ensures |worldObjects.trees| == TREE_COUNT && |worldObjects.rocks| == ROCK_COUNT
      ensures |worldObjects.bushes| == BUSH_COUNT && |worldObjects.houses| == HOUSE_COUNT
    {
      var w := GenerateWorldObjects(rand);
      worldObjects := w;
      players := map[];
    }

    /** socket.on('join'): no duplicate guard, a second join overwrites. */
    method OnJoin(id: ConnId, username: string, entropy: Entropy) returns (out: seq<Emit>)
      requires Valid() && ValidEntropy(entropy)
      modifies this
      ensures Valid()
      ensures players == old(players)[id := NewPlayer(id, username, entropy)]
      ensures out == [Emit(ToSelf, Init(id, players)), Emit(ToOthers, PlayerJoined(players[id]))]
    {
      var spawnX, spawnY := SpawnCoord(entropy.spawnX), SpawnCoord(entropy.spawnY);
      players := players[id := Player(id, username, spawnX, spawnY, RandomColor(entropy.colorDraw))];
      out := [Emit(ToSelf, Init(id, players))];
      out := out + [Emit(ToOthers, PlayerJoined(players[id]))];
    }

    /** socket.on('getWorldObjects'): the same fixture on every call. */
    method OnGetWorldObjects() returns (out: seq<Emit>)
      ensures out == [Emit(ToSelf, WorldObjectsLoaded(worldObjects))]
    {
      out := [Emit(ToSelf, WorldObjectsLoaded(worldObjects))];
    }

    /** socket.on('move'): overwrites x and y of an existing entry only. */
    method OnMove(id: ConnId, x: real, y: real) returns (out: seq<Emit>)
      requires Valid()
      modifies this
      ensures Valid()
      ensures id in old(players) ==>
                && players == old(players)[id := old(players)[id].(x := x, y := y)]
                && out == [Emit(ToOthers, PlayerMoved(id, x, y))]
      ensures id !in old(players) ==> players == old(players) && out == []
    {
      out := [];
      if id in players {
        players := players[id := players[id].(x := x)];
        players := players[id := players[id].(y := y)];
        out := [Emit(ToOthers, PlayerMoved(id, x, y))];
      }
    }

    /** socket.on('chat'): the registry is only read. */
    method OnChat(id: ConnId, message: string, now: int) returns (out: seq<Emit>)
      ensures id in players ==> out == [Emit(ToAll, ChatMessage(players[id].username, message, now))]
      ensures id !in players ==> out == []
    {
      out := [];
      if id in players {
        var chatData := ChatMessage(players[id].username, message, now);
        out := [Emit(ToAll, chatData)];
      }
    }

    /** socket.on('disconnect'): notify the others, then delete the entry. */
    method OnDisconnect(id: ConnId) returns (out: seq<Emit>)
      requires Valid()
      modifies this
      ensures Valid()
      ensures id in old(players) ==>
                players == old(players) - {id} && out == [Emit(ToOthers, PlayerLeft(id))]
      ensures id !in old(players) ==> players == old(players) && out == []
    {
      out := [];
      if id in players {
        out := [Emit(ToOthers, PlayerLeft(id))];
        players := players - {id};
      }
    }

    /** The `socket.on` dispatch: each handler is one transition of Step. */
    method Handle(a: Action) returns (out: seq<Emit>)
      requires Valid() && Admissible(a)
      modifies this
      ensures Valid()
      ensures Transition(players, out) == Step(worldObjects, old(players), a)
    {
      match a.request
      case Join(username) => out := OnJoin(a.conn, username, a.entropy);
      case GetWorldObjects => out := OnGetWorldObjects();
      case Move(x, y) => out := OnMove(a.conn, x, y);
      case Chat(message) => out := OnChat(a.conn, message, a.entropy.now);
      case Disconnect => out := OnDisconnect(a.conn);
    }
  }

  // ---------------------------------------------------------------------------
  // Runs of the protocol

  predicate AllAdmissible(trace: seq<Action>) {
    forall i :: 0 <= i < |trace| ==> Admissible(trace[i])
  }

  /** The registry after handling `trace` in order, starting from `reg`. */
  function RunRegistry(world: WorldObjects, reg: Registry, trace: seq<Action>): Registry
    requires AllAdmissible(trace)
  {
    if trace == [] then reg
    else Step(world, RunRegistry(world, reg, trace[..|trace| - 1]), trace[|trace| - 1]).registry
  }

  /** Whatever the events, every entry stays stored under its own id. */
  lemma {:induction false} RunKeepsWellKeyed(world: WorldObjects, reg: Registry, trace: seq<Action>)
    requires WellKeyed(reg) && AllAdmissible(trace)
    ensures WellKeyed(RunRegistry(world, reg, trace))
  {
    if trace != [] {
      RunKeepsWellKeyed(world, reg, trace[..|trace| - 1]);
    }
  }

  /** Socket `id` has joined at some point and has not disconnected since. */
  ghost predicate Live(trace: seq<Action>, id: ConnId) {
    exists i :: 0 <= i < |trace| && trace[i].conn == id && trace[i].request.Join? &&
      forall j :: i < j < |trace| ==> !(trace[j].conn == id && trace[j].request.Disconnect?)
  }

  lemma LiveSnoc(t: seq<Action>, a: Action, id: ConnId)
    ensures Live(t + [a], id) <==>
              (a.conn == id && a.request.Join?) || (Live(t, id) && !(a.conn == id && a.request.Disconnect?))
  {
    var s := t + [a];
    assert s[|t|] == a;
    if a.conn == id && a.request.Join? {
      assert Live(s, id);
    } else if Live(t, id) && !(a.conn == id && a.request.Disconnect?) {
      var i :| 0 <= i < |t| && t[i].conn == id && t[i].request.Join? &&
        forall j :: i < j < |t| ==> !(t[j].conn == id && t[j].request.Disconnect?);
      assert s[i] == t[i];
      forall j | i < j < |s|
        ensures !(s[j].conn == id && s[j].request.Disconnect?)
      {
        if j < |t| {
          assert s[j] == t[j];
        }
      }
      assert Live(s, id);
    }
    if Live(s, id) && !(a.conn == id && a.request.Join?) {
      var i :| 0 <= i < |s| && s[i].conn == id && s[i].request.Join? &&
        forall j :: i < j < |s| ==> !(s[j].conn == id && s[j].request.Disconnect?);
      assert i < |t|;
      assert s[i] == t[i];
      forall j | i < j < |t|
        ensures !(t[j].conn == id && t[j].request.Disconnect?)
      {
        assert s[j] == t[j];
      }
      assert Live(t, id);
    }
  }

  /** From an empty registry, the registry holds exactly the sockets that
      joined and have not disconnected since. */
  lemma {:induction false} RegistryHoldsLiveSockets(world: WorldObjects, trace: seq<Action>)
    requires AllAdmissible(trace)
    ensures forall id :: id in RunRegistry(world, map[], trace) <==> Live(trace, id)
  {
    if trace != [] {
      var t, a := trace[..|trace| - 1], trace[|trace| - 1];
      assert trace == t + [a];
      RegistryHoldsLiveSockets(world, t);
      forall id
        ensures id in RunRegistry(world, map[], trace) <==> Live(trace, id)
      {
        LiveSnoc(t, a, id);
      }
    }
  }

  /** A repeated join with the same socket id overwrites the first entry; the
      registry does not grow. */
  lemma RejoinOverwrites(world: WorldObjects, reg: Registry, id: ConnId, first: string, second: string,
                         e1: Entropy, e2: Entropy)
    requires ValidEntropy(e1) && ValidEntropy(e2)
    ensures var r1 := Step(world, reg, Action(id, Join(first), e1)).registry;
            var r2 := Step(world, r1, Action(id, Join(second), e2)).registry;
            && r2[id] == NewPlayer(id, second, e2)
            && r2.Keys == r1.Keys
            && r2 == r1[id := NewPlayer(id, second, e2)]
  {
  }

  /** A second disconnect changes nothing and emits nothing. */
  lemma DisconnectIdempotent(world: WorldObjects, reg: Registry, id: ConnId, e1: Entropy, e2: Entropy)
    ensures var r1 := Step(world, reg, Action(id, Disconnect, e1)).registry;
            && id !in r1
            && Step(world, r1, Action(id, Disconnect, e2)) == Transition(r1, [])
  {
  }

  /** Two sockets join in turn as "Alice" and "Bob": Bob's init lists both,
      Alice receives Bob's playerJoined, Bob does not receive it. */
  lemma AliceThenBob(world: WorldObjects, alice: ConnId, bob: ConnId, e1: Entropy, e2: Entropy)
    requires alice != bob && ValidEntropy(e1) && ValidEntropy(e2)
    ensures var t1 := Step(world, map[], Action(alice, Join("Alice"), e1));
            var t2 := Step(world, t1.registry, Action(bob, Join("Bob"), e2));
            && Deliver(bob, bob, t2.emits) == [Init(bob, t2.registry)]
            && t2.registry.Keys == {alice, bob}
            && t2.registry[alice].username == "Alice" && t2.registry[bob].username == "Bob"
            && Deliver(alice, bob, t2.emits) == [PlayerJoined(NewPlayer(bob, "Bob", e2))]
  {
    var t1 := Step(world, map[], Action(alice, Join("Alice"), e1));
    var t2 := Step(world, t1.registry, Action(bob, Join("Bob"), e2));
    assert t2.emits[1..][1..] == [];
  }
}
