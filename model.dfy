/**
 * The value types, the dog and the game session of the game model (model.h).
 *
 * `double` is modelled as `real`: no claim is made about rounding.
 */
module Model {
  import opened Wrappers
  import opened Machine

  /** Integer coordinates of the static map geometry. */
  datatype Point = Point(x: int, y: int)

  /** Continuous coordinates: a dog's position and its speed. */
  datatype PairDouble = PairDouble(x: real, y: real)

  datatype Direction = North | South | West | East

  /** The tagged map identifier. */
  datatype MapId = MapId(value: string)

  /** A lost object lying on the map. */
  datatype Loot = Loot(id: string, lootType: nat, pos: PairDouble)

  // ---------------------------------------------------------------- roads

  /** Two end points; `Road` below is what the road constructors can build. */
  datatype Segment = Segment(start: Point, end: Point) {

    /** Exactly the segments the horizontal constructor builds from `start` and `end.x`. */
    predicate IsHorizontal()
      ensures IsHorizontal() <==> this == Segment(start, Point(end.x, start.y))
    {
      start.y == end.y
    }

    /** Exactly the segments the vertical constructor builds from `start` and `end.y`. */
    predicate IsVertical()
      ensures IsVertical() <==> this == Segment(start, Point(start.x, end.y))
    {
      start.x == end.x
    }

    /**
     * The road runs from larger to smaller coordinates: along its own axis, its end lies
     * before its start.
     */
    predicate IsInvert()
      ensures IsHorizontal() ==> (IsInvert() <==> end.x < start.x)
      ensures IsVertical() ==> (IsInvert() <==> end.y < start.y)
    {
      start.x > end.x || start.y > end.y
    }
  }

  /** A road is never diagonal: only the two constructors below create one. */
  type Road = s: Segment | s.IsHorizontal() || s.IsVertical()
    witness Segment(Point(0, 0), Point(0, 0))

  /** `Road(Road::HORIZONTAL, start, end_x)`. */
  function HorizontalRoad(start: Point, endX: int): (r: Road)
    ensures r.IsHorizontal()
    ensures r.start == start && r.end.x == endX
  {
    Segment(start, Point(endX, start.y))
  }

  /** `Road(Road::VERTICAL, start, end_y)`. */
  function VerticalRoad(start: Point, endY: int): (r: Road)
    ensures r.IsVertical()
    ensures r.start == start && r.end.y == endY
  {
    Segment(start, Point(start.x, endY))
  }

  /** Every road is built by one of the two constructors, and is axis-aligned. */
  lemma RoadIsConstructed(r: Road)
    ensures r == HorizontalRoad(r.start, r.end.x) || r == VerticalRoad(r.start, r.end.y)
    ensures r.IsHorizontal() || r.IsVertical()
  {
  }

  /** A road is both horizontal and vertical exactly when it is a single point. */
  lemma RoadBothAxesIffPoint(r: Road)
    ensures r.IsHorizontal() && r.IsVertical() <==> r.start == r.end
  {
  }

  /** On an axis-aligned road, "inverted" means the end lies before the start along its axis. */
  lemma InvertedRoadRunsBackwards(r: Road)
    ensures r.IsInvert() <==>
      (r.IsHorizontal() && r.end.x < r.start.x) || (r.IsVertical() && r.end.y < r.start.y)
    ensures !r.IsInvert() ==> r.start.x <= r.end.x && r.start.y <= r.end.y
  {
  }

  // ------------------------------------------------------------ randomness

  /**
   * `Map::GetRandomNumber(a, b)`: `a + rand() % (b - a)` in `unsigned` arithmetic, with the
   * draw of `rand()` passed in. `a == b` would divide by zero and is excluded.
   */
  function GetRandomNumber(a: nat, b: nat, draw: nat): (r: nat)
    requires a < UINT_MOD && b < UINT_MOD && draw < UINT_MOD
    requires a != b
    ensures r < UINT_MOD
    ensures a < b ==> a <= r < b
  {
    var span := (b - a) % UINT_MOD;
    assert span != 0;
    (a + draw % span) % UINT_MOD
  }

  // -------------------------------------------------- ordering of PairDouble

  /** `operator<` on PairDouble as written: the tuple (lhs.x, lhs.y) against (rhs.x, rhs.x). */
  predicate LessAsWritten(lhs: PairDouble, rhs: PairDouble)
    ensures LessAsWritten(lhs, rhs) <==> PairLess(lhs, PairDouble(rhs.x, rhs.x))
  {
    lhs.x < rhs.x || (lhs.x == rhs.x && lhs.y < rhs.x)
  }

  /** The lexicographic order on (x, y) that the operator evidently means. */
  predicate PairLess(lhs: PairDouble, rhs: PairDouble) {
    lhs.x < rhs.x || (lhs.x == rhs.x && lhs.y < rhs.y)
  }

  /**
   * As written, a point is "less than itself" exactly when its y lies below its x, so the
   * operator is not a strict ordering; and it misorders points that differ only in y.
   */
  lemma LessAsWrittenIsNotStrict(p: PairDouble)
    ensures LessAsWritten(p, p) <==> p.y < p.x
    ensures LessAsWritten(PairDouble(0.0, -1.0), PairDouble(0.0, -1.0))
    ensures PairLess(PairDouble(0.0, 0.0), PairDouble(0.0, 1.0))
    ensures !LessAsWritten(PairDouble(0.0, 0.0), PairDouble(0.0, 1.0))
  {
  }

  /** The corrected operator is a strict total order. */
  lemma PairLessIsStrictOrder(p: PairDouble, q: PairDouble, s: PairDouble)
    ensures !PairLess(p, p)
    ensures PairLess(p, q) ==> !PairLess(q, p)
    ensures PairLess(p, q) && PairLess(q, s) ==> PairLess(p, s)
    ensures p != q ==> PairLess(p, q) || PairLess(q, p)
  {
  }

  // ------------------------------------------------------------------- dog

  /** A dog: its id and name are fixed; position, speed and direction are overwritten. */
  class Dog {
    const id: int
    const name: string
    var pos: PairDouble
    var speed: PairDouble
    var dir: Direction

    constructor (id: int, name: string, pos: PairDouble, speed: PairDouble, dir: Direction)
      ensures this.id == id && this.name == name
      ensures this.pos == pos && this.speed == speed && this.dir == dir
    {
      this.id := id;
      this.name := name;
      this.pos := pos;
      this.speed := speed;
      this.dir := dir;
    }

    method SetPosition(newPos: PairDouble)
      modifies this
      ensures pos == newPos
      ensures speed == old(speed) && dir == old(dir)
    {
      pos := newPos;
    }

    method SetSpeed(newSpeed: PairDouble)
      modifies this
      ensures speed == newSpeed
      ensures pos == old(pos) && dir == old(dir)
    {
      speed := newSpeed;
    }

    method SetDirection(newDir: Direction)
      modifies this
      ensures dir == newDir
      ensures pos == old(pos) && speed == old(speed)
    {
      dir := newDir;
    }
  }

  // ------------------------------------------------------------------- map

  /** The static data of one map that the engine reads. */
  datatype GameMap = GameMap(id: MapId, name: string, roads: seq<Road>, dogSpeed: real)

  // ----------------------------------------------------------- game session

  /**
   * One map's live world. `lootRequests` stands for `UpdateLoot`, whose body is not part of
   * this model: it keeps every count the session was asked to spawn, in order.
   */
  class GameSession {
    const gameMap: GameMap
    var autoLootCounter: nat
    var loot: seq<Loot>
    var dogs: seq<Dog>
    /** The counts `UpdateLoot` has been asked for, oldest first: a log for contracts only. */
    ghost var lootRequests: seq<nat>

    constructor (gameMap: GameMap)
      ensures this.gameMap == gameMap
      ensures autoLootCounter == 0 && loot == [] && dogs == [] && lootRequests == []
    {
      this.gameMap := gameMap;
      autoLootCounter := 0;
      loot := [];
      dogs := [];
      lootRequests := [];
    }

    /** Appends a new dog with the given state and returns it. */
    method AddDog(id: int, name: string, pos: PairDouble, speed: PairDouble, dir: Direction)
      returns (dog: Dog)
      modifies this
      ensures fresh(dog)
      ensures dog.id == id && dog.name == name
      ensures dog.pos == pos && dog.speed == speed && dog.dir == dir
      ensures dogs == old(dogs) + [dog]
      ensures loot == old(loot) && autoLootCounter == old(autoLootCounter)
      ensures lootRequests == old(lootRequests)
    {
      dog := new Dog(id, name, pos, speed, dir);
      dogs := dogs + [dog];
    }

    /**
     * Asks the session for `count` new lost objects. How it spawns them is not part of this
     * model: the loot and the loot counter are left unconstrained; the request is recorded
     * and the dogs are untouched.
     */
    method UpdateLoot(count: nat)
      modifies this
      ensures lootRequests == old(lootRequests) + [count]
      ensures dogs == old(dogs)
    {
      lootRequests := lootRequests + [count];
    }
  }

  // ------------------------------------------------------------------ game

  /** The registered maps and at most one live session per map. */
  class Game {
    var maps: map<MapId, GameMap>
    var sessions: map<MapId, GameSession>

    ghost predicate Valid()
      reads this
    {
      && (forall id | id in maps :: maps[id].id == id)
      && (forall id | id in sessions :: id in maps && sessions[id].gameMap == maps[id])
    }

    constructor (maps: map<MapId, GameMap>)
      requires forall id | id in maps :: maps[id].id == id
      ensures Valid()
      ensures this.maps == maps && sessions == map[]
    {
      this.maps := maps;
      sessions := map[];
    }

    method FindMap(id: MapId) returns (m: Option<GameMap>)
      ensures m.Some? <==> id in maps
      ensures m.Some? ==> m.value == maps[id]
    {
      m := if id in maps then Some(maps[id]) else None;
    }

    /** The live session of a map, or null. */
    method SessionIsExists(id: MapId) returns (s: GameSession?)
      ensures s != null <==> id in sessions
      ensures s != null ==> s == sessions[id]
    {
      s := if id in sessions then sessions[id] else null;
    }

    /** Creates the (empty) session of a registered map. */
    method AddSession(id: MapId) returns (s: GameSession)
      requires Valid()
      requires id in maps
      modifies this
      ensures Valid()
      ensures maps == old(maps) && sessions == old(sessions)[id := s]
      ensures fresh(s)
      ensures s.gameMap == maps[id]
      ensures s.dogs == [] && s.loot == [] && s.autoLootCounter == 0 && s.lootRequests == []
    {
      s := new GameSession(maps[id]);
      sessions := sessions[id := s];
    }
  }
}
