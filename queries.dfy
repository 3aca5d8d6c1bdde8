/** The world as the interpreter sees it through its ship: an abstract
    oracle for the physics (entity categories, positions, distances), and
    the entity queries of the language (`EntityExpression` and its
    subclasses) evaluated over it. */
module Queries {
  import opened Values
  import opened Syntax

  /** The concrete entity classes of the simulation. */
  datatype EntityKind = ShipKind | BulletKind | AsteroidKind | PlanetoidKind

  /** The simple names of an entity's class and of its superclass, the two
      names `World.getWorldSpecificEntities` matches a category against. */
  function CategoryNames(k: EntityKind): set<string>
  {
    match k
    case ShipKind => {"Ship", "Entity"}
    case BulletKind => {"Bullet", "Entity"}
    case AsteroidKind => {"Asteroid", "MinorPlanet"}
    case PlanetoidKind => {"Planetoid", "MinorPlanet"}
  }

  /** A world: its entities in the iteration order of the set the world
      hands out, each entity's class, and each bullet's source ship. */
  datatype World = World(
    entities: seq<EntityId>,
    kind: EntityId -> EntityKind,
    bulletSource: EntityId -> Option<EntityId>)

  /** What the program's ship can observe: itself, its current world (absent
      when the ship is not in a world), and, per entity, the ship's
      `getDistanceBetween` to it and the entity's position, velocity and
      radius. */
  datatype Surroundings = Surroundings(
    self: EntityId,
    world: Option<World>,
    distance: EntityId -> real,
    x: EntityId -> real,
    y: EntityId -> real,
    vx: EntityId -> real,
    vy: EntityId -> real,
    radius: EntityId -> real)

  /** The entities of `es` that satisfy `keep`, in their original order. */
  function Keep(es: seq<EntityId>, keep: EntityId -> bool): (r: seq<EntityId>)
    ensures |r| <= |es|
    ensures forall e :: e in r <==> e in es && keep(e)
  {
    if es == [] then []
    else if keep(es[0]) then [es[0]] + Keep(es[1..], keep)
    else Keep(es[1..], keep)
  }

  /** `getWorldSpecificEntities(category)`. */
  function OfCategory(w: World, category: string): (r: seq<EntityId>)
    ensures forall e :: e in r <==> e in w.entities && category in CategoryNames(w.kind(e))
  {
    Keep(w.entities, (e: EntityId) => category in CategoryNames(w.kind(e)))
  }

  /** The position, in `cands`, of the first candidate at minimal distance:
      `getClosestEntity` groups the candidates by distance and takes the
      first member of the group with the smallest key. */
  function ClosestIndex(cands: seq<EntityId>, distance: EntityId -> real): (i: nat)
    requires cands != []
    ensures i < |cands|
    ensures forall j :: 0 <= j < |cands| ==> distance(cands[i]) <= distance(cands[j])
    ensures forall j :: 0 <= j < i ==> distance(cands[j]) > distance(cands[i])
  {
    if |cands| == 1 then 0
    else
      var k := 1 + ClosestIndex(cands[1..], distance);
      assert cands[k] == cands[1..][k - 1];
      if distance(cands[0]) <= distance(cands[k]) then 0 else k
  }

  /** `getClosestEntity(set)`: null for no candidates, else the nearest one. */
  function ClosestEntity(cands: seq<EntityId>, distance: EntityId -> real): (r: Value)
    ensures r == Null <==> cands == []
    ensures r != Null ==> r.Ent? && r.entity in cands
    ensures r != Null ==> forall e :: e in cands ==> distance(r.entity) <= distance(e)
  {
    if cands == [] then Null else Ent(cands[ClosestIndex(cands, distance)])
  }

  /** `stream().findAny().orElse(null)`: the first element in iteration order. */
  function AnyOf(es: seq<EntityId>): (r: Value)
    ensures r == Null <==> es == []
    ensures r != Null ==> r.Ent? && r.entity in es
  {
    if es == [] then Null else Ent(es[0])
  }

  /** The other ships of the world (the program's own ship removed). */
  function OtherShips(s: Surroundings, w: World): (r: seq<EntityId>)
    ensures forall e :: e in r <==> e in w.entities && w.kind(e) == ShipKind && e != s.self
  {
    Keep(OfCategory(w, "Ship"), (e: EntityId) => e != s.self)
  }

  /** The bullets of the world whose source is the program's ship. */
  function OwnBullets(s: Surroundings, w: World): (r: seq<EntityId>)
    ensures forall e :: e in r <==> e in w.entities && w.kind(e) == BulletKind && w.bulletSource(e) == Some(s.self)
  {
    Keep(OfCategory(w, "Bullet"), (e: EntityId) => w.bulletSource(e) == Some(s.self))
  }

  /** The value of an entity query. Every query except `self` and `null`
      reads the ship's world, and fails when the ship has none. */
  function QueryValue(q: Query, s: Surroundings): (r: Res<Value>)
    ensures q == SelfQuery ==> r == Ok(Ent(s.self))
    ensures q == NullQuery ==> r == Ok(Null)
    ensures q != SelfQuery && q != NullQuery && s.world.None? ==> r == Raise(Thrown(NullPointer))
  {
    match q
    case SelfQuery => Ok(Ent(s.self))
    case NullQuery => Ok(Null)
    case _ =>
      if s.world.None? then Raise(Thrown(NullPointer))
      else
        var w := s.world.value;
        match q
        case AnyQuery => Ok(AnyOf(w.entities))
        case ShipQuery => Ok(ClosestEntity(OtherShips(s, w), s.distance))
        case AsteroidQuery => Ok(ClosestEntity(OfCategory(w, "Asteroid"), s.distance))
        case PlanetoidQuery => Ok(ClosestEntity(OfCategory(w, "Planetoid"), s.distance))
        case PlanetQuery => Ok(ClosestEntity(OfCategory(w, "MinorPlanet"), s.distance))
        case BulletQuery => Ok(AnyOf(OwnBullets(s, w)))
  }

  /** An entity's position, velocity or radius. */
  function FieldValue(f: Field, s: Surroundings, e: EntityId): real
  {
    match f
    case X => s.x(e)
    case Y => s.y(e)
    case VX => s.vx(e)
    case VY => s.vy(e)
    case Radius => s.radius(e)
  }

  /** `ship`: in a world, the nearest ship other than the program's own,
      or null when there is none. */
  lemma ShipQueryNearestOther(s: Surroundings)
    requires s.world.Some?
    ensures var r := QueryValue(ShipQuery, s);
            var w := s.world.value;
            r.Ok? && (r.value == Null <==> forall e :: e in w.entities && w.kind(e) == ShipKind ==> e == s.self)
            && (r.value != Null ==> r.value.Ent? && r.value.entity != s.self && r.value.entity in w.entities
                                    && w.kind(r.value.entity) == ShipKind
                                    && forall e :: e in w.entities && w.kind(e) == ShipKind && e != s.self
                                                   ==> s.distance(r.value.entity) <= s.distance(e))
  {
    var w := s.world.value;
    var others := OtherShips(s, w);
    if others != [] {
      assert others[0] in others;
    }
  }

  /** `bullet`: one of the world's bullets fired by the program's ship, or
      null when there is none. */
  lemma BulletQueryOwnBullet(s: Surroundings)
    requires s.world.Some?
    ensures var r := QueryValue(BulletQuery, s);
            var w := s.world.value;
            r.Ok? && (r.value == Null <==> forall e :: e in w.entities && w.kind(e) == BulletKind ==> w.bulletSource(e) != Some(s.self))
            && (r.value != Null ==> r.value.Ent? && r.value.entity in w.entities && w.kind(r.value.entity) == BulletKind
                                    && w.bulletSource(r.value.entity) == Some(s.self))
  {
    var own := OwnBullets(s, s.world.value);
    if own != [] {
      assert own[0] in own;
    }
  }

  /** In a world, `r` is the nearest entity whose class is one of `kinds`,
      or null when the world holds none. */
  predicate NearestOfKinds(r: Res<Value>, s: Surroundings, kinds: set<EntityKind>)
    requires s.world.Some?
  {
    var w := s.world.value;
    r.Ok?
    && (r.value == Null <==> forall e :: e in w.entities ==> w.kind(e) !in kinds)
    && (r.value != Null ==> r.value.Ent? && r.value.entity in w.entities && w.kind(r.value.entity) in kinds
                            && forall e :: e in w.entities && w.kind(e) in kinds ==> s.distance(r.value.entity) <= s.distance(e))
  }

  /** `asteroid`: the nearest asteroid, or null when there is none. */
  lemma AsteroidQueryNearest(s: Surroundings)
    requires s.world.Some?
    ensures NearestOfKinds(QueryValue(AsteroidQuery, s), s, {AsteroidKind})
  {
    var cands := OfCategory(s.world.value, "Asteroid");
    if cands != [] {
      assert cands[0] in cands;
    }
  }

  /** `planetoid`: the nearest planetoid, or null when there is none. */
  lemma PlanetoidQueryNearest(s: Surroundings)
    requires s.world.Some?
    ensures NearestOfKinds(QueryValue(PlanetoidQuery, s), s, {PlanetoidKind})
  {
    var cands := OfCategory(s.world.value, "Planetoid");
    if cands != [] {
      assert cands[0] in cands;
    }
  }

  /** `planet`: the nearest minor planet, asteroids and planetoids alike,
      or null when there is none. */
  lemma PlanetQueryNearestMinorPlanet(s: Surroundings)
    requires s.world.Some?
    ensures NearestOfKinds(QueryValue(PlanetQuery, s), s, {AsteroidKind, PlanetoidKind})
  {
    var w := s.world.value;
    var cands := OfCategory(w, "MinorPlanet");
    forall e ensures e in cands <==> e in w.entities && w.kind(e) in {AsteroidKind, PlanetoidKind} {
      assert "MinorPlanet" in CategoryNames(w.kind(e)) <==> w.kind(e) in {AsteroidKind, PlanetoidKind};
    }
    assert QueryValue(PlanetQuery, s) == Ok(ClosestEntity(cands, s.distance));
    if cands != [] {
      assert cands[0] in cands;
    }
  }

  /** `any`: some entity of the world, the program's own ship included, or
      null when the world is empty. */
  lemma AnyQueryAnyEntity(s: Surroundings)
    requires s.world.Some?
    ensures var r := QueryValue(AnyQuery, s);
            r.Ok? && (r.value == Null <==> s.world.value.entities == [])
            && (r.value != Null ==> r.value.Ent? && r.value.entity in s.world.value.entities)
  {
  }
}
