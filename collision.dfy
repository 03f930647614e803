/**
 * Collision detection (`src/collision.js`): first-hit scans of the player's
 * position against clovers, ants, bees, spiders and slugs, and the dispatch
 * of a collected item to its callback.
 *
 * Distances are compared squared: for a radius r >= 0, `distance < r`
 * holds exactly when the squared distance is below r * r, so no square
 * root is needed. Callbacks become results: the scans return the index of
 * the element the callback would receive.
 */
module Collision {
  import opened Wrappers

  datatype Point = Point(x: real, y: real, z: real)

  const Origin := Point(0.0, 0.0, 0.0)

  const CollectionRadius := 2.5
  const EnemyCollisionRadius := 1.5
  const BeeCollisionRadius := 1.2
  /** The radius `checkNewEnemyCollisions` hands to the spider and slug scans. */
  const CrawlerCollisionRadius := 2.0
  /** The points a coin is worth. */
  const CoinPoints := 50

  function DistSq(a: Point, b: Point): (d: real)
    ensures d >= 0.0
  {
    (a.x - b.x) * (a.x - b.x) + (a.y - b.y) * (a.y - b.y) + (a.z - b.z) * (a.z - b.z)
  }

  /** `a.distanceTo(b) < radius`, strict. */
  predicate Within(a: Point, b: Point, radius: real) {
    DistSq(a, b) < radius * radius
  }

  /** A point on the x axis exactly one radius away is not within it: the test is strict. */
  lemma BoundaryIsOutside(player: Point, radius: real)
    requires radius >= 0.0
    ensures !Within(player, Point(player.x + radius, player.y, player.z), radius)
  {
  }

  /** A target that can be hit: `None` is one the scan skips (a collected clover, a crawler without a mesh). */
  type Target = Option<Point>

  predicate Hits(player: Point, t: Target, radius: real) {
    t.Some? && Within(player, t.value, radius)
  }

  /**
   * The early-return scan every check performs: the first target, from
   * index `from` on, that lies within the radius.
   */
  function FirstHitFrom(player: Point, targets: seq<Target>, radius: real, from: nat): (r: Option<nat>)
    requires from <= |targets|
    decreases |targets| - from
    ensures r.Some? ==> from <= r.value < |targets| && Hits(player, targets[r.value], radius)
    ensures r.Some? ==> forall j :: from <= j < r.value ==> !Hits(player, targets[j], radius)
    ensures r.None? <==> forall j :: from <= j < |targets| ==> !Hits(player, targets[j], radius)
  {
    if from == |targets| then None
    else if Hits(player, targets[from], radius) then Some(from)
    else FirstHitFrom(player, targets, radius, from + 1)
  }

  function FirstHit(player: Point, targets: seq<Target>, radius: real): Option<nat> {
    FirstHitFrom(player, targets, radius, 0)
  }

  /** Every point is a target (ants and bees are never skipped). */
  function AllTargets(points: seq<Point>): (r: seq<Target>)
    ensures |r| == |points|
    ensures forall i :: 0 <= i < |points| ==> r[i] == Some(points[i])
  {
    if points == [] then [] else [Some(points[0])] + AllTargets(points[1..])
  }

  // ---------------------------------------------------------------------
  // Clovers
  // ---------------------------------------------------------------------

  /** A clover in the scene: its position, its collected flag and its visibility. */
  class Clover {
    var position: Point
    var collected: bool
    const isFourLeaf: bool
    var visible: bool

    constructor(position: Point, isFourLeaf: bool)
      ensures this.position == position && this.isFourLeaf == isFourLeaf
      ensures !collected && visible
    {
      this.position := position;
      this.isFourLeaf := isFourLeaf;
      collected := false;
      visible := true;
    }

    /** What the scan sees of this clover: nothing once it is collected. */
    function AsTarget(): (t: Target)
      reads this
      ensures t.Some? <==> !collected
    {
      if collected then None else Some(position)
    }
  }

  function CloverTargets(clovers: seq<Clover>): (r: seq<Target>)
    reads set c | c in clovers
    ensures |r| == |clovers|
    ensures forall i :: 0 <= i < |clovers| ==> r[i] == clovers[i].AsTarget()
  {
    if clovers == [] then [] else [clovers[0].AsTarget()] + CloverTargets(clovers[1..])
  }

  /**
   * `checkCloverCollisions`: marks and returns the first uncollected clover
   * within the collection radius. Only that clover's flag changes, and
   * when nothing is found no flag changes.
   */
  method CheckCloverCollisions(player: Point, clovers: seq<Clover>) returns (r: Option<nat>)
    modifies set c | c in clovers
    ensures r == FirstHit(player, old(CloverTargets(clovers)), CollectionRadius)
    ensures r.Some? ==> clovers[r.value].collected
    ensures forall c :: c in clovers && (r.None? || c != clovers[r.value]) ==> c.collected == old(c.collected)
    ensures forall c :: c in clovers ==> c.position == old(c.position) && c.visible == old(c.visible)
  {
    ghost var targets := CloverTargets(clovers);
    for i := 0 to |clovers|
      invariant forall c :: c in clovers ==> c.collected == old(c.collected)
      invariant FirstHit(player, targets, CollectionRadius) == FirstHitFrom(player, targets, CollectionRadius, i)
    {
      var clover := clovers[i];
      if !clover.collected && Within(player, clover.position, CollectionRadius) {
        clover.collected := true;
        return Some(i);
      }
    }
    return None;
  }

  // ---------------------------------------------------------------------
  // Enemies
  // ---------------------------------------------------------------------

  /**
   * `checkEnemyCollisions`: the ant the callback receives, if any lies
   * within the enemy radius; the method's boolean is `r.Some?`.
   */
  function CheckEnemyCollisions(player: Point, enemies: seq<Point>): (r: Option<nat>)
    ensures r.Some? <==> exists i :: 0 <= i < |enemies| && Within(player, enemies[i], EnemyCollisionRadius)
    ensures r.Some? ==> r.value < |enemies| && Within(player, enemies[r.value], EnemyCollisionRadius)
    ensures r.Some? ==> forall j :: 0 <= j < r.value ==> !Within(player, enemies[j], EnemyCollisionRadius)
  {
    var targets := AllTargets(enemies);
    var r := FirstHit(player, targets, EnemyCollisionRadius);
    assert r.None? ==> forall i :: 0 <= i < |enemies| ==> !Hits(player, targets[i], EnemyCollisionRadius);
    r
  }

  /** `checkBeeCollisions`: the same scan with the bee radius. */
  function CheckBeeCollisions(player: Point, bees: seq<Point>): (r: Option<nat>)
    ensures r.Some? <==> exists i :: 0 <= i < |bees| && Within(player, bees[i], BeeCollisionRadius)
    ensures r.Some? ==> r.value < |bees| && Within(player, bees[r.value], BeeCollisionRadius)
    ensures r.Some? ==> forall j :: 0 <= j < r.value ==> !Within(player, bees[j], BeeCollisionRadius)
  {
    var targets := AllTargets(bees);
    var r := FirstHit(player, targets, BeeCollisionRadius);
    assert r.None? ==> forall i :: 0 <= i < |bees| ==> !Hits(player, targets[i], BeeCollisionRadius);
    r
  }

  datatype CrawlerKind = Spider | Slug

  /**
   * `checkNewEnemyCollisions`: both the spider scan and the slug scan run
   * (a crawler without a mesh is `None` and skipped); a spider hit is
   * reported in preference to a slug hit.
   */
  function CheckNewEnemyCollisions(player: Point, spiders: seq<Target>, slugs: seq<Target>): (r: Option<CrawlerKind>)
    ensures r == Some(Spider) <==> exists i :: 0 <= i < |spiders| && Hits(player, spiders[i], CrawlerCollisionRadius)
    ensures r == Some(Slug) <==>
              (forall i :: 0 <= i < |spiders| ==> !Hits(player, spiders[i], CrawlerCollisionRadius))
              && exists i :: 0 <= i < |slugs| && Hits(player, slugs[i], CrawlerCollisionRadius)
  {
    var spiderCollision := FirstHit(player, spiders, CrawlerCollisionRadius);
    var slugCollision := FirstHit(player, slugs, CrawlerCollisionRadius);
    if spiderCollision.Some? then Some(Spider)
    else if slugCollision.Some? then Some(Slug)
    else None
  }

  // ---------------------------------------------------------------------
  // Collectibles
  // ---------------------------------------------------------------------

  /** What the collectibles manager reports for a collected item: its type and variant. */
  datatype Collected = Collected(kind: string, variant: string)

  /** The callback `checkCollectibleCollisions` invokes, with its arguments. */
  datatype Dispatch = OnMushroom(variant: string, time: int) | OnBuddyBug | OnCoin(points: int) | NoCallback

  /**
   * `checkCollectibleCollisions`: the manager's result is returned as it
   * came, and its type selects the callback. Types other than the three
   * known ones invoke nothing.
   */
  function CheckCollectibleCollisions(collected: Option<Collected>, now: int): (r: (Option<Collected>, Dispatch))
    ensures r.0 == collected
    ensures r.1.OnMushroom? <==> collected.Some? && collected.value.kind == "mushroom"
    ensures r.1.OnMushroom? ==> r.1.variant == collected.value.variant && r.1.time == now
    ensures r.1.OnBuddyBug? <==> collected.Some? && collected.value.kind == "buddybug"
    ensures r.1.OnCoin? <==> collected.Some? && collected.value.kind == "coin"
    ensures r.1.OnCoin? ==> r.1.points == CoinPoints
  {
    var dispatch :=
      match collected
      case None => NoCallback
      case Some(item) =>
        if item.kind == "mushroom" then OnMushroom(item.variant, now)
        else if item.kind == "buddybug" then OnBuddyBug
        else if item.kind == "coin" then OnCoin(CoinPoints)
        else NoCallback;
    (collected, dispatch)
  }
}
