/**
 * Particle bookkeeping (`src/particles.js`): particle groups with a
 * capacity, the manager that drops groups once they are empty, and the
 * ripple manager with its eviction of the oldest ripple.
 *
 * Only the quantities that decide which particles and ripples live are
 * modelled (lifetime, alpha, fade rate; age, duration). Positions,
 * velocities, colours, meshes and the scene are left out.
 */
module Particles {
  import opened Wrappers

  const DefaultMaxParticles := 200
  const MaxGroups := 50
  const MaxRipples := 20
  const DefaultRippleRadius: real := 3.0
  const DefaultRippleDuration: real := 1.5

  // ---------------------------------------------------------------------
  // Particles
  // ---------------------------------------------------------------------

  datatype Particle = Particle(lifetime: real, alpha: real, fadeRate: real)

  /** The options of `addParticle` that matter here; `None` is an option left out. */
  datatype ParticleConfig = ParticleConfig(lifetime: Option<real>, fadeRate: Option<real>)

  /** `config.x || default`: a missing or zero value takes the default. */
  function OrDefault(x: Option<real>, default: real): (r: real)
    ensures x.Some? && x.value != 0.0 ==> r == x.value
    ensures x.None? || x.value == 0.0 ==> r == default
  {
    if x.Some? && x.value != 0.0 then x.value else default
  }

  /** A new particle is fully opaque; lifetime and fade rate default to 1. */
  function NewParticle(config: ParticleConfig): (p: Particle)
    ensures p.alpha == 1.0
    ensures p.lifetime == OrDefault(config.lifetime, 1.0) && p.fadeRate == OrDefault(config.fadeRate, 1.0)
  {
    Particle(OrDefault(config.lifetime, 1.0), 1.0, OrDefault(config.fadeRate, 1.0))
  }

  /** One step of `update` for one particle: it ages and fades. */
  function StepParticle(p: Particle, deltaTime: real): Particle {
    p.(lifetime := p.lifetime - deltaTime, alpha := p.alpha - p.fadeRate * deltaTime)
  }

  predicate Dead(p: Particle) {
    p.lifetime <= 0.0 || p.alpha <= 0.0
  }

  /** The particles that survive one step, stepped, in their original order. */
  function Survivors(ps: seq<Particle>, deltaTime: real): (r: seq<Particle>)
    ensures |r| <= |ps|
  {
    if ps == [] then []
    else
      var q := StepParticle(ps[0], deltaTime);
      (if Dead(q) then [] else [q]) + Survivors(ps[1..], deltaTime)
  }

  /** Exactly the particles that are alive after their step survive it. */
  lemma {:induction false} SurvivorsAreTheLiving(ps: seq<Particle>, deltaTime: real)
    ensures forall q :: q in Survivors(ps, deltaTime) ==> !Dead(q)
    ensures forall p :: p in ps && !Dead(StepParticle(p, deltaTime)) ==> StepParticle(p, deltaTime) in Survivors(ps, deltaTime)
    ensures forall q :: q in Survivors(ps, deltaTime) ==> exists p :: p in ps && q == StepParticle(p, deltaTime)
  {
    if ps != [] {
      SurvivorsAreTheLiving(ps[1..], deltaTime);
      assert ps == [ps[0]] + ps[1..];
    }
  }

  /**
   * One step of the backward loop of `update`: with the particles before
   * index `i + 1` untouched and the rest already filtered, stepping (and
   * splicing out, if it is dead) the particle at `i` extends the filtered part.
   */
  lemma SurvivorsSplice(start: seq<Particle>, i: nat, deltaTime: real)
    requires i < |start|
    ensures var current := start[..i + 1] + Survivors(start[i + 1..], deltaTime);
            var p := StepParticle(current[i], deltaTime);
            (if Dead(p) then current[..i] + current[i + 1..] else current[i := p])
            == start[..i] + Survivors(start[i..], deltaTime)
  {
    var rest := Survivors(start[i + 1..], deltaTime);
    var current := start[..i + 1] + rest;
    assert current[i] == start[i];
    assert current[..i] == start[..i];
    assert current[i + 1..] == rest;
    assert start[i..][1..] == start[i + 1..];
    var p := StepParticle(start[i], deltaTime);
    if !Dead(p) {
      assert current[i := p] == start[..i] + [p] + rest;
    }
  }

  /** Survivors of two runs are the survivors of each, concatenated: no particle's fate depends on another. */
  lemma {:induction false} SurvivorsAppend(a: seq<Particle>, b: seq<Particle>, deltaTime: real)
    ensures Survivors(a + b, deltaTime) == Survivors(a, deltaTime) + Survivors(b, deltaTime)
  {
    if a == [] {
      assert a + b == b;
    } else {
      assert (a + b)[1..] == a[1..] + b;
      SurvivorsAppend(a[1..], b, deltaTime);
    }
  }

  /** With no time passing, exactly the particles that are already dead go. */
  lemma {:induction false} NoTimeOnlyDeadGo(ps: seq<Particle>)
    ensures forall q :: q in Survivors(ps, 0.0) <==> q in ps && !Dead(q)
  {
    if ps != [] {
      NoTimeOnlyDeadGo(ps[1..]);
      assert StepParticle(ps[0], 0.0) == ps[0];
      assert ps == [ps[0]] + ps[1..];
    }
  }

  class ParticleGroup {
    var particles: seq<Particle>
    const maxParticles: int

    /** Never more particles than the capacity (none at all for a negative capacity). */
    ghost predicate Valid()
      reads this
    {
      |particles| <= if maxParticles < 0 then 0 else maxParticles
    }

    /** An empty group; a missing capacity defaults to 200. */
    constructor(capacity: Option<int>)
      ensures Valid() && particles == []
      ensures maxParticles == if capacity.Some? then capacity.value else DefaultMaxParticles
    {
      particles := [];
      maxParticles := if capacity.Some? then capacity.value else DefaultMaxParticles;
    }

    /** `addParticle`: a full group refuses; otherwise exactly one new particle is appended and returned. */
    method AddParticle(config: ParticleConfig) returns (r: Option<Particle>)
      requires Valid()
      modifies this`particles
      ensures Valid()
      ensures r.None? <==> |old(particles)| >= maxParticles
      ensures r.None? ==> particles == old(particles)
      ensures r.Some? ==> r.value == NewParticle(config) && particles == old(particles) + [r.value]
    {
      if |particles| >= maxParticles {
        return None;
      }
      var particle := Particle(OrDefault(config.lifetime, 1.0), 1.0, OrDefault(config.fadeRate, 1.0));
      particles := particles + [particle];
      return Some(particle);
    }

    /**
     * `update`: every particle ages and fades, walking from the back and
     * splicing out each one that is then dead; the survivors keep their order.
     */
    method Update(deltaTime: real)
      requires Valid()
      modifies this`particles
      ensures Valid()
      ensures particles == Survivors(old(particles), deltaTime)
    {
      ghost var start := particles;
      var i := |particles|;
      while i > 0
        invariant 0 <= i <= |start|
        invariant particles == start[..i] + Survivors(start[i..], deltaTime)
      {
        i := i - 1;
        SurvivorsSplice(start, i, deltaTime);
        var p := StepParticle(particles[i], deltaTime);
        if Dead(p) {
          particles := particles[..i] + particles[i + 1..];
        } else {
          particles := particles[i := p];
        }
      }
      assert start[0..] == start;
    }

    /** `isEmpty`. */
    function IsEmpty(): (r: bool)
      reads this
      ensures r <==> |particles| == 0
    {
      |particles| == 0
    }
  }

  // ---------------------------------------------------------------------
  // The effects manager
  // ---------------------------------------------------------------------

  /** The groups of `groups` whose particles, given in `before`, leave survivors after the step. */
  function LiveGroups(groups: seq<ParticleGroup>, before: seq<seq<Particle>>, deltaTime: real): (r: seq<ParticleGroup>)
    requires |before| == |groups|
    ensures |r| <= |groups|
  {
    if groups == [] then []
    else
      (if Survivors(before[0], deltaTime) == [] then [] else [groups[0]])
      + LiveGroups(groups[1..], before[1..], deltaTime)
  }

  /** One step of the backward loop of the manager's `update`, as for particles. */
  lemma GroupsSplice(groups: seq<ParticleGroup>, before: seq<seq<Particle>>, i: nat, deltaTime: real)
    requires |before| == |groups| && i < |groups|
    ensures var current := groups[..i + 1] + LiveGroups(groups[i + 1..], before[i + 1..], deltaTime);
            && current[i] == groups[i]
            && (if Survivors(before[i], deltaTime) == [] then current[..i] + current[i + 1..] else current)
               == groups[..i] + LiveGroups(groups[i..], before[i..], deltaTime)
  {
    var rest := LiveGroups(groups[i + 1..], before[i + 1..], deltaTime);
    var current := groups[..i + 1] + rest;
    assert current[i] == groups[i];
    assert current[..i] == groups[..i];
    assert current[i + 1..] == rest;
    assert groups[i..][1..] == groups[i + 1..];
    assert before[i..][1..] == before[i + 1..];
  }

  /**
   * A group is kept exactly when its updated particles are not all gone
   * (the converse needs each group to be listed once, as the manager keeps it).
   */
  lemma {:induction false} LiveGroupsKeepsNonEmpty(groups: seq<ParticleGroup>, before: seq<seq<Particle>>, deltaTime: real)
    requires |before| == |groups|
    ensures forall g :: g in LiveGroups(groups, before, deltaTime) ==> g in groups
    ensures forall i :: 0 <= i < |groups| && Survivors(before[i], deltaTime) != [] ==>
              groups[i] in LiveGroups(groups, before, deltaTime)
    ensures Distinct(groups) ==>
              forall i :: 0 <= i < |groups| && groups[i] in LiveGroups(groups, before, deltaTime) ==>
                Survivors(before[i], deltaTime) != []
  {
    if groups != [] {
      LiveGroupsKeepsNonEmpty(groups[1..], before[1..], deltaTime);
      var rest := LiveGroups(groups[1..], before[1..], deltaTime);
      forall i | 1 <= i < |groups| && Survivors(before[i], deltaTime) != []
        ensures groups[i] in LiveGroups(groups, before, deltaTime)
      {
        assert groups[1..][i - 1] == groups[i] && before[1..][i - 1] == before[i];
      }
      if Distinct(groups) {
        DistinctTail(groups);
        forall i | 0 <= i < |groups| && groups[i] in LiveGroups(groups, before, deltaTime)
          ensures Survivors(before[i], deltaTime) != []
        {
          if i == 0 {
            assert groups[0] !in rest;
          } else {
            assert groups[i] != groups[0];
            assert groups[1..][i - 1] == groups[i] && before[1..][i - 1] == before[i];
          }
        }
      }
    }
  }

  /** In a list without repeats, a group is kept exactly when its particles after the step are not all gone. */
  lemma KeptIffNonEmpty(groups: seq<ParticleGroup>, before: seq<seq<Particle>>, after: seq<seq<Particle>>, deltaTime: real)
    requires |before| == |groups| == |after| && Distinct(groups)
    requires forall j :: 0 <= j < |after| ==> after[j] == Survivors(before[j], deltaTime)
    ensures forall k :: 0 <= k < |groups| ==> (groups[k] in LiveGroups(groups, before, deltaTime) <==> after[k] != [])
  {
    LiveGroupsKeepsNonEmpty(groups, before, deltaTime);
  }

  /** The tail of a list without repeats has none, and does not hold the head. */
  lemma DistinctTail(groups: seq<ParticleGroup>)
    requires groups != [] && Distinct(groups)
    ensures Distinct(groups[1..]) && groups[0] !in groups[1..]
  {
    forall i, j | 0 <= i < j < |groups[1..]|
      ensures groups[1..][i] != groups[1..][j]
    {
      assert groups[1..][i] == groups[i + 1] && groups[1..][j] == groups[j + 1];
    }
    forall k | 0 <= k < |groups[1..]|
      ensures groups[1..][k] != groups[0]
    {
      assert groups[1..][k] == groups[k + 1];
    }
  }

  /** Whether a group is kept depends on its own particles only, so the kept groups keep their order. */
  lemma {:induction false} LiveGroupsAppend(a: seq<ParticleGroup>, pa: seq<seq<Particle>>,
                                            b: seq<ParticleGroup>, pb: seq<seq<Particle>>, deltaTime: real)
    requires |pa| == |a| && |pb| == |b|
    ensures LiveGroups(a + b, pa + pb, deltaTime) == LiveGroups(a, pa, deltaTime) + LiveGroups(b, pb, deltaTime)
  {
    if a == [] {
      assert a + b == b && pa + pb == pb;
    } else {
      assert (a + b)[1..] == a[1..] + b && (pa + pb)[1..] == pa[1..] + pb;
      LiveGroupsAppend(a[1..], pa[1..], b, pb, deltaTime);
    }
  }

  /** The groups kept are a part of a list without repeats, so they have none either. */
  lemma {:induction false} LiveGroupsDistinct(groups: seq<ParticleGroup>, before: seq<seq<Particle>>, deltaTime: real)
    requires |before| == |groups| && Distinct(groups)
    ensures Distinct(LiveGroups(groups, before, deltaTime))
  {
    if groups != [] {
      DistinctTail(groups);
      LiveGroupsDistinct(groups[1..], before[1..], deltaTime);
      LiveGroupsKeepsNonEmpty(groups[1..], before[1..], deltaTime);
      var rest := LiveGroups(groups[1..], before[1..], deltaTime);
      assert groups[0] !in rest;
      var r := LiveGroups(groups, before, deltaTime);
      if Survivors(before[0], deltaTime) != [] {
        assert r == [groups[0]] + rest;
        forall i, j | 0 <= i < j < |r|
          ensures r[i] != r[j]
        {
          if i == 0 {
            assert r[j] == rest[j - 1];
          } else {
            assert r[i] == rest[i - 1] && r[j] == rest[j - 1];
          }
        }
      }
    }
  }

  /** No group appears twice in the list. */
  predicate Distinct(groups: seq<ParticleGroup>) {
    forall i, j :: 0 <= i < j < |groups| ==> groups[i] != groups[j]
  }

  /** The particles of each group, as values. */
  function ParticlesOf(groups: seq<ParticleGroup>): (r: seq<seq<Particle>>)
    reads set g | g in groups
    ensures |r| == |groups|
    ensures forall i :: 0 <= i < |groups| ==> r[i] == groups[i].particles
  {
    if groups == [] then [] else [groups[0].particles] + ParticlesOf(groups[1..])
  }

  class ParticleEffectsManager {
    var particleGroups: seq<ParticleGroup>

    /** Each group is in the list once (every group is pushed once, when it is created). */
    ghost predicate Valid()
      reads this
    {
      Distinct(particleGroups)
    }

    constructor()
      ensures Valid() && particleGroups == []
    {
      particleGroups := [];
    }

    /**
     * The bookkeeping shared by the `create...` effects: a new group is
     * pushed at the end. The cap of 50 groups is never enforced.
     */
    method AddGroup(capacity: Option<int>) returns (group: ParticleGroup)
      requires Valid()
      modifies this`particleGroups
      ensures Valid() && fresh(group) && group.Valid() && group.particles == []
      ensures particleGroups == old(particleGroups) + [group]
    {
      group := new ParticleGroup(capacity);
      particleGroups := particleGroups + [group];
    }

    /**
     * `update`: each group, from the back, is updated and spliced out if it
     * is then empty. Exactly the groups left without particles go; the
     * others keep their order.
     */
    method Update(deltaTime: real)
      requires Valid()
      requires forall g :: g in particleGroups ==> g.Valid()
      modifies this`particleGroups, set g | g in particleGroups
      ensures Valid()
      ensures particleGroups == LiveGroups(old(particleGroups), old(ParticlesOf(particleGroups)), deltaTime)
      ensures forall g :: g in old(particleGroups) ==> g.particles == Survivors(old(g.particles), deltaTime)
      ensures forall k :: 0 <= k < |old(particleGroups)| ==>
                (old(particleGroups)[k] in particleGroups <==> old(particleGroups)[k].particles != [])
    {
      ghost var groups := particleGroups;
      ghost var before := ParticlesOf(groups);
      ghost var after := seq(|before|, j requires 0 <= j < |before| => Survivors(before[j], deltaTime));
      var i := |particleGroups|;
      while i > 0
        invariant 0 <= i <= |groups|
        invariant UpdatedFrom(i, groups, before, after, deltaTime)
      {
        i := i - 1;
        UpdateGroupAt(i, deltaTime, groups, before, after);
      }
      assert groups[0..] == groups && before[0..] == before;
      LiveGroupsDistinct(groups, before, deltaTime);
      KeptIffNonEmpty(groups, before, after, deltaTime);
    }

    /**
     * The state of `update`'s backward loop at index `i`: the groups from
     * `i` on are updated and the empty ones among them spliced out; the
     * groups before `i` are untouched.
     */
    ghost predicate UpdatedFrom(i: nat, groups: seq<ParticleGroup>, before: seq<seq<Particle>>,
                                after: seq<seq<Particle>>, deltaTime: real)
      reads this, set g | g in groups
    {
      && i <= |groups| == |before| == |after|
      && particleGroups == groups[..i] + LiveGroups(groups[i..], before[i..], deltaTime)
      && (forall j :: 0 <= j < |groups| ==> groups[j].Valid())
      && (forall j :: 0 <= j < |groups| ==> groups[j].particles == if j < i then before[j] else after[j])
      && Distinct(groups)
    }

    /** One iteration of `update`'s loop: the group at `i` is updated, and spliced out if it is then empty. */
    method UpdateGroupAt(i: nat, deltaTime: real, ghost groups: seq<ParticleGroup>,
                         ghost before: seq<seq<Particle>>, ghost after: seq<seq<Particle>>)
      requires i < |groups| && UpdatedFrom(i + 1, groups, before, after, deltaTime)
      requires forall j :: 0 <= j < |after| ==> after[j] == Survivors(before[j], deltaTime)
      modifies this`particleGroups, groups[i]
      ensures UpdatedFrom(i, groups, before, after, deltaTime)
    {
      GroupsSplice(groups, before, i, deltaTime);
      var group := particleGroups[i];
      label Before:
      group.Update(deltaTime);
      forall j | 0 <= j < |groups|
        ensures j != i ==> groups[j].particles == old@Before(groups[j].particles)
      {
        if j != i {
          assert groups[j] != group;
        }
      }
      assert group.particles == after[i];
      if group.IsEmpty() {
        particleGroups := particleGroups[..i] + particleGroups[i + 1..];
      }
    }

    /** `removeAll`. */
    method RemoveAll()
      modifies this`particleGroups
      ensures Valid() && particleGroups == []
    {
      particleGroups := [];
    }
  }

  // ---------------------------------------------------------------------
  // Ripples
  // ---------------------------------------------------------------------

  datatype Ripple = Ripple(age: real, duration: real, maxRadius: real)

  /**
   * `age / duration >= 1` with JavaScript's division: a zero duration gives
   * an infinite ratio for a positive age and NaN (never finished) at age 0;
   * a negative duration flips the comparison.
   */
  predicate Finished(age: real, duration: real) {
    if duration > 0.0 then age >= duration
    else if duration < 0.0 then age <= duration
    else age > 0.0
  }

  /** For a non-zero duration, finished is exactly a progress of at least 1. */
  lemma FinishedIsFullProgress(age: real, duration: real)
    requires duration != 0.0
    ensures Finished(age, duration) <==> age / duration >= 1.0
  {
    var q := age / duration;
    assert q * duration == age;
    if duration > 0.0 {
      if q >= 1.0 {
        MulMonotone(1.0, q, duration);
      } else {
        MulMonotone(q, 1.0, duration);
      }
    } else {
      if q >= 1.0 {
        MulMonotone(1.0, q, -duration);
      } else {
        MulMonotone(q, 1.0, -duration);
      }
    }
  }

  lemma MulMonotone(a: real, b: real, c: real)
    requires a <= b && c > 0.0
    ensures a * c <= b * c
    ensures a < b ==> a * c < b * c
  {
  }

  function AgeRipple(r: Ripple, deltaTime: real): Ripple {
    r.(age := r.age + deltaTime)
  }

  /** The ripples still running after one step, aged, in their original order. */
  function RunningRipples(rs: seq<Ripple>, deltaTime: real): (r: seq<Ripple>)
    ensures |r| <= |rs|
    ensures forall q :: q in r ==> !Finished(q.age, q.duration)
  {
    if rs == [] then []
    else
      var q := AgeRipple(rs[0], deltaTime);
      (if Finished(q.age, q.duration) then [] else [q]) + RunningRipples(rs[1..], deltaTime)
  }

  /** Exactly the ripples still running once aged are kept, and each kept one is an aged original. */
  lemma {:induction false} RunningRipplesAreTheLive(rs: seq<Ripple>, deltaTime: real)
    ensures forall q :: q in rs && !Finished(AgeRipple(q, deltaTime).age, AgeRipple(q, deltaTime).duration) ==>
              AgeRipple(q, deltaTime) in RunningRipples(rs, deltaTime)
    ensures forall q :: q in RunningRipples(rs, deltaTime) ==> exists p :: p in rs && q == AgeRipple(p, deltaTime)
  {
    if rs != [] {
      RunningRipplesAreTheLive(rs[1..], deltaTime);
      assert rs == [rs[0]] + rs[1..];
    }
  }

  /** Whether a ripple is kept depends on that ripple only, so the kept ones keep their order. */
  lemma {:induction false} RunningRipplesAppend(a: seq<Ripple>, b: seq<Ripple>, deltaTime: real)
    ensures RunningRipples(a + b, deltaTime) == RunningRipples(a, deltaTime) + RunningRipples(b, deltaTime)
  {
    if a == [] {
      assert a + b == b;
    } else {
      assert (a + b)[1..] == a[1..] + b;
      RunningRipplesAppend(a[1..], b, deltaTime);
    }
  }

  /** One step of the backward loop of the ripple `update`, as for particles. */
  lemma RipplesSplice(start: seq<Ripple>, i: nat, deltaTime: real)
    requires i < |start|
    ensures var current := start[..i + 1] + RunningRipples(start[i + 1..], deltaTime);
            var q := AgeRipple(current[i], deltaTime);
            (if Finished(q.age, q.duration) then current[..i] + current[i + 1..] else current[i := q])
            == start[..i] + RunningRipples(start[i..], deltaTime)
  {
    var rest := RunningRipples(start[i + 1..], deltaTime);
    var current := start[..i + 1] + rest;
    assert current[i] == start[i];
    assert current[..i] == start[..i];
    assert current[i + 1..] == rest;
    assert start[i..][1..] == start[i + 1..];
    var q := AgeRipple(start[i], deltaTime);
    if !Finished(q.age, q.duration) {
      assert current[i := q] == start[..i] + [q] + rest;
    }
  }

  /** After the newest ripple is created it is the last one, and nothing was dropped but the oldest. */
  function WithNewRipple(rs: seq<Ripple>, ripple: Ripple): (r: seq<Ripple>)
    ensures |rs| <= MaxRipples ==> |r| <= MaxRipples
    ensures r != [] && r[|r| - 1] == ripple
    ensures |rs| < MaxRipples ==> r[..|r| - 1] == rs
    ensures |rs| >= MaxRipples ==> r[..|r| - 1] == rs[1..]
  {
    (if |rs| >= MaxRipples then rs[1..] else rs) + [ripple]
  }

  class RippleManager {
    var ripples: seq<Ripple>

    ghost predicate Valid()
      reads this
    {
      |ripples| <= MaxRipples
    }

    constructor()
      ensures Valid() && ripples == []
    {
      ripples := [];
    }

    /** `createRipple`: at the cap the oldest ripple is evicted first; the new one goes last. */
    method CreateRipple(maxRadius: Option<real>, duration: Option<real>) returns (ripple: Ripple)
      requires Valid()
      modifies this`ripples
      ensures Valid()
      ensures ripple == Ripple(0.0, if duration.Some? then duration.value else DefaultRippleDuration,
                               if maxRadius.Some? then maxRadius.value else DefaultRippleRadius)
      ensures ripples == WithNewRipple(old(ripples), ripple)
    {
      if |ripples| >= MaxRipples {
        ripples := ripples[1..];
      }
      ripple := Ripple(0.0, if duration.Some? then duration.value else DefaultRippleDuration,
                       if maxRadius.Some? then maxRadius.value else DefaultRippleRadius);
      ripples := ripples + [ripple];
    }

    /** `update`: every ripple ages; from the back, the finished ones are spliced out. */
    method Update(deltaTime: real)
      requires Valid()
      modifies this`ripples
      ensures Valid()
      ensures ripples == RunningRipples(old(ripples), deltaTime)
    {
      ghost var start := ripples;
      var i := |ripples|;
      while i > 0
        invariant 0 <= i <= |start|
        invariant ripples == start[..i] + RunningRipples(start[i..], deltaTime)
      {
        i := i - 1;
        RipplesSplice(start, i, deltaTime);
        var ripple := AgeRipple(ripples[i], deltaTime);
        if Finished(ripple.age, ripple.duration) {
          ripples := ripples[..i] + ripples[i + 1..];
        } else {
          ripples := ripples[i := ripple];
        }
      }
      assert start[0..] == start;
    }

    /** `removeAll`. */
    method RemoveAll()
      modifies this`ripples
      ensures Valid() && ripples == []
    {
      ripples := [];
    }
  }
}
