/**
 * `getAllBirdsWithEnvironments`: the environments of `createEnvironmentData`
 * flattened, environment by environment in `environmentConfig` key order,
 * into the render list, each bird carrying its computed position, its
 * environment key and the environment itself.
 */
module Assembly {
  import opened Basics
  import opened Catalogue
  import opened Habitats
  import opened Environments
  import opened Layout

  /** One entry of `allBirds`. */
  datatype PlacedBird = PlacedBird(record: HabitatBird, position: Vec3, environment: Habitat, environmentData: Environment)

  /** The random draws the environments `keys` consume, one after another. */
  function DrawsUsed(envs: map<Habitat, Environment>, keys: seq<Habitat>): nat
    requires forall h: Habitat :: h in envs
  {
    if keys == [] then 0
    else
      var env := envs[keys[|keys| - 1]];
      DrawsUsed(envs, keys[..|keys| - 1]) + DrawsPer(PatternOf(env.config.birdPositions)) * |env.birds|
  }

  /** The entries pushed for environment `key`, its positions read from
      draw `start` on. */
  function Block(m: MathLib, envs: map<Habitat, Environment>, key: Habitat, start: nat): seq<PlacedBird>
    requires forall h: Habitat :: h in envs
  {
    var env := envs[key];
    var positions := Positions(m, env.config, |env.birds|, start);
    seq(|env.birds|, j requires 0 <= j < |env.birds| => PlacedBird(env.birds[j], positions[j], key, env))
  }

  /** The entries pushed for the environments `keys`, in order. */
  function PlaceAll(m: MathLib, envs: map<Habitat, Environment>, keys: seq<Habitat>, start: nat): seq<PlacedBird>
    requires forall h: Habitat :: h in envs
  {
    if keys == [] then []
    else
      var init := keys[..|keys| - 1];
      PlaceAll(m, envs, init, start) + Block(m, envs, keys[|keys| - 1], start + DrawsUsed(envs, init))
  }

  /** The number of birds the environments `keys` hold. */
  function Held(envs: map<Habitat, Environment>, keys: seq<Habitat>): nat
    requires forall h: Habitat :: h in envs
  {
    if keys == [] then 0 else Held(envs, keys[..|keys| - 1]) + |envs[keys[|keys| - 1]].birds|
  }

  /** Adding the next key adds that environment's entries, its positions
      read after the draws of the keys before it. */
  lemma PlaceAllStep(m: MathLib, envs: map<Habitat, Environment>, keys: seq<Habitat>, k: nat, start: nat)
    requires forall h: Habitat :: h in envs
    requires k < |keys|
    ensures PlaceAll(m, envs, keys[..k + 1], start) ==
      PlaceAll(m, envs, keys[..k], start) + Block(m, envs, keys[k], start + DrawsUsed(envs, keys[..k]))
    ensures DrawsUsed(envs, keys[..k + 1]) ==
      DrawsUsed(envs, keys[..k]) + DrawsPer(PatternOf(envs[keys[k]].config.birdPositions)) * |envs[keys[k]].birds|
  {
    assert keys[..k + 1][..k] == keys[..k];
  }

  /** `getAllBirdsWithEnvironments(birdFamilies)`, reading the random stream
      from draw `start` on; `next` is the first draw left unread. */
  method GetAllBirdsWithEnvironments(m: MathLib, birdFamilies: seq<Family>, start: nat)
    returns (environments: map<Habitat, Environment>, allBirds: seq<PlacedBird>, next: nat)
    ensures Distributed(environments, Entries(birdFamilies, true))
    ensures allBirds == PlaceAll(m, environments, Keys, start)
    ensures next == start + DrawsUsed(environments, Keys)
  {
    environments := CreateEnvironmentData(birdFamilies, HabitatOf);
    assert forall h: Habitat :: h in environments;
    allBirds, next := PushEnvironments(m, environments, Keys, start);
  }

  /** `Object.keys(environments).forEach(...)`: the environments `keys` in
      order, each pushing its birds' entries. */
  method PushEnvironments(m: MathLib, environments: map<Habitat, Environment>, keys: seq<Habitat>, start: nat)
    returns (allBirds: seq<PlacedBird>, next: nat)
    requires forall h: Habitat :: h in environments
    ensures allBirds == PlaceAll(m, environments, keys, start)
    ensures next == start + DrawsUsed(environments, keys)
  {
    allBirds := [];
    next := start;
    for k := 0 to |keys|
      invariant allBirds == PlaceAll(m, environments, keys[..k], start)
      invariant next == start + DrawsUsed(environments, keys[..k])
    {
      PlaceAllStep(m, environments, keys, k, start);
      allBirds, next := PushEnvironment(m, environments, keys[k], allBirds, next);
    }
    assert keys[..|keys|] == keys;
  }

  /** `Object.keys(environments).forEach(envKey => ...)` for one key: the
      environment's positions, then one entry per bird. */
  method PushEnvironment(m: MathLib, environments: map<Habitat, Environment>, envKey: Habitat,
                         allBirds0: seq<PlacedBird>, start: nat)
    returns (allBirds: seq<PlacedBird>, next: nat)
    requires forall h: Habitat :: h in environments
    ensures allBirds == allBirds0 + Block(m, environments, envKey, start)
    ensures next == start + DrawsPer(PatternOf(environments[envKey].config.birdPositions)) * |environments[envKey].birds|
  {
    var env := environments[envKey];
    ghost var block := Block(m, environments, envKey, start);
    var positions;
    positions, next := CalculateBirdPositions(m, env.config, env.birds, start);
    allBirds := allBirds0;
    for index := 0 to |env.birds|
      invariant allBirds == allBirds0 + block[..index]
    {
      allBirds := allBirds + [PlacedBird(env.birds[index], positions[index], envKey, env)];
    }
    assert block[..|env.birds|] == block;
  }

  /** The entries for `keys` are as many as the birds those environments
      hold; each is one of its environment's birds, filed under a key of
      `keys` with that environment attached; and every bird of every
      environment in `keys` has an entry filed under that environment. */
  lemma {:induction false} PlaceAllMembers(m: MathLib, envs: map<Habitat, Environment>, keys: seq<Habitat>, start: nat)
    requires forall h: Habitat :: h in envs
    ensures |PlaceAll(m, envs, keys, start)| == Held(envs, keys)
    ensures forall p :: p in PlaceAll(m, envs, keys, start) ==>
      p.environment in keys && p.record in envs[p.environment].birds && p.environmentData == envs[p.environment]
    ensures forall h, e :: h in keys && e in envs[h].birds ==>
      exists p :: p in PlaceAll(m, envs, keys, start) && p.record == e && p.environment == h
  {
    if keys != [] {
      var init, last := keys[..|keys| - 1], keys[|keys| - 1];
      PlaceAllMembers(m, envs, init, start);
      var block := Block(m, envs, last, start + DrawsUsed(envs, init));
      var all := PlaceAll(m, envs, keys, start);
      assert all == PlaceAll(m, envs, init, start) + block;
      forall h, e | h in keys && e in envs[h].birds
        ensures exists p :: p in all && p.record == e && p.environment == h
      {
        if h == last {
          var j :| 0 <= j < |envs[h].birds| && envs[h].birds[j] == e;
          assert block[j] in all;
        } else {
          assert h in init;
        }
      }
    }
  }


  /** The environment of `h` holds exactly the records of habitat `h`. */
  lemma EnvironmentMembers(envs: map<Habitat, Environment>, es: seq<HabitatBird>, h: Habitat)
    requires Distributed(envs, es)
    ensures forall e :: e in envs[h].birds <==> e in es && e.habitat == h
  {
    InHabitatMembers(es, h);
  }

  /** The render list has one entry per catalogue bird. */
  lemma RenderCount(m: MathLib, birdFamilies: seq<Family>, envs: map<Habitat, Environment>, start: nat)
    requires Distributed(envs, Entries(birdFamilies, true))
    ensures |PlaceAll(m, envs, Keys, start)| == TotalBirds(birdFamilies)
  {
    PlaceAllMembers(m, envs, Keys, start);
    HeldAll(envs, Entries(birdFamilies, true));
  }

  /** Every entry of the render list is a catalogue record, filed under its
      own habitat's environment with that environment attached. */
  lemma RenderFiled(m: MathLib, birdFamilies: seq<Family>, envs: map<Habitat, Environment>, start: nat)
    requires Distributed(envs, Entries(birdFamilies, true))
    ensures forall p :: p in PlaceAll(m, envs, Keys, start) ==>
      p.record in Entries(birdFamilies, true) && p.environment == p.record.habitat && p.environmentData == envs[p.record.habitat]
  {
    var es := Entries(birdFamilies, true);
    PlaceAllMembers(m, envs, Keys, start);
    forall p | p in PlaceAll(m, envs, Keys, start)
      ensures p.record in es && p.environment == p.record.habitat && p.environmentData == envs[p.record.habitat]
    {
      EnvironmentMembers(envs, es, p.environment);
    }
  }

  /** Every catalogue record has an entry in the render list. */
  lemma RenderCovers(m: MathLib, birdFamilies: seq<Family>, envs: map<Habitat, Environment>, start: nat)
    requires Distributed(envs, Entries(birdFamilies, true))
    ensures forall e :: e in Entries(birdFamilies, true) ==>
      exists p :: p in PlaceAll(m, envs, Keys, start) && p.record == e
  {
    var es := Entries(birdFamilies, true);
    PlaceAllMembers(m, envs, Keys, start);
    forall e | e in es
      ensures exists p :: p in PlaceAll(m, envs, Keys, start) && p.record == e
    {
      KeyOf(e.habitat);
      EnvironmentMembers(envs, es, e.habitat);
      assert e in envs[e.habitat].birds;
    }
  }

  /** The six environments together hold every record once. */
  lemma HeldAll(envs: map<Habitat, Environment>, es: seq<HabitatBird>)
    requires Distributed(envs, es)
    ensures Held(envs, Keys) == |es|
  {
    CountsSum(es);
    var k5, k4, k3, k2, k1 := [Water, Sky, Tree, TreeHigh, Garden], [Water, Sky, Tree, TreeHigh], [Water, Sky, Tree], [Water, Sky], [Water];
    assert Keys[..5] == k5 && k5[..4] == k4 && k4[..3] == k3 && k3[..2] == k2 && k2[..1] == k1 && k1[..0] == [];
    assert Held(envs, k1) == |envs[Water].birds|;
    assert Held(envs, k2) == Held(envs, k1) + |envs[Sky].birds|;
    assert Held(envs, k3) == Held(envs, k2) + |envs[Tree].birds|;
    assert Held(envs, k4) == Held(envs, k3) + |envs[TreeHigh].birds|;
    assert Held(envs, k5) == Held(envs, k4) + |envs[Garden].birds|;
    assert Held(envs, Keys) == Held(envs, k5) + |envs[Ground].birds|;
  }
}
