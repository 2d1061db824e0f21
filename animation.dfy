/**
 * `animateBirds`, `highlightBird` and `resetAllBirds`: per-frame movement
 * of the bird groups by habitat, and the emissive/scale highlight a click
 * toggles.
 */
module Animation {
  import opened Basics
  import opened Habitats
  import opened Layout
  import opened Meshes

  function Abs(v: real): (r: real)
    ensures r >= 0.0 && (r == v || r == -v)
  {
    if v < 0.0 then -v else v
  }

  /** Where one frame at `time` moves the group at `index` of habitat
      `habitat` that stands at `p`. */
  function Animated(m: MathLib, habitat: Habitat, p: Vec3, time: real, index: nat): (q: Vec3)
    ensures q.z == p.z
    ensures habitat != Sky ==> q.x == p.x
    ensures habitat == TreeHigh || habitat == Garden ==> q == p
    ensures habitat == Ground ==> q.y >= p.y
  {
    match habitat
    case Water => p.(y := p.y + m.sin(time * 0.8 + index as real) * 0.003)
    case Sky => p.(y := p.y + m.sin(time * 0.3 + index as real) * 0.004, x := p.x + m.cos(time * 0.2 + index as real) * 0.002)
    case Tree => p.(y := p.y + m.sin(time * 1.2 + index as real) * 0.001)
    case TreeHigh => p
    case Garden => p
    case Ground => p.(y := p.y + Abs(m.sin(time * 2.0 + index as real)) * 0.002)
  }

  /** A frame moves by an amount that does not depend on where the group
      stands, so a second frame at the same time moves it as far again. */
  lemma AnimatedTwice(m: MathLib, habitat: Habitat, p: Vec3, time: real, index: nat)
    ensures var q := Animated(m, habitat, p, time, index);
      var r := Animated(m, habitat, q, time, index);
      r.x - p.x == 2.0 * (q.x - p.x) && r.y - p.y == 2.0 * (q.y - p.y) && r.z == p.z
  {
  }

  /** No two entries of the list are the same group. */
  predicate Distinct(birdMeshes: seq<BirdGroup>)
  {
    forall i, j :: 0 <= i < j < |birdMeshes| ==> birdMeshes[i] != birdMeshes[j]
  }

  /** `animateBirds(birdMeshes, time)`: the group at `index` takes one frame
      of its habitat's movement; nothing but positions changes. */
  method AnimateBirds(m: MathLib, birdMeshes: seq<BirdGroup>, time: real)
    requires Distinct(birdMeshes)
    modifies (set g | g in birdMeshes)`position
    ensures forall i :: 0 <= i < |birdMeshes| ==>
      birdMeshes[i].position == Animated(m, birdMeshes[i].userData.record.habitat, old(birdMeshes[i].position), time, i)
  {
    for index := 0 to |birdMeshes|
      invariant forall i :: 0 <= i < index ==>
        birdMeshes[i].position == Animated(m, birdMeshes[i].userData.record.habitat, old(birdMeshes[i].position), time, i)
      invariant forall i :: index <= i < |birdMeshes| ==> birdMeshes[i].position == old(birdMeshes[i].position)
    {
      AnimateBird(m, birdMeshes[index], time, index);
    }
  }

  /** The body of the `forEach` in `animateBirds`, for the group at `index`. */
  method AnimateBird(m: MathLib, bird: BirdGroup, time: real, index: nat)
    modifies bird`position
    ensures bird.position == Animated(m, bird.userData.record.habitat, old(bird.position), time, index)
  {
    var t := index as real;
    match bird.userData.record.habitat
    case Water =>
      bird.position := bird.position.(y := bird.position.y + m.sin(time * 0.8 + t) * 0.003);
    case Sky =>
      bird.position := bird.position.(y := bird.position.y + m.sin(time * 0.3 + t) * 0.004);
      bird.position := bird.position.(x := bird.position.x + m.cos(time * 0.2 + t) * 0.002);
    case Tree =>
      bird.position := bird.position.(y := bird.position.y + m.sin(time * 1.2 + t) * 0.001);
    case TreeHigh =>
    case Garden =>
    case Ground =>
      bird.position := bird.position.(y := bird.position.y + Abs(m.sin(time * 2.0 + t)) * 0.002);
  }

  /** `emissiveColor` of `highlightBird`. */
  function EmissiveOf(isHighlighted: bool): int
  {
    if isHighlighted then 0x444444 else 0x000000
  }

  /** `scale` of `highlightBird`. */
  function ScaleOf(isHighlighted: bool): real
  {
    if isHighlighted then 1.3 else 1.0
  }

  /** Every hit-testable part of `g` glows with the emissive colour, and the
      group has the scale, of a highlighted (or plain) bird. */
  predicate Shows(g: BirdGroup, isHighlighted: bool)
    reads g, set p | p in g.allParts :: p.material
  {
    g.scale == ScaleOf(isHighlighted) &&
    forall p :: p in g.allParts ==> p.material.emissive == EmissiveOf(isHighlighted)
  }

  /** For a well-formed group, how it shows is a matter of its scale and its
      one body material. */
  lemma ShowsOf(g: BirdGroup, isHighlighted: bool)
    requires g.Valid()
    ensures Shows(g, isHighlighted) <==>
      g.scale == ScaleOf(isHighlighted) && g.birdMaterial.emissive == EmissiveOf(isHighlighted)
  {
    assert g.body in g.allParts;
  }

  /** A highlighted bird is enlarged and glows; a plain one has neither. */
  lemma HighlightVisible(g: BirdGroup)
    requires g.Valid()
    ensures Shows(g, true) ==> !Shows(g, false)
    ensures Shows(g, true) ==> g.scale > 1.0 && g.birdMaterial.emissive != 0
  {
    assert g.body in g.allParts;
  }

  /** `highlightBird(birdGroup, isHighlighted)`: every part of `allParts`
      takes the emissive colour and the group the scale; the beak, which is
      not among them, and the position are left alone. */
  method HighlightBird(birdGroup: BirdGroup, isHighlighted: bool)
    requires birdGroup.Valid()
    modifies birdGroup`scale, birdGroup.birdMaterial`emissive
    ensures Shows(birdGroup, isHighlighted)
    ensures birdGroup.birdMaterial.emissive == EmissiveOf(isHighlighted)
  {
    var emissiveColor := if isHighlighted then 0x444444 else 0x000000;
    var scale := if isHighlighted then 1.3 else 1.0;
    var parts := birdGroup.allParts;
    for k := 0 to |parts|
      invariant forall j :: 0 <= j < k ==> parts[j].material.emissive == emissiveColor
    {
      assert parts[k] in birdGroup.allParts;
      parts[k].material.emissive := emissiveColor;
    }
    birdGroup.scale := scale;
    assert birdGroup.body == parts[0];
  }

  /** `resetAllBirds(birdMeshes)`: every group is shown plain; only scales
      and body materials change. */
  method ResetAllBirds(birdMeshes: seq<BirdGroup>)
    requires forall i :: 0 <= i < |birdMeshes| ==> birdMeshes[i].Valid()
    modifies (set g | g in birdMeshes)`scale, (set g | g in birdMeshes :: g.birdMaterial)`emissive
    ensures forall i :: 0 <= i < |birdMeshes| ==> Shows(birdMeshes[i], false)
    ensures forall i :: 0 <= i < |birdMeshes| ==> birdMeshes[i].scale == 1.0 && birdMeshes[i].birdMaterial.emissive == 0
  {
    for k := 0 to |birdMeshes|
      invariant forall i :: 0 <= i < k ==> birdMeshes[i].scale == 1.0 && birdMeshes[i].birdMaterial.emissive == 0
    {
      HighlightBird(birdMeshes[k], false);
    }
    forall i | 0 <= i < |birdMeshes|
      ensures Shows(birdMeshes[i], false)
    {
      assert forall p :: p in birdMeshes[i].allParts ==> p.material == birdMeshes[i].birdMaterial;
    }
  }
}
