/**
 * `createBirdMesh`, reduced to what hit-testing, highlighting and animation
 * depend on: the size lookup, the parts and their offsets, the shared body
 * material, the `allParts` list, the group's position and its `userData`.
 * Geometry, shading and shadows are three.js's business and are not
 * modelled; a part is its material and its offset within the group.
 */
module Meshes {
  import opened Basics
  import opened Catalogue
  import opened Habitats
  import opened Environments
  import opened Layout
  import opened Assembly

  /** A colour as three.js receives it: a CSS string or a hex number. */
  datatype Colour = Css(text: string) | Hex(value: int)

  /** A `MeshPhongMaterial`: its colour, and the emissive colour that
      highlighting changes. */
  class Material {
    const color: Option<Colour>
    var emissive: int

    constructor (color: Option<Colour>)
      ensures this.color == color && emissive == 0
    {
      this.color := color;
      emissive := 0;
    }
  }

  /** A `Mesh` of the bird: its material, and its offset within the group. */
  class Part {
    const material: Material
    const offset: Vec3

    constructor (material: Material, offset: Vec3)
      ensures this.material == material && this.offset == offset
    {
      this.material := material;
      this.offset := offset;
    }
  }

  /** The keys of `sizeMap`. */
  const SizeNames: set<string> := {"TINY", "SMALL", "MEDIUM", "LARGE"}

  /** `sizeMap[birdData.size] || 0.5`. */
  function SizeOf(size: string): (s: real)
    ensures size !in SizeNames ==> s == 0.5
    ensures 0.3 <= s <= 1.1
  {
    if size == "TINY" then 0.3
    else if size == "SMALL" then 0.5
    else if size == "MEDIUM" then 0.8
    else if size == "LARGE" then 1.1
    else 0.5
  }

  /** The known sizes grow strictly, and an unknown size is as small as
      `SMALL`. */
  lemma SizesIncrease(other: string)
    requires other !in SizeNames
    ensures SizeOf("TINY") < SizeOf("SMALL") < SizeOf("MEDIUM") < SizeOf("LARGE")
    ensures SizeOf(other) == SizeOf("SMALL")
  {
  }

  function HeadOffset(s: real): Vec3 { Vec3(s * 0.8, s * 0.3, 0.0) }
  function BeakOffset(s: real): Vec3 { Vec3(s * 1.2, s * 0.3, 0.0) }
  function LeftWingOffset(s: real): Vec3 { Vec3(-s * 0.2, 0.0, s * 0.6) }
  function RightWingOffset(s: real): Vec3 { Vec3(-s * 0.2, 0.0, -s * 0.6) }
  function TailOffset(s: real): Vec3 { Vec3(-s * 1.1, 0.0, 0.0) }

  /** The wings are mirror images across the bird's length, the beak sits
      in front of the head and the tail behind the body, for any positive
      size. */
  lemma PartsArranged(s: real)
    requires s > 0.0
    ensures LeftWingOffset(s).x == RightWingOffset(s).x && LeftWingOffset(s).y == RightWingOffset(s).y
    ensures LeftWingOffset(s).z == -RightWingOffset(s).z > 0.0
    ensures TailOffset(s).x < 0.0 < HeadOffset(s).x < BeakOffset(s).x
    ensures HeadOffset(s).y == BeakOffset(s).y
  {
  }

  /** `birdData.familyColor || birdData.environmentColor`: an empty string
      is falsy, and so the right-hand side is taken. */
  function BodyColour(familyColor: Option<string>, environmentColor: Option<int>): Option<Colour>
  {
    if familyColor.Some? && familyColor.value != "" then Some(Css(familyColor.value))
    else if environmentColor.Some? then Some(Hex(environmentColor.value))
    else None
  }

  /** Every render-list entry's body takes the colour of the environment
      it is placed in: entries carry no `familyColor`, and the environment
      colour `createEnvironmentData` gives each record is its own habitat's. */
  lemma RenderedBodyColour(m: MathLib, birdFamilies: seq<Family>, envs: map<Habitat, Environment>, start: nat)
    requires Distributed(envs, Entries(birdFamilies, true))
    ensures forall p :: p in PlaceAll(m, envs, Keys, start) ==>
      BodyColour(None, p.record.environmentColor) == Some(Hex(p.environmentData.config.color))
  {
    RenderFiled(m, birdFamilies, envs, start);
    ColouredEntries(birdFamilies);
  }

  /** The `THREE.Group` `createBirdMesh` returns. */
  class BirdGroup {
    const birdMaterial: Material
    const beakMaterial: Material
    const body: Part
    const head: Part
    const beak: Part
    const leftWing: Part
    const rightWing: Part
    const tail: Part
    /** `birdGroup.allParts`: the parts hit-testing and highlighting see. */
    const allParts: seq<Part>
    const userData: PlacedBird
    var position: Vec3
    var scale: real

    /** Body, head, wings and tail, in that order, share the body material;
        the beak has its own and is not among them. */
    predicate Valid()
    {
      allParts == [body, head, leftWing, rightWing, tail] &&
      (forall p :: p in allParts ==> p.material == birdMaterial) &&
      beak.material == beakMaterial && beakMaterial != birdMaterial && beak !in allParts
    }

    /** `createBirdMesh(birdData)`. */
    constructor (birdData: PlacedBird)
      ensures Valid()
      ensures fresh(birdMaterial) && fresh(beakMaterial)
      ensures birdMaterial.color == BodyColour(None, birdData.record.environmentColor)
      ensures beakMaterial.color == Some(Hex(0xFFA500))
      ensures birdMaterial.emissive == 0 && beakMaterial.emissive == 0
      ensures var s := SizeOf(birdData.record.bird.size);
        body.offset == Vec3(0.0, 0.0, 0.0) && head.offset == HeadOffset(s) && beak.offset == BeakOffset(s) &&
        leftWing.offset == LeftWingOffset(s) && rightWing.offset == RightWingOffset(s) && tail.offset == TailOffset(s)
      ensures position == birdData.position && userData == birdData && scale == 1.0
    {
      var s := SizeOf(birdData.record.bird.size);
      var material := new Material(BodyColour(None, birdData.record.environmentColor));
      var bodyPart := new Part(material, Vec3(0.0, 0.0, 0.0));
      var headPart := new Part(material, HeadOffset(s));
      var beakMat := new Material(Some(Hex(0xFFA500)));
      var beakPart := new Part(beakMat, BeakOffset(s));
      var left := new Part(material, LeftWingOffset(s));
      var right := new Part(material, RightWingOffset(s));
      var tailPart := new Part(material, TailOffset(s));
      birdMaterial := material;
      beakMaterial := beakMat;
      body := bodyPart;
      head := headPart;
      beak := beakPart;
      leftWing := left;
      rightWing := right;
      tail := tailPart;
      position := birdData.position;
      userData := birdData;
      allParts := [bodyPart, headPart, left, right, tailPart];
      scale := 1.0;
    }
  }

  /** The groups of a scene are distinct, each is well formed, and no
      group's body material is shared with another group's parts. */
  predicate Scene(meshes: seq<BirdGroup>)
  {
    (forall i :: 0 <= i < |meshes| ==> meshes[i].Valid()) &&
    forall i, j :: 0 <= i < |meshes| && 0 <= j < |meshes| && i != j ==>
      meshes[i] != meshes[j] && meshes[i].birdMaterial != meshes[j].birdMaterial &&
      meshes[i].birdMaterial != meshes[j].beakMaterial
  }

  /** `allBirds.forEach(birdData => birdMeshes.push(createBirdMesh(birdData)))`:
      one fresh group per render-list entry, in order. */
  method CreateBirdMeshes(allBirds: seq<PlacedBird>) returns (birdMeshes: seq<BirdGroup>)
    ensures |birdMeshes| == |allBirds|
    ensures forall i :: 0 <= i < |allBirds| ==>
      birdMeshes[i].userData == allBirds[i] && birdMeshes[i].position == allBirds[i].position &&
      birdMeshes[i].scale == 1.0 && birdMeshes[i].birdMaterial.emissive == 0
    ensures forall i :: 0 <= i < |allBirds| ==>
      birdMeshes[i].birdMaterial.color == BodyColour(None, allBirds[i].record.environmentColor)
    ensures Scene(birdMeshes)
  {
    birdMeshes := [];
    for k := 0 to |allBirds|
      invariant |birdMeshes| == k
      invariant forall i :: 0 <= i < k ==>
        birdMeshes[i].userData == allBirds[i] && birdMeshes[i].position == allBirds[i].position &&
        birdMeshes[i].scale == 1.0 && birdMeshes[i].birdMaterial.emissive == 0
      invariant forall i :: 0 <= i < k ==>
        birdMeshes[i].birdMaterial.color == BodyColour(None, allBirds[i].record.environmentColor)
      invariant Scene(birdMeshes)
    {
      var birdMesh := new BirdGroup(allBirds[k]);
      birdMeshes := birdMeshes + [birdMesh];
    }
  }

  /** The birds of the family tree scene: `getAllBirdsWithEnvironments`,
      then one group per entry. Each group shows its entry, filed under
      the entry's own habitat, in that environment's colour. */
  method BuildBirds(m: MathLib, birdFamilies: seq<Family>, start: nat)
    returns (environments: map<Habitat, Environment>, birdMeshes: seq<BirdGroup>)
    ensures Distributed(environments, Entries(birdFamilies, true))
    ensures |birdMeshes| == TotalBirds(birdFamilies)
    ensures forall i :: 0 <= i < |birdMeshes| ==>
      birdMeshes[i].userData.record in Entries(birdFamilies, true) &&
      birdMeshes[i].userData.environment == birdMeshes[i].userData.record.habitat &&
      birdMeshes[i].birdMaterial.color == Some(Hex(EnvColor(birdMeshes[i].userData.environment)))
    ensures Scene(birdMeshes)
  {
    var allBirds, next;
    environments, allBirds, next := GetAllBirdsWithEnvironments(m, birdFamilies, start);
    RenderFiled(m, birdFamilies, environments, start);
    RenderedBodyColour(m, birdFamilies, environments, start);
    RenderCount(m, birdFamilies, environments, start);
    birdMeshes := CreateBirdMeshes(allBirds);
  }
}
