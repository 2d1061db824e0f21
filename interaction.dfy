/**
 * `MouseInteractionHandler`: press, drag, release and wheel events turning
 * the environment group, zooming the camera, and picking a bird by click.
 * Pointer coordinates are whole pixels; the raycast a click performs is
 * given as its result, the intersected parts nearest first; the click a
 * short release schedules, and the callback it schedules, happen at once;
 * the callback's deliveries are kept as a log.
 */
module Interaction {
  import opened Basics
  import opened Assembly
  import opened Meshes
  import opened Animation

  datatype Point = Point(x: int, y: int)

  /** The camera; the handler zooms it along z. */
  class Camera {
    var z: real

    constructor (z: real)
      ensures this.z == z
    {
      this.z := z;
    }
  }

  /** The group holding the environments; the handler turns it. */
  class SceneGroup {
    var rotationX: real
    var rotationY: real

    constructor ()
      ensures rotationX == 0.0 && rotationY == 0.0
    {
      rotationX := 0.0;
      rotationY := 0.0;
    }
  }

  /** The square of the distance from `from` to the pointer at (x, y). */
  function DistanceSquared(from: Point, x: int, y: int): int
  {
    (x - from.x) * (x - from.x) + (y - from.y) * (y - from.y)
  }

  /** A release under 5 pixels from where the press began is a click
      (`dragDistance < 5`, compared squared). */
  predicate IsClick(dragStart: Point, x: int, y: int)
  {
    DistanceSquared(dragStart, x, y) < 25
  }

  /** A move more than 5 pixels from where the press began starts a drag
      (`dragDistance > 5`, compared squared). */
  predicate StartsDrag(dragStart: Point, x: int, y: int)
  {
    DistanceSquared(dragStart, x, y) > 25
  }

  /** Exactly 5 pixels away, a move does not start a drag but a release is
      not a click either; any nearer release is a click and any farther
      move starts a drag. */
  lemma Thresholds(dragStart: Point, x: int, y: int)
    ensures IsClick(dragStart, x, y) ==> !StartsDrag(dragStart, x, y)
    ensures !IsClick(dragStart, x, y) && !StartsDrag(dragStart, x, y) <==> DistanceSquared(dragStart, x, y) == 25
    ensures var p := Point(dragStart.x + 3, dragStart.y + 4);
      !IsClick(dragStart, p.x, p.y) && !StartsDrag(dragStart, p.x, p.y)
  {
  }

  /** `birdMeshes.find(g => g.allParts.includes(part))`, as an index. */
  function Owner(birdMeshes: seq<BirdGroup>, part: Part): (r: Option<nat>)
    ensures r.Some? ==> r.value < |birdMeshes| && part in birdMeshes[r.value].allParts
    ensures r.Some? ==> forall j :: 0 <= j < r.value ==> part !in birdMeshes[j].allParts
    ensures r.None? <==> forall j :: 0 <= j < |birdMeshes| ==> part !in birdMeshes[j].allParts
  {
    if birdMeshes == [] then None
    else if part in birdMeshes[0].allParts then Some(0)
    else
      match Owner(birdMeshes[1..], part)
      case None => None
      case Some(k) => Some(k + 1)
  }

  /** Every group owns its own parts: a click on any part of group `i`
      selects group `i` when no earlier group shares that part. */
  lemma OwnerOfPart(birdMeshes: seq<BirdGroup>, i: nat, part: Part)
    requires i < |birdMeshes| && part in birdMeshes[i].allParts
    requires forall j :: 0 <= j < i ==> part !in birdMeshes[j].allParts
    ensures Owner(birdMeshes, part) == Some(i)
  {
    var r := Owner(birdMeshes, part);
    assert r.Some?;
  }

  class MouseInteractionHandler {
    const camera: Camera
    const environmentGroup: SceneGroup?
    const birdMeshes: seq<BirdGroup>
    /** Whether an `onBirdClick` callback was given. */
    const hasCallback: bool
    var mouseDown: bool
    var mouseX: int
    var mouseY: int
    var isDragging: bool
    var dragStart: Point
    /** The `userData` passed to `onBirdClick`, call by call. */
    var delivered: seq<PlacedBird>

    /** The groups are those `createBirdMesh` builds, one per entry. */
    predicate Valid()
    {
      Scene(birdMeshes)
    }

    /** Group `i` shows highlighted exactly when `selected` names it. */
    predicate Selected(selected: Option<nat>)
      reads birdMeshes, set g, p | g in birdMeshes && p in g.allParts :: p.material
    {
      forall i :: 0 <= i < |birdMeshes| ==> Shows(birdMeshes[i], selected == Some(i))
    }

    /** The group a click with raycast result `hits` picks, if any. */
    function Target(hits: seq<Part>): Option<nat>
    {
      if hits == [] then None else Owner(birdMeshes, hits[0])
    }

    constructor (camera: Camera, environmentGroup: SceneGroup?, birdMeshes: seq<BirdGroup>, hasCallback: bool)
      requires Scene(birdMeshes)
      ensures Valid()
      ensures this.camera == camera && this.environmentGroup == environmentGroup
      ensures this.birdMeshes == birdMeshes && this.hasCallback == hasCallback
      ensures !mouseDown && mouseX == 0 && mouseY == 0 && !isDragging && dragStart == Point(0, 0)
      ensures delivered == []
    {
      this.camera := camera;
      this.environmentGroup := environmentGroup;
      this.birdMeshes := birdMeshes;
      this.hasCallback := hasCallback;
      mouseDown := false;
      mouseX := 0;
      mouseY := 0;
      isDragging := false;
      dragStart := Point(0, 0);
      delivered := [];
    }

    /** `handleMouseDown`: a press starts at the pointer, not dragging. */
    method HandleMouseDown(clientX: int, clientY: int)
      modifies this`mouseDown, this`isDragging, this`mouseX, this`mouseY, this`dragStart
      ensures mouseDown && !isDragging
      ensures mouseX == clientX && mouseY == clientY && dragStart == Point(clientX, clientY)
    {
      mouseDown := true;
      isDragging := false;
      mouseX := clientX;
      mouseY := clientY;
      dragStart := Point(clientX, clientY);
    }

    /** `handleMouseMove`: with the button up, nothing; otherwise a drag
        starts once the pointer is more than 5 pixels from the press, the
        group turns by the pointer's travel since the last event, its tilt
        kept within [-0.5, 0.5], and the pointer is remembered. */
    method HandleMouseMove(clientX: int, clientY: int)
      modifies this`isDragging, this`mouseX, this`mouseY, environmentGroup
      ensures !old(mouseDown) ==> isDragging == old(isDragging) && mouseX == old(mouseX) && mouseY == old(mouseY)
      ensures !old(mouseDown) && environmentGroup != null ==>
        environmentGroup.rotationX == old(environmentGroup.rotationX) &&
        environmentGroup.rotationY == old(environmentGroup.rotationY)
      ensures old(mouseDown) ==> mouseX == clientX && mouseY == clientY
      ensures old(mouseDown) ==> isDragging == (old(isDragging) || StartsDrag(dragStart, clientX, clientY))
      ensures old(mouseDown) && environmentGroup != null ==>
        environmentGroup.rotationY == old(environmentGroup.rotationY) + (clientX - old(mouseX)) as real * 0.01 &&
        environmentGroup.rotationX ==
          Clamp(old(environmentGroup.rotationX) - (clientY - old(mouseY)) as real * 0.005, -0.5, 0.5)
    {
      if !mouseDown {
        return;
      }
      var deltaX := clientX - mouseX;
      var deltaY := clientY - mouseY;
      if DistanceSquared(dragStart, clientX, clientY) > 25 {
        isDragging := true;
      }
      if environmentGroup != null {
        environmentGroup.rotationY := environmentGroup.rotationY + deltaX as real * 0.01;
        environmentGroup.rotationX := environmentGroup.rotationX - deltaY as real * 0.005;
        environmentGroup.rotationX := Clamp(environmentGroup.rotationX, -0.5, 0.5);
      }
      mouseX := clientX;
      mouseY := clientY;
    }

    /** `handleMouseUp`: the press ends; a release under 5 pixels from where
        it began clears dragging and resolves the click against `hits`, any
        other release marks a drag and changes nothing else. */
    method HandleMouseUp(clientX: int, clientY: int, hits: seq<Part>)
      requires Valid()
      modifies this`mouseDown, this`isDragging, this`delivered
      modifies (set g | g in birdMeshes)`scale, (set g | g in birdMeshes :: g.birdMaterial)`emissive
      ensures !mouseDown
      ensures isDragging == !IsClick(dragStart, clientX, clientY)
      ensures IsClick(dragStart, clientX, clientY) && (hits == [] || Target(hits).Some?) ==>
        Selected(Target(hits)) && delivered == old(delivered) + Delivery(Target(hits))
      ensures !(IsClick(dragStart, clientX, clientY) && (hits == [] || Target(hits).Some?)) ==>
        delivered == old(delivered) && Untouched()
    {
      mouseDown := false;
      if DistanceSquared(dragStart, clientX, clientY) < 25 {
        isDragging := false;
        HandleClick(hits);
      } else {
        isDragging := true;
      }
    }

    /** What `onBirdClick` receives when the click picks `selected`. */
    function Delivery(selected: Option<nat>): seq<PlacedBird>
    {
      if hasCallback && selected.Some? && selected.value < |birdMeshes| then [birdMeshes[selected.value].userData] else []
    }

    /** No group's scale or body material differs from before. */
    twostate predicate Untouched()
      reads birdMeshes, set g | g in birdMeshes :: g.birdMaterial
    {
      forall i :: 0 <= i < |birdMeshes| ==>
        birdMeshes[i].scale == old(birdMeshes[i].scale) &&
        birdMeshes[i].birdMaterial.emissive == old(birdMeshes[i].birdMaterial.emissive)
    }

    /** `handleClick`: while dragging, nothing. Otherwise, with no hit every
        bird is reset; with a hit on a part of some group, the first such
        group is the only one highlighted and its `userData` goes to
        `onBirdClick`; a hit on a part of no group changes nothing. */
    method HandleClick(hits: seq<Part>)
      requires Valid()
      modifies this`delivered
      modifies (set g | g in birdMeshes)`scale, (set g | g in birdMeshes :: g.birdMaterial)`emissive
      ensures isDragging || !(hits == [] || Target(hits).Some?) ==> delivered == old(delivered) && Untouched()
      ensures !isDragging && (hits == [] || Target(hits).Some?) ==>
        Selected(Target(hits)) && delivered == old(delivered) + Delivery(Target(hits))
    {
      if isDragging {
        return;
      }
      if |hits| > 0 {
        var clickedPart := hits[0];
        var clickedBird := Owner(birdMeshes, clickedPart);
        if clickedBird.Some? {
          SelectBird(clickedBird.value);
        }
      } else {
        ResetAllBirds(birdMeshes);
        SelectedAfter(None);
      }
    }

    /** The branch of `handleClick` that found the group `w`: every bird is
        reset, `w` is highlighted and its `userData` goes to `onBirdClick`. */
    method SelectBird(w: nat)
      requires Valid() && w < |birdMeshes|
      modifies this`delivered
      modifies (set g | g in birdMeshes)`scale, (set g | g in birdMeshes :: g.birdMaterial)`emissive
      ensures Selected(Some(w)) && delivered == old(delivered) + Delivery(Some(w))
    {
      ResetAllBirds(birdMeshes);
      var clickedBird := birdMeshes[w];
      HighlightBird(clickedBird, true);
      forall i | 0 <= i < |birdMeshes| && i != w
        ensures birdMeshes[i].scale == 1.0 && birdMeshes[i].birdMaterial.emissive == 0
      {
        assert birdMeshes[i] != clickedBird && birdMeshes[i].birdMaterial != clickedBird.birdMaterial;
      }
      if hasCallback {
        delivered := delivered + [clickedBird.userData];
      }
      SelectedAfter(Some(w));
    }

    /** Group `w` (if any) highlighted and every other group plain, read off
        the groups' scales and body materials. */
    lemma SelectedAfter(selected: Option<nat>)
      requires Valid()
      requires forall i :: 0 <= i < |birdMeshes| ==>
        birdMeshes[i].scale == ScaleOf(selected == Some(i)) &&
        birdMeshes[i].birdMaterial.emissive == EmissiveOf(selected == Some(i))
      ensures Selected(selected)
    {
      forall i | 0 <= i < |birdMeshes|
        ensures Shows(birdMeshes[i], selected == Some(i))
      {
        ShowsOf(birdMeshes[i], selected == Some(i));
      }
    }

    /** `handleWheel`: the camera moves by `deltaY` · 0.02 and stays
        within [10, 40]. */
    method HandleWheel(deltaY: real)
      modifies camera
      ensures camera.z == Clamp(old(camera.z) + deltaY * 0.02, 10.0, 40.0)
      ensures 10.0 <= camera.z <= 40.0
    {
      camera.z := camera.z + deltaY * 0.02;
      camera.z := Clamp(camera.z, 10.0, 40.0);
    }
  }
}
