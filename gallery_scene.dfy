// SceneManager of the gallery revision (js/scene.js): where the plaques of
// the artworks go, which plaque is nearest to the camera, what the
// interaction ray hits, and the mute switch of the audio.

module GalleryScene {
  import opened Common

  /** One entry of `arts.json`; an absent or empty `whatsappImageUrl` is `None` or "". */
  datatype Art = Art(id: string, title: string, shortDescription: string,
                     imageSrc: string, imageAlt: string, whatsappImageUrl: Option<string>)

  /** The `userData` of a plaque: the artwork id and the type "plaque". */
  datatype PlaqueData = PlaqueData(id: string, kind: string)

  /** A clickable plaque mesh: its position and user data. */
  datatype Plaque = Plaque(position: Vec3, userData: PlaqueData)

  /** `INTERACTION_DISTANCE`, also the far plane of the raycaster. */
  const InteractionDistance: real := 3.5

  const PlaqueKind: string := "plaque"

  /** Plaques hang 0.9 m up, alternately on the left wall (even index) and the right wall. */
  const PlaqueHeight: real := 0.9
  const PlaqueWallX: real := 2.9

  function PlaqueX(index: nat): real {
    if index % 2 == 0 then -PlaqueWallX else PlaqueWallX
  }

  /** The first plaque is at z = 8 and each next one 4 m further down the corridor. */
  function PlaqueZ(index: nat): real {
    8.0 - index as real * 4.0
  }

  /** The plaque `placeArtworks` makes for the artwork at `index`. */
  function PlaqueFor(art: Art, index: nat): Plaque {
    Plaque(Vec3(PlaqueX(index), PlaqueHeight, PlaqueZ(index)), PlaqueData(art.id, PlaqueKind))
  }

  /** The plaques of all artworks, in the order of the artwork list. */
  function Layout(arts: seq<Art>): (ps: seq<Plaque>)
    ensures |ps| == |arts|
    ensures forall i :: 0 <= i < |arts| ==> ps[i] == PlaqueFor(arts[i], i)
  {
    seq(|arts|, i requires 0 <= i < |arts| => PlaqueFor(arts[i], i))
  }

  /**
   * Neighbouring plaques hang on opposite walls, 4 m apart along the
   * corridor, and every plaque carries its artwork's id and the type "plaque".
   */
  lemma LayoutAlternates(arts: seq<Art>, i: nat)
    requires i + 1 < |arts|
    ensures Layout(arts)[i + 1].position.x == -Layout(arts)[i].position.x
    ensures Layout(arts)[i + 1].position.z == Layout(arts)[i].position.z - 4.0
    ensures Layout(arts)[i].userData == PlaqueData(arts[i].id, PlaqueKind)
  {
    assert (i + 1) % 2 == 0 <==> i % 2 != 0;
  }

  /** Squared distance; `distanceTo` compares the same way since the square root is monotone. */
  function DistSq(a: Vec3, b: Vec3): (d: real)
    ensures d >= 0.0
  {
    (a.x - b.x) * (a.x - b.x) + (a.y - b.y) * (a.y - b.y) + (a.z - b.z) * (a.z - b.z)
  }

  /** A plaque is near enough for the tutorial hint when it is less than 5 m away. */
  const HintDistanceSq: real := 25.0

  /** One entry of `raycaster.intersectObjects(interactiveObjects)` before the far cut. */
  datatype Hit = Hit(plaque: Plaque, distance: real)

  /** The raycaster keeps hits between its near plane (0) and its far plane (3.5 m). */
  predicate InReach(h: Hit) {
    0.0 <= h.distance <= InteractionDistance
  }

  /**
   * `checkInteraction`: the user data of the first intersection the
   * raycaster keeps, or none.
   */
  function CheckInteraction(hits: seq<Hit>): (r: Option<PlaqueData>)
    ensures r.None? <==> forall k :: 0 <= k < |hits| ==> !InReach(hits[k])
    ensures r.Some? ==>
              exists k :: 0 <= k < |hits| && InReach(hits[k]) && r.value == hits[k].plaque.userData
                          && forall j :: 0 <= j < k ==> !InReach(hits[j])
    decreases |hits|
  {
    if hits == [] then None
    else if InReach(hits[0]) then Some(hits[0].plaque.userData)
    else
      var r := CheckInteraction(hits[1..]);
      assert forall k :: 1 <= k < |hits| ==> hits[k] == hits[1..][k - 1];
      r
  }

  /** Hits sorted nearest first, as the raycaster returns them. */
  predicate SortedByDistance(hits: seq<Hit>) {
    forall i, j :: 0 <= i < j < |hits| ==> hits[i].distance <= hits[j].distance
  }

  /**
   * On a sorted list of hits the ray finds something exactly when the
   * nearest hit is within reach.
   */
  lemma NearestDecides(hits: seq<Hit>)
    requires SortedByDistance(hits)
    requires forall k :: 0 <= k < |hits| ==> hits[k].distance >= 0.0
    ensures CheckInteraction(hits).Some? <==> |hits| > 0 && InReach(hits[0])
  {
    if |hits| > 0 && !InReach(hits[0]) {
      forall k | 0 <= k < |hits|
        ensures !InReach(hits[k])
      {
        assert hits[0].distance <= hits[k].distance;
      }
    }
  }

  /** Some plaque lies within the 5 m hint distance of the camera. */
  predicate PlaqueNear(plaques: seq<Plaque>, camera: Vec3) {
    exists j :: 0 <= j < |plaques| && DistSq(camera, plaques[j].position) < HintDistanceSq
  }

  class SceneManager {
    const artData: seq<Art>
    var interactiveObjects: seq<Plaque>
    var isMuted: bool
    /** The master volume of the audio listener. */
    var masterVolume: real
    /** `sounds.ambient`: `None` until loaded, else whether it is playing. */
    var ambient: Option<bool>

    constructor (artData: seq<Art>, isMuted: bool)
      ensures this.artData == artData && this.isMuted == isMuted
      ensures interactiveObjects == [] && masterVolume == 1.0 && ambient == None
    {
      this.artData := artData;
      this.isMuted := isMuted;
      interactiveObjects := [];
      masterVolume := 1.0;
      ambient := None;
    }

    /** `placeArtworks`: one plaque per artwork, appended to the clickable objects. */
    method PlaceArtworks()
      modifies this`interactiveObjects
      ensures interactiveObjects == old(interactiveObjects) + Layout(artData)
    {
      for index := 0 to |artData|
        invariant interactiveObjects == old(interactiveObjects) + Layout(artData)[..index]
      {
        assert Layout(artData)[..index + 1] == Layout(artData)[..index] + [PlaqueFor(artData[index], index)];
        interactiveObjects := interactiveObjects + [PlaqueFor(artData[index], index)];
      }
      assert Layout(artData)[..|artData|] == Layout(artData);
    }

    /**
     * `findNearestPlaque`: the first plaque at the least distance from the
     * camera, provided that distance is under 5 m.
     */
    method FindNearestPlaque(camera: Vec3) returns (nearest: Option<Plaque>)
      ensures nearest.None? <==>
                forall j :: 0 <= j < |interactiveObjects| ==>
                  DistSq(camera, interactiveObjects[j].position) >= HintDistanceSq
      ensures nearest.Some? ==>
                exists k :: 0 <= k < |interactiveObjects| && nearest.value == interactiveObjects[k]
                  && DistSq(camera, interactiveObjects[k].position) < HintDistanceSq
                  && (forall j :: 0 <= j < |interactiveObjects| ==>
                        DistSq(camera, interactiveObjects[k].position)
                        <= DistSq(camera, interactiveObjects[j].position))
                  && (forall j :: 0 <= j < k ==>
                        DistSq(camera, interactiveObjects[k].position)
                        < DistSq(camera, interactiveObjects[j].position))
    {
      var objs := interactiveObjects;
      var best: Option<nat> := None;
      var minDistance := 0.0;
      for i := 0 to |objs|
        invariant best.None? <==> i == 0
        invariant best.Some? ==> best.value < i && minDistance == DistSq(camera, objs[best.value].position)
        invariant forall j :: 0 <= j < i ==> minDistance <= DistSq(camera, objs[j].position)
        invariant best.Some? ==> forall j :: 0 <= j < best.value ==> minDistance < DistSq(camera, objs[j].position)
      {
        var distance := DistSq(camera, objs[i].position);
        if best.None? || distance < minDistance {
          minDistance := distance;
          best := Some(i);
        }
      }
      if best.Some? && minDistance < HintDistanceSq {
        nearest := Some(objs[best.value]);
      } else {
        nearest := None;
      }
    }

    /** `findNearestPlaque` read as a truth value: whether it found a plaque. */
    method HasNearbyPlaque(camera: Vec3) returns (found: bool)
      ensures found <==> PlaqueNear(interactiveObjects, camera)
    {
      var nearest := FindNearestPlaque(camera);
      found := nearest.Some?;
    }

    /**
     * `setMute`: master volume 0 when muted, else 1, and an ambient sound
     * that is loaded but silent starts playing.
     */
    method SetMute(muted: bool)
      modifies this`isMuted, this`masterVolume, this`ambient
      ensures isMuted == muted
      ensures masterVolume == if muted then 0.0 else 1.0
      ensures ambient == if !muted && old(ambient).Some? then Some(true) else old(ambient)
    {
      isMuted := muted;
      if isMuted {
        masterVolume := 0.0;
      } else {
        masterVolume := 1.0;
        if ambient.Some? && !ambient.value {
          ambient := Some(true);
        }
      }
    }
  }
}
