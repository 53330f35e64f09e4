// InteractionHandler of the forest revision (js/geral/interaction.js):
// every frame it keeps the first interactive object the crosshair ray
// hits within reach, and an activation hands that object's user data to
// the application.

module ForestInteraction {
  import opened Common

  /**
   * The `userData` of a scene object: `interactive` stands for
   * `userData.interactive === true`, `kind` for `userData.type`.
   */
  datatype UserData = UserData(interactive: bool, kind: string)

  datatype SceneObject = SceneObject(name: string, userData: UserData)

  /** One entry of `raycaster.intersectObjects`, nearest first. */
  datatype Hit = Hit(obj: SceneObject, distance: real)

  /** `interactionDistance`, in metres. */
  const InteractionDistance: real := 3.0

  /** A hit the handler accepts as its target. */
  predicate Qualifies(h: Hit) {
    h.obj.userData.interactive && h.distance <= InteractionDistance
  }

  /** The index of the first accepted hit, or |hits| when there is none. */
  function FirstQualifying(hits: seq<Hit>): (k: nat)
    ensures k <= |hits|
    ensures k < |hits| ==> Qualifies(hits[k])
    ensures forall j :: 0 <= j < k ==> !Qualifies(hits[j])
    decreases |hits|
  {
    if hits == [] then 0
    else if Qualifies(hits[0]) then 0
    else 1 + FirstQualifying(hits[1..])
  }

  /** The object the handler targets after seeing `hits`. */
  function Target(hits: seq<Hit>): Option<SceneObject> {
    var k := FirstQualifying(hits);
    if k < |hits| then Some(hits[k].obj) else None
  }

  /** There is no target exactly when no hit is interactive and within reach. */
  lemma TargetNoneIff(hits: seq<Hit>)
    ensures Target(hits).None? <==> forall j :: 0 <= j < |hits| ==> !Qualifies(hits[j])
  {
    var k := FirstQualifying(hits);
    if k < |hits| {
      assert Qualifies(hits[k]);
    }
  }

  /** A hit in front that is not accepted does not block one behind it. */
  lemma {:induction false} TargetSkipsRejected(h: Hit, hits: seq<Hit>)
    requires !Qualifies(h)
    ensures Target([h] + hits) == Target(hits)
  {
    assert ([h] + hits)[1..] == hits;
  }

  /** An interactive object exactly at the interaction distance is accepted. */
  lemma ReachIsInclusive(o: SceneObject)
    requires o.userData.interactive
    ensures Target([Hit(o, InteractionDistance)]) == Some(o)
  {
  }

  class InteractionHandler {
    /** `currentTarget`, the object in the crosshair, if any. */
    var currentTarget: Option<SceneObject>

    constructor ()
      ensures currentTarget == None
    {
      currentTarget := None;
    }

    /**
     * `update()`: reset the target, then walk the hits nearest first and
     * stop at the first interactive one within reach. The hit list is the
     * ray cast from the crosshair into the scene; camera and scene are only
     * read.
     */
    method Update(hits: seq<Hit>)
      modifies this`currentTarget
      ensures currentTarget == Target(hits)
      ensures currentTarget.Some? ==>
                currentTarget.value.userData.interactive &&
                exists k :: 0 <= k < |hits| && hits[k].obj == currentTarget.value
                         && hits[k].distance <= InteractionDistance
    {
      currentTarget := None;
      var i := 0;
      while i < |hits|
        invariant 0 <= i <= |hits|
        invariant currentTarget == None
        invariant forall j :: 0 <= j < i ==> !Qualifies(hits[j])
      {
        var hit := hits[i];
        if hit.obj.userData.interactive {
          if hit.distance <= InteractionDistance {
            currentTarget := Some(hit.obj);
            FirstIsIndex(hits, i);
            return;
          }
        }
        i := i + 1;
      }
      TargetNoneIff(hits);
    }

    /**
     * `triggerInteraction()`: the user data handed to the callback, which
     * is called once when there is a target and not at all otherwise.
     */
    method TriggerInteraction() returns (dispatched: Option<UserData>)
      ensures dispatched.Some? <==> currentTarget.Some?
      ensures currentTarget.Some? ==> dispatched.value == currentTarget.value.userData
    {
      if currentTarget.Some? {
        dispatched := Some(currentTarget.value.userData);
      } else {
        dispatched := None;
      }
    }
  }

  /** An accepted hit with only rejected hits before it is the first one. */
  lemma FirstIsIndex(hits: seq<Hit>, i: nat)
    requires i < |hits| && Qualifies(hits[i])
    requires forall j :: 0 <= j < i ==> !Qualifies(hits[j])
    ensures FirstQualifying(hits) == i
  {
  }
}
