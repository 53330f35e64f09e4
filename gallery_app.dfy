// App of the gallery revision (js/main.js): entering the experience, the
// render loop, the three-step tutorial, interaction with a plaque, the
// detail panel and the mute switch.

module GalleryApp {
  import opened Common
  import opened GalleryControls
  import opened GalleryScene
  import opened GalleryText

  /** Windows at most this wide count as mobile. */
  const MobileMaxWidth: real := 768.0

  /** The `isMuted` entry of local storage as written by `toggleMute`. */
  function StoredMuted(muted: bool): string {
    if muted then "true" else "false"
  }

  /** The mute state read back by the constructor: muted only for the text "true". */
  function MutedFromStorage(stored: Option<string>): (muted: bool)
    ensures stored.None? ==> !muted
    ensures stored == Some("false") ==> !muted
  {
    stored == Some("true")
  }

  /** What `toggleMute` stores is read back as the same state. */
  lemma MuteStorageRoundTrip(muted: bool)
    ensures MutedFromStorage(Some(StoredMuted(muted))) == muted
  {
  }

  /** A call into the browser's pointer-lock API. */
  datatype PointerRequest = RequestLock | ExitLock

  /** Whether the lock is held after the calls: the last call decides. */
  function LockedAfter(locked: bool, rs: seq<PointerRequest>): bool {
    if rs == [] then locked else rs[|rs| - 1] == RequestLock
  }

  /** The tutorial tooltips, desktop or touch variant. */
  function MoveTip(mobile: bool): string {
    if mobile then "Use o joystick à esquerda para mover." else "Use WASD ou Setas para mover."
  }

  function LookTip(mobile: bool): string {
    if mobile then "Arraste o lado direito da tela para olhar." else "Mova o mouse para olhar ao redor."
  }

  function PlaqueTip(mobile: bool): string {
    if mobile then "Aproxime-se e TOQUE na placa para ver a arte."
    else "Aproxime-se e pressione [E] na placa para ver a arte."
  }

  /** The step after the first two checks of `updateTutorial`. */
  function TutorialAdvance(step: int, moved: bool, looked: bool): (r: int)
    ensures step <= r
    ensures r != step ==> step == 1 || step == 2
    ensures r >= 2 && step < 2 ==> moved
    ensures r == 3 && step < 3 ==> looked
    ensures step == 1 && moved && looked ==> r == 3
    ensures step == 1 && moved ==> r >= 2
    ensures step == 1 && !moved ==> r == 1
    ensures step == 2 ==> r == (if looked then 3 else 2)
    ensures r == step || r == 2 || r == 3
  {
    var s := if step == 1 && moved then 2 else step;
    if s == 2 && looked then 3 else s
  }

  /** Advancing twice with the same flags is advancing once: a frame takes every step it can. */
  lemma TutorialAdvanceSettles(step: int, moved: bool, looked: bool)
    ensures TutorialAdvance(TutorialAdvance(step, moved, looked), moved, looked)
            == TutorialAdvance(step, moved, looked)
  {
  }

  /** The first artwork with the given id, as `artData.find`. */
  function FindArt(arts: seq<Art>, id: string): (r: Option<Art>)
    ensures r.None? <==> forall k :: 0 <= k < |arts| ==> arts[k].id != id
    ensures r.Some? ==>
              r.value.id == id &&
              exists k :: 0 <= k < |arts| && arts[k] == r.value && forall j :: 0 <= j < k ==> arts[j].id != id
    decreases |arts|
  {
    if arts == [] then None
    else if arts[0].id == id then Some(arts[0])
    else
      var r := FindArt(arts[1..], id);
      assert forall k :: 1 <= k < |arts| ==> arts[k] == arts[1..][k - 1];
      r
  }

  /** What the detail panel shows. */
  datatype Panel = Panel(title: string, descriptionHtml: string, imageSrc: string,
                         imageAlt: string, whatsappHref: string)

  function PanelFor(art: Art, pageUrl: string, encode: string -> string): Panel {
    Panel(art.title, DescriptionHtml(art.shortDescription), art.imageSrc, art.imageAlt,
          WhatsAppLink(art.title, art.whatsappImageUrl, pageUrl, encode))
  }

  /**
   * The pointer-lock calls of `openDetailPanel` for a found artwork, as
   * written: release the lock (desktop, controls present), then, when the
   * panel ends the tutorial, `endTutorial` asks for the lock again.
   */
  function PanelRequests(isMobile: bool, hasControls: bool, endsTutorial: bool): (r: seq<PointerRequest>)
    ensures isMobile ==> r == []
    ensures !isMobile ==> (ExitLock in r <==> hasControls) && (RequestLock in r <==> endsTutorial)
    ensures |r| <= 2 && (|r| == 2 ==> r[0] == ExitLock && r[1] == RequestLock)
  {
    (if hasControls && !isMobile then [ExitLock] else [])
    + (if endsTutorial && !isMobile then [RequestLock] else [])
  }

  /** As written, a desktop panel that ends the tutorial is left under pointer lock. */
  lemma PanelEndingTutorialRelocks()
    ensures PanelRequests(false, true, true) == [ExitLock, RequestLock]
    ensures LockedAfter(true, PanelRequests(false, true, true))
  {
  }

  /** The requests the panel evidently intends: release the lock and nothing more. */
  function PanelRequestsIntended(isMobile: bool, hasControls: bool): (r: seq<PointerRequest>)
    ensures RequestLock !in r
    ensures r == [] <==> isMobile || !hasControls
  {
    if hasControls && !isMobile then [ExitLock] else []
  }

  /** With the intended requests an open panel never holds the pointer lock it did not have. */
  lemma PanelIntendedLeavesUnlocked(isMobile: bool, hasControls: bool, locked: bool)
    ensures !LockedAfter(locked, PanelRequestsIntended(isMobile, hasControls)) || (locked && (isMobile || !hasControls))
    ensures hasControls && !isMobile ==> !LockedAfter(locked, PanelRequestsIntended(isMobile, hasControls))
  {
  }

  /**
   * Where the interaction ray is aimed, as written: the last touch for a
   * tap, the screen centre otherwise; a desktop click evaluates
   * `controlsManager.isPointerLocked()`, which is the boolean field and
   * not a function, and so throws a `TypeError`.
   */
  datatype Aim = Aimed(point: Point) | TypeError

  function AimAsWritten(isMobile: bool, isClick: bool, lastTouch: Point): (a: Aim)
    ensures a.TypeError? <==> !isMobile && isClick
    ensures a.Aimed? && isClick ==> a.point == lastTouch
    ensures !isClick ==> a == Aimed(Point(0.0, 0.0))
  {
    if isMobile && isClick then Aimed(lastTouch)
    else if !isMobile && isClick then TypeError
    else Aimed(Point(0.0, 0.0))
  }

  /** As written, no desktop click reaches the raycaster, locked or not. */
  lemma DesktopClickThrows(lastTouch: Point)
    ensures AimAsWritten(false, true, lastTouch) == TypeError
  {
  }

  /** The evidently intended aim, reading the lock state: the mouse for an unlocked click. */
  function AimIntended(isMobile: bool, isClick: bool, locked: bool, lastTouch: Point, mouse: Point): (p: Point)
    ensures isMobile && isClick ==> p == lastTouch
    ensures !isMobile && isClick && !locked ==> p == mouse
    ensures !isClick || (!isMobile && locked) ==> p == Point(0.0, 0.0)
  {
    if isMobile && isClick then lastTouch
    else if !isMobile && isClick && !locked then mouse
    else Point(0.0, 0.0)
  }

  /** The intended aim agrees with the written one wherever the written one does not throw. */
  lemma AimIntendedExtends(isMobile: bool, isClick: bool, locked: bool, lastTouch: Point, mouse: Point)
    ensures AimAsWritten(isMobile, isClick, lastTouch).Aimed? ==>
              AimAsWritten(isMobile, isClick, lastTouch).point == AimIntended(isMobile, isClick, locked, lastTouch, mouse)
  {
  }

  /** `e.key.toLowerCase() === 'e'`. */
  predicate IsInteractKey(key: string): (b: bool)
    ensures b ==> |key| == 1
    ensures key == "Escape" ==> !b
  {
    key == "e" || key == "E"
  }

  class App {
    const isMobile: bool
    /** `window.location.href`. */
    const pageUrl: string
    /** `encodeURIComponent`. */
    const encode: string -> string

    var artData: seq<Art>
    var scene: SceneManager?
    var controls: ControlsManager?
    var isMuted: bool
    /** The `isMuted` entry of local storage. */
    var storedMuted: Option<string>
    var isPanelOpen: bool
    var currentTutorialStep: int
    var isInTutorial: bool
    /** The last content written into the detail panel. */
    var panel: Option<Panel>
    var tooltipText: string
    var tooltipVisible: bool

    ghost predicate Valid()
      reads this, controls
    {
      (isInTutorial ==> controls != null && scene != null)
      && (controls != null ==> controls.isMobile == isMobile && controls.Valid())
    }

    /** The constructor: mobile for windows up to 768 px, mute state from storage. */
    constructor (innerWidth: real, stored: Option<string>, pageUrl: string, encode: string -> string)
      ensures Valid()
      ensures isMobile == (innerWidth <= MobileMaxWidth)
      ensures isMuted == MutedFromStorage(stored) && storedMuted == stored
      ensures this.pageUrl == pageUrl && this.encode == encode
      ensures artData == [] && scene == null && controls == null
      ensures !isPanelOpen && currentTutorialStep == 0 && !isInTutorial
      ensures panel == None && !tooltipVisible
    {
      isMobile := innerWidth <= MobileMaxWidth;
      this.pageUrl := pageUrl;
      this.encode := encode;
      artData := [];
      scene, controls := null, null;
      isMuted := stored == Some("true");
      storedMuted := stored;
      isPanelOpen := false;
      currentTutorialStep := 0;
      isInTutorial := false;
      panel := None;
      tooltipText, tooltipVisible := "", false;
    }

    /**
     * `startExperience`: load the artworks (`None` when the fetch fails,
     * which leaves the list empty), build the scene and its plaques, put
     * the camera at the corridor entrance, then start the tutorial or,
     * on desktop, ask for the pointer lock.
     */
    method StartExperience(withTutorial: bool, loaded: Option<seq<Art>>) returns (requests: seq<PointerRequest>)
      requires Valid() && scene == null && controls == null
      modifies this
      ensures Valid()
      ensures isInTutorial == withTutorial
      ensures artData == if loaded.Some? then loaded.value else []
      ensures scene != null && fresh(scene) && scene.artData == artData && scene.isMuted == isMuted
      ensures scene.interactiveObjects == Layout(artData)
      ensures controls != null && fresh(controls) && controls.position == Entrance
      ensures scene.masterVolume == 1.0 && scene.ambient == None
      ensures controls.move == Still && !controls.hasMoved && !controls.hasLooked
      ensures controls.isMobile == isMobile && controls.joystick == FreeSlot && controls.drag == FreeSlot
      ensures controls.pitch == 0.0 && controls.yaw == 0.0 && !controls.isPointerLocked
      ensures controls.lastTouch == Point(0.0, 0.0) && controls.mouse == Point(0.0, 0.0)
      ensures withTutorial ==> currentTutorialStep == 1 && tooltipVisible && tooltipText == MoveTip(isMobile)
      ensures !withTutorial ==>
                currentTutorialStep == old(currentTutorialStep) && tooltipText == old(tooltipText)
                && tooltipVisible == old(tooltipVisible)
      ensures withTutorial ==> requests == []
      ensures !withTutorial ==> requests == (if isMobile then [] else [RequestLock])
      ensures isPanelOpen == old(isPanelOpen) && isMuted == old(isMuted)
      ensures panel == old(panel) && storedMuted == old(storedMuted)
    {
      isInTutorial := withTutorial;
      artData := if loaded.Some? then loaded.value else [];
      var s := new SceneManager(artData, isMuted);
      s.PlaceArtworks();
      scene := s;
      controls := new ControlsManager(isMobile, Entrance);
      requests := [];
      if isInTutorial {
        StartTutorial();
      } else if !isMobile {
        var requested := controls.LockPointer();
        requests := [RequestLock];
      }
    }

    /** `startTutorial`: step 1 and the move tooltip. */
    method StartTutorial()
      modifies this`currentTutorialStep, this`tooltipText, this`tooltipVisible
      ensures currentTutorialStep == 1 && tooltipVisible && tooltipText == MoveTip(isMobile)
    {
      currentTutorialStep := 1;
      tooltipText, tooltipVisible := MoveTip(isMobile), true;
    }

    /** `endTutorial`: leave the tutorial, hide the tooltip and, on desktop, ask for the pointer lock. */
    method EndTutorial() returns (requests: seq<PointerRequest>)
      requires !isMobile ==> controls != null
      modifies this`isInTutorial, this`tooltipVisible
      ensures !isInTutorial && !tooltipVisible
      ensures requests == if isMobile then [] else [RequestLock]
    {
      isInTutorial := false;
      tooltipVisible := false;
      requests := [];
      if !isMobile {
        var requested := controls.LockPointer();
        requests := [RequestLock];
      }
    }

    /**
     * One tutorial update: the step advances by the moved and looked
     * flags. Reaching step 2 from step 1 shows the look tip. Reaching
     * step 3 shows the plaque tip when a plaque is within 5 m; otherwise
     * the tip is left as it was. Step 3 with the panel open ends the
     * tutorial and hides the tip, asking for the lock on desktop.
     * Anything not named is as it was.
     */
    twostate predicate TutorialUpdated(requests: seq<PointerRequest>)
      reads this, scene, controls
      requires scene != null && controls != null
    {
      var from := old(currentTutorialStep);
      var ending := currentTutorialStep == 3 && isPanelOpen;
      var toLook := from == 1 && currentTutorialStep >= 2;
      var toPlaque := from != 3 && currentTutorialStep == 3
                      && PlaqueNear(scene.interactiveObjects, controls.position);
      currentTutorialStep == TutorialAdvance(from, controls.hasMoved, controls.hasLooked)
      && isInTutorial == (old(isInTutorial) && !ending)
      && requests == (if ending && !isMobile then [RequestLock] else [])
      && tooltipText == (if toPlaque then PlaqueTip(isMobile)
                         else if toLook then LookTip(isMobile)
                         else old(tooltipText))
      && tooltipVisible == (if ending then false
                            else if toPlaque || toLook then true
                            else old(tooltipVisible))
    }

    /**
     * `updateTutorial`: step 1 to 2 once the player has moved, 2 to 3 once
     * they have looked (with the plaque hint only when a plaque is within
     * 5 m), and at step 3 an open panel ends the tutorial.
     */
    method UpdateTutorial() returns (requests: seq<PointerRequest>)
      requires Valid() && controls != null && scene != null
      modifies this`currentTutorialStep, this`tooltipText, this`tooltipVisible, this`isInTutorial
      ensures Valid()
      ensures TutorialUpdated(requests)
    {
      requests := [];
      AdvanceTutorial();
      if currentTutorialStep == 3 && isPanelOpen {
        requests := EndTutorial();
      }
    }

    /** The two advancing `if`s of `updateTutorial`, with the tips they show. */
    method AdvanceTutorial()
      requires controls != null && scene != null
      modifies this`currentTutorialStep, this`tooltipText, this`tooltipVisible
      ensures currentTutorialStep == TutorialAdvance(old(currentTutorialStep), controls.hasMoved, controls.hasLooked)
      ensures var toLook := old(currentTutorialStep) == 1 && currentTutorialStep >= 2;
              var toPlaque := old(currentTutorialStep) != 3 && currentTutorialStep == 3
                              && PlaqueNear(scene.interactiveObjects, controls.position);
              tooltipText == (if toPlaque then PlaqueTip(isMobile)
                              else if toLook then LookTip(isMobile)
                              else old(tooltipText))
              && tooltipVisible == (toPlaque || toLook || old(tooltipVisible))
    {
      AdvanceToLook();
      AdvanceToPlaque();
    }

    /** Step 1 to 2 once the player has moved, showing the look tip. */
    method AdvanceToLook()
      requires controls != null
      modifies this`currentTutorialStep, this`tooltipText, this`tooltipVisible
      ensures var advanced := old(currentTutorialStep) == 1 && controls.hasMoved;
              currentTutorialStep == (if advanced then 2 else old(currentTutorialStep))
              && tooltipText == (if advanced then LookTip(isMobile) else old(tooltipText))
              && tooltipVisible == (advanced || old(tooltipVisible))
    {
      if currentTutorialStep == 1 && controls.hasMoved {
        currentTutorialStep := 2;
        tooltipText, tooltipVisible := LookTip(isMobile), true;
      }
    }

    /** Step 2 to 3 once the player has looked, showing the plaque tip when a plaque is within 5 m. */
    method AdvanceToPlaque()
      requires controls != null && scene != null
      modifies this`currentTutorialStep, this`tooltipText, this`tooltipVisible
      ensures var advanced := old(currentTutorialStep) == 2 && controls.hasLooked;
              var hint := advanced && PlaqueNear(scene.interactiveObjects, controls.position);
              currentTutorialStep == (if advanced then 3 else old(currentTutorialStep))
              && tooltipText == (if hint then PlaqueTip(isMobile) else old(tooltipText))
              && tooltipVisible == (hint || old(tooltipVisible))
    {
      if currentTutorialStep == 2 && controls.hasLooked {
        currentTutorialStep := 3;
        var nearest := scene.HasNearbyPlaque(controls.position);
        if nearest {
          tooltipText, tooltipVisible := PlaqueTip(isMobile), true;
        }
      }
    }

    /**
     * One frame of the render loop: move the camera, then advance the
     * tutorial while it runs.
     */
    method RenderFrame(dt: real, axisX: Vec3, axisZ: Vec3) returns (requests: seq<PointerRequest>)
      requires Valid() && controls != null && scene != null
      modifies this`currentTutorialStep, this`tooltipText, this`tooltipVisible, this`isInTutorial
      modifies controls`position
      ensures Valid()
      ensures dt <= MaxFrameTime ==> controls.position == Step(old(controls.position), controls.move, dt, axisX, axisZ)
      ensures dt > MaxFrameTime ==> controls.position == old(controls.position)
      ensures !old(isInTutorial) ==>
                requests == [] && currentTutorialStep == old(currentTutorialStep) && !isInTutorial
                && tooltipText == old(tooltipText) && tooltipVisible == old(tooltipVisible)
      ensures old(isInTutorial) ==> TutorialUpdated(requests)
    {
      controls.Update(dt, axisX, axisZ);
      requests := [];
      if isInTutorial {
        requests := UpdateTutorial();
      }
    }

    /**
     * `openDetailPanel`: for a known artwork, fill the panel, mark it open,
     * release the pointer lock and, at tutorial step 3, end the tutorial;
     * an unknown id changes nothing.
     */
    method OpenDetailPanel(artId: string) returns (requests: seq<PointerRequest>)
      requires Valid()
      modifies this`panel, this`isPanelOpen, this`isInTutorial, this`tooltipVisible
      ensures Valid()
      ensures FindArt(artData, artId).None? ==> requests == [] && PanelKept()
      ensures FindArt(artData, artId).Some? ==>
                PanelOpened(FindArt(artData, artId).value)
                && requests == PanelRequests(isMobile, controls != null,
                                             old(isInTutorial) && currentTutorialStep == 3)
    {
      requests := [];
      var art := FindArt(artData, artId);
      if art.None? {
        return;
      }
      panel := Some(PanelFor(art.value, pageUrl, encode));
      isPanelOpen := true;
      requests := ReleaseForPanel();
    }

    /** Panel, tutorial and tooltip are as they were. */
    twostate predicate PanelKept()
      reads this
    {
      panel == old(panel) && isPanelOpen == old(isPanelOpen)
      && isInTutorial == old(isInTutorial) && tooltipVisible == old(tooltipVisible)
    }

    /**
     * The panel shows `art` and is open; at tutorial step 3 the tutorial
     * has ended and its tooltip is hidden, otherwise both are as they were.
     */
    twostate predicate PanelOpened(art: Art)
      reads this
    {
      panel == Some(PanelFor(art, pageUrl, encode)) && isPanelOpen
      && isInTutorial == (old(isInTutorial) && currentTutorialStep != 3)
      && tooltipVisible == (old(tooltipVisible) && !(old(isInTutorial) && currentTutorialStep == 3))
    }

    /**
     * What an interaction aimed at a target does: a plaque of a known
     * artwork opens that artwork's panel with the lock calls of
     * `openDetailPanel`; anything else changes nothing.
     */
    twostate predicate Interacted(target: Option<PlaqueData>, requests: seq<PointerRequest>)
      reads this
    {
      if target.Some? && target.value.kind == PlaqueKind && FindArt(artData, target.value.id).Some? then
        PanelOpened(FindArt(artData, target.value.id).value)
        && requests == PanelRequests(isMobile, controls != null,
                                     old(isInTutorial) && currentTutorialStep == 3)
      else requests == [] && PanelKept()
    }

    /** The pointer-lock handling of `openDetailPanel` once the panel is shown. */
    method ReleaseForPanel() returns (requests: seq<PointerRequest>)
      requires Valid()
      modifies this`isInTutorial, this`tooltipVisible
      ensures Valid()
      ensures isInTutorial == (old(isInTutorial) && currentTutorialStep != 3)
      ensures tooltipVisible == (old(tooltipVisible) && !(old(isInTutorial) && currentTutorialStep == 3))
      ensures requests == PanelRequests(isMobile, controls != null, old(isInTutorial) && currentTutorialStep == 3)
    {
      requests := [];
      if controls != null {
        var released := controls.UnlockPointer();
        if released {
          requests := [ExitLock];
        }
      }
      if isInTutorial && currentTutorialStep == 3 {
        var more := EndTutorial();
        requests := requests + more;
      }
    }

    /** `closeDetailPanel`: mark it closed and, on desktop outside the tutorial, ask for the lock. */
    method CloseDetailPanel() returns (requests: seq<PointerRequest>)
      modifies this`isPanelOpen
      ensures !isPanelOpen
      ensures requests == if controls != null && !isMobile && !isInTutorial then [RequestLock] else []
    {
      isPanelOpen := false;
      requests := [];
      if controls != null && !isMobile && !isInTutorial {
        var requested := controls.LockPointer();
        requests := [RequestLock];
      }
    }

    /**
     * `tryToInteract`: with scene and controls present, aim the ray, and
     * when it hits a plaque open that artwork's panel. `hitsAt` gives the
     * intersections of the ray through a point with the plaques.
     */
    method TryToInteract(isClick: bool, hitsAt: Point -> seq<Hit>) returns (threw: bool, requests: seq<PointerRequest>)
      requires Valid()
      modifies this`panel, this`isPanelOpen, this`isInTutorial, this`tooltipVisible
      ensures Valid()
      ensures threw <==> scene != null && controls != null && !isMobile && isClick
      ensures scene == null || controls == null || threw ==> requests == [] && PanelKept()
      ensures !threw && scene != null && controls != null ==>
                Interacted(CheckInteraction(hitsAt(AimAsWritten(isMobile, isClick, controls.lastTouch).point)),
                           requests)
    {
      threw, requests := false, [];
      if scene == null || controls == null {
        return;
      }
      var aim := AimAsWritten(isMobile, isClick, controls.lastTouch);
      if aim.TypeError? {
        threw := true;
        return;
      }
      var target := CheckInteraction(hitsAt(aim.point));
      if target.Some? && target.value.kind == PlaqueKind {
        requests := OpenDetailPanel(target.value.id);
      }
    }

    /** `toggleMute`: flip, store, and pass the new state to the scene if there is one. */
    method ToggleMute()
      modifies this`isMuted, this`storedMuted, {scene}`isMuted, {scene}`masterVolume, {scene}`ambient
      ensures isMuted == !old(isMuted)
      ensures storedMuted == Some(StoredMuted(isMuted))
      ensures MutedFromStorage(storedMuted) == isMuted
      ensures scene != null ==> scene.isMuted == isMuted && scene.masterVolume == (if isMuted then 0.0 else 1.0)
      ensures scene != null ==>
                scene.ambient == if !isMuted && old(scene.ambient).Some? then Some(true) else old(scene.ambient)
    {
      isMuted := !isMuted;
      storedMuted := Some(StoredMuted(isMuted));
      if scene != null {
        scene.SetMute(isMuted);
      }
    }

    /** The `keydown` listener: Escape closes an open panel; E interacts when no panel is open. */
    method OnKeyDown(key: string, hitsAt: Point -> seq<Hit>) returns (threw: bool, requests: seq<PointerRequest>)
      requires Valid()
      modifies this`panel, this`isPanelOpen, this`isInTutorial, this`tooltipVisible
      ensures Valid()
      ensures !threw
      ensures key == "Escape" && old(isPanelOpen) ==>
                !isPanelOpen && panel == old(panel) && isInTutorial == old(isInTutorial)
                && tooltipVisible == old(tooltipVisible)
                && requests == (if controls != null && !isMobile && !isInTutorial then [RequestLock] else [])
      ensures IsInteractKey(key) && old(isPanelOpen) ==> requests == [] && PanelKept()
      ensures IsInteractKey(key) && !old(isPanelOpen) ==>
                if scene != null && controls != null then Interacted(CheckInteraction(hitsAt(Point(0.0, 0.0))), requests)
                else requests == [] && PanelKept()
      ensures !IsInteractKey(key) && !(key == "Escape" && old(isPanelOpen)) ==> requests == [] && PanelKept()
    {
      threw, requests := false, [];
      if key == "Escape" && isPanelOpen {
        requests := CloseDetailPanel();
      }
      if IsInteractKey(key) && !isPanelOpen {
        threw, requests := TryToInteract(false, hitsAt);
      }
    }

    /**
     * The `mousedown` listener: ignored while the panel is open; a press
     * on the scene is a click interaction.
     */
    method OnMouseDown(onScene: bool, hitsAt: Point -> seq<Hit>) returns (threw: bool, requests: seq<PointerRequest>)
      requires Valid()
      modifies this`panel, this`isPanelOpen, this`isInTutorial, this`tooltipVisible
      ensures Valid()
      ensures old(isPanelOpen) || !onScene ==> !threw && requests == [] && PanelKept()
      ensures !old(isPanelOpen) && onScene ==> (threw <==> scene != null && controls != null && !isMobile)
      ensures !old(isPanelOpen) && onScene && (scene == null || controls == null || threw) ==>
                requests == [] && PanelKept()
      ensures !old(isPanelOpen) && onScene && scene != null && controls != null && isMobile ==>
                Interacted(CheckInteraction(hitsAt(controls.lastTouch)), requests)
    {
      threw, requests := false, [];
      if isPanelOpen {
        return;
      }
      if onScene {
        threw, requests := TryToInteract(true, hitsAt);
      }
    }
  }
}
