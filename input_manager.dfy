/** The input manager of the Swing viewer (InputManager): it decides which
    of the camera and the model receives input, keeps a table of hotkeys
    and forwards mouse and key events to the camera controller while camera
    control is enabled. The controllers it drives are not part of this
    model: every call into them is recorded, in order, as a ControllerCall. */
module InputManagers {
  type KeyCode = int

  /** The java.awt.event.KeyEvent codes the manager binds. */
  const VK_ENTER: KeyCode := 10
  const VK_TAB: KeyCode := 9
  const VK_ESCAPE: KeyCode := 27
  const VK_C: KeyCode := 67
  const VK_M: KeyCode := 77
  const VK_R: KeyCode := 82
  const VK_F1: KeyCode := 112
  const VK_F2: KeyCode := 113
  const VK_F3: KeyCode := 114

  datatype ControlFocus = CAMERA | MODEL | UI

  /** The Runnable bound to a key: one of the built-in lambdas, or one a
      caller registered with addHotkey, known by an identity. */
  datatype Action =
    | ToggleCamera | ToggleModel | SwitchFocus | ResetAll
    | ShowHelp | SaveViewpoint | LoadViewpoint
    | ResetModel | ApplyModel
    | Custom(id: nat)

  /** The events the manager hands on to the camera controller. */
  datatype InputEvent =
    | MousePress | MouseRelease | MouseDrag | MouseWheel
    | KeyPress(key: KeyCode) | KeyRelease(key: KeyCode) | Tick

  /** A call out of the manager. */
  datatype ControllerCall =
    | CameraReset | ModelReset | ModelApplied
    | HelpShown | ViewpointSaved | ViewpointLoaded
    | CustomRun(id: nat)
    | CameraEvent(event: InputEvent)

  /** switchControlFocus: CAMERA and MODEL swap, UI goes back to CAMERA. */
  function NextFocus(focus: ControlFocus): (r: ControlFocus)
    ensures r != UI
    ensures focus != UI ==> r != focus
  {
    match focus
    case CAMERA => MODEL
    case MODEL => CAMERA
    case UI => CAMERA
  }

  /** Switching twice from CAMERA or MODEL comes back; from UI it lands on
      MODEL. */
  lemma SwitchTwice(focus: ControlFocus)
    ensures focus != UI ==> NextFocus(NextFocus(focus)) == focus
    ensures focus == UI ==> NextFocus(NextFocus(focus)) == MODEL
  {
  }

  /** The hotkeys setupHotkeys puts into the table: C, M, TAB, ESCAPE and
      F1 to F3 always, R and ENTER only when a model controller is present.
      Keys already in the table keep their binding unless overwritten. */
  function WithDefaults(hotkeys: map<KeyCode, Action>, hasModelController: bool): (r: map<KeyCode, Action>)
    ensures r.Keys == hotkeys.Keys + DefaultKeys(hasModelController)
    ensures r[VK_C] == ToggleCamera && r[VK_M] == ToggleModel && r[VK_TAB] == SwitchFocus
    ensures r[VK_ESCAPE] == ResetAll && r[VK_F1] == ShowHelp && r[VK_F2] == SaveViewpoint && r[VK_F3] == LoadViewpoint
    ensures hasModelController ==> r[VK_R] == ResetModel && r[VK_ENTER] == ApplyModel
    ensures forall k :: k in hotkeys && k !in DefaultKeys(hasModelController) ==> k in r && r[k] == hotkeys[k]
  {
    var base := hotkeys[VK_C := ToggleCamera][VK_M := ToggleModel][VK_TAB := SwitchFocus]
                       [VK_ESCAPE := ResetAll][VK_F1 := ShowHelp][VK_F2 := SaveViewpoint][VK_F3 := LoadViewpoint];
    if hasModelController then base[VK_R := ResetModel][VK_ENTER := ApplyModel] else base
  }

  /** The keys setupHotkeys binds. */
  function DefaultKeys(hasModelController: bool): set<KeyCode>
  {
    {VK_C, VK_M, VK_TAB, VK_ESCAPE, VK_F1, VK_F2, VK_F3} + (if hasModelController then {VK_R, VK_ENTER} else {})
  }

  class InputManager {
    /** Whether modelController is non-null. */
    var hasModelController: bool
    var cameraControlEnabled: bool
    var modelControlEnabled: bool
    var currentFocus: ControlFocus
    var hotkeys: map<KeyCode, Action>
    /** Every call into the camera or model controller so far, oldest first. */
    var calls: seq<ControllerCall>

    /** The two flags follow the focus: CAMERA gives (on, off), MODEL gives
        (off, on) and UI gives (off, off). */
    predicate FlagsMatchFocus()
      reads this
    {
      cameraControlEnabled == (currentFocus == CAMERA) && modelControlEnabled == (currentFocus == MODEL)
    }

    /** new InputManager(camera): focus CAMERA, camera control on, model
        control off, no model controller, and the seven hotkeys that do not
        need one. */
    constructor()
      ensures currentFocus == CAMERA && cameraControlEnabled && !modelControlEnabled
      ensures FlagsMatchFocus()
      ensures !hasModelController && calls == []
      ensures hotkeys == WithDefaults(map[], false)
      ensures VK_R !in hotkeys && VK_ENTER !in hotkeys
    {
      hasModelController := false;
      cameraControlEnabled, modelControlEnabled := true, false;
      currentFocus := CAMERA;
      calls := [];
      hotkeys := WithDefaults(map[], false);
    }

    /** new InputManager(camera, modelController): the one-argument
        constructor runs setupHotkeys first and only then stores the model
        controller, so R and ENTER stay unbound. */
    constructor WithModelController(hasModelController: bool)
      ensures currentFocus == CAMERA && cameraControlEnabled && !modelControlEnabled
      ensures this.hasModelController == hasModelController && calls == []
      ensures hotkeys == WithDefaults(map[], false)
      ensures VK_R !in hotkeys && VK_ENTER !in hotkeys
    {
      this.hasModelController := false;
      cameraControlEnabled, modelControlEnabled := true, false;
      currentFocus := CAMERA;
      calls := [];
      hotkeys := WithDefaults(map[], false);
      this.hasModelController := hasModelController;
    }

    /** setModelController: stores it and runs setupHotkeys again, which
        rebinds the seven common keys and, for a present controller, R and
        ENTER; a binding R or ENTER had before survives a null. */
    method SetModelController(hasModelController: bool)
      modifies this`hasModelController, this`hotkeys
      ensures this.hasModelController == hasModelController
      ensures hotkeys == WithDefaults(old(hotkeys), hasModelController)
      ensures hasModelController ==> hotkeys[VK_R] == ResetModel && hotkeys[VK_ENTER] == ApplyModel
    {
      this.hasModelController := hasModelController;
      hotkeys := WithDefaults(hotkeys, hasModelController);
    }

    /** updateControlStates: the flags are set from the focus. */
    method UpdateControlStates()
      modifies this`cameraControlEnabled, this`modelControlEnabled
      ensures FlagsMatchFocus()
    {
      match currentFocus
      case CAMERA =>
        cameraControlEnabled, modelControlEnabled := true, false;
      case MODEL =>
        cameraControlEnabled, modelControlEnabled := false, true;
      case UI =>
        cameraControlEnabled, modelControlEnabled := false, false;
    }

    /** switchControlFocus: the next focus, then the flags follow it. */
    method SwitchControlFocus()
      modifies this`currentFocus, this`cameraControlEnabled, this`modelControlEnabled
      ensures currentFocus == NextFocus(old(currentFocus))
      ensures FlagsMatchFocus()
    {
      match currentFocus {
        case CAMERA =>
          currentFocus := MODEL;
        case MODEL =>
          currentFocus := CAMERA;
        case UI =>
          currentFocus := CAMERA;
      }
      UpdateControlStates();
    }

    /** setCurrentFocus: any focus, UI included, then the flags follow it. */
    method SetCurrentFocus(focus: ControlFocus)
      modifies this`currentFocus, this`cameraControlEnabled, this`modelControlEnabled
      ensures currentFocus == focus
      ensures FlagsMatchFocus()
    {
      currentFocus := focus;
      UpdateControlStates();
    }

    /** setCameraControlEnabled: the flag is stored; enabling also moves the
        focus to CAMERA, but the model flag is left as it was. */
    method SetCameraControlEnabled(enabled: bool)
      modifies this`cameraControlEnabled, this`currentFocus
      ensures cameraControlEnabled == enabled
      ensures currentFocus == if enabled then CAMERA else old(currentFocus)
    {
      cameraControlEnabled := enabled;
      if enabled {
        currentFocus := CAMERA;
      }
    }

    /** setModelControlEnabled: the flag is stored; enabling also moves the
        focus to MODEL, but the camera flag is left as it was. */
    method SetModelControlEnabled(enabled: bool)
      modifies this`modelControlEnabled, this`currentFocus
      ensures modelControlEnabled == enabled
      ensures currentFocus == if enabled then MODEL else old(currentFocus)
    {
      modelControlEnabled := enabled;
      if enabled {
        currentFocus := MODEL;
      }
    }

    /** addHotkey: put, replacing an earlier binding of the key. */
    method AddHotkey(keyCode: KeyCode, id: nat)
      modifies this`hotkeys
      ensures hotkeys == old(hotkeys)[keyCode := Custom(id)]
    {
      hotkeys := hotkeys[keyCode := Custom(id)];
    }

    /** removeHotkey: remove; an unbound key changes nothing. */
    method RemoveHotkey(keyCode: KeyCode)
      modifies this`hotkeys
      ensures hotkeys == old(hotkeys) - {keyCode}
      ensures keyCode !in old(hotkeys) ==> hotkeys == old(hotkeys)
    {
      hotkeys := hotkeys - {keyCode};
    }

    /** Running a bound action. C and M flip their own flag and nothing
        else; TAB switches the focus; the rest call out. R and ENTER read the
        model controller when they run, so with none present they throw. */
    method RunAction(action: Action) returns (thrown: bool)
      modifies this`cameraControlEnabled, this`modelControlEnabled, this`currentFocus, this`calls
      ensures thrown <==> (action == ResetModel || action == ApplyModel) && !hasModelController
      ensures action == ToggleCamera ==>
                cameraControlEnabled == !old(cameraControlEnabled) && modelControlEnabled == old(modelControlEnabled)
                && currentFocus == old(currentFocus) && calls == old(calls)
      ensures action == ToggleModel ==>
                modelControlEnabled == !old(modelControlEnabled) && cameraControlEnabled == old(cameraControlEnabled)
                && currentFocus == old(currentFocus) && calls == old(calls)
      ensures action == SwitchFocus ==>
                currentFocus == NextFocus(old(currentFocus)) && FlagsMatchFocus() && calls == old(calls)
      ensures action !in {ToggleCamera, ToggleModel, SwitchFocus} ==>
                cameraControlEnabled == old(cameraControlEnabled) && modelControlEnabled == old(modelControlEnabled)
                && currentFocus == old(currentFocus)
      ensures calls == old(calls) + ActionCalls(action, hasModelController)
    {
      thrown := false;
      match action
      case ToggleCamera =>
        cameraControlEnabled := !cameraControlEnabled;
      case ToggleModel =>
        modelControlEnabled := !modelControlEnabled;
      case SwitchFocus =>
        SwitchControlFocus();
      case ResetAll =>
        calls := calls + [CameraReset];
        if hasModelController {
          calls := calls + [ModelReset];
        }
      case ShowHelp =>
        calls := calls + [HelpShown];
      case SaveViewpoint =>
        calls := calls + [ViewpointSaved];
      case LoadViewpoint =>
        calls := calls + [ViewpointLoaded];
      case ResetModel =>
        if hasModelController {
          calls := calls + [ModelReset];
        } else {
          thrown := true;
        }
      case ApplyModel =>
        if hasModelController {
          calls := calls + [ModelApplied];
        } else {
          thrown := true;
        }
      case Custom(id) =>
        calls := calls + [CustomRun(id)];
    }

    /** keyPressed: a bound key runs its action; then the event goes to the
        camera controller iff camera control is enabled after that action.
        An action that throws ends the call. */
    method KeyPressed(key: KeyCode) returns (thrown: bool)
      modifies this`cameraControlEnabled, this`modelControlEnabled, this`currentFocus, this`calls
      ensures key !in hotkeys ==>
                !thrown && cameraControlEnabled == old(cameraControlEnabled)
                && modelControlEnabled == old(modelControlEnabled) && currentFocus == old(currentFocus)
      ensures key !in hotkeys ==>
                calls == old(calls) + (if cameraControlEnabled then [CameraEvent(KeyPress(key))] else [])
      ensures key in hotkeys ==>
                (thrown <==> (hotkeys[key] == ResetModel || hotkeys[key] == ApplyModel) && !hasModelController)
      ensures key in hotkeys && !thrown ==>
                calls == old(calls) + ActionCalls(hotkeys[key], hasModelController)
                         + (if cameraControlEnabled then [CameraEvent(KeyPress(key))] else [])
      ensures key in hotkeys && thrown ==> calls == old(calls)
      ensures key in hotkeys && hotkeys[key] == ToggleCamera ==>
                cameraControlEnabled == !old(cameraControlEnabled) && modelControlEnabled == old(modelControlEnabled)
                && currentFocus == old(currentFocus)
      ensures key in hotkeys && hotkeys[key] == ToggleModel ==>
                modelControlEnabled == !old(modelControlEnabled) && cameraControlEnabled == old(cameraControlEnabled)
                && currentFocus == old(currentFocus)
      ensures key in hotkeys && hotkeys[key] == SwitchFocus ==>
                currentFocus == NextFocus(old(currentFocus)) && FlagsMatchFocus()
      ensures key in hotkeys && hotkeys[key] !in {ToggleCamera, ToggleModel, SwitchFocus} ==>
                cameraControlEnabled == old(cameraControlEnabled) && modelControlEnabled == old(modelControlEnabled)
                && currentFocus == old(currentFocus)
    {
      thrown := false;
      if key in hotkeys {
        thrown := RunAction(hotkeys[key]);
        if thrown {
          return;
        }
      }
      if cameraControlEnabled {
        calls := calls + [CameraEvent(KeyPress(key))];
      }
    }

    /** mousePressed, mouseReleased, mouseDragged, mouseWheelMoved,
        keyReleased and update: forwarded iff camera control is enabled. */
    method Delegate(event: InputEvent)
      requires !event.KeyPress?
      modifies this`calls
      ensures calls == old(calls) + (if cameraControlEnabled then [CameraEvent(event)] else [])
    {
      if cameraControlEnabled {
        calls := calls + [CameraEvent(event)];
      }
    }
  }

  /** The calls an action makes into the controllers. */
  function ActionCalls(action: Action, hasModelController: bool): seq<ControllerCall>
  {
    match action
    case ResetAll => [CameraReset] + (if hasModelController then [ModelReset] else [])
    case ShowHelp => [HelpShown]
    case SaveViewpoint => [ViewpointSaved]
    case LoadViewpoint => [ViewpointLoaded]
    case ResetModel => if hasModelController then [ModelReset] else []
    case ApplyModel => if hasModelController then [ModelApplied] else []
    case Custom(id) => [CustomRun(id)]
    case _ => []
  }

  /** Setting a model controller and then null keeps R and ENTER bound to
      the model actions, which then throw when pressed. */
  lemma NullControllerKeepsModelKeys(hotkeys: map<KeyCode, Action>)
    ensures WithDefaults(WithDefaults(hotkeys, true), false)[VK_R] == ResetModel
    ensures WithDefaults(WithDefaults(hotkeys, true), false)[VK_ENTER] == ApplyModel
  {
    assert VK_R !in DefaultKeys(false) && VK_ENTER !in DefaultKeys(false);
  }
}
