/**
 * The dialog and input state of the password-manager window: whether the
 * open-file dialog or the confirm-quit dialog is shown, what has been typed
 * into the open-file dialog, whether quitting has been allowed, and the
 * files dropped onto the window that are still to be dealt with.
 */
module UiState {
  import opened Wrappers
  import opened DroppedFiles

  /** The persisted settings. */
  datatype Config = Config(darkMode: bool)

  /** The whole of a `UiState` as a value. */
  datatype StateValue = StateValue(
    showOpenFileDialog: bool,
    filePath: Option<string>,
    password: string,
    keyfile: Option<string>,
    showConfirmQuitDialog: bool,
    allowedToQuit: bool,
    droppedFiles: seq<DroppedFile>,
    config: Config)

  /** The state a window starts in (`UiState::default()`). */
  const DefaultState: StateValue :=
    StateValue(false, None, "", None, false, false, [], Config(false))

  /** The operations of `UiState` that change it. */
  datatype Event =
    | ShowOpenFileDialog
    | DealWithDroppedFiles
    | ConfirmOpenFileDialog
    | CancelOpenFileDialog
    | ShowConfirmQuitDialog
    | QuitConfirmQuitDialog
    | CancelConfirmQuitDialog

  /** At most one of the two dialogs is shown. */
  predicate DialogsExclusive(s: StateValue) {
    !(s.showOpenFileDialog && s.showConfirmQuitDialog)
  }

  /** The open-file dialog's three inputs are empty. */
  predicate InputsCleared(s: StateValue) {
    s.filePath.None? && s.password == "" && s.keyfile.None?
  }

  /** The state after opening the open-file dialog afresh. */
  function AfterShowOpenFileDialog(s: StateValue): StateValue {
    s.(showOpenFileDialog := true, showConfirmQuitDialog := false,
       filePath := None, password := "", keyfile := None)
  }

  /** The state after the dialog is closed, by confirming or by cancelling it. */
  function AfterCloseOpenFileDialog(s: StateValue): StateValue {
    s.(showOpenFileDialog := false, filePath := None, password := "", keyfile := None)
  }

  /** The state after the dropped files are dealt with. */
  function AfterDealWithDroppedFiles(s: StateValue): StateValue {
    match DroppedTarget(s.droppedFiles)
    case Some(p) => AfterShowOpenFileDialog(s).(filePath := Some(p), droppedFiles := [])
    case None => s.(droppedFiles := [])
  }

  /** The state after one operation. */
  function Step(s: StateValue, e: Event): StateValue {
    match e
    case ShowOpenFileDialog => AfterShowOpenFileDialog(s)
    case DealWithDroppedFiles => AfterDealWithDroppedFiles(s)
    case ConfirmOpenFileDialog => AfterCloseOpenFileDialog(s)
    case CancelOpenFileDialog => AfterCloseOpenFileDialog(s)
    case ShowConfirmQuitDialog => s.(showOpenFileDialog := false, showConfirmQuitDialog := true)
    case QuitConfirmQuitDialog => s.(allowedToQuit := true, showConfirmQuitDialog := false)
    case CancelConfirmQuitDialog => s.(showConfirmQuitDialog := false)
  }

  /** The state after a sequence of operations, in order. */
  function Run(s: StateValue, events: seq<Event>): StateValue
    decreases |events|
  {
    if events == [] then s else Run(Step(s, events[0]), events[1..])
  }

  class UiState {
    var showOpenFileDialog: bool
    var filePath: Option<string>
    var password: string
    var keyfile: Option<string>
    var showConfirmQuitDialog: bool
    var allowedToQuit: bool
    var droppedFiles: seq<DroppedFile>
    var config: Config

    /** The fields of this object as one value. */
    function Value(): StateValue
      reads this
    {
      StateValue(showOpenFileDialog, filePath, password, keyfile,
                 showConfirmQuitDialog, allowedToQuit, droppedFiles, config)
    }

    /** `UiState::default()`. */
    constructor ()
      ensures Value() == DefaultState
      ensures !showOpenFileDialog && !showConfirmQuitDialog && !allowedToQuit
    {
      showOpenFileDialog := false;
      filePath := None;
      password := "";
      keyfile := None;
      showConfirmQuitDialog := false;
      allowedToQuit := false;
      droppedFiles := [];
      config := Config(false);
    }

    method OnShowOpenFileDialog()
      modifies this
      ensures showOpenFileDialog && !showConfirmQuitDialog
      ensures filePath == None && password == "" && keyfile == None
      ensures allowedToQuit == old(allowedToQuit) && droppedFiles == old(droppedFiles)
      ensures config == old(config)
      ensures Value() == Step(old(Value()), Event.ShowOpenFileDialog)
      ensures DialogsExclusive(Value())
    {
      showOpenFileDialog := true;
      showConfirmQuitDialog := false;
      filePath := None;
      password := "";
      keyfile := None;
    }

    function IsFilesBeingDropped(): (b: bool)
      reads this
      ensures b <==> |droppedFiles| > 0
    {
      droppedFiles != []
    }

    method DealWithDroppedFiles()
      modifies this
      ensures droppedFiles == [] && !IsFilesBeingDropped()
      ensures DroppedTarget(old(droppedFiles)).Some? ==>
        showOpenFileDialog && !showConfirmQuitDialog &&
        filePath == DroppedTarget(old(droppedFiles)) && password == "" && keyfile == None
      ensures DroppedTarget(old(droppedFiles)).None? ==>
        old(Value()).(droppedFiles := []) == Value()
      ensures allowedToQuit == old(allowedToQuit) && config == old(config)
      ensures Value() == Step(old(Value()), Event.DealWithDroppedFiles)
      ensures DialogsExclusive(old(Value())) ==> DialogsExclusive(Value())
    {
      var found: Option<string> := None;
      var i := 0;
      while i < |droppedFiles|
        invariant 0 <= i <= |droppedFiles|
        invariant forall j :: 0 <= j < i ==> !IsKdbx(droppedFiles[j])
        invariant found == None
      {
        var file := droppedFiles[i];
        var info := if file.path.Some? then file.path.value
                    else if file.name != [] then file.name
                    else UnknownInfo;
        if EndsWithKdbx(info) {
          assert IsKdbx(droppedFiles[i]);
          FirstKdbxUnique(droppedFiles, i);
          found := file.path;
          break;
        }
        i := i + 1;
      }
      assert found == DroppedTarget(droppedFiles);
      if found.Some? {
        OnShowOpenFileDialog();
        filePath := found;
      }
      droppedFiles := [];
    }

    function IsOpenFileDialogVisible(): (b: bool)
      reads this
      ensures b <==> showOpenFileDialog
    {
      showOpenFileDialog
    }

    /** Closes the dialog and hands back what was entered in it, leaving the inputs empty. */
    method OnOpenFileDialogConfirm() returns (path: Option<string>, pass: string, key: Option<string>)
      modifies this
      ensures path == old(filePath) && pass == old(password) && key == old(keyfile)
      ensures !showOpenFileDialog && filePath == None && password == "" && keyfile == None
      ensures showConfirmQuitDialog == old(showConfirmQuitDialog) && allowedToQuit == old(allowedToQuit)
      ensures droppedFiles == old(droppedFiles) && config == old(config)
      ensures Value() == Step(old(Value()), Event.ConfirmOpenFileDialog)
      ensures DialogsExclusive(Value())
    {
      showOpenFileDialog := false;
      pass := password;
      password := "";
      path := filePath;
      filePath := None;
      key := keyfile;
      keyfile := None;
    }

    method OnOpenFileDialogCancel()
      modifies this
      ensures !showOpenFileDialog && filePath == None && password == "" && keyfile == None
      ensures showConfirmQuitDialog == old(showConfirmQuitDialog) && allowedToQuit == old(allowedToQuit)
      ensures droppedFiles == old(droppedFiles) && config == old(config)
      ensures Value() == Step(old(Value()), Event.CancelOpenFileDialog)
      ensures DialogsExclusive(Value())
    {
      showOpenFileDialog := false;
      password := "";
      filePath := None;
      keyfile := None;
    }

    method OnShowConfirmQuitDialog()
      modifies this
      ensures !showOpenFileDialog && showConfirmQuitDialog
      ensures old(Value()).(showOpenFileDialog := false, showConfirmQuitDialog := true) == Value()
      ensures Value() == Step(old(Value()), Event.ShowConfirmQuitDialog)
      ensures DialogsExclusive(Value())
    {
      showOpenFileDialog := false;
      showConfirmQuitDialog := true;
    }

    method OnConfirmQuitDialogQuit()
      modifies this
      ensures allowedToQuit && !showConfirmQuitDialog
      ensures old(Value()).(allowedToQuit := true, showConfirmQuitDialog := false) == Value()
      ensures Value() == Step(old(Value()), Event.QuitConfirmQuitDialog)
      ensures DialogsExclusive(Value())
    {
      allowedToQuit := true;
      showConfirmQuitDialog := false;
    }

    method OnConfirmQuitDialogCancel()
      modifies this
      ensures !showConfirmQuitDialog
      ensures old(Value()).(showConfirmQuitDialog := false) == Value()
      ensures Value() == Step(old(Value()), Event.CancelConfirmQuitDialog)
      ensures DialogsExclusive(Value())
    {
      showConfirmQuitDialog := false;
    }

    function IsConfirmQuitDialogVisible(): (b: bool)
      reads this
      ensures b <==> showConfirmQuitDialog
    {
      showConfirmQuitDialog
    }

    function IsAllowedToQuit(): (b: bool)
      reads this
      ensures b <==> allowedToQuit
    {
      allowedToQuit
    }
  }
}
