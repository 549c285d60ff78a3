# mypass: the dialog and input state of the window

mypass is a desktop KeePass front end. Its window keeps one `UiState`
(src/uistate.rs). That state says:

- whether the open-file dialog is shown, and what has been typed into it (the
  database path, the password and the key-file path);
- whether the confirm-quit dialog is shown, and whether quitting has been allowed;
- which files were dropped onto the window and have not yet been dealt with;
- the persisted settings (`Config`, the dark-mode switch).

This project models that state and its operations in Dafny.

- `DroppedFiles` (dropped_files.dfy) models a dropped file as its optional
  path and its name. It defines the "info" text the scan reads: the path if
  there is one, else the name if it is not empty, else `???`. It also defines
  the search for the first file whose info ends with `.kdbx`. Lemmas fix the
  order of that search, say which path it hands back, and show that files
  after the first match are ignored.
- `UiState` (uistate.dfy) is the class. Its fields mirror the Rust struct and
  its methods change them in place. Each method states the new value of
  every field. It also ties the new state to `Step`, a function on the
  state's value (`StateValue`) describing each operation (`Event`).
  `DealWithDroppedFiles` keeps the source's `for` loop with its `break`.
- `UiStateProperties` (uistate_properties.dfy) proves what the operations
  keep true, over one step and over any sequence of steps (`Run`):
  - the two dialogs are never shown together;
  - the quit latch only ever goes from false to true, and only on "quit";
  - no `UiState` method changes the settings;
  - the dropped-file buffer is empty after every scan;
  - confirming and cancelling leave the same state and empty inputs.

Paths are strings: `PathBuf` and `path.display().to_string()` are taken as
the identity. `str::ends_with(".kdbx")` compares bytes. Because the suffix is
ASCII, this is the same as comparing the last five characters one by one
(`EndsWithKdbx`). The lemma `EndsWithKdbxSuffix` shows that this equals a
suffix comparison.

## Model

| member | source | states |
|---|---|---|
| DroppedFiles.EndsWithKdbxSuffix | src/uistate.rs:47 | the character-by-character test for ".kdbx" holds exactly when the last five characters of the text are ".kdbx" |
| DroppedFiles.FirstKdbxFrom | src/uistate.rs:39-51 | from a given index on, the scan stops at the first file that matches, with no match between that index and it; it finds none exactly when no file from there on matches |
| DroppedFiles.FirstKdbx | src/uistate.rs:39-51 | the scan stops at the first file whose info (the path, else a non-empty name, else "???") ends with ".kdbx"; it finds none exactly when no file's info does |
| DroppedFiles.FirstKdbxUnique | src/uistate.rs:47-50 | a match with no match before it is the one the scan stops at |
| DroppedFiles.DroppedTargetCons | src/uistate.rs:39-51 | the scan takes the first file's path if that file matches, and otherwise goes on with the rest |
| DroppedFiles.UnknownFileNeverMatches | src/uistate.rs:44-47 | a file with no path and an empty name gets the info "???", which never matches |
| DroppedFiles.DroppedTargetIsKdbxPath | src/uistate.rs:40-48 | a path the scan hands back belongs to one of the dropped files and ends with ".kdbx" |
| DroppedFiles.DroppedTargetNone | src/uistate.rs:38-52 | the scan hands back nothing exactly when no file matches, or when the first match has no path (it matched by name) |
| DroppedFiles.LaterFilesIgnored | src/uistate.rs:47-50 | once a match has been found, files after it do not change the outcome |
| DroppedFiles.NonMatchingPrefixSkipped | src/uistate.rs:39-51 | files that do not match, put before the others, do not change the outcome |
| UiState.UiState.constructor | src/uistate.rs:9-22 | the default state: no dialog shown, empty inputs, quitting not allowed, no dropped files, dark mode off |
| UiState.UiState.OnShowOpenFileDialog | src/uistate.rs:25-31 | shows the open dialog and hides the quit dialog; clears the path, password and key file; leaves the latch, the buffer and the settings alone; afterwards at most one dialog is shown |
| UiState.UiState.IsFilesBeingDropped | src/uistate.rs:33-35 | true exactly when the dropped-file buffer is not empty |
| UiState.UiState.DealWithDroppedFiles | src/uistate.rs:37-58 | empties the buffer; if the first match has a path, opens the dialog afresh on that path, otherwise no other field changes; if at most one dialog was shown before, the same holds after |
| UiState.UiState.IsOpenFileDialogVisible | src/uistate.rs:60-62 | true exactly when the open dialog is shown |
| UiState.UiState.OnOpenFileDialogConfirm | src/uistate.rs:64-68 | hands back the path, password and key file as they were; hides the open dialog and clears the three inputs; the quit flags, the buffer and the settings are untouched; afterwards at most one dialog is shown |
| UiState.UiState.OnOpenFileDialogCancel | src/uistate.rs:70-75 | hides the open dialog and clears the three inputs; nothing else changes; afterwards at most one dialog is shown |
| UiState.UiState.OnShowConfirmQuitDialog | src/uistate.rs:77-80 | shows the quit dialog and hides the open dialog; nothing else changes; afterwards at most one dialog is shown |
| UiState.UiState.OnConfirmQuitDialogQuit | src/uistate.rs:82-85 | allows quitting and hides the quit dialog; nothing else changes; afterwards at most one dialog is shown |
| UiState.UiState.OnConfirmQuitDialogCancel | src/uistate.rs:87-89 | hides the quit dialog; nothing else changes; afterwards at most one dialog is shown |
| UiState.UiState.IsConfirmQuitDialogVisible | src/uistate.rs:91-93 | true exactly when the quit dialog is shown |
| UiState.UiState.IsAllowedToQuit | src/uistate.rs:95-97 | true exactly when quitting has been allowed |
| UiStateProperties.DefaultDialogsExclusive | src/uistate.rs:9-22 | the default state shows neither dialog |
| UiStateProperties.StepKeepsDialogsExclusive | src/uistate.rs:24-98 | every operation except the drop scan leaves at most one dialog shown, from any state; the drop scan keeps that true |
| UiStateProperties.RunKeepsDialogsExclusive | src/uistate.rs:24-98 | across any sequence of operations, the two dialogs are never shown together once they are not |
| UiStateProperties.DefaultRunDialogsExclusive | src/uistate.rs:9-98 | starting from the default state, no sequence of operations shows both dialogs |
| UiStateProperties.StepAllowedToQuit | src/uistate.rs:82-85 | only "quit" writes the latch, always to true, and it hides the quit dialog |
| UiStateProperties.RunAllowedToQuit | src/uistate.rs:82-97 | after any sequence of operations, quitting is allowed exactly when it already was or a "quit" took place |
| UiStateProperties.RunAllowedToQuitMonotone | src/uistate.rs:82-85 | once quitting is allowed, it stays allowed |
| UiStateProperties.RunKeepsConfig | src/uistate.rs:5-21 | no `UiState` method changes the settings, over any sequence of those methods |
| UiStateProperties.RunDroppedFiles | src/uistate.rs:57 | after any sequence of operations the buffer is empty if a scan took place, and unchanged otherwise |
| UiStateProperties.ShowOpenFileDialogResets | src/uistate.rs:25-31 | opening the dialog shows it alone with empty inputs and keeps the latch, the buffer and the settings; opening it twice is the same as once |
| UiStateProperties.CloseOpenFileDialog | src/uistate.rs:64-75 | confirming and cancelling leave the same state: dialog hidden, inputs empty, quit flags untouched |
| UiStateProperties.DealWithDroppedFilesOutcome | src/uistate.rs:47-57 | a scan leaves the buffer empty; with a matching path it equals opening the dialog and then setting that path, which ends with ".kdbx"; otherwise only the buffer changes |
| UiStateProperties.DealWithDroppedFilesTwice | src/uistate.rs:52-57 | a second scan right after the first changes nothing |
| UiStateProperties.NameOnlyMatchOpensNothing | src/uistate.rs:42-52 | when the first file has no path and a name ending with ".kdbx", the scan opens nothing, whatever follows it |

## Left out

- The rest of `egui::DroppedFile` (MIME type, modification time, bytes): the scan never reads these fields.
- The way the window fills the dropped-file buffer (src/appui.rs:356-365): this is plain code in the window's update loop that assigns the field directly. It is not a `UiState` operation, so `Event` has no case for it.
- Direct field writes by the window code: it replaces `config` with the loaded settings right after `UiState::default()` (src/appui.rs:32-33), flips `config.dark_mode` on the field (src/appui.rs:165), and writes `file_path` (src/appui.rs:229), `password` (src/appui.rs:241) and `keyfile` (src/appui.rs:247) from the file pickers and the password box. These are not `UiState` methods, so `Event` has no case for them; `Run`, `RunKeepsConfig` and the other run lemmas describe only sequences of `UiState` method calls. None of these writes touches the dialog flags or the quit latch.
- `on_close_event` (src/appui.rs:327-330), which shows the quit dialog and returns the latch: this is window glue. The two `UiState` operations it calls are modelled.
- Rendering, layout, file pickers and the tree view (src/appui.rs, src/app.rs, src/tree.rs, src/uitree.rs): these are user-interface drawing code.
- Opening a database (src/keepass.rs): all KDBX parsing, key derivation and decryption happen inside the external `keepass` crate, which is not part of this model.
- Font discovery (src/fonts.rs), error conversions (src/error.rs) and start-up (src/main.rs): these are process, file-system and logging glue.
- JSON persistence of `Config` and the conversions between `PathBuf` and text: paths are plain strings, and `Config` is a plain value.
- `String` capacity: `password.clear()` and `std::mem::take` are both modelled as producing the empty string.
