/**
 * What the operations of `UiState` keep true, one operation at a time and
 * over any sequence of operations.
 */
module UiStateProperties {
  import opened Wrappers
  import opened DroppedFiles
  import opened UiState

  /** A window starts with neither dialog shown. */
  lemma DefaultDialogsExclusive()
    ensures DialogsExclusive(DefaultState)
    ensures !DefaultState.showOpenFileDialog && !DefaultState.showConfirmQuitDialog
  {
  }

  /**
   * No operation shows both dialogs: every operation but the dropped-file one
   * leaves at most one shown from any state, and that one keeps exclusivity.
   */
  lemma StepKeepsDialogsExclusive(s: StateValue, e: Event)
    ensures e != Event.DealWithDroppedFiles ==> DialogsExclusive(Step(s, e))
    ensures DialogsExclusive(s) ==> DialogsExclusive(Step(s, e))
  {
  }

  lemma {:induction false} RunKeepsDialogsExclusive(s: StateValue, events: seq<Event>)
    requires DialogsExclusive(s)
    ensures DialogsExclusive(Run(s, events))
    decreases |events|
  {
    if events != [] {
      StepKeepsDialogsExclusive(s, events[0]);
      RunKeepsDialogsExclusive(Step(s, events[0]), events[1..]);
    }
  }

  /** From the default state the two dialogs are never shown together. */
  lemma DefaultRunDialogsExclusive(events: seq<Event>)
    ensures DialogsExclusive(Run(DefaultState, events))
  {
    RunKeepsDialogsExclusive(DefaultState, events);
  }

  /** Only the quit operation writes the latch, and it writes true and hides the quit dialog. */
  lemma StepAllowedToQuit(s: StateValue, e: Event)
    ensures Step(s, e).allowedToQuit <==> s.allowedToQuit || e == Event.QuitConfirmQuitDialog
    ensures e == Event.QuitConfirmQuitDialog ==> !Step(s, e).showConfirmQuitDialog
  {
  }

  /** After a sequence of operations quitting is allowed exactly when it was before or a quit came. */
  lemma {:induction false} RunAllowedToQuit(s: StateValue, events: seq<Event>)
    ensures Run(s, events).allowedToQuit <==>
      s.allowedToQuit || Event.QuitConfirmQuitDialog in events
    decreases |events|
  {
    if events != [] {
      StepAllowedToQuit(s, events[0]);
      RunAllowedToQuit(Step(s, events[0]), events[1..]);
      assert events == [events[0]] + events[1..];
    }
  }

  /** Once allowed, quitting stays allowed. */
  lemma RunAllowedToQuitMonotone(s: StateValue, events: seq<Event>)
    requires s.allowedToQuit
    ensures Run(s, events).allowedToQuit
  {
    RunAllowedToQuit(s, events);
  }

  /** No operation of `UiState` touches the settings. */
  lemma {:induction false} RunKeepsConfig(s: StateValue, events: seq<Event>)
    ensures Run(s, events).config == s.config
    decreases |events|
  {
    if events != [] {
      RunKeepsConfig(Step(s, events[0]), events[1..]);
    }
  }

  /** Dealing with the dropped files always empties the buffer, and nothing else changes it. */
  lemma {:induction false} RunDroppedFiles(s: StateValue, events: seq<Event>)
    ensures Run(s, events).droppedFiles ==
      if Event.DealWithDroppedFiles in events then [] else s.droppedFiles
    decreases |events|
  {
    if events != [] {
      RunDroppedFiles(Step(s, events[0]), events[1..]);
      assert events == [events[0]] + events[1..];
    }
  }

  /** Opening the dialog clears the inputs and keeps the latch, the buffer and the settings. */
  lemma ShowOpenFileDialogResets(s: StateValue)
    ensures var t := Step(s, Event.ShowOpenFileDialog);
      t.showOpenFileDialog && !t.showConfirmQuitDialog && InputsCleared(t) &&
      t.allowedToQuit == s.allowedToQuit && t.droppedFiles == s.droppedFiles && t.config == s.config
    ensures Step(Step(s, Event.ShowOpenFileDialog), Event.ShowOpenFileDialog) ==
      Step(s, Event.ShowOpenFileDialog)
  {
  }

  /** Confirming and cancelling leave the same state: closed dialog, empty inputs, quit flags untouched. */
  lemma CloseOpenFileDialog(s: StateValue)
    ensures Step(s, Event.ConfirmOpenFileDialog) == Step(s, Event.CancelOpenFileDialog)
    ensures var t := Step(s, Event.ConfirmOpenFileDialog);
      !t.showOpenFileDialog && InputsCleared(t) &&
      t.showConfirmQuitDialog == s.showConfirmQuitDialog && t.allowedToQuit == s.allowedToQuit
  {
  }

  /**
   * A drop whose first ".kdbx" file has a path opens the dialog on that path;
   * otherwise only the buffer is emptied.
   */
  lemma DealWithDroppedFilesOutcome(s: StateValue)
    ensures var t := Step(s, Event.DealWithDroppedFiles);
      t.droppedFiles == [] &&
      (DroppedTarget(s.droppedFiles).Some? ==>
         t == AfterShowOpenFileDialog(s).(filePath := DroppedTarget(s.droppedFiles), droppedFiles := []) &&
         EndsWithKdbx(t.filePath.value)) &&
      (DroppedTarget(s.droppedFiles).None? ==> t == s.(droppedFiles := []))
  {
    DroppedTargetIsKdbxPath(s.droppedFiles);
  }

  /** With the buffer emptied, dealing with the dropped files again changes nothing. */
  lemma DealWithDroppedFilesTwice(s: StateValue)
    ensures Step(Step(s, Event.DealWithDroppedFiles), Event.DealWithDroppedFiles) ==
      Step(s, Event.DealWithDroppedFiles)
  {
  }

  /** A pathless file matched by name hides every later file, even a ".kdbx" path. */
  lemma NameOnlyMatchOpensNothing(s: StateValue, name: string, rest: seq<DroppedFile>)
    requires EndsWithKdbx(name)
    requires s.droppedFiles == [DroppedFile(None, name)] + rest
    ensures Step(s, Event.DealWithDroppedFiles) == s.(droppedFiles := [])
  {
    LaterFilesIgnored([DroppedFile(None, name)], rest);
  }
}
