/** The options popup's `PopupController`: the form, its validation, saving and resetting. */
module Popup {
  import opened Wrappers
  import opened ExtensionSettings

  datatype MessageKind = Success | Failure

  /** What the status line shows after `showMessage(text, type)`. */
  datatype StatusMessage = StatusMessage(text: string, kind: MessageKind)

  const MinRemainingError := "Minimum remaining tokens must be less than token limit"
  const ThresholdError := "Warning threshold must be less than 100%"
  const SavedText := "Settings saved successfully!"
  const SaveFailedText := "Failed to save settings"
  const ResetText := "Settings reset to defaults"

  /** `validateForm()`'s verdict on the form's values: the message of the first check that
      fails, `None` when the form is valid. */
  function FormError(form: Settings): Option<string> {
    if form.minRemainingTokens >= form.maxTokens then Some(MinRemainingError)
    else if form.warningThreshold >= 100 then Some(ThresholdError)
    else None
  }

  /** The form is valid exactly when the reserve is below the limit and the threshold is
      below 100%; the reserve check is made first, so it names the error whenever it fails,
      whatever the threshold. */
  lemma FormErrorCases(form: Settings)
    ensures FormError(form).None? <==> form.minRemainingTokens < form.maxTokens && form.warningThreshold < 100
    ensures form.minRemainingTokens >= form.maxTokens ==> FormError(form) == Some(MinRemainingError)
    ensures form.minRemainingTokens < form.maxTokens && form.warningThreshold >= 100 ==> FormError(form) == Some(ThresholdError)
  {
  }

  /** The defaults pass validation: 1000 < 8000 and 80 < 100. */
  lemma DefaultsAreValid()
    ensures FormError(DefaultSettings).None?
  {
  }

  class PopupController {
    /** The values in the form's inputs (checkboxes and parsed numbers). */
    var form: Settings
    /** The status line, `None` until the first message. */
    var status: Option<StatusMessage>
    /** Every settings object written to `chrome.storage.sync`, in order. */
    var saved: seq<Settings>

    /** Nothing invalid is ever stored. */
    ghost predicate Valid()
      reads this
    {
      forall i :: 0 <= i < |saved| ==> FormError(saved[i]).None?
    }

    /** The constructor and `init()`: the form shows the stored settings (`loaded`, already
        merged with the defaults by `chrome.storage.sync.get`), or the defaults when reading
        them failed (`None`). */
    constructor (loaded: Option<Settings>)
      ensures Valid()
      ensures form == (if loaded.Some? then loaded.value else DefaultSettings)
      ensures status.None? && saved == []
    {
      saved := [];
      status := None;
      new;
      LoadSettings(loaded);
    }

    /** `loadSettings()` with its outcome as `loaded`. */
    method LoadSettings(loaded: Option<Settings>)
      modifies this
      ensures form == (if loaded.Some? then loaded.value else DefaultSettings)
      ensures status == old(status) && saved == old(saved)
    {
      if loaded.Some? {
        PopulateForm(loaded.value);
      } else {
        PopulateForm(DefaultSettings);
      }
    }

    /** `populateForm(settings)`. */
    method PopulateForm(settings: Settings)
      modifies this
      ensures form == settings && status == old(status) && saved == old(saved)
    {
      form := settings;
    }

    /** `validateForm()`: the verdict, with the first failing check's message shown. */
    method ValidateForm() returns (ok: bool)
      modifies this
      ensures ok <==> FormError(form).None?
      ensures status == if ok then old(status) else Some(StatusMessage(FormError(form).value, Failure))
      ensures form == old(form) && saved == old(saved)
    {
      if form.minRemainingTokens >= form.maxTokens {
        status := Some(StatusMessage(MinRemainingError, Failure));
        return false;
      }
      if form.warningThreshold >= 100 {
        status := Some(StatusMessage(ThresholdError, Failure));
        return false;
      }
      return true;
    }

    /** `saveSettings()`; `stored` says whether `chrome.storage.sync.set` succeeded. An
        invalid form stores nothing. */
    method SaveSettings(stored: bool)
      requires Valid()
      modifies this
      ensures Valid()
      ensures FormError(form).Some? ==> saved == old(saved) && status == Some(StatusMessage(FormError(form).value, Failure))
      ensures FormError(form).None? && stored ==> saved == old(saved) + [form] && status == Some(StatusMessage(SavedText, Success))
      ensures FormError(form).None? && !stored ==> saved == old(saved) && status == Some(StatusMessage(SaveFailedText, Failure))
      ensures form == old(form)
    {
      var ok := ValidateForm();
      if !ok {
        return;
      }
      var settings := form;
      if stored {
        saved := saved + [settings];
        status := Some(StatusMessage(SavedText, Success));
      } else {
        status := Some(StatusMessage(SaveFailedText, Failure));
      }
    }

    /** `resetSettings()`: the form shows the defaults again; nothing is stored until the
        next save. */
    method ResetSettings()
      requires Valid()
      modifies this
      ensures Valid()
      ensures form == DefaultSettings && status == Some(StatusMessage(ResetText, Success)) && saved == old(saved)
    {
      PopulateForm(DefaultSettings);
      status := Some(StatusMessage(ResetText, Success));
    }
  }
}
