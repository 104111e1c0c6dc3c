/**
 * The editor component's state machine: the in-memory `content`, the
 * `isSaving` flag of the save-to-Drive button, and the `draftContent` slot of
 * the browser's local storage. Each handler updates that state in place.
 */
module EditorShell {
  import opened JsText

  /** The local-storage key the draft lives under. */
  const DraftKey: string := "draftContent"

  /** The draft invariant: when the slot is present it holds non-blank text. */
  predicate DraftSlotValid(items: map<string, string>) {
    DraftKey in items ==> !IsBlank(items[DraftKey])
  }

  /** Under the invariant, a present slot holds a character `trim` keeps. */
  lemma DraftSlotHasVisibleChar(items: map<string, string>)
    requires DraftSlotValid(items) && DraftKey in items
    ensures HasVisibleChar(items[DraftKey])
  {
  }

  /** The content hydration starts from: the slot's value when present and
      non-empty (truthy), else the initial "". */
  function HydratedContent(items: map<string, string>): (c: string)
    ensures DraftKey in items ==> c == items[DraftKey]
    ensures DraftKey !in items ==> c == ""
  {
    if DraftKey in items && items[DraftKey] != "" then items[DraftKey] else ""
  }

  /** The browser's `localStorage`: string keys mapped to string values. */
  class LocalStorage {
    var items: map<string, string>

    constructor (items: map<string, string>)
      ensures this.items == items
    {
      this.items := items;
    }

    /** `getItem`: the stored value, or `null` (None) for a missing key. */
    method GetItem(key: string) returns (value: Option<string>)
      ensures key in items ==> value == Some(items[key])
      ensures key !in items ==> value == None
    {
      value := if key in items then Some(items[key]) else None;
    }

    method SetItem(key: string, value: string)
      modifies this
      ensures items == old(items)[key := value]
    {
      items := items[key := value];
    }

    method RemoveItem(key: string)
      modifies this
      ensures items == old(items) - {key}
    {
      items := items - {key};
    }
  }

  /** The mounted editor component. */
  class Editor {
    const storage: LocalStorage
    var content: string
    var isSaving: bool

    predicate DraftInvariant()
      reads storage
    {
      DraftSlotValid(storage.items)
    }

    /** Mounting: `content` starts as "", `isSaving` as false, and the
        hydration effect loads a truthy saved draft. Storage is only read, so
        an invariant the slot had before mounting still holds. */
    constructor Mount(storage: LocalStorage)
      ensures this.storage == storage && !isSaving
      ensures content == HydratedContent(storage.items)
      ensures storage.items == old(storage.items)
    {
      this.storage := storage;
      content := "";
      isSaving := false;
      new;
      var savedDraft := storage.GetItem(DraftKey);
      if savedDraft.Some? && savedDraft.value != "" {
        content := savedDraft.value;
      }
    }

    /** The widget's change handler: the new value becomes the content and is
        written through to the slot, or clears it when blank. */
    method HandleContentChange(value: string)
      modifies this, storage
      ensures content == value && isSaving == old(isSaving)
      ensures !IsBlank(value) ==> storage.items == old(storage.items)[DraftKey := value]
      ensures IsBlank(value) ==> storage.items == old(storage.items) - {DraftKey}
      ensures DraftInvariant()
    {
      content := value;
      if !IsBlank(value) {
        storage.SetItem(DraftKey, value);
      } else {
        storage.RemoveItem(DraftKey);
      }
    }

    /** "Save Draft": refuses blank content (an alert), else rewrites the slot. */
    method SaveDraft()
      modifies storage
      ensures IsBlank(content) ==> storage.items == old(storage.items)
      ensures !IsBlank(content) ==> storage.items == old(storage.items)[DraftKey := content]
      ensures old(DraftInvariant()) ==> DraftInvariant()
    {
      if IsBlank(content) {
        return;
      }
      storage.SetItem(DraftKey, content);
    }

    /** "Clear": empties the content and removes the slot. */
    method ClearEditor()
      modifies this, storage
      ensures content == "" && isSaving == old(isSaving)
      ensures storage.items == old(storage.items) - {DraftKey}
      ensures DraftInvariant()
    {
      content := "";
      storage.RemoveItem(DraftKey);
    }

    /** `saveToGoogleDrive` up to its `await`: blank content is refused (an
        alert) with nothing changed; otherwise `isSaving` is raised and the
        request carrying `content` is issued. */
    method SaveToGoogleDrive() returns (request: Option<string>)
      modifies this
      ensures content == old(content)
      ensures IsBlank(content) ==> request == None && isSaving == old(isSaving)
      ensures !IsBlank(content) ==> request == Some(content) && isSaving
    {
      if IsBlank(content) {
        return None;
      }
      isSaving := true;
      request := Some(content);
    }

    /** `saveToGoogleDrive` after its `await`, once the request has settled:
        success removes the slot, failure leaves it, and `finally` lowers
        `isSaving` either way. The content is never touched. */
    method SaveToGoogleDriveSettled(succeeded: bool)
      requires isSaving
      modifies this, storage
      ensures !isSaving && content == old(content)
      ensures succeeded ==> storage.items == old(storage.items) - {DraftKey}
      ensures !succeeded ==> storage.items == old(storage.items)
      ensures old(DraftInvariant()) ==> DraftInvariant()
    {
      if succeeded {
        storage.RemoveItem(DraftKey);
      }
      isSaving := false;
    }

    /** A click on the save-to-Drive button, which is disabled while a save is
        in flight: then nothing happens, otherwise `saveToGoogleDrive` runs. */
    method ClickSaveToGoogleDrive() returns (request: Option<string>)
      modifies this
      ensures content == old(content)
      ensures old(isSaving) ==> request == None && isSaving
      ensures !old(isSaving) && IsBlank(content) ==> request == None && !isSaving
      ensures !old(isSaving) && !IsBlank(content) ==> request == Some(content) && isSaving
    {
      if isSaving {
        return None;
      }
      request := SaveToGoogleDrive();
    }
  }

  /** One save from click to settlement, with the user free to run the other
      handlers while the request is in flight: the button is busy throughout,
      the slot invariant holds at every step, and the button is idle again at
      the end whatever the outcome. */
  method SaveWhileEditing(e: Editor, edit: Option<string>, succeeded: bool)
    returns (request: Option<string>)
    requires !e.isSaving && e.DraftInvariant()
    modifies e, e.storage
    ensures !e.isSaving && e.DraftInvariant()
    ensures request.Some? <==> !IsBlank(old(e.content))
    ensures request.Some? ==> request.value == old(e.content)
    ensures request.Some? && succeeded ==> DraftKey !in e.storage.items
    ensures request.None? ==> e.content == (if edit.Some? then edit.value else old(e.content))
  {
    request := e.ClickSaveToGoogleDrive();
    if request.Some? {
      if edit.Some? {
        e.HandleContentChange(edit.value);
      }
      var again := e.ClickSaveToGoogleDrive();
      assert again.None? && e.isSaving;
      e.SaveToGoogleDriveSettled(succeeded);
    } else if edit.Some? {
      e.HandleContentChange(edit.value);
    }
  }
}
