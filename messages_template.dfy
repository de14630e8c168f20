/**
 * The system-messages page: the same edit / preview / save cycle as the configuration
 * page, over the four system-message tabs. A failed save only raises an alert.
 */
module MessagesTemplate {
  import opened Common
  import opened ConfigValue

  datatype Tab = Offline | Consultation | Buttons | Followup

  /** The success text as the page's source spells it (a mis-decoded check mark). */
  const SavedText := "\U{00E2}\U{0153}\U{2026} Saved successfully!"

  /** What the page shows in place of the editor. */
  datatype Screen = Spinner | NotFound | Editor

  /** The page needs a loaded document with a truthy `system_messages`. */
  function ScreenFor(loading: bool, config: Option<Value>): (s: Screen)
    ensures s == Editor <==> !loading && config.Some? && Child(config.value, "system_messages").Some?
                             && Child(config.value, "system_messages").value !in {Null, Str(""), Num(0), Bool(false)}
  {
    if loading then Spinner
    else if config.None? then NotFound
    else
      match Child(config.value, "system_messages")
      case None => NotFound
      case Some(v) => if v in {Null, Str(""), Num(0), Bool(false)} then NotFound else Editor
  }

  class TemplatePage {
    var activeTab: Tab
    var editingKey: Option<string>
    var editValue: string
    var previewKey: Option<string>
    var saving: bool
    var successMessage: string

    constructor ()
      ensures activeTab == Offline && editingKey.None? && editValue == "" && previewKey.None?
      ensures !saving && successMessage == ""
    {
      activeTab := Offline;
      editingKey := None;
      editValue := "";
      previewKey := None;
      saving := false;
      successMessage := "";
    }

    /** `handleEdit`: start editing `path` from its shown value, closing any preview. */
    method HandleEdit(path: string, current: string)
      modifies this
      ensures editingKey == Some(path) && editValue == current && previewKey.None?
      ensures activeTab == old(activeTab) && saving == old(saving) && successMessage == old(successMessage)
    {
      editingKey := Some(path);
      editValue := current;
      previewKey := None;
    }

    /** `handleEditValueChange`. */
    method EditValueChange(v: string)
      modifies this
      ensures editValue == v
      ensures editingKey == old(editingKey) && previewKey == old(previewKey) && activeTab == old(activeTab)
      ensures saving == old(saving) && successMessage == old(successMessage)
    {
      editValue := v;
    }

    /** The field's preview button: hide the preview of `path` if shown, else show it. */
    method PreviewToggle(path: string)
      modifies this
      ensures previewKey == (if old(previewKey) == Some(path) then None else Some(path))
      ensures editingKey == old(editingKey) && editValue == old(editValue) && activeTab == old(activeTab)
      ensures saving == old(saving) && successMessage == old(successMessage)
    {
      previewKey := if previewKey == Some(path) then None else Some(path);
    }

    /**
     * The prefill effect: while a non-empty key is edited and the edit is empty, a
     * non-empty stored value at that key becomes the edit.
     */
    method PrefillEdit(config: Option<Value>)
      modifies this
      ensures (old(editingKey).Some? && old(editingKey).value != "" && config.Some? && old(editValue) == ""
               && Lookup(config.value, old(editingKey).value) != "")
              ==> editValue == Lookup(config.value, old(editingKey).value)
      ensures !(old(editingKey).Some? && old(editingKey).value != "" && config.Some? && old(editValue) == ""
                && Lookup(config.value, old(editingKey).value) != "")
              ==> editValue == old(editValue)
      ensures editingKey == old(editingKey) && previewKey == old(previewKey) && activeTab == old(activeTab)
      ensures saving == old(saving) && successMessage == old(successMessage)
    {
      if editingKey.Some? && editingKey.value != "" && config.Some? {
        var current := GetNestedValue(config.value, editingKey.value);
        if editValue == "" && current != "" {
          editValue := current;
        }
      }
    }

    /**
     * `handleSave`: send the edit under its full dotted path with the stamps. Success
     * clears the edit state; failure leaves it. `saving` is false afterwards either way.
     */
    method HandleSave(path: string, write: Step) returns (sent: map<string, Value>)
      modifies this
      ensures sent == EditUpdate(path, old(editValue))
      ensures !saving && activeTab == old(activeTab)
      ensures write.Done? ==> editingKey.None? && editValue == "" && previewKey.None?
                              && successMessage == SavedText
      ensures write.Failed? ==> editingKey == old(editingKey) && editValue == old(editValue)
                                && previewKey == old(previewKey) && successMessage == old(successMessage)
    {
      saving := true;
      var key := EditKey(path);
      sent := EditUpdate(key, editValue);
      if write.Done? {
        editingKey := None;
        editValue := "";
        previewKey := None;
        successMessage := SavedText;
      }
      saving := false;
    }

    /** `handleCancel`. */
    method HandleCancel()
      modifies this
      ensures editingKey.None? && editValue == "" && previewKey.None?
      ensures activeTab == old(activeTab) && saving == old(saving) && successMessage == old(successMessage)
    {
      editingKey := None;
      editValue := "";
      previewKey := None;
    }

    /** A tab click: switch tabs and drop the edit. */
    method SwitchTab(t: Tab)
      modifies this
      ensures activeTab == t && editingKey.None? && editValue == "" && previewKey.None?
      ensures saving == old(saving) && successMessage == old(successMessage)
    {
      activeTab := t;
      editingKey := None;
      editValue := "";
      previewKey := None;
    }
  }
}
