/**
 * The message-editor page: an older edit / save cycle whose update map names the
 * content key by segment count, signs updates as 'admin', keeps the edit text after a
 * save and does not reset the edit on a tab switch.
 */
module MessagesEditor {
  import opened Common
  import opened Text
  import opened ConfigValue

  datatype Tab = Funnel | Errors | Links

  const SavedText := "\U{2705} Saved successfully!"

  /**
   * `handleSave`'s update map: the content key for paths of one, two or three segments,
   * then the stamps, which overwrite a content key of the same name.
   */
  function EditorUpdate(path: string, value: string): (u: map<string, Value>)
    ensures "last_updated" in u && "updated_by" in u
    ensures u["last_updated"] == Stamp && u["updated_by"] == Str("admin")
    ensures |Split(path, '.')| <= 3 ==> u.Keys == {path, "last_updated", "updated_by"}
    ensures |Split(path, '.')| <= 3 && path !in {"last_updated", "updated_by"} ==> u[path] == Str(value)
    ensures |Split(path, '.')| > 3 ==> u == map["last_updated" := Stamp, "updated_by" := Str("admin")]
  {
    var parts := Split(path, '.');
    JoinSplit(path, '.');
    var content: map<string, Value> :=
      if |parts| == 1 then map[parts[0] := Str(value)]
      else if |parts| == 2 then
        assert Join(parts, '.') == parts[0] + "." + parts[1] by {
          assert parts[1..] == [parts[1]];
        }
        map[parts[0] + "." + parts[1] := Str(value)]
      else if |parts| == 3 then
        assert Join(parts, '.') == parts[0] + "." + parts[1] + "." + parts[2] by {
          var tail := parts[1..];
          assert tail[1..] == [parts[2]];
          assert Join(tail, '.') == parts[1] + "." + parts[2];
        }
        map[parts[0] + "." + parts[1] + "." + parts[2] := Str(value)]
      else map[];
    content["last_updated" := Stamp]["updated_by" := Str("admin")]
  }

  /** A path of four or more segments loses the edit: only the stamps are sent. */
  lemma LongPathDropped(a: string, b: string, c: string, d: string, value: string)
    requires '.' !in a && '.' !in b && '.' !in c && '.' !in d
    ensures EditorUpdate(a + "." + b + "." + c + "." + d, value).Keys == {"last_updated", "updated_by"}
  {
    var path := a + "." + b + "." + c + "." + d;
    assert path == Join([a, b, c, d], '.') by {
      assert [c, d][1..] == [d];
      assert Join([c, d], '.') == c + "." + d;
      assert [b, c, d][1..] == [c, d];
      assert Join([b, c, d], '.') == b + "." + (c + "." + d);
      assert [a, b, c, d][1..] == [b, c, d];
      assert Join([a, b, c, d], '.') == a + "." + (b + "." + (c + "." + d));
    }
    SplitJoin([a, b, c, d], '.');
  }

  class EditorPage {
    var activeTab: Tab
    var editingKey: Option<string>
    var editValue: string
    var previewKey: Option<string>
    var saving: bool
    var successMessage: string

    constructor ()
      ensures activeTab == Funnel && editingKey.None? && editValue == "" && previewKey.None?
      ensures !saving && successMessage == ""
    {
      activeTab := Funnel;
      editingKey := None;
      editValue := "";
      previewKey := None;
      saving := false;
      successMessage := "";
    }

    /** `handleEdit`: unlike the other editors, the preview is left as it is. */
    method HandleEdit(path: string, current: string)
      modifies this
      ensures editingKey == Some(path) && editValue == current
      ensures previewKey == old(previewKey) && activeTab == old(activeTab)
      ensures saving == old(saving) && successMessage == old(successMessage)
    {
      editingKey := Some(path);
      editValue := current;
    }

    method EditValueChange(v: string)
      modifies this
      ensures editValue == v
      ensures editingKey == old(editingKey) && previewKey == old(previewKey) && activeTab == old(activeTab)
      ensures saving == old(saving) && successMessage == old(successMessage)
    {
      editValue := v;
    }

    /** The preview button: hide the preview of `path` if shown, else show it. */
    method PreviewToggle(path: string)
      modifies this
      ensures previewKey == (if old(previewKey) == Some(path) then None else Some(path))
      ensures editingKey == old(editingKey) && editValue == old(editValue) && activeTab == old(activeTab)
      ensures saving == old(saving) && successMessage == old(successMessage)
    {
      previewKey := if previewKey == Some(path) then None else Some(path);
    }

    /** `handleSave`: success ends the edit but keeps its text and the preview. */
    method HandleSave(path: string, write: Step) returns (sent: map<string, Value>)
      modifies this
      ensures sent == EditorUpdate(path, old(editValue))
      ensures !saving && activeTab == old(activeTab)
      ensures editValue == old(editValue) && previewKey == old(previewKey)
      ensures write.Done? ==> editingKey.None? && successMessage == SavedText
      ensures write.Failed? ==> editingKey == old(editingKey) && successMessage == old(successMessage)
    {
      saving := true;
      sent := EditorUpdate(path, editValue);
      if write.Done? {
        editingKey := None;
        successMessage := SavedText;
      }
      saving := false;
    }

    /** `handleCancel`: the preview stays. */
    method HandleCancel()
      modifies this
      ensures editingKey.None? && editValue == ""
      ensures previewKey == old(previewKey) && activeTab == old(activeTab)
      ensures saving == old(saving) && successMessage == old(successMessage)
    {
      editingKey := None;
      editValue := "";
    }

    /** A tab click only switches tabs. */
    method SwitchTab(t: Tab)
      modifies this
      ensures activeTab == t
      ensures editingKey == old(editingKey) && editValue == old(editValue) && previewKey == old(previewKey)
      ensures saving == old(saving) && successMessage == old(successMessage)
    {
      activeTab := t;
    }
  }
}
