/**
 * The bot-configuration page: the edit / preview / save cycle over one dotted path of
 * the configuration document, and the working-hours form (validation, the day toggle
 * and the "within hours" indicator). Store writes are returned as the update map sent;
 * the clock and the timezone conversion arrive as parameters.
 */
module MessagesConfiguration {
  import opened Common
  import opened Text
  import opened Sorting
  import opened ConfigValue

  datatype Tab = Funnel | System | Links | Hours | Errors

  const DefaultDays: seq<int> := [1, 2, 3, 4, 5]

  /** Every element occurs at most once. */
  predicate NoDuplicates(s: seq<int>)
  {
    forall x | x in multiset(s) :: multiset(s)[x] <= 1
  }

  /** `prev.filter(d => d !== day)`. */
  function Without(s: seq<int>, day: int): (r: seq<int>)
    ensures multiset(r) == multiset(s)[day := 0]
  {
    if s == [] then []
    else
      assert s == [s[0]] + s[1..];
      if s[0] == day then Without(s[1..], day) else [s[0]] + Without(s[1..], day)
  }

  /** The default `Array.prototype.sort` order on numbers: by their decimal renderings. */
  predicate DayLe(a: int, b: int)
  {
    LexLe(IntToString(a), IntToString(b))
  }

  lemma DayLeIsPreorder()
    ensures TotalPreorder(DayLe)
  {
    forall a: int, b: int ensures DayLe(a, b) || DayLe(b, a) {
      LexLeTotal(IntToString(a), IntToString(b));
    }
    forall a: int, b: int, c: int | DayLe(a, b) && DayLe(b, c) ensures DayLe(a, c) {
      LexLeTransitive(IntToString(a), IntToString(b), IntToString(c));
    }
  }

  /** `toggleDay`: drop the day if selected, otherwise add it and sort. */
  function ToggleDay(days: seq<int>, day: int): (r: seq<int>)
    ensures day in days ==> multiset(r) == multiset(days)[day := 0]
    ensures day !in days ==> multiset(r) == multiset(days) + multiset{day}
  {
    if day in days then Without(days, day) else Sort(days + [day], DayLe)
  }

  /** The toggled day flips membership, every other day keeps it, and no duplicate arises. */
  lemma ToggleDayMembership(days: seq<int>, day: int, other: int)
    requires NoDuplicates(days)
    ensures day in ToggleDay(days, day) <==> day !in days
    ensures other != day ==> (other in ToggleDay(days, day) <==> other in days)
    ensures NoDuplicates(ToggleDay(days, day))
  {
    var r := ToggleDay(days, day);
    assert day in r <==> multiset(r)[day] > 0;
    assert other in r <==> multiset(r)[other] > 0;
    assert other in days <==> multiset(days)[other] > 0;
    assert day in days <==> multiset(days)[day] > 0;
  }

  /** For week days 0..6 the result of adding a day is in ascending numeric order. */
  lemma ToggleDayAscending(days: seq<int>, day: int)
    requires day !in days
    requires 0 <= day <= 6 && forall k :: 0 <= k < |days| ==> 0 <= days[k] <= 6
    ensures forall i, j :: 0 <= i < j < |ToggleDay(days, day)| ==>
              ToggleDay(days, day)[i] <= ToggleDay(days, day)[j]
  {
    var s := days + [day];
    var r := ToggleDay(days, day);
    DayLeIsPreorder();
    SortSorted(s, DayLe);
    forall i, j | 0 <= i < j < |r| ensures r[i] <= r[j] {
      assert r[i] in multiset(s) && r[j] in multiset(s);
      assert 0 <= r[i] <= 6 && 0 <= r[j] <= 6;
      DigitOrderIsNumeric(r[i], r[j]);
    }
  }

  /**
   * `isCurrentlyWithinHours`, with the current day and hour in the configured zone given;
   * `zoneOk` is false when the zone conversion throws.
   */
  function WithinHours(enabled: bool, zoneOk: bool, day: int, hour: int,
                       startHour: int, endHour: int, days: seq<int>): (b: bool)
    ensures !enabled ==> b
    ensures enabled ==> (b <==> zoneOk && day in days && startHour <= hour < endHour)
  {
    if !enabled then true
    else if !zoneOk then false
    else day in days && hour >= startHour && hour < endHour
  }

  /** A start hour that is not before the end hour leaves no hour inside. */
  lemma EmptyWindow(zoneOk: bool, day: int, hour: int, startHour: int, endHour: int, days: seq<int>)
    requires startHour >= endHour
    ensures !WithinHours(true, zoneOk, day, hour, startHour, endHour, days)
  {
  }

  /** The working-hours field `name`, if present and not null (the `??` test). */
  function HoursField(config: Value, name: string): (r: Option<Value>)
    ensures r.Some? ==> r.value != Null
  {
    match Child(config, "working_hours")
    case Some(wh) =>
      if wh.Obj? && name in wh.fields && wh.fields[name] != Null then Some(wh.fields[name]) else None
    case None => None
  }

  /** JavaScript truthiness of a stored value. */
  predicate Truthy(v: Value)
  {
    match v
    case Str(s) => s != ""
    case Num(n) => n != 0
    case Bool(b) => b
    case Null => false
    case _ => true
  }

  function NumsOf(items: seq<Value>): (r: Option<seq<int>>)
    ensures r.Some? ==> |r.value| == |items| &&
                        forall k :: 0 <= k < |items| ==> items[k] == Num(r.value[k])
  {
    if items == [] then Some([])
    else if !items[0].Num? then None
    else
      match NumsOf(items[1..])
      case Some(rest) => Some([items[0].n] + rest)
      case None => None
  }

  /** The store's form of a list of days. */
  function DaysValue(days: seq<int>): (v: Value)
    ensures v.Arr? && NumsOf(v.items) == Some(days)
  {
    if days == [] then Arr([])
    else
      var rest := DaysValue(days[1..]);
      assert [Num(days[0])] + rest.items == [Num(days[0])] + rest.items;
      assert ([Num(days[0])] + rest.items)[1..] == rest.items;
      assert [days[0]] + days[1..] == days;
      Arr([Num(days[0])] + rest.items)
  }

  /** The form's state. */
  datatype HoursForm = HoursForm(enabled: bool, startHour: int, endHour: int, timezone: string, days: seq<int>)

  const DefaultForm := HoursForm(true, 8, 17, "Asia/Jakarta", DefaultDays)

  /**
   * The prefill effect: with a truthy `working_hours`, each field of the form takes the
   * stored value, or its default; without one the form stays as it is.
   */
  function Prefill(form: HoursForm, config: Option<Value>): (f: HoursForm)
    ensures (config.None? || Child(config.value, "working_hours").None?
             || !Truthy(Child(config.value, "working_hours").value)) ==> f == form
    ensures config.Some? && Child(config.value, "working_hours") == Some(Obj(map[])) ==> f == DefaultForm
    ensures config.Some? && HoursField(config.value, "enabled").Some? && HoursField(config.value, "enabled").value.Bool?
            ==> f.enabled == HoursField(config.value, "enabled").value.b
    ensures config.Some? && HoursField(config.value, "start_hour").Some? && HoursField(config.value, "start_hour").value.Num?
            ==> f.startHour == HoursField(config.value, "start_hour").value.n
    ensures config.Some? && HoursField(config.value, "end_hour").Some? && HoursField(config.value, "end_hour").value.Num?
            ==> f.endHour == HoursField(config.value, "end_hour").value.n
    ensures config.Some? && HoursField(config.value, "timezone").Some? && HoursField(config.value, "timezone").value.Str?
            ==> f.timezone == HoursField(config.value, "timezone").value.s
    ensures config.Some? && HoursField(config.value, "days").Some? && HoursField(config.value, "days").value.Arr?
            && NumsOf(HoursField(config.value, "days").value.items).Some?
            ==> f.days == NumsOf(HoursField(config.value, "days").value.items).value
  {
    if config.None? then form
    else
      match Child(config.value, "working_hours")
      case None => form
      case Some(wh) =>
        if !Truthy(wh) then form
        else
          var c := config.value;
          HoursForm(EnabledOf(c), HourOf(c, "start_hour", 8), HourOf(c, "end_hour", 17), TimezoneOf(c), DaysOf(c))
  }

  /** `wh.enabled ?? true`, for a stored boolean. */
  function EnabledOf(c: Value): (b: bool)
    ensures HoursField(c, "enabled").Some? && HoursField(c, "enabled").value.Bool? ==> b == HoursField(c, "enabled").value.b
    ensures !(HoursField(c, "enabled").Some? && HoursField(c, "enabled").value.Bool?) ==> b
  {
    match HoursField(c, "enabled") { case Some(Bool(b)) => b case _ => true }
  }

  /** `wh[name] ?? default`, for a stored number. */
  function HourOf(c: Value, name: string, default: int): (n: int)
    ensures HoursField(c, name).Some? && HoursField(c, name).value.Num? ==> n == HoursField(c, name).value.n
    ensures !(HoursField(c, name).Some? && HoursField(c, name).value.Num?) ==> n == default
  {
    match HoursField(c, name) { case Some(Num(n)) => n case _ => default }
  }

  /** `wh.timezone ?? 'Asia/Jakarta'`, for a stored string. */
  function TimezoneOf(c: Value): (z: string)
    ensures HoursField(c, "timezone").Some? && HoursField(c, "timezone").value.Str? ==> z == HoursField(c, "timezone").value.s
    ensures !(HoursField(c, "timezone").Some? && HoursField(c, "timezone").value.Str?) ==> z == "Asia/Jakarta"
  {
    match HoursField(c, "timezone") { case Some(Str(s)) => s case _ => "Asia/Jakarta" }
  }

  /** `wh.days ?? [1, 2, 3, 4, 5]`, for a stored list of numbers. */
  function DaysOf(c: Value): (d: seq<int>)
    ensures HoursField(c, "days").Some? && HoursField(c, "days").value.Arr? && NumsOf(HoursField(c, "days").value.items).Some?
            ==> d == NumsOf(HoursField(c, "days").value.items).value
    ensures !(HoursField(c, "days").Some? && HoursField(c, "days").value.Arr? && NumsOf(HoursField(c, "days").value.items).Some?)
            ==> d == DefaultDays
  {
    match HoursField(c, "days") {
      case Some(Arr(items)) => NumsOf(items).GetOr(DefaultDays)
      case _ => DefaultDays
    }
  }

  /** The update a valid working-hours save sends: the five fields and the two stamps. */
  function HoursUpdate(f: HoursForm): (u: map<string, Value>)
    ensures u.Keys == {"working_hours.enabled", "working_hours.start_hour", "working_hours.end_hour",
                       "working_hours.timezone", "working_hours.days", "last_updated", "updated_by"}
  {
    map[
      "working_hours.enabled" := Bool(f.enabled),
      "working_hours.start_hour" := Num(f.startHour),
      "working_hours.end_hour" := Num(f.endHour),
      "working_hours.timezone" := Str(f.timezone),
      "working_hours.days" := DaysValue(f.days),
      "last_updated" := Stamp,
      "updated_by" := Str("admin-dashboard")]
  }

  /** The keys of the working-hours update, in the order the page lists them. */
  const HoursKeys: seq<string> := ["working_hours.enabled", "working_hours.start_hour", "working_hours.end_hour",
                                   "working_hours.timezone", "working_hours.days", "last_updated", "updated_by"]

  /** The fields of a stored `working_hours`, none when it is absent or not a map. */
  function HoursFields(wh: Option<Value>): map<string, Value>
  {
    if wh.Some? && wh.value.Obj? then wh.value.fields else map[]
  }

  /** Writing at `working_hours`, `name` sets that one field of `working_hours`, made a map if need be. */
  lemma SetHoursField(v: Value, name: string, x: Value)
    ensures Child(SetPath(v, ["working_hours", name], x), "working_hours")
            == Some(Obj(HoursFields(Child(v, "working_hours"))[name := x]))
  {
    assert !IsIndex("working_hours");
    var fields := if v.Obj? then v.fields else map[];
    var child := if "working_hours" in fields then fields["working_hours"] else Obj(map[]);
    assert ["working_hours", name][1..] == [name] && [name][1..] == [];
    assert SetPath(child, [name], x) == Obj(HoursFields(Child(v, "working_hours"))[name := x]);
  }

  /** Writing at a top-level key other than `working_hours` leaves `working_hours` as it was. */
  lemma SetOtherField(v: Value, key: string, x: Value)
    requires key != "working_hours"
    ensures Child(SetPath(v, [key], x), "working_hours") == Child(v, "working_hours")
  {
    assert !IsIndex("working_hours");
    assert [key][1..] == [];
  }

  /** A `working_hours.<name>` key splits into its two segments. */
  lemma DottedSplit(key: string, name: string)
    requires '.' !in name && key == "working_hours" + ['.'] + name
    ensures Split(key, '.') == ["working_hours", name]
  {
    assert '.' !in "working_hours";
    SplitPrefix("working_hours", name, '.');
    SplitNoSep(name, '.');
  }

  /** The `working_hours` fields after a save of `f` over stored fields `fs`. */
  function SavedFields(fs: map<string, Value>, f: HoursForm): map<string, Value>
  {
    fs["enabled" := Bool(f.enabled)]["start_hour" := Num(f.startHour)]["end_hour" := Num(f.endHour)][
      "timezone" := Str(f.timezone)]["days" := DaysValue(f.days)]
  }

  /** The `working_hours` fields a save writes, in the order of its keys. */
  const HoursNames: seq<string> := ["enabled", "start_hour", "end_hour", "timezone", "days"]

  /** `fs` with field `names[j]` set to the value of key `keys[j]`, for each `j` in turn. */
  function Overwrite(fs: map<string, Value>, names: seq<string>, u: map<string, Value>, keys: seq<string>)
    : map<string, Value>
    requires |names| == |keys| && forall k <- keys :: k in u
    decreases |keys|
  {
    if keys == [] then fs else Overwrite(fs[names[0] := u[keys[0]]], names[1..], u, keys[1..])
  }

  /** Writing `working_hours.<names[j]>` keys sets those fields of `working_hours` in turn. */
  lemma {:induction false} FieldWrites(v: Value, u: map<string, Value>, keys: seq<string>, names: seq<string>)
    requires |names| == |keys| > 0 && forall k <- keys :: k in u
    requires forall j :: 0 <= j < |keys| ==> '.' !in names[j] && keys[j] == "working_hours" + ['.'] + names[j]
    ensures Child(ApplyUpdate(v, u, keys), "working_hours")
            == Some(Obj(Overwrite(HoursFields(Child(v, "working_hours")), names, u, keys)))
    decreases |keys|
  {
    DottedSplit(keys[0], names[0]);
    var w := SetPath(v, ["working_hours", names[0]], u[keys[0]]);
    SetHoursField(v, names[0], u[keys[0]]);
    if |keys| > 1 {
      FieldWrites(w, u, keys[1..], names[1..]);
    }
  }

  /** A save writes the five fields into `working_hours` and the stamps beside it. */
  lemma SaveWritesFields(c: Value, f: HoursForm)
    ensures Child(ApplyUpdate(c, HoursUpdate(f), HoursKeys), "working_hours")
            == Some(Obj(SavedFields(HoursFields(Child(c, "working_hours")), f)))
  {
    var u := HoursUpdate(f);
    var k := HoursKeys;
    assert k == k[..5] + k[5..];
    ApplyUpdateAppend(c, u, k[..5], k[5..]);
    FieldKeysShaped();
    FieldWrites(c, u, k[..5], HoursNames);
    StampKeysShaped(f);
    OtherWrites(ApplyUpdate(c, u, k[..5]), u, k[5..]);
    OverwriteSaved(HoursFields(Child(c, "working_hours")), f);
  }

  /** The first five keys are `working_hours.<name>` for the five field names. */
  lemma FieldKeysShaped()
    ensures forall j :: 0 <= j < 5 ==> '.' !in HoursNames[j] && HoursKeys[..5][j] == "working_hours" + ['.'] + HoursNames[j]
  {
  }

  /** The last two keys are top-level stamps of the update. */
  lemma StampKeysShaped(f: HoursForm)
    ensures forall k <- HoursKeys[5..] :: k in HoursUpdate(f) && '.' !in k && k != "working_hours"
  {
  }

  /** Setting the five fields one by one from the update gives the saved fields. */
  lemma OverwriteSaved(fs: map<string, Value>, f: HoursForm)
    ensures Overwrite(fs, HoursNames, HoursUpdate(f), HoursKeys[..5]) == SavedFields(fs, f)
  {
    OverwriteFive(fs, HoursNames, HoursUpdate(f), HoursKeys[..5]);
    UpdateValues(f);
  }

  /** The values the update carries under the five field keys. */
  lemma UpdateValues(f: HoursForm)
    ensures HoursUpdate(f)[HoursKeys[0]] == Bool(f.enabled)
    ensures HoursUpdate(f)[HoursKeys[1]] == Num(f.startHour)
    ensures HoursUpdate(f)[HoursKeys[2]] == Num(f.endHour)
    ensures HoursUpdate(f)[HoursKeys[3]] == Str(f.timezone)
    ensures HoursUpdate(f)[HoursKeys[4]] == DaysValue(f.days)
  {
  }

  /** Five writes in turn, spelled out. */
  lemma OverwriteFive(fs: map<string, Value>, n: seq<string>, u: map<string, Value>, k: seq<string>)
    requires |n| == |k| == 5 && forall x <- k :: x in u
    ensures Overwrite(fs, n, u, k) == fs[n[0] := u[k[0]]][n[1] := u[k[1]]][n[2] := u[k[2]]][n[3] := u[k[3]]][n[4] := u[k[4]]]
  {
    var g1 := fs[n[0] := u[k[0]]];
    var g2 := g1[n[1] := u[k[1]]];
    var g3 := g2[n[2] := u[k[2]]];
    var g4 := g3[n[3] := u[k[3]]];
    assert Overwrite(g1, n[1..], u, k[1..]) == Overwrite(g2, n[2..], u, k[2..]) by {
      assert n[1..][0] == n[1] && n[1..][1..] == n[2..] && k[1..][0] == k[1] && k[1..][1..] == k[2..];
    }
    assert Overwrite(g2, n[2..], u, k[2..]) == Overwrite(g3, n[3..], u, k[3..]) by {
      assert n[2..][0] == n[2] && n[2..][1..] == n[3..] && k[2..][0] == k[2] && k[2..][1..] == k[3..];
    }
    assert Overwrite(g3, n[3..], u, k[3..]) == Overwrite(g4, n[4..], u, k[4..]) by {
      assert n[3..][0] == n[3] && n[3..][1..] == n[4..] && k[3..][0] == k[3] && k[3..][1..] == k[4..];
    }
    assert Overwrite(g4, n[4..], u, k[4..]) == g4[n[4] := u[k[4]]] by {
      assert n[4..][0] == n[4] && n[4..][1..] == [] && k[4..][0] == k[4] && k[4..][1..] == [];
    }
  }

  /** Writing top-level keys other than `working_hours` leaves `working_hours` as it was. */
  lemma {:induction false} OtherWrites(v: Value, u: map<string, Value>, keys: seq<string>)
    requires forall k <- keys :: k in u && '.' !in k && k != "working_hours"
    ensures Child(ApplyUpdate(v, u, keys), "working_hours") == Child(v, "working_hours")
    decreases |keys|
  {
    if keys != [] {
      SplitNoSep(keys[0], '.');
      SetOtherField(v, keys[0], u[keys[0]]);
      OtherWrites(SetPath(v, [keys[0]], u[keys[0]]), u, keys[1..]);
    }
  }

  /** Prefilling from saved fields gives back the form that was saved. */
  lemma PrefillSaved(form: HoursForm, f: HoursForm, fs: map<string, Value>, c: Value)
    requires Child(c, "working_hours") == Some(Obj(SavedFields(fs, f)))
    ensures Prefill(form, Some(c)) == f
  {
    var g := SavedFields(fs, f);
    assert HoursField(c, "enabled") == Some(Bool(f.enabled));
    assert HoursField(c, "start_hour") == Some(Num(f.startHour));
    assert HoursField(c, "end_hour") == Some(Num(f.endHour));
    assert HoursField(c, "timezone") == Some(Str(f.timezone));
    assert HoursField(c, "days") == Some(DaysValue(f.days));
  }

  /** Saving a form and prefilling from what was saved gives the form back. */
  lemma HoursSaveReadsBack(c: Value, f: HoursForm, form: HoursForm)
    ensures Prefill(form, Some(ApplyUpdate(c, HoursUpdate(f), HoursKeys))) == f
  {
    SaveWritesFields(c, f);
    PrefillSaved(form, f, HoursFields(Child(c, "working_hours")), ApplyUpdate(c, HoursUpdate(f), HoursKeys));
  }

  /** The validation message for a form, if it is refused. */
  function HoursError(f: HoursForm): (e: Option<string>)
    ensures e.None? <==> f.startHour < f.endHour && |f.days| > 0
  {
    if f.startHour >= f.endHour then Some("Start hour must be before end hour")
    else if |f.days| == 0 then Some("Please select at least one working day")
    else None
  }

  /** The save button is disabled while saving or while the edit is blank after trimming. */
  predicate SaveDisabled(saving: bool, editValue: string)
  {
    saving || Blank(editValue)
  }

  const SavedText := "\U{2705} Saved successfully!"
  const HoursSavedText := "\U{2705} Working hours updated!"
  const FailedText := "\U{274C} Failed to save"

  class ConfigurationPage {
    var activeTab: Tab
    var editingKey: Option<string>
    var editValue: string
    var previewKey: Option<string>
    var saving: bool
    var form: HoursForm
    var successMessage: string
    var errorMessage: string

    constructor ()
      ensures activeTab == Funnel && editingKey.None? && editValue == "" && previewKey.None?
      ensures !saving && form == DefaultForm && successMessage == "" && errorMessage == ""
    {
      activeTab := Funnel;
      editingKey := None;
      editValue := "";
      previewKey := None;
      saving := false;
      form := DefaultForm;
      successMessage := "";
      errorMessage := "";
    }

    /** `handleEdit`: start editing `path` from its shown value, closing any preview. */
    method HandleEdit(path: string, current: string)
      modifies this
      ensures editingKey == Some(path) && editValue == current && previewKey.None?
      ensures activeTab == old(activeTab) && saving == old(saving) && form == old(form)
      ensures successMessage == old(successMessage) && errorMessage == old(errorMessage)
    {
      editingKey := Some(path);
      editValue := current;
      previewKey := None;
    }

    method EditValueChange(v: string)
      modifies this
      ensures editValue == v
      ensures editingKey == old(editingKey) && previewKey == old(previewKey) && activeTab == old(activeTab)
      ensures saving == old(saving) && form == old(form)
      ensures successMessage == old(successMessage) && errorMessage == old(errorMessage)
    {
      editValue := v;
    }

    /** The field's preview button: hide the preview of `path` if shown, else show it. */
    method PreviewToggle(path: string)
      modifies this
      ensures previewKey == (if old(previewKey) == Some(path) then None else Some(path))
      ensures editingKey == old(editingKey) && editValue == old(editValue) && activeTab == old(activeTab)
      ensures saving == old(saving) && form == old(form)
      ensures successMessage == old(successMessage) && errorMessage == old(errorMessage)
    {
      previewKey := if previewKey == Some(path) then None else Some(path);
    }

    /**
     * The prefill effect: while a non-empty key is edited and the edit is empty, a
     * non-empty stored value at that key becomes the edit.
     */
    method PrefillEdit(config: Option<Value>)
      modifies this
      ensures (old(editingKey).Some? && old(editingKey).value != "" && config.Some? && old(editValue) == ""
               && Lookup(config.value, old(editingKey).value) != "")
              ==> editValue == Lookup(config.value, old(editingKey).value)
      ensures !(old(editingKey).Some? && old(editingKey).value != "" && config.Some? && old(editValue) == ""
                && Lookup(config.value, old(editingKey).value) != "")
              ==> editValue == old(editValue)
      ensures editingKey == old(editingKey) && previewKey == old(previewKey) && activeTab == old(activeTab)
      ensures saving == old(saving) && form == old(form)
      ensures successMessage == old(successMessage) && errorMessage == old(errorMessage)
    {
      if editingKey.Some? && editingKey.value != "" && config.Some? {
        var current := GetNestedValue(config.value, editingKey.value);
        if editValue == "" && current != "" {
          editValue := current;
        }
      }
    }

    /**
     * `handleSave`: send the edit under its full dotted path with the stamps. On success
     * the edit state is cleared; on failure it stays and the error is shown.
     */
    method HandleSave(path: string, write: Step) returns (sent: map<string, Value>)
      modifies this
      ensures sent == EditUpdate(path, old(editValue))
      ensures !saving && activeTab == old(activeTab) && form == old(form)
      ensures write.Done? ==> editingKey.None? && editValue == "" && previewKey.None?
                              && successMessage == SavedText && errorMessage == old(errorMessage)
      ensures write.Failed? ==> editingKey == old(editingKey) && editValue == old(editValue)
                                && previewKey == old(previewKey)
                                && errorMessage == FailedText && successMessage == old(successMessage)
    {
      saving := true;
      var key := EditKey(path);
      sent := EditUpdate(key, editValue);
      if write.Done? {
        editingKey := None;
        editValue := "";
        previewKey := None;
        successMessage := SavedText;
      } else {
        errorMessage := FailedText;
      }
      saving := false;
    }

    /** `handleCancel`. */
    method HandleCancel()
      modifies this
      ensures editingKey.None? && editValue == "" && previewKey.None?
      ensures activeTab == old(activeTab) && saving == old(saving) && form == old(form)
      ensures successMessage == old(successMessage) && errorMessage == old(errorMessage)
    {
      editingKey := None;
      editValue := "";
      previewKey := None;
    }

    /** A tab click: switch tabs and drop the edit, as cancelling does. */
    method SwitchTab(t: Tab)
      modifies this
      ensures activeTab == t && editingKey.None? && editValue == "" && previewKey.None?
      ensures saving == old(saving) && form == old(form)
      ensures successMessage == old(successMessage) && errorMessage == old(errorMessage)
    {
      activeTab := t;
      editingKey := None;
      editValue := "";
      previewKey := None;
    }

    /** The working-hours prefill effect. */
    method PrefillHours(config: Option<Value>)
      modifies this
      ensures form == Prefill(old(form), config)
      ensures editingKey == old(editingKey) && editValue == old(editValue) && previewKey == old(previewKey)
      ensures activeTab == old(activeTab) && saving == old(saving)
      ensures successMessage == old(successMessage) && errorMessage == old(errorMessage)
    {
      form := Prefill(form, config);
    }

    /** `toggleDay` on the form's selection. */
    method ToggleFormDay(day: int)
      modifies this
      ensures form == old(form).(days := ToggleDay(old(form).days, day))
      ensures editingKey == old(editingKey) && editValue == old(editValue) && previewKey == old(previewKey)
      ensures activeTab == old(activeTab) && saving == old(saving)
      ensures successMessage == old(successMessage) && errorMessage == old(errorMessage)
    {
      form := form.(days := ToggleDay(form.days, day));
    }

    /**
     * `handleSaveWorkingHours`: a refused form sends nothing and shows the reason; a valid
     * one sends the five fields with the stamps.
     */
    method SaveWorkingHours(write: Step) returns (sent: Option<map<string, Value>>)
      modifies this
      ensures HoursError(old(form)).Some? ==>
                sent.None? && errorMessage == HoursError(old(form)).value
                && successMessage == old(successMessage)
      ensures HoursError(old(form)).None? ==> sent == Some(HoursUpdate(old(form)))
      ensures HoursError(old(form)).None? && write.Done? ==> successMessage == HoursSavedText && errorMessage == ""
      ensures HoursError(old(form)).None? && write.Failed? ==>
                errorMessage == FailedText && successMessage == old(successMessage)
      ensures HoursError(old(form)).Some? ==> saving == old(saving)
      ensures HoursError(old(form)).None? ==> !saving
      ensures form == old(form) && activeTab == old(activeTab)
      ensures editingKey == old(editingKey) && editValue == old(editValue) && previewKey == old(previewKey)
    {
      var e := HoursError(form);
      if e.Some? {
        errorMessage := e.value;
        return None;
      }
      saving := true;
      errorMessage := "";
      sent := Some(HoursUpdate(form));
      if write.Done? {
        successMessage := HoursSavedText;
      } else {
        errorMessage := FailedText;
      }
      saving := false;
    }
  }
}
