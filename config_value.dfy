/**
 * The bot configuration document (`bot_config/messages`) as a JSON-like value, the
 * dotted-path lookup the editor pages share (`getNestedValue`), and the store's
 * field-path update of one nested field.
 */
module ConfigValue {
  import opened Common
  import opened Text

  /**
   * A stored value. `Stamp` is a server timestamp: an object none of whose members lead
   * to a string, so for lookup it behaves like a leaf.
   */
  datatype Value =
    | Str(s: string)
    | Num(n: int)
    | Bool(b: bool)
    | Null
    | Stamp
    | Arr(items: seq<Value>)
    | Obj(fields: map<string, Value>)

  /** A canonical array index: decimal digits without a leading zero. */
  predicate IsIndex(part: string)
  {
    && |part| >= 1
    && (forall k :: 0 <= k < |part| ==> '0' <= part[k] <= '9')
    && (part[0] != '0' || |part| == 1)
  }

  /**
   * One step of the walk: `current && typeof current === 'object' && part in current`,
   * then `current[part]`. Inherited members never lead to a string and count as absent.
   */
  function Child(v: Value, part: string): (r: Option<Value>)
    ensures !(v.Obj? || v.Arr?) ==> r.None?
    ensures v.Obj? ==> (r.Some? <==> part in v.fields)
  {
    match v
    case Obj(fields) => if part in fields then Some(fields[part]) else None
    case Arr(items) =>
      if part == "length" then Some(Num(|items|))
      else if IsIndex(part) && DigitsValue(part) < |items| then Some(items[DigitsValue(part)])
      else None
    case _ => None
  }

  /** The value at the end of the walk along `parts`, if every step succeeds. */
  function Resolve(v: Value, parts: seq<string>): Option<Value>
    decreases |parts|
  {
    if parts == [] then Some(v)
    else
      match Child(v, parts[0])
      case None => None
      case Some(c) => Resolve(c, parts[1..])
  }

  /** The walk's result as `getNestedValue` returns it: the string, or `''`. */
  function AsText(r: Option<Value>): (t: string)
    ensures r.Some? && r.value.Str? ==> t == r.value.s
    ensures !(r.Some? && r.value.Str?) ==> t == ""
  {
    if r.Some? && r.value.Str? then r.value.s else ""
  }

  /** The lookup a dotted path denotes. */
  function Lookup(v: Value, path: string): string
  {
    AsText(Resolve(v, Split(path, '.')))
  }

  /** `getNestedValue`: walk the path segment by segment, giving up at the first miss. */
  method GetNestedValue(obj: Value, path: string) returns (r: string)
    ensures r == Lookup(obj, path)
  {
    var parts := Split(path, '.');
    var current := obj;
    var i := 0;
    while i < |parts|
      invariant 0 <= i <= |parts|
      invariant Resolve(obj, parts) == Resolve(current, parts[i..])
    {
      assert parts[i..][0] == parts[i] && parts[i..][1..] == parts[i + 1..];
      var next := Child(current, parts[i]);
      if next.None? {
        return "";
      }
      current := next.value;
      i := i + 1;
    }
    assert parts[i..] == [];
    r := if current.Str? then current.s else "";
  }

  /**
   * Writing `x` at the field path `parts`: missing or non-map intermediates become maps,
   * as an update of a dotted key does.
   */
  function SetPath(v: Value, parts: seq<string>, x: Value): (r: Value)
    ensures parts != [] ==> r.Obj?
    decreases |parts|
  {
    if parts == [] then x
    else
      var fields := if v.Obj? then v.fields else map[];
      var child := if parts[0] in fields then fields[parts[0]] else Obj(map[]);
      Obj(fields[parts[0] := SetPath(child, parts[1..], x)])
  }

  /** After the write, the path reads back the value written. */
  lemma {:induction false} ReadBack(v: Value, parts: seq<string>, x: Value)
    ensures Resolve(SetPath(v, parts, x), parts) == Some(x)
    decreases |parts|
  {
    if parts != [] {
      var fields := if v.Obj? then v.fields else map[];
      var child := if parts[0] in fields then fields[parts[0]] else Obj(map[]);
      ReadBack(child, parts[1..], x);
    }
  }

  /** Two paths that part ways at some segment (neither is a prefix of the other). */
  predicate Diverges(p: seq<string>, q: seq<string>)
    decreases |p|
  {
    |p| > 0 && |q| > 0 && (p[0] != q[0] || Diverges(p[1..], q[1..]))
  }

  /** No array lies on the walk along `parts` (an update replaces an array by a map). */
  predicate NoArrayOn(v: Value, parts: seq<string>)
    decreases |parts|
  {
    && !v.Arr?
    && (parts != [] && v.Obj? && parts[0] in v.fields ==> NoArrayOn(v.fields[parts[0]], parts[1..]))
  }

  /** A write at one path leaves every diverging path as it was. */
  lemma {:induction false} SetPathElsewhere(v: Value, p: seq<string>, q: seq<string>, x: Value)
    requires Diverges(p, q)
    requires NoArrayOn(v, p)
    ensures Resolve(SetPath(v, p, x), q) == Resolve(v, q)
    decreases |p|
  {
    var fields := if v.Obj? then v.fields else map[];
    var child := if p[0] in fields then fields[p[0]] else Obj(map[]);
    var w := SetPath(v, p, x);
    assert w == Obj(fields[p[0] := SetPath(child, p[1..], x)]);
    if p[0] == q[0] {
      SetPathElsewhere(child, p[1..], q[1..], x);
      assert Child(w, q[0]) == Some(SetPath(child, p[1..], x));
      if p[0] !in fields {
        assert Child(v, q[0]).None?;
        assert Child(child, q[1..][0]).None?;
      }
    }
  }

  /**
   * `updateDoc` with dotted keys: each listed key's value is written at the path its
   * segments name, in the order `keys` lists them.
   */
  function ApplyUpdate(v: Value, u: map<string, Value>, keys: seq<string>): Value
    requires forall k <- keys :: k in u
    decreases |keys|
  {
    if keys == [] then v else ApplyUpdate(SetPath(v, Split(keys[0], '.'), u[keys[0]]), u, keys[1..])
  }

  /** Applying two runs of keys is applying the first, then the second. */
  lemma {:induction false} ApplyUpdateAppend(v: Value, u: map<string, Value>, a: seq<string>, b: seq<string>)
    requires forall k <- a + b :: k in u
    ensures ApplyUpdate(v, u, a + b) == ApplyUpdate(ApplyUpdate(v, u, a), u, b)
    decreases |a|
  {
    if a != [] {
      assert (a + b)[0] == a[0] && (a + b)[1..] == a[1..] + b;
      ApplyUpdateAppend(SetPath(v, Split(a[0], '.'), u[a[0]]), u, a[1..], b);
    } else {
      assert a + b == b;
    }
  }

  /** The edited value, once written at its dotted path, reads back through the lookup. */
  lemma EditReadsBack(v: Value, path: string, s: string)
    ensures Lookup(SetPath(v, Split(path, '.'), EditUpdate(path, s)[path]), path) == s
  {
    ReadBack(v, Split(path, '.'), Str(s));
  }

  /**
   * The update the configuration and template pages send for an edit: the stamps first,
   * then the edited value under the full dotted path (which wins if they coincide).
   */
  function EditUpdate(path: string, value: string): (u: map<string, Value>)
    ensures path in u && u[path] == Str(value)
    ensures u.Keys == {path, "last_updated", "updated_by"}
    ensures path != "last_updated" ==> u["last_updated"] == Stamp
    ensures path != "updated_by" ==> u["updated_by"] == Str("admin-dashboard")
  {
    map["last_updated" := Stamp, "updated_by" := Str("admin-dashboard")][path := Str(value)]
  }

  /**
   * The key the two pages compute: the single segment itself, or the segments joined
   * with '.' again, which is the original path either way.
   */
  function EditKey(path: string): (k: string)
    ensures k == path
  {
    var parts := Split(path, '.');
    JoinSplit(path, '.');
    if |parts| == 1 then parts[0] else Join(parts, '.')
  }
}
