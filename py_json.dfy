/** The Python values the services receive from request bodies, from the document
    store and from `json.loads`, modelled as JSON values. A dict is an ordered list of
    members, so that iterating over it follows insertion order as in Python. */
module PyJson {
  import opened PyBuiltins

  datatype Option<+T> = None | Some(value: T)

  datatype Json =
    | Null
    | Bool(b: bool)
    | Num(n: int)
    | Str(s: string)
    | Arr(items: seq<Json>)
    | Obj(members: seq<Member>)

  datatype Member = Member(key: string, value: Json)

  type Dict = seq<Member>

  /** Python truthiness: `None`, `False`, `0`, `""`, `[]` and `{}` are false. */
  predicate Truthy(v: Json) {
    match v
    case Null => false
    case Bool(b) => b
    case Num(n) => n != 0
    case Str(s) => s != ""
    case Arr(items) => items != []
    case Obj(members) => members != []
  }

  /** `not d or not isinstance(d, dict)` is false. */
  predicate IsNonEmptyDict(v: Json) {
    v.Obj? && v.members != []
  }

  /** `d[key]`, or None when the key is absent (the first member with the key wins). */
  function Lookup(d: Dict, key: string): Option<Json> {
    if d == [] then None
    else if d[0].key == key then Some(d[0].value)
    else Lookup(d[1..], key)
  }

  /** The lookup finds a value exactly when some member has the key, and the value it
      finds is that of the first such member. */
  lemma {:induction false} LookupSpec(d: Dict, key: string)
    ensures Lookup(d, key).Some? <==> exists i :: 0 <= i < |d| && d[i].key == key
    ensures Lookup(d, key).Some? ==>
      exists i :: 0 <= i < |d| && d[i].key == key && Lookup(d, key).value == d[i].value && forall k :: 0 <= k < i ==> d[k].key != key
  {
    if d != [] && d[0].key != key {
      LookupSpec(d[1..], key);
      assert forall i :: 1 <= i < |d| ==> d[i] == d[1..][i - 1];
      if Lookup(d, key).Some? {
        var i :| 0 <= i < |d[1..]| && d[1..][i].key == key
          && Lookup(d, key).value == d[1..][i].value && forall k :: 0 <= k < i ==> d[1..][k].key != key;
        assert d[i + 1].key == key && forall k :: 0 <= k < i + 1 ==> d[k].key != key;
      }
    }
  }

  predicate HasKey(d: Dict, key: string) {
    Lookup(d, key).Some?
  }

  /** The placeholder `'N/A'` the services put in place of a missing field. */
  const NotAvailable := Str("N/A")

  /** `d.get(key, default)`. */
  function Get(d: Dict, key: string, default: Json): Json {
    match Lookup(d, key)
    case Some(x) => x
    case None => default
  }

  /** `d.get(key, default)` takes the dict's value when the key is there. */
  predicate FieldFrom(d: Dict, key: string, default: Json, v: Json) {
    if HasKey(d, key) then v == Lookup(d, key).value else v == default
  }

  function Keys(d: Dict): (r: seq<string>)
    ensures |r| == |d| && forall i :: 0 <= i < |d| ==> r[i] == d[i].key
  {
    seq(|d|, i requires 0 <= i < |d| => d[i].key)
  }

  /** The name Python's error messages give the value's type. */
  function TypeName(v: Json): string {
    match v
    case Null => "NoneType"
    case Bool(_) => "bool"
    case Num(_) => "int"
    case Str(_) => "str"
    case Arr(_) => "list"
    case Obj(_) => "dict"
  }

  /** A Python list of strings. */
  function StrList(xs: seq<string>): (v: Json)
    ensures v.Arr? && |v.items| == |xs|
    ensures forall i :: 0 <= i < |xs| ==> v.items[i] == Str(xs[i])
  {
    Arr(seq(|xs|, i requires 0 <= i < |xs| => Str(xs[i])))
  }

  /** `str(v)`, as an f-string interpolates it. */
  function Display(v: Json): string {
    match v
    case Str(s) => s
    case _ => Repr(v)
  }

  /** `repr(v)`; strings are quoted without escaping their contents. */
  function Repr(v: Json): string
    decreases v
  {
    match v
    case Null => "None"
    case Bool(b) => if b then "True" else "False"
    case Num(n) => IntToString(n)
    case Str(s) => "'" + s + "'"
    case Arr(items) =>
      "[" + Join(", ", seq(|items|, i requires 0 <= i < |items| => Repr(items[i]))) + "]"
    case Obj(members) =>
      "{" + Join(", ", seq(|members|, i requires 0 <= i < |members| =>
        assert members[i] in members;
        "'" + members[i].key + "': " + Repr(members[i].value))) + "}"
  }

  /** What iterating over `v` yields, when `v` is iterable: the items of a list, the
      one-character strings of a string, the keys of a dict. */
  function Iterate(v: Json): (r: Option<seq<Json>>)
    ensures r.None? <==> v.Null? || v.Bool? || v.Num?
  {
    match v
    case Arr(items) => Some(items)
    case Str(s) => Some(seq(|s|, i requires 0 <= i < |s| => Str([s[i]])))
    case Obj(members) => Some(seq(|members|, i requires 0 <= i < |members| => Str(members[i].key)))
    case _ => None
  }

  /** The texts of `items` when every item is a string. */
  function AllTexts(items: seq<Json>): (r: Option<seq<string>>)
    ensures r.Some? <==> forall i :: 0 <= i < |items| ==> items[i].Str?
    ensures r.Some? ==> |r.value| == |items| && forall i :: 0 <= i < |items| ==> items[i] == Str(r.value[i])
  {
    if items == [] then Some([])
    else if !items[0].Str? then None
    else match AllTexts(items[1..])
      case None => None
      case Some(rest) => Some([items[0].s] + rest)
  }

  /** `sep.join(v)`: None where Python raises a TypeError (a value that cannot be
      iterated, or an item that is not a string). */
  function JoinValue(sep: string, v: Json): (r: Option<string>)
    ensures r.Some? <==> Iterate(v).Some? && AllTexts(Iterate(v).value).Some?
  {
    match Iterate(v)
    case None => None
    case Some(items) =>
      match AllTexts(items)
      case None => None
      case Some(texts) => Some(Join(sep, texts))
  }
}
