/** JSON-shaped values shared by the Python back end and the JavaScript client:
    the status tree, the form store, the configuration document and the
    client's snapshot are all nested dictionaries of this kind. */
module Json {

  datatype Option<T> = None | Some(value: T)

  datatype Json =
    | JNull
    | JBool(b: bool)
    | JNum(n: int)
    | JStr(s: string)
    | JArr(items: seq<Json>)
    | JObj(fields: map<string, Json>)

  /** Python truthiness: `not x` holds exactly when `!Truthy(x)`. */
  predicate Truthy(j: Json)
  {
    match j
    case JNull => false
    case JBool(b) => b
    case JNum(n) => n != 0
    case JStr(s) => s != ""
    case JArr(items) => items != []
    case JObj(fields) => fields != map[]
  }

  /** `bool(d.get(k))` for a dictionary `d`. */
  predicate HasTruthy(d: map<string, Json>, k: string)
  {
    k in d && Truthy(d[k])
  }

  /** The guard `not d.get(k) or not isinstance(d[k], dict)` is false exactly
      when the slot holds a non-empty dictionary; such a slot is kept. */
  predicate KeepsSlot(d: map<string, Json>, k: string)
  {
    k in d && d[k].JObj? && d[k].fields != map[]
  }

  /** The slot `k` after `if not d.get(k) or not isinstance(d[k], dict): d[k] = {}`. */
  function EnsureDict(d: map<string, Json>, k: string): (r: map<string, Json>)
    ensures k in r && r[k].JObj?
    ensures KeepsSlot(d, k) ==> r == d
    ensures !KeepsSlot(d, k) ==> r[k] == JObj(map[])
    ensures forall k' :: k' != k && k' in d ==> k' in r && r[k'] == d[k']
    ensures r.Keys == d.Keys + {k}
  {
    if KeepsSlot(d, k) then d else d[k := JObj(map[])]
  }

  /** Resetting a slot that was missing or an empty dictionary changes nothing
      that a later write into it can observe: the slot's dictionary is the old one. */
  lemma EnsureDictKeepsDictionary(d: map<string, Json>, k: string)
    requires k in d && d[k].JObj?
    ensures EnsureDict(d, k) == d
  {
    if d[k].fields == map[] {
      assert d[k] == JObj(map[]);
      assert d[k := JObj(map[])] == d;
    }
  }

  /** `list.remove(x)`: drops the first occurrence of `x`. */
  function RemoveFirst(list: seq<Json>, x: Json): (r: seq<Json>)
    requires x in list
    ensures |r| == |list| - 1
    ensures multiset(r) == multiset(list) - multiset{x}
  {
    if list[0] == x then
      assert list == [list[0]] + list[1..];
      list[1..]
    else
      assert list == [list[0]] + list[1..];
      [list[0]] + RemoveFirst(list[1..], x)
  }
}
