/** Python values as the agent's helpers receive them (decoded JSON and
    plain dicts), and the handful of Python operations on them that the
    helpers use. An operation that would raise yields None. */
module PyValues {
  import opened Text

  datatype Option<T> = None | Some(value: T)

  /** None, booleans, integers, strings, lists and dicts with string keys. */
  datatype Value =
    | PyNone
    | Bool(b: bool)
    | Int(i: int)
    | Str(s: string)
    | List(items: seq<Value>)
    | Dict(entries: seq<(string, Value)>)

  /** The value stored under `key`: the last entry with that key, as when a
      dict is built from its entries in order. */
  function Lookup(entries: seq<(string, Value)>, key: string): (r: Option<Value>)
    ensures r.Some? <==> exists i :: 0 <= i < |entries| && entries[i].0 == key
  {
    if entries == [] then None
    else if entries[|entries| - 1].0 == key then Some(entries[|entries| - 1].1)
    else Lookup(entries[..|entries| - 1], key)
  }

  /** Python truth: None, False, 0, "" and empty containers are false. */
  predicate Truthy(v: Value)
  {
    match v
    case PyNone => false
    case Bool(b) => b
    case Int(i) => i != 0
    case Str(s) => s != ""
    case List(items) => items != []
    case Dict(entries) => entries != []
  }

  /** `key in container`: a dict key, a substring, or a list element; None
      (TypeError) for None, booleans and integers. */
  function In(key: string, container: Value): (r: Option<bool>)
    ensures r.None? <==> container.PyNone? || container.Bool? || container.Int?
  {
    match container
    case Dict(entries) => Some(Lookup(entries, key).Some?)
    case Str(s) => Some(Contains(s, key))
    case List(items) => Some(Str(key) in items)
    case _ => None
  }

  /** `container[key]`: None (KeyError or TypeError) unless the container is
      a dict holding `key`. */
  function Index(container: Value, key: string): (r: Option<Value>)
    ensures r.Some? <==> container.Dict? && Lookup(container.entries, key).Some?
  {
    if container.Dict? then Lookup(container.entries, key) else None
  }

  /** `container.get(key, default)`: None (AttributeError) unless the
      container is a dict. */
  function Get(container: Value, key: string, default: Value): (r: Option<Value>)
    ensures r.Some? <==> container.Dict?
    ensures container.Dict? && Lookup(container.entries, key).None? ==> r == Some(default)
  {
    if container.Dict? then
      match Lookup(container.entries, key)
      case Some(v) => Some(v)
      case None => Some(default)
    else None
  }

  /** The keys of a dict, each once. */
  function Keys(entries: seq<(string, Value)>): (ks: set<string>)
    ensures forall i :: 0 <= i < |entries| ==> entries[i].0 in ks
    ensures forall k :: k in ks ==> Lookup(entries, k).Some?
  {
    set i | 0 <= i < |entries| :: entries[i].0
  }

  /** `len(v)`: the characters of a string, the items of a list, the
      distinct keys of a dict; None (TypeError) for None, booleans and
      integers. */
  function Len(v: Value): (r: Option<nat>)
    ensures r.None? <==> v.PyNone? || v.Bool? || v.Int?
    ensures v.Str? ==> r == Some(|v.s|)
    ensures v.List? ==> r == Some(|v.items|)
    ensures v.Dict? ==> r.Some? && r.value <= |v.entries|
  {
    match v
    case Str(s) => Some(|s|)
    case List(items) => Some(|items|)
    case Dict(entries) => KeysBounded(entries); Some(|Keys(entries)|)
    case _ => None
  }

  /** A dict has no more keys than entries. */
  lemma {:induction false} KeysBounded(entries: seq<(string, Value)>)
    ensures |Keys(entries)| <= |entries|
    decreases |entries|
  {
    if entries != [] {
      var init := entries[..|entries| - 1];
      KeysBounded(init);
      assert Keys(entries) == Keys(init) + {entries[|entries| - 1].0} by {
        forall k | k in Keys(entries) ensures k in Keys(init) + {entries[|entries| - 1].0} {
          var i :| 0 <= i < |entries| && entries[i].0 == k;
          if i < |entries| - 1 {
            assert init[i].0 == k;
          }
        }
      }
    }
  }

  /** The items a `for` loop visits: a list's elements, a string's
      characters, a dict's keys; None (TypeError) for anything else. */
  function Iterate(v: Value): (r: Option<seq<Value>>)
    ensures r.None? <==> v.PyNone? || v.Bool? || v.Int?
    ensures r.Some? ==> |r.value| == match v
      case List(items) => |items|
      case Str(s) => |s|
      case Dict(entries) => |entries|
      case _ => 0
  {
    match v
    case List(items) => Some(items)
    case Str(s) => Some(seq(|s|, i requires 0 <= i < |s| => Str([s[i]])))
    case Dict(entries) => Some(seq(|entries|, i requires 0 <= i < |entries| => Str(entries[i].0)))
    case _ => None
  }

  /** Python's str.isspace on one character: .NET's white space plus the
      four information separators U+001C to U+001F. */
  predicate IsPySpace(c: char)
  {
    IsWhiteSpace(c) || ('\U{001C}' <= c <= '\U{001F}')
  }

  /** `not s.strip()`: the string is empty or only white space. */
  predicate IsPyBlank(s: string)
  {
    forall i :: 0 <= i < |s| ==> IsPySpace(s[i])
  }

  /** `s[:n] + "..."` when `s` is longer than `n`, else `s`. */
  function Truncate(s: string, n: nat): (r: string)
    ensures |s| <= n ==> r == s
    ensures |s| > n ==> |r| == n + 3 && r[..n] == s[..n] && r[n..] == "..."
  {
    if |s| > n then s[..n] + "..." else s
  }

  /** The value under `key` is the one of its last entry. */
  lemma {:induction false} LookupAt(entries: seq<(string, Value)>, i: nat, key: string)
    requires i < |entries| && entries[i].0 == key
    requires forall j :: i < j < |entries| ==> entries[j].0 != key
    ensures Lookup(entries, key) == Some(entries[i].1)
    decreases |entries|
  {
    if i < |entries| - 1 {
      LookupAt(entries[..|entries| - 1], i, key);
    }
  }

  lemma LookupLast(entries: seq<(string, Value)>, key: string, v: Value)
    ensures Lookup(entries + [(key, v)], key) == Some(v)
  {
  }
}
