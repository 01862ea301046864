/** Provider responses as the program sees them after `json.loads`: nested dicts,
    lists, strings and None. */
module Documents {
  import opened Wrappers

  datatype Json =
    | Null
    | Str(s: string)
    | Arr(items: seq<Json>)
    | Obj(fields: map<string, Json>)

  /** `d.get(key)` on a dict: None when the key is absent. */
  function Field(fields: map<string, Json>, key: string): Json
  {
    if key in fields then fields[key] else Null
  }

  /** `obj.get(key)`: only a dict has `.get`. */
  function Get(obj: Json, key: string): Result<Json>
  {
    if obj.Obj? then Ok(Field(obj.fields, key)) else Err(NoAttribute)
  }

  /** The elements that `for x in j:` hands to a loop body whose first action is
      `x.get(...)` (true of every loop in this program). A list yields its items;
      None is not iterable; a non-empty string or dict yields strings, and the
      first `.get` on one of them raises. */
  function Records(j: Json): (r: Result<seq<Json>>)
    ensures r.Ok? ==> j.Arr? || j == Str("") || j == Obj(map[])
    ensures j.Arr? ==> r == Ok(j.items)
  {
    match j
    case Arr(items) => Ok(items)
    case Null => Err(NotIterable)
    case Str(s) => if s == "" then Ok([]) else Err(NoAttribute)
    case Obj(m) => if m == map[] then Ok([]) else Err(NoAttribute)
  }

  /** The value `find_by_path(obj, *path)` computes: follow the keys in order,
      answering None as soon as one of them is missing (or maps to None). */
  function Resolve(obj: Json, path: seq<string>): Result<Json>
    decreases |path|
  {
    if path == [] then Ok(obj)
    else
      match Get(obj, path[0])
      case Err(e) => Err(e)
      case Ok(next) => if next == Null then Ok(Null) else Resolve(next, path[1..])
  }

  /** The document that holds `leaf` under the nested keys `path`. */
  function Nest(path: seq<string>, leaf: Json): Json
    decreases |path|
  {
    if path == [] then leaf else Obj(map[path[0] := Nest(path[1..], leaf)])
  }

  /** Following the keys of a document built by `Nest` reaches its leaf. */
  lemma {:induction false} ResolveNest(path: seq<string>, leaf: Json)
    ensures Resolve(Nest(path, leaf), path) == Ok(leaf)
  {
    if path != [] {
      var inner := Nest(path[1..], leaf);
      assert Get(Nest(path, leaf), path[0]) == Ok(inner);
      if path[1..] != [] {
        assert inner.Obj?;
        ResolveNest(path[1..], leaf);
      }
    }
  }

  /** Walking `p + q` is walking `p`, then walking `q` from where `p` ended,
      except that a None met along `p` ends the walk at once. */
  lemma {:induction false} ResolveAppend(obj: Json, p: seq<string>, q: seq<string>)
    ensures Resolve(obj, p + q) ==
      match Resolve(obj, p)
      case Err(e) => Err(e)
      case Ok(mid) => if mid == Null && p != [] then Ok(Null) else Resolve(mid, q)
    decreases |p|
  {
    if p != [] {
      assert (p + q)[0] == p[0];
      assert (p + q)[1..] == p[1..] + q;
      match Get(obj, p[0])
      case Err(_) =>
      case Ok(next) =>
        if next != Null {
          ResolveAppend(next, p[1..], q);
          if p[1..] == [] {
            assert Resolve(next, p[1..]) == Ok(next);
          }
        }
    } else {
      assert p + q == q;
    }
  }

  /** Once the walk reaches a dict that lacks the next key, the answer is None,
      whatever keys follow. */
  lemma MissingKeyAnswersNone(obj: Json, p: seq<string>, key: string, rest: seq<string>)
    requires Resolve(obj, p).Ok? && Resolve(obj, p).value.Obj?
    requires key !in Resolve(obj, p).value.fields
    ensures Resolve(obj, p + [key] + rest) == Ok(Null)
  {
    ResolveAppend(obj, p, [key] + rest);
    assert p + [key] + rest == p + ([key] + rest);
  }

  /** The loop of `find_by_path`. */
  method FindByPath(obj: Json, path: seq<string>) returns (r: Result<Json>)
    ensures r == Resolve(obj, path)
  {
    var cur := obj;
    var i := 0;
    while i < |path|
      invariant 0 <= i <= |path|
      invariant Resolve(obj, path) == Resolve(cur, path[i..])
    {
      assert path[i..][0] == path[i] && path[i..][1..] == path[i + 1..];
      var next := Get(cur, path[i]);
      if next.Err? {
        return Err(next.error);
      }
      cur := next.value;
      if cur == Null {
        return Ok(Null);
      }
      i := i + 1;
    }
    r := Ok(cur);
  }
}
