/** Dot-path access to the settings (src/utils/config.py): `get` walks the
    nested dicts along the dot-separated key parts, `set` walks them
    creating missing intermediate dicts and assigns the last part. */
module Config {
  import opened Common

  /** A JSON value as `json.load` produces it. */
  datatype Json =
    | JNull
    | JBool(b: bool)
    | JNum(n: int)
    | JStr(s: string)
    | JArr(items: seq<Json>)
    | JObj(fields: map<string, Json>)

  /** The value stored at a path of keys, if every step is a dict holding
      the next key. */
  function Stored(v: Json, path: seq<string>): Option<Json>
    decreases |path|
  {
    if path == [] then Some(v)
    else if v.JObj? && path[0] in v.fields then Stored(v.fields[path[0]], path[1..])
    else None
  }

  /** What `get`'s loop reaches: `None` (the default) as soon as a step is
      not a dict, or the key is missing or holds `None`. */
  function Lookup(v: Json, keys: seq<string>): Option<Json>
    decreases |keys|
  {
    if keys == [] then Some(v)
    else if !v.JObj? then None
    else if keys[0] !in v.fields || v.fields[keys[0]] == JNull then None
    else Lookup(v.fields[keys[0]], keys[1..])
  }

  /** The settings after `set(keys, value)`, or `None` when a step meets an
      existing value that is not a dict (Python raises TypeError there;
      nothing has been changed by then). */
  function Assigned(m: map<string, Json>, keys: seq<string>, value: Json): Option<map<string, Json>>
    requires |keys| >= 1
    decreases |keys|
  {
    if |keys| == 1 then Some(m[keys[0] := value])
    else
      var child := if keys[0] in m then m[keys[0]] else JObj(map[]);
      if !child.JObj? then None
      else
        match Assigned(child.fields, keys[1..], value)
        case None => None
        case Some(c) => Some(m[keys[0] := JObj(c)])
  }

  /** The dict `set` steps into from `m` at key `k`: the existing one, or
      the fresh `{}` it inserts. */
  function ChildMap(m: map<string, Json>, k: string): map<string, Json>
  {
    if k in m && m[k].JObj? then m[k].fields else map[]
  }

  predicate CanStep(m: map<string, Json>, k: string)
  {
    k !in m || m[k].JObj?
  }

  /** The nested dicts `set` creates below a missing key. */
  function Nested(keys: seq<string>, value: Json): Json
    decreases |keys|
  {
    if keys == [] then value else JObj(map[keys[0] := Nested(keys[1..], value)])
  }

  /** One step of `set`'s walk: it fails at a stored non-dict, and
      otherwise descends into the child dict and stores the result back. */
  lemma AssignedStep(m: map<string, Json>, keys: seq<string>, value: Json)
    requires |keys| >= 2
    ensures !CanStep(m, keys[0]) ==> Assigned(m, keys, value).None?
    ensures CanStep(m, keys[0]) ==>
      (Assigned(m, keys, value).None? <==> Assigned(ChildMap(m, keys[0]), keys[1..], value).None?) &&
      (Assigned(m, keys, value).Some? ==>
        Assigned(m, keys, value).value == m[keys[0] := JObj(Assigned(ChildMap(m, keys[0]), keys[1..], value).value)])
  {
  }

  /** The dicts `set` has walked through for the first `n` keys: each is
      the child of the previous one along the path. */
  predicate Chain(levels: seq<map<string, Json>>, keys: seq<string>, n: nat)
  {
    |levels| == n + 1 && n <= |keys| &&
    forall t :: 0 <= t < n ==> CanStep(levels[t], keys[t]) && levels[t + 1] == ChildMap(levels[t], keys[t])
  }

  lemma ChainExtend(levels: seq<map<string, Json>>, keys: seq<string>, n: nat)
    requires Chain(levels, keys, n) && n < |keys| && CanStep(levels[n], keys[n])
    ensures Chain(levels + [ChildMap(levels[n], keys[n])], keys, n + 1)
  {
    var next := levels + [ChildMap(levels[n], keys[n])];
    forall t | 0 <= t < n + 1 ensures CanStep(next[t], keys[t]) && next[t + 1] == ChildMap(next[t], keys[t]) {
      assert next[t] == levels[t];
    }
  }

  /** Python's message names the offending type; the model keeps one
      message for all of them. */
  const SetTypeError: Error := TypeError("object is not a dict")

  class Config {
    var settings: map<string, Json>

    /** `_load_config` is file I/O; the loaded settings are given. */
    constructor (loaded: map<string, Json>)
      ensures settings == loaded
    {
      settings := loaded;
    }

    method Get(key: string, default: Json) returns (r: Json)
      ensures r == match Lookup(JObj(settings), Split(key, '.')) case None => default case Some(x) => x
      ensures Lookup(JObj(settings), Split(key, '.')).Some? ==> r != JNull
    {
      var keys := Split(key, '.');
      var value := JObj(settings);
      for i := 0 to |keys|
        invariant Lookup(JObj(settings), keys) == Lookup(value, keys[i..])
        invariant i > 0 ==> value != JNull
      {
        assert keys[i..][1..] == keys[i + 1..];
        if value.JObj? {
          if keys[i] !in value.fields || value.fields[keys[i]] == JNull {
            return default;
          }
          value := value.fields[keys[i]];
        } else {
          return default;
        }
      }
      assert keys[|keys|..] == [];
      r := value;
    }

    /** Walks down recording the dict at each level (inserting `{}` for a
        missing key), then writes the levels back from the innermost. The
        Python dicts are changed in place; here each level is a map value
        that is stored back into its parent. */
    method Set(key: string, value: Json) returns (error: Option<Error>)
      modifies this
      ensures Assigned(old(settings), Split(key, '.'), value).None? ==> error.Some? && settings == old(settings)
      ensures Assigned(old(settings), Split(key, '.'), value).Some? ==>
        error.None? && settings == Assigned(old(settings), Split(key, '.'), value).value
    {
      var keys := Split(key, '.');
      var levels: seq<map<string, Json>> := [settings];
      var i := 0;
      while i < |keys| - 1
        invariant 0 <= i <= |keys| - 1
        invariant settings == old(settings)
        invariant |levels| == i + 1 && levels[0] == settings
        invariant Chain(levels, keys, i)
        invariant Assigned(settings, keys, value).None? <==> Assigned(levels[i], keys[i..], value).None?
      {
        var current := levels[i];
        AssignedStep(current, keys[i..], value);
        assert keys[i..][1..] == keys[i + 1..];
        if keys[i] in current && !current[keys[i]].JObj? {
          return Some(SetTypeError);
        }
        ChainExtend(levels, keys, i);
        levels := levels + [ChildMap(current, keys[i])];
        i := i + 1;
      }
      var last := |keys| - 1;
      var acc := levels[last][keys[last] := value];
      var j := last;
      while j > 0
        invariant 0 <= j <= last
        invariant settings == old(settings)
        invariant Assigned(levels[j], keys[j..], value) == Some(acc)
      {
        j := j - 1;
        AssignedStep(levels[j], keys[j..], value);
        assert keys[j..][1..] == keys[j + 1..];
        acc := levels[j][keys[j] := JObj(acc)];
      }
      settings := acc;
      error := None;
    }
  }

  // ---------------------------------------------------------------------
  // Properties

  /** `get` returns the value stored along the path, and the default when
      nothing is stored there. */
  lemma {:induction false} LookupReadsStored(v: Json, keys: seq<string>)
    ensures Lookup(v, keys).Some? ==> Stored(v, keys) == Lookup(v, keys)
    ensures Stored(v, keys).None? ==> Lookup(v, keys).None?
    ensures |keys| >= 1 && Lookup(v, keys).Some? ==> Lookup(v, keys).value != JNull
    decreases |keys|
  {
    if keys != [] && v.JObj? && keys[0] in v.fields && v.fields[keys[0]] != JNull {
      LookupReadsStored(v.fields[keys[0]], keys[1..]);
    }
  }

  /** `set` fails exactly when the path meets an existing value that is not
      a dict before its last key. */
  lemma {:induction false} AssignedFails(m: map<string, Json>, keys: seq<string>, value: Json)
    requires |keys| >= 1
    ensures Assigned(m, keys, value).None? <==>
      exists t :: 1 <= t < |keys| && Stored(JObj(m), keys[..t]).Some? && !Stored(JObj(m), keys[..t]).value.JObj?
    decreases |keys|
  {
    if |keys| > 1 {
      var k := keys[0];
      if k in m && m[k].JObj? {
        var c := m[k].fields;
        AssignedFails(c, keys[1..], value);
        forall t | 1 <= t < |keys| ensures Stored(JObj(m), keys[..t]) == Stored(JObj(c), keys[1..][..t - 1]) {
          assert keys[..t][1..] == keys[1..][..t - 1];
        }
        if Assigned(m, keys, value).None? {
          var t :| 1 <= t < |keys| - 1 && Stored(JObj(c), keys[1..][..t]).Some? && !Stored(JObj(c), keys[1..][..t]).value.JObj?;
          assert Stored(JObj(m), keys[..t + 1]) == Stored(JObj(c), keys[1..][..t]);
        }
      } else if k in m {
        assert Stored(JObj(m), keys[..1]) == Stored(m[k], []) by {
          assert keys[..1][1..] == [];
        }
      } else {
        AssignedMissing(m, keys, value);
        forall t | 1 <= t < |keys| ensures Stored(JObj(m), keys[..t]).None? {
          assert keys[..t][0] == k;
        }
      }
    }
  }

  /** Below a missing key `set` creates the nested dicts of the rest of the
      path. */
  lemma {:induction false} AssignedFresh(m: map<string, Json>, keys: seq<string>, value: Json)
    requires |keys| >= 1 && forall k :: k !in m
    ensures Assigned(m, keys, value) == Some(map[keys[0] := Nested(keys[1..], value)])
    decreases |keys|
  {
    if |keys| > 1 {
      AssignedFresh(map[], keys[1..], value);
      assert keys[1..][1..] == keys[2..];
    } else {
      assert m == map[];
    }
  }

  lemma AssignedMissing(m: map<string, Json>, keys: seq<string>, value: Json)
    requires |keys| >= 1 && keys[0] !in m
    ensures Assigned(m, keys, value) == Some(m[keys[0] := Nested(keys[1..], value)])
  {
    if |keys| > 1 {
      AssignedFresh(map[], keys[1..], value);
      assert keys[1..][1..] == keys[2..];
    }
  }

  /** Round trip: a value other than `None` that `set` stores is what `get`
      then returns for the same key. */
  lemma {:induction false} SetThenGet(m: map<string, Json>, keys: seq<string>, value: Json)
    requires |keys| >= 1 && value != JNull
    requires Assigned(m, keys, value).Some?
    ensures Lookup(JObj(Assigned(m, keys, value).value), keys) == Some(value)
    decreases |keys|
  {
    if |keys| > 1 {
      var child := if keys[0] in m then m[keys[0]] else JObj(map[]);
      SetThenGet(child.fields, keys[1..], value);
    }
  }

  /** `set` leaves every path that leaves its own path at some level as
      `get` saw it before: siblings at every level are untouched. */
  lemma {:induction false} SetKeepsOtherPaths(m: map<string, Json>, keys: seq<string>, value: Json,
                                              other: seq<string>, t: nat)
    requires |keys| >= 1 && Assigned(m, keys, value).Some?
    requires t < |other| && t < |keys| && other[..t] == keys[..t] && other[t] != keys[t]
    ensures Lookup(JObj(Assigned(m, keys, value).value), other) == Lookup(JObj(m), other)
    decreases t
  {
    if t > 0 {
      var child := if keys[0] in m then m[keys[0]] else JObj(map[]);
      assert other[0] == keys[0] by {
        assert other[..t][0] == keys[..t][0];
      }
      assert other[1..][..t - 1] == other[..t][1..] && keys[1..][..t - 1] == keys[..t][1..];
      SetKeepsOtherPaths(child.fields, keys[1..], value, other[1..], t - 1);
    }
  }
}
