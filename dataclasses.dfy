/** What a `@dataclass` with no defaults does when it is called: the generated
    `__init__` binds keyword or positional arguments to the declared fields,
    and every declared field is required. */
module Dataclasses {
  import opened Values

  function FieldSet(fields: seq<string>): set<string> {
    set f | f in fields
  }

  /** True when `cls(**v)` binds: `v` is a dict whose keys are exactly the
      declared fields. */
  predicate Binds(fields: seq<string>, v: Value) {
    v.Dict? && v.entries.Keys == FieldSet(fields)
  }

  /** `cls(**v)` for a dataclass declaring `fields`, none with a default:
      a non-dict, a missing field or an unknown key is a TypeError, and
      otherwise every field holds the value given for it. */
  function Init(cls: string, fields: seq<string>, v: Value): (r: Result<Value>)
    ensures r.Ok? <==> Binds(fields, v)
    ensures r.Ok? ==> r.value == Instance(cls, v.entries)
    ensures r.Err? ==> r.error == TypeError(BadConstructorCall(cls))
  {
    match v
    case Dict(kwargs) =>
      if kwargs.Keys == FieldSet(fields) then Ok(Instance(cls, kwargs))
      else Err(TypeError(BadConstructorCall(cls)))
    case _ => Err(TypeError(BadConstructorCall(cls)))
  }

  /** `cls(x)`: the single positional argument binds to the first declared
      field, so the call succeeds only for a one-field dataclass. */
  function CallOneArg(cls: string, fields: seq<string>, x: Value): (r: Result<Value>)
    ensures r.Ok? <==> |fields| == 1
    ensures r.Ok? ==> r.value == Instance(cls, map[fields[0] := x])
    ensures r.Err? ==> r.error == TypeError(BadConstructorCall(cls))
  {
    if |fields| == 1 then Ok(Instance(cls, map[fields[0] := x]))
    else Err(TypeError(BadConstructorCall(cls)))
  }

  /** `[cls(x) for x in xs]` for a class whose call raises a TypeError
      whatever `x` is: the comprehension yields a list only when there is
      nothing to iterate over. */
  function EachRejected(cls: string, xs: Value): (r: Result<seq<Value>>)
    ensures r.Ok? <==> IterationLength(xs) == Some(0)
    ensures r.Ok? ==> r.value == []
    ensures IterationLength(xs).None? ==> r == Err(TypeError(NotIterable))
    ensures IterationLength(xs).Some? && r.Err? ==> r.error == TypeError(BadConstructorCall(cls))
  {
    match IterationLength(xs)
    case None => Err(TypeError(NotIterable))
    case Some(n) => if n == 0 then Ok([]) else Err(TypeError(BadConstructorCall(cls)))
  }

  /** `[f(x) for x in items]` where each call may raise: the list of
      results when every call returns, else the exception of the first call
      that raises. */
  function MapAll(f: Value -> Result<Value>, items: seq<Value>): (r: Result<seq<Value>>)
    ensures r.Ok? <==> forall i :: 0 <= i < |items| ==> f(items[i]).Ok?
    ensures r.Ok? ==>
      |r.value| == |items| &&
      forall i :: 0 <= i < |items| ==> r.value[i] == f(items[i]).value
    ensures r.Err? ==>
      exists i :: 0 <= i < |items| && f(items[i]) == Err(r.error) &&
        forall j :: 0 <= j < i ==> f(items[j]).Ok?
  {
    if items == [] then Ok([])
    else
      match f(items[0])
      case Err(e) => Err(e)
      case Ok(x) =>
        match MapAll(f, items[1..])
        case Err(e) =>
          ghost var i :| 0 <= i < |items[1..]| && f(items[1..][i]) == Err(e) &&
            forall j :: 0 <= j < i ==> f(items[1..][j]).Ok?;
          assert f(items[i + 1]) == Err(e);
          assert forall j :: 0 <= j < i + 1 ==> f(items[j]).Ok? by {
            forall j | 0 <= j < i + 1 ensures f(items[j]).Ok? {
              if j > 0 { assert items[j] == items[1..][j - 1]; }
            }
          }
          Err(e)
        case Ok(xs) =>
          assert forall i :: 1 <= i < |items| ==> items[i] == items[1..][i - 1];
          Ok([x] + xs)
  }

  /** When every call returns, MapAll is the list of the results in order. */
  lemma MapAllBuilt(f: Value -> Result<Value>, items: seq<Value>, built: seq<Value>)
    requires |built| == |items|
    requires forall j :: 0 <= j < |items| ==> f(items[j]).Ok? && built[j] == f(items[j]).value
    ensures MapAll(f, items) == Ok(built)
  {
    var r := MapAll(f, items);
    assert r.Ok?;
    assert r.value == built;
  }

  /** When the call on `items[i]` is the first to raise, MapAll raises its
      exception. */
  lemma MapAllFirstFailure(f: Value -> Result<Value>, items: seq<Value>, i: nat)
    requires i < |items| && f(items[i]).Err?
    requires forall j :: 0 <= j < i ==> f(items[j]).Ok?
    ensures MapAll(f, items) == Err(f(items[i]).error)
  {
    var r := MapAll(f, items);
    var w :| 0 <= w < |items| && f(items[w]) == Err(r.error) &&
      forall j :: 0 <= j < w ==> f(items[j]).Ok?;
    assert w == i;
  }

  /** For a list, EachRejected is the comprehension itself: when every call
      of `f` raises `cls`'s TypeError, MapAll of `f` gives the same result. */
  lemma EachRejectedIsMapAll(cls: string, f: Value -> Result<Value>, xs: Value)
    requires forall x :: f(x) == Err(TypeError(BadConstructorCall(cls)))
    requires xs.List?
    ensures EachRejected(cls, xs) == MapAll(f, xs.items)
  {
    if xs.items != [] {
      MapAllFirstFailure(f, xs.items, 0);
    }
  }
}
