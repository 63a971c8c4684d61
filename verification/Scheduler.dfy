/** The registry of pipelines (internal/scheduler/scheduler.go). */
module Scheduling {
  import opened Options
  import opened Device
  import opened Actions
  import opened Machine
  import opened PipelineCode
  import Q = ActionQueues

  datatype Error = ValveNotFound | ValveDisabled | ActionNotFound | AmbiguousName

  datatype Result<T> = Ok(value: T) | Err(error: Error)

  // ----- names and keys

  /** The second part of strings.SplitN(key, "/", 2). */
  function AfterSlash(key: string): Option<string> {
    if key == "" then None else if key[0] == '/' then Some(key[1..]) else AfterSlash(key[1..])
  }

  /** A key split at its first slash gives back the name exactly if the namespace
      has no slash. */
  lemma {:induction false} AfterSlashOfKey(namespace: string, name: string)
    ensures AfterSlash(namespace + "/" + name) == Some(name) <==> '/' !in namespace
  {
    var key := namespace + "/" + name;
    if namespace == "" {
      assert key[1..] == name;
    } else if namespace[0] == '/' {
      assert |key[1..]| > |name|;
    } else {
      AfterSlashOfKey(namespace[1..], name);
      assert key[1..] == namespace[1..] + "/" + name;
    }
  }

  /** For namespaces without a slash, the key determines namespace and name. */
  lemma KeyInjective(a: ValveInfo, b: ValveInfo)
    requires '/' !in a.namespace && '/' !in b.namespace
    ensures a.Key() == b.Key() <==> a.namespace == b.namespace && a.name == b.name
  {
    AfterSlashOfKey(a.namespace, a.name);
    AfterSlashOfKey(b.namespace, b.name);
    if a.Key() == b.Key() {
      assert a.namespace == a.Key()[..|a.Key()| - |a.name| - 1];
      assert b.namespace == b.Key()[..|b.Key()| - |b.name| - 1];
    }
  }

  /** ... and with a slash it does not. */
  lemma KeyAmbiguous(a: ValveInfo, b: ValveInfo)
    requires a.namespace == "x/y" && a.name == "z" && b.namespace == "x" && b.name == "y/z"
    ensures a.Key() == b.Key()
  {
    assert a.Key() == "x/y/z" && b.Key() == "x/y/z";
  }

  // ----- pipelines under their keys

  ghost predicate Serves(p: Pipeline, key: string)
    reads p
  {
    p.Valid() && p.info.Key() == key
  }

  /** A pipeline is registered under its valve's key, and only there. */
  ghost predicate InOrder(m: map<string, Pipeline>)
    reads m.Values
  {
    && (forall k :: k in m ==> Serves(m[k], k))
    && (forall j, k :: j in m && k in m && j != k ==> m[j] != m[k])
  }

  lemma InOrderWithout(m: map<string, Pipeline>, key: string)
    requires InOrder(m) && key in m
    ensures InOrder(m - {key}) && m[key] !in (m - {key}).Values
  {
  }

  lemma InOrderWith(m: map<string, Pipeline>, key: string)
    requires key in m && InOrder(m - {key}) && m[key] !in (m - {key}).Values && Serves(m[key], key)
    ensures InOrder(m)
  {
    assert forall k :: k in m && k != key ==> k in m - {key} && (m - {key})[k] == m[k];
    assert forall k :: k in m && k != key ==> m[k] in (m - {key}).Values;
  }

  ghost predicate JustCreated(p: Pipeline, spec: ValveInfo)
    reads p
  {
    Init(p.Abs()) && p.info == spec
  }

  /** The registry with a new pipeline. */
  method Extended(m: map<string, Pipeline>, spec: ValveInfo, now: int) returns (m': map<string, Pipeline>)
    requires InOrder(m) && spec.Key() !in m
    ensures InOrder(m') && m'.Keys == m.Keys + {spec.Key()}
    ensures forall k :: k in m ==> m'[k] == m[k]
    ensures fresh(m'[spec.Key()]) && JustCreated(m'[spec.Key()], spec)
  {
    var key := spec.Key();
    var p := new Pipeline(spec, now);
    m' := m[key := p];
    assert m' - {key} == m;
    InOrderWith(m', key);
  }

  class Scheduler {
    var pipelines: map<string, Pipeline>
    var cancels: map<string, Pipeline>   // the pipeline whose context the function ends

    /** Same keys in both maps; a cancel function ends the context of the pipeline
        beside it; the pipelines are in order. */
    ghost predicate Valid()
      reads this, pipelines.Values
    {
      cancels == pipelines && InOrder(pipelines)
    }

    constructor ()
      ensures Valid() && pipelines == map[]
    {
      pipelines, cancels := map[], map[];
    }

    /** RegisterValve: a known valve keeps its pipeline and everything live in it. */
    method RegisterValve(spec: ValveInfo, now: int)
      requires Valid()
      modifies this, if spec.Key() in pipelines then {pipelines[spec.Key()]} else {}
      ensures Valid() && pipelines.Keys == old(pipelines.Keys) + {spec.Key()}
      ensures forall k :: k in old(pipelines) ==> pipelines[k] == old(pipelines[k])
      ensures spec.Key() in old(pipelines) ==>
                var s := old(pipelines[spec.Key()].Abs());
                pipelines[spec.Key()].Abs() == s.(info := WithSpec(s.info, spec))
      ensures spec.Key() !in old(pipelines) ==>
                fresh(pipelines[spec.Key()]) && JustCreated(pipelines[spec.Key()], spec)
    {
      var key := spec.Key();
      if key in pipelines {
        InOrderWithout(pipelines, key);
        pipelines[key].UpdateConfig(spec);
        InOrderWith(pipelines, key);
      } else {
        AddPipeline(key, spec, now);
      }
    }

    method AddPipeline(key: string, spec: ValveInfo, now: int)
      requires Valid() && key == spec.Key() && key !in pipelines
      modifies this
      ensures Valid() && pipelines.Keys == old(pipelines.Keys) + {key}
      ensures forall k :: k in old(pipelines) ==> pipelines[k] == old(pipelines[k])
      ensures fresh(pipelines[key]) && JustCreated(pipelines[key], spec)
    {
      var m := Extended(pipelines, spec, now);
      Install(m);
    }

    /** Both maps change together. */
    method Install(m: map<string, Pipeline>)
      requires InOrder(m)
      modifies this
      ensures Valid() && pipelines == m
    {
      pipelines := m;
      cancels := m;
      forall k | k in m ensures Serves(m[k], k) { assert m[k] in m.Values; }
    }

    /** DeregisterValve: out of both maps, and its own context ends. */
    method DeregisterValve(key: string)
      requires Valid()
      modifies this, if key in pipelines then {pipelines[key]} else {}
      ensures Valid() && pipelines == old(pipelines) - {key}
      ensures key in old(pipelines) ==>
                var p := old(pipelines[key]);
                p.Valid() && p.Abs() == old(pipelines[key].Abs()).(rootDone := true)
    {
      if key in cancels {
        var p := cancels[key];
        InOrderWithout(pipelines, key);
        Install(pipelines - {key});
        p.CancelContext();
      }
    }

    /** Whatever happens inside a pipeline keeps the registry in order. */
    method Elapse(key: string)
      requires Valid() && key in pipelines
      modifies pipelines[key]
      ensures Valid()
    {
      InOrderWithout(pipelines, key);
      ghost var _ := pipelines[key].Elapse();
      InOrderWith(pipelines, key);
    }

    /** Open: refused exactly for an unknown or a disabled valve; otherwise a new action,
        timed exactly if the duration is positive, is enqueued, and nothing is cancelled.
        mid and called are the pipeline when its Enqueue begins and when it has made the
        action: it goes on in between, before and after. */
    method Open(key: string, duration: int)
      returns (r: Result<ID>, returned: bool, ghost mid: Option<State>, ghost called: Option<State>)
      requires Valid()
      modifies if key in pipelines then {pipelines[key]} else {}
      ensures Valid()
      ensures r == Err(ValveNotFound) <==> key !in pipelines
      ensures r == Err(ValveDisabled) <==> key in pipelines && old(pipelines[key].info.config.disabled)
      ensures r.Err? ==> returned && (key !in pipelines || pipelines[key].Abs() == old(pipelines[key].Abs()))
      ensures r.Ok? ==>
                && key in pipelines && mid.Some? && called.Some?
                && (exists steps :: Run(old(pipelines[key].Abs()), steps, mid.value))
                && Called(mid.value, called.value, r.value,
                          if duration > 0 then OpenTimed else ActionType.Open, duration)
                && Enqueued(pipelines[key].Abs(), r.value, returned)
    {
      returned, mid, called := true, None, None;
      if key !in pipelines {
        return Err(ValveNotFound), returned, mid, called;
      }
      var p := pipelines[key];
      if p.info.config.disabled {
        return Err(ValveDisabled), returned, mid, called;
      }
      var t := ActionType.Open;
      if duration > 0 {
        t := OpenTimed;
      }
      r, returned, mid, called := Forward(key, t, duration);
    }

    /** Close: also for a disabled valve, and it cancels what is current when its Enqueue
        begins. */
    method Close(key: string)
      returns (r: Result<ID>, returned: bool, ghost mid: Option<State>, ghost called: Option<State>)
      requires Valid()
      modifies if key in pipelines then {pipelines[key]} else {}
      ensures Valid()
      ensures r == Err(ValveNotFound) <==> key !in pipelines
      ensures r.Ok? <==> key in pipelines
      ensures r.Ok? ==>
                && mid.Some? && called.Some?
                && (exists steps :: Run(old(pipelines[key].Abs()), steps, mid.value))
                && Called(mid.value, called.value, r.value, ActionType.Close, 0)
                && Enqueued(pipelines[key].Abs(), r.value, returned)
    {
      returned, mid, called := true, None, None;
      if key !in pipelines {
        return Err(ValveNotFound), returned, mid, called;
      }
      r, returned, mid, called := Forward(key, ActionType.Close, 0);
    }

    method Forward(key: string, typ: ActionType, duration: int)
      returns (r: Result<ID>, returned: bool, ghost mid: Option<State>, ghost called: Option<State>)
      requires Valid() && key in pipelines && (typ.OpenTimed? ==> duration > 0)
      modifies pipelines[key]
      ensures Valid() && r.Ok? && mid.Some? && called.Some?
      ensures exists steps :: Run(old(pipelines[key].Abs()), steps, mid.value)
      ensures Called(mid.value, called.value, r.value, typ, duration)
      ensures Enqueued(pipelines[key].Abs(), r.value, returned)
    {
      InOrderWithout(pipelines, key);
      ghost var m, c;
      var id;
      id, returned, m, c := pipelines[key].Ask(typ, duration);
      InOrderWith(pipelines, key);
      r, mid, called := Ok(id), Some(m), Some(c);
    }

    /** ListActions. */
    method ListActions(key: string) returns (r: Result<seq<ID>>)
      requires Valid()
      modifies if key in pipelines then {pipelines[key]} else {}
      ensures Valid()
      ensures r == Err(ValveNotFound) <==> key !in pipelines
      ensures r.Ok? <==> key in pipelines
      ensures r.Ok? ==> Q.NoDuplicates(r.value)
    {
      if key !in pipelines {
        return Err(ValveNotFound);
      }
      InOrderWithout(pipelines, key);
      var ids := pipelines[key].ListActions();
      InOrderWith(pipelines, key);
      r := Ok(ids);
    }

    /** GetAction. */
    method GetAction(key: string, id: ID) returns (r: Result<ID>)
      requires Valid()
      modifies if key in pipelines then {pipelines[key]} else {}
      ensures Valid()
      ensures r == Err(ValveNotFound) <==> key !in pipelines
      ensures r.Ok? ==> key in pipelines && r.value == id && id in pipelines[key].actions
      ensures key in pipelines && old(pipelines[key].current) == Some(id) ==> r.Ok?
      ensures key in pipelines && id in pipelines[key].history ==> r.Ok?
    {
      if key !in pipelines {
        return Err(ValveNotFound);
      }
      InOrderWithout(pipelines, key);
      var found := pipelines[key].GetAction(id);
      InOrderWith(pipelines, key);
      r := if found.Some? then Ok(found.value) else Err(ActionNotFound);
    }

    // ----- lookup by name

    ghost predicate SlashFree()
      reads this, pipelines.Values
    {
      forall k :: k in pipelines ==> '/' !in pipelines[k].info.namespace
    }

    /** Valve k is registered and has the given name. */
    ghost predicate Named(k: string, name: string)
      reads this, pipelines.Values
    {
      k in pipelines && pipelines[k].info.name == name
    }

    /** FindKey, over the keys in any order: for namespaces without a slash it
        returns a key exactly if one and only one registered valve has the name. */
    method FindKey(name: string) returns (r: Result<string>)
      requires Valid()
      ensures SlashFree() ==> Answers(r, name)
      ensures OneOf(r, set k | k in pipelines && Matches(k, name))
    {
      var matches := Collect(pipelines.Keys, name);
      r := Pick(matches);
      assert (set k | k in pipelines && Matches(k, name)) == set k | k in matches;
      if SlashFree() {
        MatchIsName(name);
        NamedMatches(r, name);
      }
    }

    /** The answer is the only valve of that name; none and several are told apart. */
    ghost predicate Answers(r: Result<string>, name: string)
      reads this, pipelines.Values
    {
      && (r.Ok? ==> Named(r.value, name) && forall k :: Named(k, name) ==> k == r.value)
      && (r.Err? ==> r.error == ValveNotFound || r.error == AmbiguousName)
      && (r == Err(ValveNotFound) ==> forall k :: !Named(k, name))
      && (r == Err(AmbiguousName) ==> exists j, k :: Named(j, name) && Named(k, name) && j != k)
    }

    lemma MatchIsName(name: string)
      requires Valid() && SlashFree()
      ensures forall k :: Named(k, name) <==> k in pipelines && Matches(k, name)
    {
      forall k ensures Named(k, name) <==> k in pipelines && Matches(k, name) {
        if k in pipelines { AfterSlashOfKey(pipelines[k].info.namespace, pipelines[k].info.name); }
      }
    }

    lemma NamedMatches(r: Result<string>, name: string)
      requires forall k :: Named(k, name) <==> k in pipelines && Matches(k, name)
      requires OneOf(r, set k | k in pipelines && Matches(k, name))
      ensures Answers(r, name)
    {
      var keys := set k | k in pipelines && Matches(k, name);
      assert forall k :: Named(k, name) <==> k in keys;
      if r == Err(AmbiguousName) {
        var j, k :| j in keys && k in keys && j != k;
        assert Named(j, name) && Named(k, name);
      }
    }
  }

  /** The only element; or why there is none. */
  ghost predicate OneOf(r: Result<string>, keys: set<string>) {
    match r
    case Ok(k) => keys == {k}
    case Err(ValveNotFound) => keys == {}
    case Err(AmbiguousName) => exists j, k :: j in keys && k in keys && j != k
    case _ => false
  }

  /** The switch of FindKey. */
  method Pick(matches: seq<string>) returns (r: Result<string>)
    requires Q.NoDuplicates(matches)
    ensures OneOf(r, set k | k in matches)
  {
    ghost var keys := set k | k in matches;
    if |matches| == 0 {
      r := Err(ValveNotFound);
    } else if |matches| == 1 {
      r := Ok(matches[0]);
      assert keys == {matches[0]};
    } else {
      r := Err(AmbiguousName);
      assert matches[0] in keys && matches[1] in keys && matches[0] != matches[1];
    }
  }

  predicate Matches(key: string, name: string) { AfterSlash(key) == Some(name) }

  /** The loop of FindKey. */
  method Collect(keys: set<string>, name: string) returns (matches: seq<string>)
    ensures Q.NoDuplicates(matches)
    ensures forall k :: k in matches <==> k in keys && Matches(k, name)
  {
    matches := [];
    var rest := keys;
    while rest != {}
      invariant rest <= keys && Q.NoDuplicates(matches)
      invariant forall k :: k in matches <==> k in keys && k !in rest && Matches(k, name)
      decreases |rest|
    {
      var key :| key in rest;
      rest := rest - {key};
      if Matches(key, name) {
        matches := matches + [key];
      }
    }
  }
}
