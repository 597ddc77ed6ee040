/** internal/controller/env_builder.go: hierarchical environment-variable names over one shared list. */
module EnvBuilder {
  import opened Kube

  /** A downward-API field, or any other source a user's spec names. */
  datatype Source = FieldPath(path: string) | Reference(ref: string)

  datatype EnvVar = EnvVar(name: string, value: string, valueFrom: Option<Source>)

  datatype ValueOrSource = ValueOrSource(value: string, valueFrom: Option<Source>)

  /** The name of leaf under prefix: the root has the empty prefix and adds none. */
  function Qualify(prefix: string, leaf: string): string {
    if prefix == "" then leaf else prefix + "__" + leaf
  }

  function Literal(prefix: string, leaf: string, value: string): EnvVar {
    EnvVar(Qualify(prefix, leaf), value, None)
  }

  function Sourced(prefix: string, leaf: string, source: Source): EnvVar {
    EnvVar(Qualify(prefix, leaf), "", Some(source))
  }

  function Either(prefix: string, leaf: string, vs: ValueOrSource): EnvVar {
    if vs.valueFrom.Some? then Sourced(prefix, leaf, vs.valueFrom.value) else Literal(prefix, leaf, vs.value)
  }

  /** Each option under prefix, keeping its own value or source. */
  function Scoped(prefix: string, options: seq<EnvVar>): (r: seq<EnvVar>)
    ensures |r| == |options|
    ensures forall i :: 0 <= i < |r| ==> r[i] == options[i].(name := Qualify(prefix, options[i].name))
  {
    if options == [] then []
    else var n := |options| - 1;
         Scoped(prefix, options[..n]) + [options[n].(name := Qualify(prefix, options[n].name))]
  }

  /** The slice every builder of one tree appends to. */
  class EnvList {
    var vars: seq<EnvVar>

    constructor ()
      ensures vars == []
    {
      vars := [];
    }
  }

  class Builder {
    const prefix: string
    const list: EnvList

    /** newEnvBuilder: a root with its own empty list. */
    constructor ()
      ensures fresh(list) && list.vars == [] && prefix == ""
    {
      prefix := "";
      list := new EnvList();
    }

    constructor At(prefix: string, list: EnvList)
      ensures this.prefix == prefix && this.list == list
    {
      this.prefix := prefix;
      this.list := list;
    }

    method Section(name: string) returns (b: Builder)
      ensures fresh(b) && b.list == list && b.prefix == Qualify(prefix, name)
    {
      b := new Builder.At(Qualify(prefix, name), list);
    }

    method String(name: string, value: string)
      modifies list
      ensures list.vars == old(list.vars) + [Literal(prefix, name, value)]
    {
      list.vars := list.vars + [EnvVar(Qualify(prefix, name), value, None)];
    }

    method Bool(name: string, value: bool)
      modifies list
      ensures list.vars == old(list.vars) + [Literal(prefix, name, FormatBool(value))]
    {
      String(name, FormatBool(value));
    }

    method Int(name: string, value: int)
      modifies list
      ensures list.vars == old(list.vars) + [Literal(prefix, name, FormatInt(value))]
    {
      String(name, FormatInt(value));
    }

    method From(name: string, source: Source)
      modifies list
      ensures list.vars == old(list.vars) + [Sourced(prefix, name, source)]
    {
      list.vars := list.vars + [EnvVar(Qualify(prefix, name), "", Some(source))];
    }

    method FieldRef(name: string, fieldPath: string)
      modifies list
      ensures list.vars == old(list.vars) + [Sourced(prefix, name, FieldPath(fieldPath))]
    {
      From(name, FieldPath(fieldPath));
    }

    method ValueOrSource(name: string, vs: ValueOrSource)
      modifies list
      ensures list.vars == old(list.vars) + [Either(prefix, name, vs)]
    {
      if vs.valueFrom.Some? {
        From(name, vs.valueFrom.value);
        return;
      }
      String(name, vs.value);
    }

    method Options(options: seq<EnvVar>)
      modifies list
      ensures list.vars == old(list.vars) + Scoped(prefix, options)
    {
      for i := 0 to |options|
        invariant list.vars == old(list.vars) + Scoped(prefix, options[..i])
      {
        assert options[..i + 1][..i] == options[..i];
        list.vars := list.vars + [options[i].(name := Qualify(prefix, options[i].name))];
      }
      assert options[..|options|] == options;
    }

    method Vars() returns (vars: seq<EnvVar>)
      ensures vars == list.vars
    {
      vars := list.vars;
    }
  }

  // ---------- Any tree of builders, any interleaving of appends ----------

  /** One call on a builder of the tree; builder 0 is the root, and each Section call makes the next one. */
  datatype Call =
    | Section(on: nat, name: string)
    | Append(on: nat, leaf: string, value: ValueOrSource)
    | AppendAll(on: nat, options: seq<EnvVar>)

  function PathPrefix(path: seq<string>): string {
    if path == [] then "" else Qualify(PathPrefix(path[..|path| - 1]), path[|path| - 1])
  }

  /** The section paths after one more call on a tree with the given paths. */
  function Grow(paths: seq<seq<string>>, call: Call): seq<seq<string>> {
    if call.Section? && call.on < |paths| then paths + [paths[call.on] + [call.name]] else paths
  }

  /** What one call appends, named by its builder's path. */
  function Emit(paths: seq<seq<string>>, call: Call): seq<EnvVar> {
    if call.on >= |paths| then []
    else match call
         case Section(_, _) => []
         case Append(on, leaf, vs) => [Either(PathPrefix(paths[on]), leaf, vs)]
         case AppendAll(on, options) => Scoped(PathPrefix(paths[on]), options)
  }

  /** The section path of every builder the calls make. */
  function Paths(calls: seq<Call>): seq<seq<string>> {
    if calls == [] then [[]] else Grow(Paths(calls[..|calls| - 1]), calls[|calls| - 1])
  }

  /** The variables the calls append, in call order. */
  function Appended(calls: seq<Call>): seq<EnvVar> {
    if calls == [] then []
    else var n := |calls| - 1;
         Appended(calls[..n]) + Emit(Paths(calls[..n]), calls[n])
  }

  /** Every call is made on a builder that exists by then. */
  ghost predicate Executable(calls: seq<Call>) {
    forall i :: 0 <= i < |calls| ==> calls[i].on < |Paths(calls[..i])|
  }

  /** Builder k of the tree has path k and shares the one list. */
  ghost predicate Represents(builders: seq<Builder>, list: EnvList, paths: seq<seq<string>>) {
    && |builders| == |paths|
    && forall k :: 0 <= k < |builders| ==> builders[k].list == list && builders[k].prefix == PathPrefix(paths[k])
  }

  method Perform(builders: seq<Builder>, list: EnvList, call: Call, ghost paths: seq<seq<string>>)
    returns (after: seq<Builder>)
    requires Represents(builders, list, paths) && call.on < |paths|
    modifies list
    ensures Represents(after, list, Grow(paths, call))
    ensures list.vars == old(list.vars) + Emit(paths, call)
  {
    var b := builders[call.on];
    after := builders;
    match call {
      case Section(on, name) =>
        var child := b.Section(name);
        assert (paths[on] + [name])[..|paths[on]|] == paths[on];
        after := builders + [child];
      case Append(_, leaf, vs) => b.ValueOrSource(leaf, vs);
      case AppendAll(_, options) => b.Options(options);
    }
  }

  /** Runs the calls on real builders. Whatever the tree and the interleaving, every builder shows the same list: all
      appends made through any of them, in call order. */
  method Execute(calls: seq<Call>) returns (builders: seq<Builder>, list: EnvList)
    requires Executable(calls)
    ensures Represents(builders, list, Paths(calls))
    ensures list.vars == Appended(calls)
  {
    var root := new Builder();
    list := root.list;
    builders := [root];
    for i := 0 to |calls|
      invariant fresh(list)
      invariant Represents(builders, list, Paths(calls[..i]))
      invariant list.vars == Appended(calls[..i])
    {
      assert calls[..i + 1][..i] == calls[..i];
      builders := Perform(builders, list, calls[i], Paths(calls[..i]));
    }
    assert calls[..|calls|] == calls;
  }

  // ---------- Names ----------

  /** The "__"-join of a list of names. */
  function Join(names: seq<string>): string {
    if names == [] then ""
    else if |names| == 1 then names[0]
    else Join(names[..|names| - 1]) + "__" + names[|names| - 1]
  }

  lemma {:induction false} PrefixAgainstJoin(path: seq<string>)
    requires path != []
    ensures path[0] != "" ==> PathPrefix(path) == Join(path) && PathPrefix(path) != ""
    ensures path[0] == "" ==> PathPrefix(path) == "" || |PathPrefix(path)| < |Join(path)|
  {
    var init := path[..|path| - 1];
    if init != [] {
      PrefixAgainstJoin(init);
      assert init[0] == path[0];
    } else {
      assert PathPrefix(init) == "";
    }
  }

  /** A variable's name is the "__"-join of its section path and leaf exactly when the outermost section has a
      non-empty name: an empty one directly under the root leaves no separator behind. */
  lemma NameIsJoinOfPath(path: seq<string>, leaf: string)
    ensures Qualify(PathPrefix(path), leaf) == Join(path + [leaf]) <==> path == [] || path[0] != ""
  {
    assert (path + [leaf])[..|path|] == path;
    if path != [] {
      PrefixAgainstJoin(path);
      if path[0] == "" {
        assert |Qualify(PathPrefix(path), leaf)| < |Join(path + [leaf])|;
      }
    } else {
      assert path + [leaf] == [leaf];
    }
  }

  /** Two chained sections are one section with the joined name, except an empty one directly under the root. */
  lemma ChainedSections(prefix: string, outer: string, inner: string)
    ensures Qualify(Qualify(prefix, outer), inner) == Qualify(prefix, outer + "__" + inner) <==>
            prefix != "" || outer != ""
  {
    if prefix != "" {
      assert Qualify(Qualify(prefix, outer), inner) == prefix + "__" + outer + "__" + inner;
      assert prefix + "__" + (outer + "__" + inner) == prefix + "__" + outer + "__" + inner;
    } else if outer == "" {
      assert |Qualify(prefix, outer + "__" + inner)| == |inner| + 2;
    }
  }

  /** Distinct leaves stay distinct under one prefix, and equal ones collide. */
  lemma QualifyInjective(prefix: string, a: string, b: string)
    ensures Qualify(prefix, a) == Qualify(prefix, b) <==> a == b
  {
    if prefix != "" && Qualify(prefix, a) == Qualify(prefix, b) {
      var n := |prefix| + 2;
      assert Qualify(prefix, a)[n..] == a;
      assert Qualify(prefix, b)[n..] == b;
    }
  }
}
