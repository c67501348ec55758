/** The component registry (`ComponentRegistryManager`): one static map from a
    type key to the component that renders it, with overwrite semantics, and
    the entries registered when the module loads. */
module Registry {
  import opened Wrappers
  import opened Schema

  /** A registered component, known by its name and by whether it renders its
      node's children through `renderChildren(node.children!)`. */
  datatype Impl = Impl(name: string, rendersChildren: bool)

  /** The Container material renders `renderChildren(node.children!)`. */
  const ContainerImpl: Impl := Impl("Container", true)
  const TextImpl: Impl := Impl("Text", false)

  /** Registering the entries in order, each overwriting the previous value
      of its key. */
  function RegisterAll(m: map<Tag, Impl>, entries: seq<(Tag, Impl)>): map<Tag, Impl>
    decreases |entries|
  {
    if entries == [] then m
    else
      var last := entries[|entries| - 1];
      RegisterAll(m, entries[..|entries| - 1])[last.0 := last.1]
  }

  /** The value of the last entry for `t`. */
  function LastFor(entries: seq<(Tag, Impl)>, t: Tag): (r: Option<Impl>)
    ensures r.Some? ==> (t, r.value) in entries
    ensures r.None? <==> forall i :: 0 <= i < |entries| ==> entries[i].0 != t
    decreases |entries|
  {
    if entries == [] then None
    else if entries[|entries| - 1].0 == t then Some(entries[|entries| - 1].1)
    else LastFor(entries[..|entries| - 1], t)
  }

  /** After a batch, a key holds the value of its last entry in the batch, or
      its earlier value if the batch does not mention it. */
  lemma {:induction false} RegisterAllGet(m: map<Tag, Impl>, entries: seq<(Tag, Impl)>, t: Tag)
    ensures t in RegisterAll(m, entries) <==> t in m || LastFor(entries, t).Some?
    ensures t in RegisterAll(m, entries) ==>
      RegisterAll(m, entries)[t] == if LastFor(entries, t).Some? then LastFor(entries, t).value else m[t]
    decreases |entries|
  {
    if entries != [] {
      RegisterAllGet(m, entries[..|entries| - 1], t);
    }
  }

  /** Writing a key grows the map by one exactly when the key is new. */
  lemma SizeAfterRegister(m: map<Tag, Impl>, t: Tag, c: Impl)
    ensures |m[t := c]| == if t in m then |m| else |m| + 1
  {
    if t in m {
      assert m[t := c].Keys == m.Keys;
    } else {
      assert m[t := c].Keys == m.Keys + {t};
    }
  }

  /** The entries registered when the module loads: Container, then Text. */
  function InitialEntries(): seq<(Tag, Impl)> {
    [(Container, ContainerImpl), (Text, TextImpl)]
  }

  /** After module load only Container and Text are registered: neither the
      "error-callback" fallback nor the page root's RootContainer is. */
  lemma InitialRegistryKeys()
    ensures RegisterAll(map[], InitialEntries()) == map[Container := ContainerImpl, Text := TextImpl]
    ensures ErrorCallback !in RegisterAll(map[], InitialEntries())
    ensures RootContainer !in RegisterAll(map[], InitialEntries())
  {
    assert InitialEntries()[..1] == [(Container, ContainerImpl)];
    assert InitialEntries()[..1][..0] == [];
  }

  class ComponentRegistryManager {
    var registry: map<Tag, Impl>

    /** The static map as the module leaves it after loading. */
    constructor()
      ensures registry == RegisterAll(map[], InitialEntries())
    {
      registry := map[];
      new;
      Register(Container, ContainerImpl);
      Register(Text, TextImpl);
      assert InitialEntries()[..1] == [(Container, ContainerImpl)];
      assert InitialEntries()[..1][..0] == [];
    }

    /** `get`: the component for `t`, or `undefined`. */
    function Get(t: Tag): (r: Option<Impl>)
      reads this
      ensures r.Some? <==> t in registry
      ensures r.Some? ==> registry[t] == r.value
    {
      if t in registry then Some(registry[t]) else None
    }

    /** `size`: the number of distinct keys; it is zero exactly when no key
        finds a component. */
    function Size(): (n: nat)
      reads this
      ensures n == 0 <==> forall t :: Get(t).None?
    {
      assert |registry| != 0 ==> !forall t :: Get(t).None? by {
        if |registry| != 0 {
          assert registry.Keys != {};
          var t :| t in registry.Keys;
          assert Get(t).Some?;
        }
      }
      |registry|
    }

    /** `getAllComponents`: the map itself, so it shows exactly what `get`
        finds. */
    function GetAllComponents(): (r: map<Tag, Impl>)
      reads this
      ensures forall t :: t in r <==> Get(t).Some?
      ensures forall t :: t in r ==> Get(t) == Some(r[t])
    {
      registry
    }

    /** `register`: the key now maps to `c`; every other key is unchanged, and
      the size grows only for a new key. */
    method Register(t: Tag, c: Impl)
      modifies this
      ensures registry == old(registry)[t := c]
      ensures Get(t) == Some(c)
      ensures forall u :: u != t ==> Get(u) == old(Get(u))
      ensures Size() == if t in old(registry) then old(Size()) else old(Size()) + 1
    {
      SizeAfterRegister(registry, t, c);
      registry := registry[t := c];
    }

    /** `registerBatch`: the `forEach` over the record's entries, registering
      each in turn. */
    method RegisterBatch(entries: seq<(Tag, Impl)>)
      modifies this
      ensures registry == RegisterAll(old(registry), entries)
    {
      var i := 0;
      while i < |entries|
        invariant 0 <= i <= |entries|
        invariant registry == RegisterAll(old(registry), entries[..i])
      {
        assert entries[..i + 1][..i] == entries[..i];
        Register(entries[i].0, entries[i].1);
        i := i + 1;
      }
      assert entries[..i] == entries;
    }
  }
}
