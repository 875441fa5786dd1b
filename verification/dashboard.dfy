/** `DevDashboard` in `src/core/dashboard.js`: a container element, a registry of
    visualizations keyed by id, and named events with listeners. */
module Dashboard {
  import opened Wrappers
  import opened Collections
  import opened JsObjects
  import CS = ConfigStore

  /** `config.container`: every falsy value is `Absent`; `Unsupported` is a truthy value
      that is neither a string nor an element. */
  datatype ContainerArg = Absent | Selector(selector: string) | Element(element: nat) | Unsupported

  datatype DashboardConfig = DashboardConfig(container: ContainerArg, theme: Option<string>)

  /** The object handed to `addVisualization`; an absent or empty `id`/`type` is falsy. */
  datatype VizConfig = VizConfig(id: Option<string>, vizType: Option<string>, data: CS.Value, options: CS.Value)

  /** The `div` created for a visualization, known by its `data-viz-id` and `data-viz-type`. */
  datatype VizElement = VizElement(vizId: string, vizType: string)

  /** A registry entry: the caller's configuration and the element made for it. */
  datatype Viz = Viz(config: VizConfig, element: VizElement)

  /** `this.visualizations`, a `Map`: its keys in insertion order, and the entries. */
  datatype Registry = Registry(ids: seq<string>, entries: map<string, Viz>)

  const EmptyRegistry := Registry([], map[])

  /** Every id is listed once, the listed ids are exactly the keys, and each entry is
      filed under its own id. */
  predicate Proper(reg: Registry)
  {
    NoDup(reg.ids) && reg.entries.Keys == (set i | i in reg.ids) &&
    forall id :: id in reg.entries ==> reg.entries[id].config.id == Some(id) && reg.entries[id].element.vizId == id
  }

  /** `map.set(id, viz)` for a new id. */
  function Register(reg: Registry, id: string, viz: Viz): Registry
  {
    Registry(reg.ids + [id], reg.entries[id := viz])
  }

  function NotId(id: string): string -> bool
  {
    i => i != id
  }

  /** `map.delete(id)`. */
  function Unregister(reg: Registry, id: string): Registry
  {
    Registry(Filter(reg.ids, NotId(id)), reg.entries - {id})
  }

  /** Inserting a new id keeps the registry proper, adds exactly one entry, and leaves
      every other entry as it was. */
  lemma RegisterFacts(reg: Registry, id: string, viz: Viz)
    requires Proper(reg) && id !in reg.entries
    requires viz.config.id == Some(id) && viz.element.vizId == id
    ensures Proper(Register(reg, id, viz))
    ensures |Register(reg, id, viz).ids| == |reg.ids| + 1
    ensures forall j :: j in reg.entries ==> Register(reg, id, viz).entries[j] == reg.entries[j]
  {
    var r := Register(reg, id, viz);
    assert id !in reg.ids;
    forall i, j | 0 <= i < j < |r.ids| ensures r.ids[i] != r.ids[j] {
      if j == |reg.ids| {
        assert r.ids[i] == reg.ids[i];
      }
    }
    assert (set i | i in r.ids) == (set i | i in reg.ids) + {id};
  }

  /** Deleting a present id keeps the registry proper, removes exactly that entry, and
      leaves the order of the others. */
  lemma {:induction false} UnregisterFacts(reg: Registry, id: string)
    requires Proper(reg) && id in reg.entries
    ensures Proper(Unregister(reg, id))
    ensures |Unregister(reg, id).ids| == |reg.ids| - 1
    ensures id !in Unregister(reg, id).entries
    ensures forall j :: j in reg.entries && j != id ==> Unregister(reg, id).entries[j] == reg.entries[j]
  {
    var kept := Filter(reg.ids, NotId(id));
    FilterMembers(reg.ids, NotId(id));
    FilterNoDup(reg.ids, NotId(id));
    FilterDropsOne(reg.ids, id);
    assert (set i | i in kept) == (set i | i in reg.ids) - {id};
  }

  /** Deleting what was just inserted gives the registry back. */
  lemma UnregisterUndoesRegister(reg: Registry, id: string, viz: Viz)
    requires Proper(reg) && id !in reg.entries
    ensures Unregister(Register(reg, id, viz), id) == reg
  {
    assert id !in reg.ids;
    FilterAppend(reg.ids, [id], NotId(id));
    FilterNone([id], NotId(id));
    FilterAll(reg.ids, NotId(id));
    assert Register(reg, id, viz).entries - {id} == reg.entries;
  }

  /** Removing a value listed once shortens the list by one. */
  lemma {:induction false} FilterDropsOne(s: seq<string>, id: string)
    requires NoDup(s) && id in s
    ensures |Filter(s, NotId(id))| == |s| - 1
  {
    var front := s[..|s| - 1];
    assert NoDup(front) by {
      forall i, j | 0 <= i < j < |front| ensures front[i] != front[j] {
        assert front[i] == s[i] && front[j] == s[j];
      }
    }
    if s[|s| - 1] == id {
      assert id !in front by {
        forall i | 0 <= i < |front| ensures front[i] != id {
          assert front[i] == s[i];
        }
      }
      FilterAll(front, NotId(id));
    } else {
      assert id in front by {
        var k :| 0 <= k < |s| && s[k] == id;
        assert front[k] == id;
      }
      FilterDropsOne(front, id);
    }
  }

  type Callback = nat

  /** One call made to a listener, with the payload object it received. */
  datatype Call = Call(callback: Callback, payload: CS.Value)

  type Listeners = map<string, seq<Callback>>

  /** The calls `_triggerEvent(name, payload)` makes: every listener of `name`, in
      registration order; none when `name` has no list. */
  function Notify(listeners: Listeners, name: string, payload: CS.Value): (r: seq<Call>)
    ensures name !in listeners ==> r == []
    ensures name in listeners ==>
      |r| == |listeners[name]| && forall i :: 0 <= i < |r| ==> r[i] == Call(listeners[name][i], payload)
  {
    if name in listeners then
      seq(|listeners[name]|, i requires 0 <= i < |listeners[name]| => Call(listeners[name][i], payload))
    else []
  }

  const ContainerRequired := "DevDashboard: Container is required"

  const ContainerUnsupported := "DevDashboard: Container must be a selector string or HTMLElement"

  function ContainerNotFound(selector: string): string
  {
    "DevDashboard: Container \"" + selector + "\" not found"
  }

  const IdAndTypeRequired := "DevDashboard: Visualization ID and type are required"

  function AlreadyExists(id: string): string
  {
    "DevDashboard: Visualization with ID \"" + id + "\" already exists"
  }

  function NotFound(id: string): string
  {
    "DevDashboard: Visualization with ID \"" + id + "\" not found"
  }

  /** What `on` throws for a name every object inherits, such as `"constructor"`. */
  const PushError := "TypeError: this.eventListeners[event].push is not a function"

  predicate Truthy(s: Option<string>)
  {
    s.Some? && s.value != ""
  }

  /** The payload objects of the dashboard's own events. */
  function AddedPayload(id: string, vizType: string): CS.Value
  {
    CS.Obj([("id", CS.Str(id)), ("type", CS.Str(vizType))])
  }

  function DataPayload(id: string, data: CS.Value): CS.Value
  {
    CS.Obj([("id", CS.Str(id)), ("data", data)])
  }

  function RemovedPayload(id: string): CS.Value
  {
    CS.Obj([("id", CS.Str(id))])
  }

  function ThemePayload(theme: string): CS.Value
  {
    CS.Obj([("theme", CS.Str(theme))])
  }

  class DevDashboard {
    /** The container element. */
    const container: nat
    /** `config.theme`. */
    var theme: string
    /** The container's `data-theme` attribute, and whether it has the `dev-dashboard` class. */
    var themeAttribute: Option<string>
    var styled: bool
    var registry: Registry
    var listeners: Listeners
    /** Every call made to a listener so far, oldest first. */
    var calls: seq<Call>

    predicate Valid()
      reads this
    {
      Proper(registry)
    }

    /** The state after `_initContainer` and `_initTheme` have succeeded. */
    constructor (container: nat, theme: string)
      ensures Valid()
      ensures this.container == container && this.theme == theme
      ensures themeAttribute == Some(theme) && styled
      ensures registry == EmptyRegistry && listeners == map[] && calls == []
    {
      this.container := container;
      this.theme := theme;
      themeAttribute := Some(theme);
      styled := true;
      registry := EmptyRegistry;
      listeners := map[];
      calls := [];
    }

    /** `_triggerEvent(name, payload)`. */
    method TriggerEvent(name: string, payload: CS.Value)
      modifies this`calls
      ensures calls == old(calls) + Notify(listeners, name, payload)
    {
      if name !in listeners {
        return;
      }
      var cbs := listeners[name];
      var i := 0;
      while i < |cbs|
        invariant 0 <= i <= |cbs|
        invariant calls == old(calls) + Notify(listeners, name, payload)[..i]
      {
        calls := calls + [Call(cbs[i], payload)];
        i := i + 1;
        assert Notify(listeners, name, payload)[..i] ==
          Notify(listeners, name, payload)[..i - 1] + [Call(cbs[i - 1], payload)];
      }
      assert Notify(listeners, name, payload)[..i] == Notify(listeners, name, payload);
    }

    /** `on(name, cb)`: the callback joins the end of the name's list. */
    method On(name: string, cb: Callback) returns (r: Outcome)
      modifies this`listeners
      ensures name in old(listeners) ==> r == Pass && listeners == old(listeners)[name := old(listeners)[name] + [cb]]
      ensures name !in old(listeners) && name in InheritedMembers ==> r == Fail(PushError) && listeners == old(listeners)
      ensures name !in old(listeners) && name !in InheritedMembers ==> r == Pass && listeners == old(listeners)[name := [cb]]
    {
      if name in listeners {
        listeners := listeners[name := listeners[name] + [cb]];
      } else if name in InheritedMembers {
        return Fail(PushError);
      } else {
        listeners := listeners[name := [cb]];
      }
      r := Pass;
    }

    /** `addVisualization(c)`: refuses a missing id or type and an id already taken;
        otherwise files one new entry and announces `visualizationAdded`. */
    method AddVisualization(c: VizConfig) returns (r: Outcome)
      requires Valid()
      modifies this`registry, this`calls
      ensures Valid()
      ensures !Truthy(c.id) || !Truthy(c.vizType) ==>
        r == Fail(IdAndTypeRequired) && registry == old(registry) && calls == old(calls)
      ensures Truthy(c.id) && Truthy(c.vizType) && c.id.value in old(registry.entries) ==>
        r == Fail(AlreadyExists(c.id.value)) && registry == old(registry) && calls == old(calls)
      ensures Truthy(c.id) && Truthy(c.vizType) && c.id.value !in old(registry.entries) ==>
        r == Pass &&
        registry == Register(old(registry), c.id.value, Viz(c, VizElement(c.id.value, c.vizType.value))) &&
        calls == old(calls) + Notify(listeners, "visualizationAdded", AddedPayload(c.id.value, c.vizType.value))
    {
      if !Truthy(c.id) || !Truthy(c.vizType) {
        return Fail(IdAndTypeRequired);
      }
      var id := c.id.value;
      if id in registry.entries {
        return Fail(AlreadyExists(id));
      }
      var viz := Viz(c, VizElement(id, c.vizType.value));
      RegisterFacts(registry, id, viz);
      registry := Register(registry, id, viz);
      TriggerEvent("visualizationAdded", AddedPayload(id, c.vizType.value));
      r := Pass;
    }

    /** `updateData(id, data)`: only that entry's `config.data` changes. */
    method UpdateData(id: string, data: CS.Value) returns (r: Outcome)
      requires Valid()
      modifies this`registry, this`calls
      ensures Valid()
      ensures id !in old(registry.entries) ==>
        r == Fail(NotFound(id)) && registry == old(registry) && calls == old(calls)
      ensures id in old(registry.entries) ==>
        r == Pass && registry.ids == old(registry.ids) &&
        registry.entries == old(registry.entries)[id := old(registry.entries)[id].(config := old(registry.entries)[id].config.(data := data))] &&
        calls == old(calls) + Notify(listeners, "dataUpdated", DataPayload(id, data))
    {
      if id !in registry.entries {
        return Fail(NotFound(id));
      }
      var viz := registry.entries[id];
      registry := registry.(entries := registry.entries[id := viz.(config := viz.config.(data := data))]);
      TriggerEvent("dataUpdated", DataPayload(id, data));
      r := Pass;
    }

    /** `removeVisualization(id)`: the entry and its element go, then
        `visualizationRemoved` is announced. */
    method RemoveVisualization(id: string) returns (r: Outcome)
      requires Valid()
      modifies this`registry, this`calls
      ensures Valid()
      ensures id !in old(registry.entries) ==>
        r == Fail(NotFound(id)) && registry == old(registry) && calls == old(calls)
      ensures id in old(registry.entries) ==>
        r == Pass && registry == Unregister(old(registry), id) &&
        calls == old(calls) + Notify(listeners, "visualizationRemoved", RemovedPayload(id))
    {
      if id !in registry.entries {
        return Fail(NotFound(id));
      }
      UnregisterFacts(registry, id);
      registry := Unregister(registry, id);
      TriggerEvent("visualizationRemoved", RemovedPayload(id));
      r := Pass;
    }

    /** `setTheme(t)`: recorded in the configuration and on the container, then
        `themeChanged` is announced. */
    method SetTheme(t: string)
      modifies this`theme, this`themeAttribute, this`calls
      ensures theme == t && themeAttribute == Some(t)
      ensures calls == old(calls) + Notify(listeners, "themeChanged", ThemePayload(t))
    {
      theme := t;
      themeAttribute := Some(t);
      TriggerEvent("themeChanged", ThemePayload(t));
    }

    /** `destroy()`: the listeners are dropped first, so removing the visualizations one
        by one announces nothing; the registry ends empty and the container loses its
        class and theme attribute. */
    method Destroy()
      requires Valid()
      modifies this`listeners, this`registry, this`calls, this`styled, this`themeAttribute
      ensures Valid()
      ensures listeners == map[] && registry == EmptyRegistry && calls == old(calls)
      ensures !styled && themeAttribute.None?
    {
      listeners := map[];
      while |registry.ids| > 0
        invariant Valid() && listeners == map[] && calls == old(calls)
        decreases |registry.ids|
      {
        var id := registry.ids[0];
        assert id in registry.entries;
        UnregisterFacts(registry, id);
        var _ := RemoveVisualization(id);
      }
      assert registry.entries.Keys == {};
      assert registry == EmptyRegistry;
      styled := false;
      themeAttribute := None;
    }
  }

  /** `new DevDashboard(config)`: the container is required, a selector is looked up in
      `page` (standing for `document.querySelector`), and the theme defaults to light. */
  method NewDevDashboard(config: DashboardConfig, page: map<string, nat>) returns (r: Result<DevDashboard>)
    ensures (config.container.Absent? || config.container == Selector("")) ==> r == Err(ContainerRequired)
    ensures config.container.Selector? && config.container.selector != "" && config.container.selector !in page ==>
      r == Err(ContainerNotFound(config.container.selector))
    ensures config.container.Unsupported? ==> r == Err(ContainerUnsupported)
    ensures r.Ok? ==>
      fresh(r.value) && r.value.Valid() && r.value.registry == EmptyRegistry &&
      r.value.listeners == map[] && r.value.calls == [] && r.value.styled
    ensures r.Ok? ==>
      r.value.theme == (if config.theme.Some? then config.theme.value else "light") &&
      r.value.themeAttribute == Some(r.value.theme)
    ensures r.Ok? <==>
      config.container.Element? ||
      (config.container.Selector? && config.container.selector != "" && config.container.selector in page)
  {
    var element: nat;
    match config.container {
      case Absent => return Err(ContainerRequired);
      case Unsupported => return Err(ContainerUnsupported);
      case Element(e) => element := e;
      case Selector(s) =>
        if s == "" {
          return Err(ContainerRequired);
        }
        if s !in page {
          return Err(ContainerNotFound(s));
        }
        element := page[s];
    }
    var d := new DevDashboard(element, if config.theme.Some? then config.theme.value else "light");
    r := Ok(d);
  }
}
