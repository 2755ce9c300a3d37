/**
 * The toolbar's tool list (`data.tools` of the chart's data object) and the
 * pure steps the DataCube event handlers build it with: the basic line
 * tools, de-duplication by `type`, preset merging, tool registration and
 * the trash icon.
 */
module Toolbar {
  import opened Wrappers
  import opened Lists

  // ---------------------------------------------------------------- values

  /** A property value, as far as the handlers inspect it. */
  datatype Value = Undefined | Null | Bool(b: bool) | Num(n: real) | Str(s: string)

  /** JavaScript truthiness (`NaN`, also falsy, is not a `real`). */
  predicate Truthy(v: Value)
  {
    match v
    case Undefined => false
    case Null => false
    case Bool(b) => b
    case Num(n) => n != 0.0
    case Str(s) => s != ""
  }

  /** An object's own keys and their values. */
  type Props = map<string, Value>

  /** `obj[key]`: a key the object does not have reads as `undefined`. */
  function Get(obj: Props, key: string): Value
  {
    if key in obj then obj[key] else Undefined
  }

  /**
   * A toolbar entry or tool prototype: its `type` key, its `settings`
   * object and its other keys (`name`, `icon`, `group`, ...). `None` is a key
   * the object does not have.
   */
  datatype Entry = Entry(toolType: Option<string>, settings: Option<Props>, props: Props)

  /** The icon files bundled with the library (`icons.json`), by file name. */
  type Icons = map<string, string>

  /** `Icons[file]` is truthy. */
  predicate HasIcon(icons: Icons, file: string)
  {
    file in icons && icons[file] != ""
  }

  /** `Icons[file]` as a property value. */
  function Icon(icons: Icons, file: string): Value
  {
    if file in icons then Str(icons[file]) else Undefined
  }

  // ---------------------------------------------------------------- types in a list

  /** How many entries of the list have type `t`. */
  function Occurrences(list: seq<Entry>, t: Option<string>): nat
    decreases |list|
  {
    if |list| == 0 then 0
    else Occurrences(list[..|list| - 1], t) + (if list[|list| - 1].toolType == t then 1 else 0)
  }

  /** `list.find(x => x.type === t)` finds something (`undefined === undefined` included). */
  predicate Listed(list: seq<Entry>, t: Option<string>)
  {
    Occurrences(list, t) > 0
  }

  /** No type is listed twice. */
  ghost predicate NoDuplicateTypes(list: seq<Entry>)
  {
    forall t :: Occurrences(list, t) <= 1
  }

  /** Occurrences add up over a concatenation. */
  lemma {:induction false} OccurrencesAppend(list: seq<Entry>, more: seq<Entry>, t: Option<string>)
    ensures Occurrences(list + more, t) == Occurrences(list, t) + Occurrences(more, t)
    decreases |more|
  {
    if |more| > 0 {
      var init := more[..|more| - 1];
      assert (list + more)[..|list + more| - 1] == list + init;
      OccurrencesAppend(list, init, t);
    } else {
      assert list + more == list;
    }
  }

  /** A list none of whose entries has type `t` holds no occurrence of it. */
  lemma {:induction false} OccurrencesAbsent(list: seq<Entry>, t: Option<string>)
    requires forall k :: 0 <= k < |list| ==> list[k].toolType != t
    ensures Occurrences(list, t) == 0
    decreases |list|
  {
    if |list| > 0 {
      OccurrencesAbsent(list[..|list| - 1], t);
    }
  }

  lemma OccurrencesSingle(e: Entry, t: Option<string>)
    ensures Occurrences([e], t) == if e.toolType == t then 1 else 0
  {
    assert [e][..0] == [];
  }

  /** Appending `[e]` adds one occurrence of its type and no other. */
  function Push(list: seq<Entry>, e: Entry): (r: seq<Entry>)
    ensures r == list + [e]
    ensures forall t :: Occurrences(r, t) == Occurrences(list, t) + (if t == e.toolType then 1 else 0)
    ensures forall t :: Listed(r, t) <==> Listed(list, t) || t == e.toolType
  {
    assert (list + [e])[..|list|] == list;
    list + [e]
  }

  /** `if (!list.find(t => t.type === e.type)) list.push(e)`: an entry is added only under a new type. */
  function PushNew(list: seq<Entry>, e: Entry): (r: seq<Entry>)
    ensures list <= r
    ensures forall t :: Occurrences(r, t) == if t == e.toolType && !Listed(list, t) then 1 else Occurrences(list, t)
    ensures forall t :: Listed(r, t) <==> Listed(list, t) || t == e.toolType
  {
    if Listed(list, e.toolType) then list else Push(list, e)
  }

  // ---------------------------------------------------------------- line tools

  /** The three line drawing tools the handlers add by hand. */
  datatype LineKind = SegmentLine | ExtendedLine | RayLine {

    function TypeName(): string
    {
      match this
      case SegmentLine => "Segment"
      case ExtendedLine => "Extended"
      case RayLine => "Ray"
    }

    function IconFile(): string
    {
      match this
      case SegmentLine => "segment.png"
      case ExtendedLine => "extended.png"
      case RayLine => "ray.png"
    }

    function DisplayName(): string
    {
      match this
      case SegmentLine => "Line Segment"
      case ExtendedLine => "Extended Line"
      case RayLine => "Ray"
    }

    /** `{extended: true}` for an extended line, `{ray: true}` for a ray, no settings for a segment. */
    function Settings(): Option<Props>
    {
      match this
      case SegmentLine => None
      case ExtendedLine => Some(map["extended" := Bool(true)])
      case RayLine => Some(map["ray" := Bool(true)])
    }
  }

  /** A line tool's entry; `add_basic_drawing_tools` also puts it in the `Lines` group. */
  function LineEntry(icons: Icons, k: LineKind, grouped: bool): (e: Entry)
    ensures e.toolType == Some(k.TypeName())
  {
    Entry(Some(k.TypeName()), k.Settings(),
      map["name" := Str(k.DisplayName()), "icon" := Icon(icons, k.IconFile())]
        + (if grouped then map["group" := Str("Lines")] else map[]))
  }

  /** One step of `add_basic_drawing_tools`: the line tool is appended when its icon exists and its type is not listed. */
  function AddBasicLine(icons: Icons, list: seq<Entry>, k: LineKind): (r: seq<Entry>)
    ensures list <= r
    ensures forall t ::
      Occurrences(r, t) == (if t == Some(k.TypeName()) && HasIcon(icons, k.IconFile()) && !Listed(list, t) then 1 else Occurrences(list, t))
  {
    if HasIcon(icons, k.IconFile()) then PushNew(list, LineEntry(icons, k, true)) else list
  }

  /** The types `add_basic_drawing_tools` can contribute: those of the line tools whose icons exist. */
  predicate IsBasicType(icons: Icons, t: Option<string>)
  {
    || (t == Some("Segment") && HasIcon(icons, "segment.png"))
    || (t == Some("Extended") && HasIcon(icons, "extended.png"))
    || (t == Some("Ray") && HasIcon(icons, "ray.png"))
  }

  /** `add_basic_drawing_tools(list)`: Segment, Extended and Ray, in that order, each appended under a type not listed yet. */
  function WithBasicDrawingTools(icons: Icons, list: seq<Entry>): (r: seq<Entry>)
    ensures list <= r
    ensures forall t ::
      Occurrences(r, t) == (if IsBasicType(icons, t) && !Listed(list, t) then 1 else Occurrences(list, t))
  {
    var withSegment := AddBasicLine(icons, list, SegmentLine);
    var withExtended := AddBasicLine(icons, withSegment, ExtendedLine);
    AddBasicLine(icons, withExtended, RayLine)
  }

  // ---------------------------------------------------------------- init_toolbar_tools

  /** The de-duplicating loop of `init_toolbar_tools`: each given tool is appended, in order, unless its type is listed. */
  function AddMissing(list: seq<Entry>, tools: seq<Entry>): (r: seq<Entry>)
    ensures list <= r
    ensures forall t ::
      Occurrences(r, t) == (if !Listed(list, t) && Listed(tools, t) then 1 else Occurrences(list, t))
    decreases |tools|
  {
    if |tools| == 0 then list
    else
      var last := tools[|tools| - 1];
      PushNew(AddMissing(list, tools[..|tools| - 1]), last)
  }

  /** A line tool entry (without group) when its icon exists. */
  function IfIconExists(icons: Icons, k: LineKind): seq<Entry>
  {
    if HasIcon(icons, k.IconFile()) then [LineEntry(icons, k, false)] else []
  }

  /** Whether a segment tool, under either of its names, is listed. */
  predicate HasLineTool(list: seq<Entry>)
  {
    Listed(list, Some("Segment")) || Listed(list, Some("LineTool:Segment"))
  }

  /**
   * `init_toolbar_tools(tools)`: the given tools are added under new types;
   * when no segment tool is listed afterwards, each line tool whose icon
   * exists is appended, whether or not its type is already listed.
   */
  function InitializedTools(icons: Icons, list: seq<Entry>, tools: seq<Entry>): (r: seq<Entry>)
  {
    var added := AddMissing(list, tools);
    if HasLineTool(added) then added
    else added + IfIconExists(icons, SegmentLine) + IfIconExists(icons, ExtendedLine) + IfIconExists(icons, RayLine)
  }

  /** The type of every entry of a list is listed. */
  lemma {:induction false} ListedElement(list: seq<Entry>, k: nat)
    requires k < |list|
    ensures Listed(list, list[k].toolType)
    decreases |list|
  {
    if k < |list| - 1 {
      ListedElement(list[..|list| - 1], k);
    }
  }

  /** The line types, the only ones the fallback of `init_toolbar_tools` appends. */
  predicate IsLineType(t: Option<string>)
  {
    t == Some("Segment") || t == Some("Extended") || t == Some("Ray")
  }

  /** The line tools the fallback appends add occurrences of line types only. */
  lemma FallbackOccurrences(added: seq<Entry>, segment: seq<Entry>, extended: seq<Entry>, ray: seq<Entry>, t: Option<string>)
    requires forall e :: e in segment + extended + ray ==> IsLineType(e.toolType)
    ensures Occurrences(added + segment + extended + ray, t) >= Occurrences(added, t)
    ensures !IsLineType(t) ==> Occurrences(added + segment + extended + ray, t) == Occurrences(added, t)
  {
    var extra := segment + extended + ray;
    assert added + segment + extended + ray == added + extra;
    OccurrencesAppend(added, extra, t);
    if !IsLineType(t) {
      OccurrencesAbsent(extra, t);
    }
  }

  /** `init_toolbar_tools` only appends: the old list is a prefix of the new one. */
  lemma InitializedToolsExtend(icons: Icons, list: seq<Entry>, tools: seq<Entry>)
    ensures list <= InitializedTools(icons, list, tools)
  {
    var added := AddMissing(list, tools);
    assert list <= added;
  }

  /** After `init_toolbar_tools` every given type is listed. */
  lemma InitializedToolsListsGiven(icons: Icons, list: seq<Entry>, tools: seq<Entry>, k: nat)
    requires k < |tools|
    ensures Listed(InitializedTools(icons, list, tools), tools[k].toolType)
  {
    var added := AddMissing(list, tools);
    var t := tools[k].toolType;
    ListedElement(tools, k);
    assert Listed(added, t);
    if !HasLineTool(added) {
      FallbackOccurrences(added, IfIconExists(icons, SegmentLine), IfIconExists(icons, ExtendedLine), IfIconExists(icons, RayLine), t);
    }
  }

  /** After `init_toolbar_tools` a segment tool is listed whenever its icon exists. */
  lemma InitializedToolsHaveSegment(icons: Icons, list: seq<Entry>, tools: seq<Entry>)
    requires HasIcon(icons, "segment.png")
    ensures HasLineTool(InitializedTools(icons, list, tools))
  {
    var added := AddMissing(list, tools);
    if !HasLineTool(added) {
      var r := InitializedTools(icons, list, tools);
      assert r[|added|] == LineEntry(icons, SegmentLine, false);
      ListedElement(r, |added|);
    }
  }

  /**
   * A type other than a line tool's is listed once more after
   * `init_toolbar_tools` only if it was given and not listed before.
   */
  lemma InitializedToolsOccurrences(icons: Icons, list: seq<Entry>, tools: seq<Entry>, t: Option<string>)
    requires !IsLineType(t)
    ensures Occurrences(InitializedTools(icons, list, tools), t)
      == if !Listed(list, t) && Listed(tools, t) then 1 else Occurrences(list, t)
  {
    var added := AddMissing(list, tools);
    if !HasLineTool(added) {
      FallbackOccurrences(added, IfIconExists(icons, SegmentLine), IfIconExists(icons, ExtendedLine), IfIconExists(icons, RayLine), t);
    }
  }

  // ---------------------------------------------------------------- register_tools

  /** `Object.assign(target, source)`: every key of `source` overwrites the same key of `target`. */
  function Assign(target: Entry, source: Entry): (r: Entry)
    ensures r.toolType == (if source.toolType.Some? then source.toolType else target.toolType)
    ensures r.settings == (if source.settings.Some? then source.settings else target.settings)
    ensures forall key :: key in r.props <==> key in target.props || key in source.props
    ensures forall key :: key in r.props ==> r.props[key] == if key in source.props then source.props[key] else target.props[key]
  {
    Entry(if source.toolType.Some? then source.toolType else target.toolType,
      if source.settings.Some? then source.settings else target.settings,
      target.props + source.props)
  }

  /**
   * `merge_presets(proto, preset)`: without a preset nothing changes; the
   * preset's `settings` are merged key by key into the prototype's own
   * settings, which throws when the prototype has none; every other key of
   * the preset overwrites the prototype's.
   */
  function MergePresets(proto: Entry, preset: Option<Entry>): (r: Result<Entry, string>)
    ensures preset.None? ==> r == Success(proto)
    ensures r.Failure? <==> preset.Some? && preset.value.settings.Some? && proto.settings.None?
    ensures r.Success? && preset.Some? ==>
      && r.value == Assign(proto, preset.value.(settings := r.value.settings))
      && (preset.value.settings.None? ==> r.value.settings == proto.settings)
      && (preset.value.settings.Some? ==>
            && r.value.settings.Some?
            && (forall key :: key in r.value.settings.value <==>
                  key in proto.settings.value || key in preset.value.settings.value)
            && (forall key :: key in preset.value.settings.value ==>
                  r.value.settings.value[key] == preset.value.settings.value[key])
            && (forall key :: key in proto.settings.value && key !in preset.value.settings.value ==>
                  r.value.settings.value[key] == proto.settings.value[key]))
  {
    match preset
    case None => Success(proto)
    case Some(p) =>
      match p.settings
      case None => Success(Assign(proto, p))
      case Some(extra) =>
        if proto.settings.None? then Failure("TypeError: Cannot convert undefined or null to object")
        else Success(Assign(proto, p.(settings := Some(proto.settings.value + extra))))
  }

  /** A JavaScript property key for a type that may be missing: `preset[undefined]` reads the key "undefined". */
  function KeyOf(t: Option<string>): string
  {
    match t
    case Some(s) => s
    case None => "undefined"
  }

  /** The preset table of `register_tools`: each listed entry under its type, with the type deleted; a later entry wins. */
  function PresetsOf(list: seq<Entry>): (presets: map<string, Entry>)
    ensures forall key :: key in presets ==> presets[key].toolType.None?
    ensures forall k :: 0 <= k < |list| ==> KeyOf(list[k].toolType) in presets
    ensures |list| > 0 ==> presets[KeyOf(list[|list| - 1].toolType)] == list[|list| - 1].(toolType := None)
    decreases |list|
  {
    if |list| == 0 then map[]
    else
      var last := list[|list| - 1];
      PresetsOf(list[..|list| - 1])[KeyOf(last.toolType) := last.(toolType := None)]
  }

  /** `preset[key]`, absent when no entry has that type. */
  function PresetFor(presets: map<string, Entry>, key: string): Option<Entry>
  {
    if key in presets then Some(presets[key]) else None
  }

  /** A prototype after both merges: the preset for `use_for`, then the one for its own full type. */
  function WithPresets(proto: Entry, presets: map<string, Entry>, useFor: string): (r: Result<Entry, string>)
    requires forall key :: key in presets ==> presets[key].toolType.None?
    ensures r.Success? ==> r.value.toolType == proto.toolType
  {
    match MergePresets(proto, PresetFor(presets, useFor))
    case Failure(e) => Failure(e)
    case Success(merged) => MergePresets(merged, PresetFor(presets, KeyOf(merged.toolType)))
  }

  /** A component's `info` object: the prototype it declares and its `mods`, by name, in key order. */
  datatype ToolInfo = ToolInfo(proto: Entry, mods: seq<(string, Entry)>)

  /** A tool a component registers: the overlay type it is used for and its `info`, if any. */
  datatype ComponentTool = ComponentTool(useFor: string, info: Option<ToolInfo>)

  /** `info.type || 'Default'`. */
  function DeclaredType(t: Option<string>): string
  {
    if t.None? || t.value == "" then "Default" else t.value
  }

  /** The types registering a tool produces: `use_for:type` and `use_for:mod` for every mod; none without `info`. */
  function ProducedTypes(tool: ComponentTool): set<Option<string>>
  {
    match tool.info
    case None => {}
    case Some(info) =>
      {Some(tool.useFor + ":" + DeclaredType(info.proto.toolType))}
        + (set m | m in info.mods :: Some(tool.useFor + ":" + m.0))
  }

  /** The types all the given tools produce. */
  function AllProducedTypes(tools: seq<ComponentTool>): set<Option<string>>
    decreases |tools|
  {
    if |tools| == 0 then {} else AllProducedTypes(tools[..|tools| - 1]) + ProducedTypes(tools[|tools| - 1])
  }

  /** The mod `name` of a prototype: the prototype, overwritten by the mod's keys, under type `use_for:name`. */
  function Variant(proto: Entry, useFor: string, name: string, patch: Entry): (v: Entry)
    ensures v.toolType == Some(useFor + ":" + name)
  {
    Assign(proto, patch).(toolType := Some(useFor + ":" + name))
  }

  /** The mods loop of `register_tools` for one tool: each variant, presets merged, is added under a new type. */
  function AddVariants(list: seq<Entry>, presets: map<string, Entry>, useFor: string, proto: Entry, mods: seq<(string, Entry)>)
    : (r: Result<seq<Entry>, string>)
    requires forall key :: key in presets ==> presets[key].toolType.None?
    ensures r.Success? ==> list <= r.value
    ensures r.Success? ==> forall t ::
      Occurrences(r.value, t) == (if !Listed(list, t) && t in (set m | m in mods :: Some(useFor + ":" + m.0)) then 1 else Occurrences(list, t))
    decreases |mods|
  {
    if |mods| == 0 then Success(list)
    else
      var last := mods[|mods| - 1];
      assert mods == mods[..|mods| - 1] + [last];
      match AddVariants(list, presets, useFor, proto, mods[..|mods| - 1])
      case Failure(e) => Failure(e)
      case Success(acc) =>
        match WithPresets(Variant(proto, useFor, last.0, last.1), presets, useFor)
        case Failure(e) => Failure(e)
        case Success(variant) => Success(PushNew(acc, variant))
  }

  /** The prototype `register_tools` builds for a tool with `info`: typed `use_for:type`, presets merged, `mods` deleted. */
  function Prototype(info: ToolInfo, presets: map<string, Entry>, useFor: string): (r: Result<Entry, string>)
    requires forall key :: key in presets ==> presets[key].toolType.None?
    ensures r.Success? ==> r.value.toolType == Some(useFor + ":" + DeclaredType(info.proto.toolType))
    ensures r.Success? ==> "mods" !in r.value.props
  {
    match WithPresets(info.proto.(toolType := Some(useFor + ":" + DeclaredType(info.proto.toolType))), presets, useFor)
    case Failure(e) => Failure(e)
    case Success(merged) => Success(merged.(props := merged.props - {"mods"}))
  }

  /** One pass of the `register_tools` loop: a tool without `info` is skipped. */
  function RegisterOne(list: seq<Entry>, presets: map<string, Entry>, tool: ComponentTool): (r: Result<seq<Entry>, string>)
    requires forall key :: key in presets ==> presets[key].toolType.None?
    ensures r.Success? ==> list <= r.value
    ensures r.Success? ==> forall t ::
      Occurrences(r.value, t) == (if !Listed(list, t) && t in ProducedTypes(tool) then 1 else Occurrences(list, t))
  {
    match tool.info
    case None => Success(list)
    case Some(info) =>
      match Prototype(info, presets, tool.useFor)
      case Failure(e) => Failure(e)
      case Success(proto) => AddVariants(PushNew(list, proto), presets, tool.useFor, proto, info.mods)
  }

  /** The `register_tools` loop over all tools, stopping at the first thrown error. */
  function RegisterAll(list: seq<Entry>, presets: map<string, Entry>, tools: seq<ComponentTool>): (r: Result<seq<Entry>, string>)
    requires forall key :: key in presets ==> presets[key].toolType.None?
    ensures r.Success? ==> list <= r.value
    ensures r.Success? ==> forall t ::
      Occurrences(r.value, t) == (if !Listed(list, t) && t in AllProducedTypes(tools) then 1 else Occurrences(list, t))
    decreases |tools|
  {
    if |tools| == 0 then Success(list)
    else
      match RegisterAll(list, presets, tools[..|tools| - 1])
      case Failure(e) => Failure(e)
      case Success(acc) => RegisterOne(acc, presets, tools[|tools| - 1])
  }

  /** A thrown error ends the mods loop: once a prefix of the mods fails, all of them fail with that error. */
  lemma {:induction false} AddVariantsStopsAtFailure(list: seq<Entry>, presets: map<string, Entry>, useFor: string, proto: Entry,
      mods: seq<(string, Entry)>, n: nat)
    requires forall key :: key in presets ==> presets[key].toolType.None?
    requires n <= |mods| && AddVariants(list, presets, useFor, proto, mods[..n]).Failure?
    ensures AddVariants(list, presets, useFor, proto, mods) == AddVariants(list, presets, useFor, proto, mods[..n])
    decreases |mods| - n
  {
    if n == |mods| {
      assert mods[..n] == mods;
    } else {
      var init := mods[..|mods| - 1];
      assert init[..n] == mods[..n];
      AddVariantsStopsAtFailure(list, presets, useFor, proto, init, n);
    }
  }

  /** One more mod: the variant it makes is added under a new type, or its merge throws. */
  lemma AddVariantsStep(list: seq<Entry>, presets: map<string, Entry>, useFor: string, proto: Entry,
      mods: seq<(string, Entry)>, k: nat)
    requires forall key :: key in presets ==> presets[key].toolType.None?
    requires k < |mods| && AddVariants(list, presets, useFor, proto, mods[..k]).Success?
    ensures AddVariants(list, presets, useFor, proto, mods[..k + 1]) ==
      match WithPresets(Variant(proto, useFor, mods[k].0, mods[k].1), presets, useFor)
      case Failure(e) => Failure(e)
      case Success(variant) => Success(PushNew(AddVariants(list, presets, useFor, proto, mods[..k]).value, variant))
  {
    assert mods[..k + 1][..k] == mods[..k];
  }

  /** The mods loop of `register_tools`, stopping at the first thrown error. */
  method PushVariants(list: seq<Entry>, presets: map<string, Entry>, useFor: string, proto: Entry, mods: seq<(string, Entry)>)
    returns (r: Result<seq<Entry>, string>)
    requires forall key :: key in presets ==> presets[key].toolType.None?
    ensures r == AddVariants(list, presets, useFor, proto, mods)
  {
    var acc := list;
    for k := 0 to |mods|
      invariant AddVariants(list, presets, useFor, proto, mods[..k]) == Success(acc)
    {
      AddVariantsStep(list, presets, useFor, proto, mods, k);
      var variant := WithPresets(Variant(proto, useFor, mods[k].0, mods[k].1), presets, useFor);
      if variant.Failure? {
        AddVariantsStopsAtFailure(list, presets, useFor, proto, mods, k + 1);
        return Failure(variant.error);
      }
      acc := PushNew(acc, variant.value);
    }
    assert mods[..|mods|] == mods;
    r := Success(acc);
  }

  /** A thrown error ends the tools loop: once a prefix of the tools fails, all of them fail with that error. */
  lemma {:induction false} RegisterAllStopsAtFailure(list: seq<Entry>, presets: map<string, Entry>, tools: seq<ComponentTool>, n: nat)
    requires forall key :: key in presets ==> presets[key].toolType.None?
    requires n <= |tools| && RegisterAll(list, presets, tools[..n]).Failure?
    ensures RegisterAll(list, presets, tools) == RegisterAll(list, presets, tools[..n])
    decreases |tools| - n
  {
    if n == |tools| {
      assert tools[..n] == tools;
    } else {
      var init := tools[..|tools| - 1];
      assert init[..n] == tools[..n];
      RegisterAllStopsAtFailure(list, presets, init, n);
    }
  }

  /** One more tool: it is registered after the earlier ones, unless they threw. */
  lemma RegisterAllStep(list: seq<Entry>, presets: map<string, Entry>, tools: seq<ComponentTool>, k: nat)
    requires forall key :: key in presets ==> presets[key].toolType.None?
    requires k < |tools| && RegisterAll(list, presets, tools[..k]).Success?
    ensures RegisterAll(list, presets, tools[..k + 1]) == RegisterOne(RegisterAll(list, presets, tools[..k]).value, presets, tools[k])
  {
    assert tools[..k + 1][..k] == tools[..k];
  }

  /** The preset loop of `register_tools`: every listed entry under its type. */
  method CollectPresets(list: seq<Entry>) returns (presets: map<string, Entry>)
    ensures presets == PresetsOf(list)
  {
    presets := map[];
    for k := 0 to |list|
      invariant presets == PresetsOf(list[..k])
    {
      assert list[..k + 1][..k] == list[..k];
      presets := presets[KeyOf(list[k].toolType) := list[k].(toolType := None)];
    }
    assert list[..|list|] == list;
  }

  /** The tools loop of `register_tools`, stopping at the first thrown error. */
  method RegisterEach(start: seq<Entry>, presets: map<string, Entry>, tools: seq<ComponentTool>)
    returns (r: Result<seq<Entry>, string>)
    requires forall key :: key in presets ==> presets[key].toolType.None?
    ensures r == RegisterAll(start, presets, tools)
  {
    var list := start;
    for k := 0 to |tools|
      invariant RegisterAll(start, presets, tools[..k]) == Success(list)
    {
      RegisterAllStep(start, presets, tools, k);
      var tool := tools[k];
      if tool.info.Some? {
        var proto := Prototype(tool.info.value, presets, tool.useFor);
        if proto.Failure? {
          RegisterAllStopsAtFailure(start, presets, tools, k + 1);
          return Failure(proto.error);
        }
        var withVariants := PushVariants(PushNew(list, proto.value), presets, tool.useFor, proto.value, tool.info.value.mods);
        if withVariants.Failure? {
          RegisterAllStopsAtFailure(start, presets, tools, k + 1);
          return withVariants;
        }
        list := withVariants.value;
      }
    }
    assert tools[..|tools|] == tools;
    r := Success(list);
  }

  /** `init_toolbar_tools` lists no second remove button. */
  lemma InitializedToolsKeepTrash(icons: Icons, list: seq<Entry>, tools: seq<Entry>)
    requires AtMostOneTrashIcon(list)
    ensures AtMostOneTrashIcon(InitializedTools(icons, list, tools))
  {
    InitializedToolsOccurrences(icons, list, tools, Some(TrashType));
  }

  /** The entry the list of `register_tools` starts with. */
  function CursorEntry(icons: Icons): Entry
  {
    Entry(Some("Cursor"), None, map["icon" := Icon(icons, "cursor.png")])
  }

  /** The list `register_tools` starts from: the cursor, then the basic line tools. */
  function RegistrationStart(icons: Icons): seq<Entry>
  {
    WithBasicDrawingTools(icons, [CursorEntry(icons)])
  }

  /** `register_tools(tools)` on the current list: the new list, or the error it throws. */
  function Registered(icons: Icons, current: seq<Entry>, tools: seq<ComponentTool>): Result<seq<Entry>, string>
  {
    RegisterAll(RegistrationStart(icons), PresetsOf(current), tools)
  }

  /**
   * A completed registration lists the cursor first, then the basic line
   * tools, and after them exactly the types the tools with `info` produce
   * that are not listed yet, each once: no type is listed twice.
   */
  lemma RegisteredToolbar(icons: Icons, current: seq<Entry>, tools: seq<ComponentTool>)
    ensures var r := Registered(icons, current, tools);
      r.Success? ==>
        && |r.value| > 0 && r.value[0] == CursorEntry(icons)
        && NoDuplicateTypes(r.value)
        && (forall t :: Listed(r.value, t) <==> t == Some("Cursor") || IsBasicType(icons, t) || t in AllProducedTypes(tools))
  {
    var start := RegistrationStart(icons);
    OccurrencesSingle(CursorEntry(icons), Some("Cursor"));
    forall t
      ensures Occurrences(start, t) <= 1
      ensures Listed(start, t) <==> t == Some("Cursor") || IsBasicType(icons, t)
    {
      OccurrencesSingle(CursorEntry(icons), t);
    }
  }

  // ---------------------------------------------------------------- the trash icon

  const TrashType: string := "System:Remove"

  /** The toolbar's remove button. */
  function TrashEntry(icons: Icons): Entry
  {
    Entry(Some(TrashType), None, map["icon" := Icon(icons, "trash.png")])
  }

  /** `add_trash_icon()`: append the remove button unless one is listed. */
  function WithTrashIcon(icons: Icons, list: seq<Entry>): (r: seq<Entry>)
    ensures list <= r && Listed(r, Some(TrashType))
    ensures Occurrences(r, Some(TrashType)) == if Listed(list, Some(TrashType)) then Occurrences(list, Some(TrashType)) else 1
    ensures forall t :: t != Some(TrashType) ==> Occurrences(r, t) == Occurrences(list, t)
  {
    PushNew(list, TrashEntry(icons))
  }

  /** Adding the remove button twice is adding it once. */
  lemma TrashIconIdempotent(icons: Icons, list: seq<Entry>)
    ensures WithTrashIcon(icons, WithTrashIcon(icons, list)) == WithTrashIcon(icons, list)
  {
  }

  predicate NotTrash(e: Entry)
  {
    e.toolType != Some(TrashType)
  }

  /** `remove_trash_icon()`: every remove button goes, the other entries stay in order. */
  function WithoutTrashIcon(list: seq<Entry>): (r: seq<Entry>)
    ensures !Listed(r, Some(TrashType))
    ensures forall t :: t != Some(TrashType) ==> Occurrences(r, t) == Occurrences(list, t)
  {
    forall t ensures Occurrences(Filter(list, NotTrash), t) == if t == Some(TrashType) then 0 else Occurrences(list, t) {
      FilterKeepsOtherTypes(list, t);
    }
    Filter(list, NotTrash)
  }

  lemma {:induction false} FilterKeepsOtherTypes(list: seq<Entry>, t: Option<string>)
    ensures Occurrences(Filter(list, NotTrash), t) == if t == Some(TrashType) then 0 else Occurrences(list, t)
    decreases |list|
  {
    var n := |list|;
    if n > 0 {
      var init := list[..n - 1];
      var last := list[n - 1];
      FilterKeepsOtherTypes(init, t);
      assert list == init + [last];
      FilterAppend(init, [last], NotTrash);
      OccurrencesAppend(Filter(init, NotTrash), Filter([last], NotTrash), t);
      OccurrencesSingle(last, t);
      if !NotTrash(last) {
        assert Filter([last], NotTrash) == [];
      }
    }
  }

  /** At most one remove button, the invariant the trash-icon handlers keep. */
  predicate AtMostOneTrashIcon(list: seq<Entry>)
  {
    Occurrences(list, Some(TrashType)) <= 1
  }
}
