/**
 * The DataCube's event handlers: the upload handshake with the script web
 * worker, the toolbar list, the selection and drawing-mode flags of the
 * chart's data object, placing a new drawing tool and the clean-up before
 * the chart is destroyed. The DataCube's own query primitives (`get`,
 * `merge`, `add`, `del`) are modelled on the two overlay lists.
 */
module DataCubeEvents {
  import opened Wrappers
  import opened Lists
  import opened Strings
  import opened Toolbar

  /** An overlay on the main chart (`onchart`) or in an indicator pane (`offchart`), as the handlers see it. */
  datatype ChartOverlay = ChartOverlay(
    id: string,
    name: Value,
    overlayType: string,
    settings: Props,
    grid: nat,
    loading: bool)

  /**
   * The chart's data object, as far as the handlers change it. An empty
   * `tool` stands for a falsy one; `selected` is the selected tool's `$uuid`.
   */
  datatype ChartData = ChartData(
    tools: seq<Entry>,
    tool: string,
    drawingMode: bool,
    scrollLock: bool,
    selected: Option<string>,
    onchart: seq<ChartOverlay>,
    offchart: seq<ChartOverlay>)

  /** A message the handlers send to the script web worker. */
  datatype WorkerMessage = SendMetaInfo | UploadData | RemoveScripts(ids: seq<string>)

  /** A message from the web worker, as far as the upload handshake reads it. */
  datatype WorkerEvent = RequestData | DataUploaded | OtherWorkerEvent

  // ---------------------------------------------------------------- DataCube queries

  /** The overlays a DataCube query names: those with that id or that `$uuid`. */
  predicate Matches(o: ChartOverlay, query: string)
  {
    o.id == query || Get(o.settings, "$uuid") == Str(query)
  }

  /** `merge(query + '.settings', {key: v})` on one overlay list. */
  function MergeSetting(ovs: seq<ChartOverlay>, query: string, key: string, v: Value): (r: seq<ChartOverlay>)
    ensures |r| == |ovs|
    ensures forall k :: 0 <= k < |ovs| ==>
      r[k] == if Matches(ovs[k], query) then ovs[k].(settings := ovs[k].settings[key := v]) else ovs[k]
  {
    seq(|ovs|, k requires 0 <= k < |ovs| =>
      if Matches(ovs[k], query) then ovs[k].(settings := ovs[k].settings[key := v]) else ovs[k])
  }

  /** `merge(query + '.settings', {key: v})` on the chart. */
  function MergeIntoSettings(d: ChartData, query: string, key: string, v: Value): ChartData
  {
    d.(onchart := MergeSetting(d.onchart, query, key, v), offchart := MergeSetting(d.offchart, query, key, v))
  }

  /** `del(query)` on one overlay list: the named overlays go, the others stay in order. */
  function Delete(ovs: seq<ChartOverlay>, query: string): (r: seq<ChartOverlay>)
    ensures forall k :: 0 <= k < |r| ==> !Matches(r[k], query) && r[k] in ovs
    ensures forall k :: 0 <= k < |ovs| && !Matches(ovs[k], query) ==> ovs[k] in r
  {
    Filter(ovs, o => !Matches(o, query))
  }

  // ---------------------------------------------------------------- the script worker

  /** The ids in `prev` that are defined and absent from `values`, in order: the scripts `on_ids_changed` removes. */
  function RemovedIds(values: seq<Option<string>>, prev: seq<Option<string>>): (rem: seq<string>)
    ensures |rem| <= |prev|
    ensures forall k :: 0 <= k < |rem| ==> Some(rem[k]) in prev && Some(rem[k]) !in values
    ensures forall k :: 0 <= k < |prev| && prev[k].Some? && prev[k] !in values ==> prev[k].value in rem
  {
    var kept := Filter(prev, (id: Option<string>) => id.Some? && id !in values);
    var rem := seq(|kept|, k requires 0 <= k < |kept| => kept[k].value);
    assert forall k :: 0 <= k < |kept| ==> kept[k] == Some(rem[k]);
    rem
  }

  /** Whether `$props` marks an overlay as a script. */
  predicate IsScript(o: ChartOverlay)
  {
    Truthy(Get(o.settings, "$props"))
  }

  /** `set_loading(flag)` on one overlay list: every script overlay gets `loading = flag`, nothing else changes. */
  function MarkLoading(ovs: seq<ChartOverlay>, flag: bool): (r: seq<ChartOverlay>)
    ensures |r| == |ovs|
    ensures forall k :: 0 <= k < |ovs| ==>
      r[k].loading == (if IsScript(ovs[k]) then flag else ovs[k].loading) && r[k].(loading := ovs[k].loading) == ovs[k]
  {
    seq(|ovs|, k requires 0 <= k < |ovs| => if IsScript(ovs[k]) then ovs[k].(loading := flag) else ovs[k])
  }

  /** The loop of `set_loading` over one list. */
  method MarkEach(ovs: seq<ChartOverlay>, flag: bool) returns (marked: seq<ChartOverlay>)
    ensures marked == MarkLoading(ovs, flag)
  {
    marked := [];
    for k := 0 to |ovs|
      invariant marked == MarkLoading(ovs[..k], flag)
    {
      var o := ovs[k];
      if IsScript(o) {
        o := o.(loading := flag);
      }
      marked := marked + [o];
    }
    assert ovs[..|ovs|] == ovs;
  }

  // ---------------------------------------------------------------- placing a tool

  /** `LineTool:Segment`, `LineTool:Extended` and `LineTool:Ray` stand for the bare line types. */
  function Normalised(toolType: string): (t: string)
    ensures toolType in {"LineTool:Segment", "LineTool:Extended", "LineTool:Ray"} ==> t == toolType[9..]
    ensures toolType !in {"LineTool:Segment", "LineTool:Extended", "LineTool:Ray"} ==> t == toolType
  {
    if toolType == "LineTool:Segment" then "Segment"
    else if toolType == "LineTool:Extended" then "Extended"
    else if toolType == "LineTool:Ray" then "Ray"
    else toolType
  }

  /** One of the three line types. */
  predicate IsLineName(s: string)
  {
    s == "Segment" || s == "Extended" || s == "Ray"
  }

  /** `list.find(x => x.type === t)`: the first entry of that type. */
  function Lookup(list: seq<Entry>, t: string): (r: Option<Entry>)
    ensures r.Some? ==> r.value in list && r.value.toolType == Some(t)
    ensures r.Some? ==> exists k :: 0 <= k < |list| && list[k] == r.value && forall j :: 0 <= j < k ==> list[j].toolType != Some(t)
    ensures r.None? ==> forall k :: 0 <= k < |list| ==> list[k].toolType != Some(t)
    decreases |list|
  {
    if |list| == 0 then None
    else if list[0].toolType == Some(t) then Some(list[0])
    else
      var r := Lookup(list[1..], t);
      if r.Some? then
        var k :| 0 <= k < |list[1..]| && list[1..][k] == r.value && forall j :: 0 <= j < k ==> list[1..][j].toolType != Some(t);
        assert list[k + 1] == r.value && forall j :: 0 <= j < k + 1 ==> list[j].toolType != Some(t);
        r
      else r
  }

  /** `find` by type finds something exactly when the type is listed. */
  lemma LookupFinds(list: seq<Entry>, t: string)
    ensures Lookup(list, t).None? <==> !Listed(list, Some(t))
  {
    var r := Lookup(list, t);
    if r.None? {
      OccurrencesAbsent(list, Some(t));
    } else {
      var k :| 0 <= k < |list| && list[k] == r.value;
      ListedElement(list, k);
    }
  }

  /** The prototype `build_tool` makes by hand for a line type nobody registered. */
  function ManualPrototype(t: string): Entry
  {
    Entry(Some(t), Some(if t == "Extended" then map["extended" := Bool(true)]
      else if t == "Ray" then map["ray" := Bool(true)] else map[]), map["name" := Str(t)])
  }

  /**
   * The prototype `build_tool` uses for a (normalised) type: a listed entry
   * of that type, else one of its base type, else for a line type a listed
   * `LineTool`, else for a line type one made by hand (`true`: it is then
   * added to the toolbar); none for an unknown type.
   */
  function ResolvePrototype(list: seq<Entry>, t: string): (r: Option<(Entry, bool)>)
    ensures r.None? <==> !IsLineName(t) && !Listed(list, Some(t)) && !(IndexOfColon(t) > 0 && Listed(list, Some(BaseType(t))))
    ensures r.Some? && r.value.1 ==> IsLineName(t) && r.value.0 == ManualPrototype(t) && !Listed(list, Some(t))
  {
    LookupFinds(list, t);
    LookupFinds(list, BaseType(t));
    var byType := Lookup(list, t);
    if byType.Some? then Some((byType.value, false))
    else
      var byBase := if IndexOfColon(t) > 0 then Lookup(list, BaseType(t)) else None;
      if byBase.Some? then Some((byBase.value, false))
      else
        var lineTool := if IsLineName(t) then Lookup(list, "LineTool") else None;
        if lineTool.Some? then Some((lineTool.value, false))
        else if IsLineName(t) then Some((ManualPrototype(t), true))
        else None
  }

  /** A line drawing, by its type or by the part of its type before the colon. */
  predicate IsLine(t: string)
  {
    IsLineName(BaseType(t)) || IsLineName(t)
  }

  /** The overlay type a tool of type `t` is placed as: every line drawing is a `LineTool`. */
  function FinalType(t: string): (f: string)
    ensures IsLine(t) ==> f == "LineTool"
    ensures !IsLine(t) ==> f == BaseType(t)
  {
    if IsLine(t) then "LineTool" else BaseType(t)
  }

  /** The prototype's own settings with the defaults: `legend: false` and `z-index: 100` unless present. */
  function WithDefaults(own: Props): (sett: Props)
    ensures sett.Keys == own.Keys + {"legend", "z-index"}
    ensures forall key :: key in own ==> sett[key] == own[key]
    ensures "legend" !in own ==> sett["legend"] == Bool(false)
    ensures "z-index" !in own ==> sett["z-index"] == Num(100.0)
  {
    var withLegend := if "legend" in own then own else own["legend" := Bool(false)];
    if "z-index" in withLegend then withLegend else withLegend["z-index" := Num(100.0)]
  }

  /** The `ray` and `extended` flags of a line drawing of type `t`. */
  function LineFlags(t: string): (flags: (bool, bool))
    ensures !(flags.0 && flags.1)
    ensures flags.1 <==> t == "Extended" || BaseType(t) == "Extended"
    ensures flags.0 <==> !flags.1 && (t == "Ray" || BaseType(t) == "Ray")
  {
    if t == "Extended" || BaseType(t) == "Extended" then (false, true)
    else if t == "Ray" || BaseType(t) == "Ray" then (true, false)
    else (false, false)
  }

  /**
   * The settings `build_tool` gives a new tool of type `t` whose prototype
   * has the settings `own`: those with their defaults, selected, in state
   * `wip`, remembering the type, and for a line drawing (`line`) its `ray`
   * and `extended` flags.
   */
  function BuildSettings(own: Props, t: string, line: bool, ray: bool, extended: bool): (sett: Props)
    ensures Get(sett, "$selected") == Bool(true) && Get(sett, "$state") == Str("wip") && Get(sett, "lineType") == Str(t)
    ensures line ==> Get(sett, "ray") == Bool(ray) && Get(sett, "extended") == Bool(extended)
  {
    var sett := WithDefaults(own)["$selected" := Bool(true)]["$state" := Str("wip")]["lineType" := Str(t)];
    if line then sett["ray" := Bool(ray)]["extended" := Bool(extended)] else sett
  }

  /** The new settings keep the prototype's `legend` and `z-index`, or get `false` and 100. */
  lemma BuildSettingsDefaults(own: Props, t: string, line: bool, ray: bool, extended: bool)
    ensures var sett := BuildSettings(own, t, line, ray, extended);
      && Get(sett, "legend") == (if "legend" in own then own["legend"] else Bool(false))
      && Get(sett, "z-index") == (if "z-index" in own then own["z-index"] else Num(100.0))
  {
    var base := WithDefaults(own);
    assert base["$selected" := Bool(true)]["$state" := Str("wip")]["lineType" := Str(t)]["legend"] == base["legend"];
    assert base["$selected" := Bool(true)]["$state" := Str("wip")]["lineType" := Str(t)]["z-index"] == base["z-index"];
  }

  /** Every setting of the prototype that `build_tool` does not write itself keeps its value. */
  lemma BuildSettingsKeep(own: Props, t: string, line: bool, ray: bool, extended: bool, key: string)
    requires key in own
    requires key != "$selected" && key != "$state" && key != "lineType" && (line ==> key != "ray" && key != "extended")
    ensures key in BuildSettings(own, t, line, ray, extended)
    ensures BuildSettings(own, t, line, ray, extended)[key] == own[key]
  {
  }

  /** The settings of a new tool of type `t` from the prototype `proto`. */
  function ToolSettings(proto: Entry, t: string): Props
  {
    var flags := LineFlags(t);
    BuildSettings(if proto.settings.Some? then proto.settings.value else map[], t, IsLine(t), flags.0, flags.1)
  }

  /** The settings `build_tool` writes itself. */
  predicate IsBuildKey(key: string, t: string)
  {
    key == "$selected" || key == "$state" || key == "lineType" || (IsLine(t) && (key == "ray" || key == "extended"))
  }

  /** `proto.name || (LineTool ? (Segment ? 'Line Segment' : type) : base type)`. */
  function DisplayName(proto: Entry, t: string): Value
  {
    if Truthy(Get(proto.props, "name")) then proto.props["name"]
    else if FinalType(t) == "LineTool" then Str(if t == "Segment" then "Line Segment" else t)
    else Str(BaseType(t))
  }

  /** The `$uuid` of a tool: its DataCube id and the time it was placed. */
  function Uuid(id: string, stamp: string): string
  {
    id + "-" + stamp
  }

  /** The overlay `build_tool` adds for a tool of type `t` from `proto`. */
  function NewToolOverlay(proto: Entry, t: string, gridId: nat, id: string, stamp: string): (o: ChartOverlay)
    ensures o.id == id && Matches(o, Uuid(id, stamp)) && o.overlayType == FinalType(t) && o.grid == gridId
  {
    ChartOverlay(id, DisplayName(proto, t), FinalType(t), ToolSettings(proto, t)["$uuid" := Str(Uuid(id, stamp))], gridId, false)
  }

  /** `!x.settings.$state || x.settings.$state === 'finished'`: the overlays `before_destroy` keeps. */
  predicate Finished(o: ChartOverlay)
  {
    !Truthy(Get(o.settings, "$state")) || Get(o.settings, "$state") == Str("finished")
  }

  /** A truthy selection. */
  predicate IsSelected(selected: Option<string>)
  {
    selected.Some? && selected.value != ""
  }

  /**
   * What `system_tool('Remove')` does with a selected tool: its overlays are
   * deleted, the remove button removed, drawing mode left and scrolling
   * unlocked.
   */
  function RemoveSelected(d: ChartData, q: string): (r: ChartData)
    ensures forall k :: 0 <= k < |r.onchart| ==> !Matches(r.onchart[k], q)
    ensures forall k :: 0 <= k < |r.offchart| ==> !Matches(r.offchart[k], q)
    ensures !Listed(r.tools, Some(TrashType)) && !r.drawingMode && r.tool == "Cursor" && !r.scrollLock
    ensures r.selected == d.selected
  {
    d.(onchart := Delete(d.onchart, q), offchart := Delete(d.offchart, q),
      tools := WithoutTrashIcon(d.tools), drawingMode := false, tool := "Cursor", scrollLock := false)
  }

  // ---------------------------------------------------------------- the handlers

  class DCEvents {
    /** The bundled icons. */
    const icons: Icons
    /** The chart's data object. */
    var data: ChartData
    /** The worker's `_data_uploading` flag. */
    var uploading: bool
    /** The messages sent to the worker, in order. */
    var outbox: seq<WorkerMessage>

    constructor(icons: Icons, data: ChartData)
      ensures this.icons == icons && this.data == data && !uploading && outbox == []
    {
      this.icons := icons;
      this.data := data;
      uploading := false;
      outbox := [];
    }

    /**
     * The upload handshake of the worker's `onevent`: a data request is
     * answered with the meta information and the data, and marks an upload
     * in flight, unless one already is; the worker's acknowledgement clears
     * the mark.
     */
    method OnWorkerEvent(e: WorkerEvent)
      modifies this
      ensures data == old(data)
      ensures e.RequestData? ==> uploading && outbox == old(outbox) + (if old(uploading) then [] else [SendMetaInfo, UploadData])
      ensures e.DataUploaded? ==> !uploading && outbox == old(outbox)
      ensures e.OtherWorkerEvent? ==> uploading == old(uploading) && outbox == old(outbox)
    {
      match e
      case RequestData =>
        if !uploading {
          outbox := outbox + [SendMetaInfo, UploadData];
          uploading := true;
        }
      case DataUploaded =>
        uploading := false;
      case OtherWorkerEvent =>
    }

    /** `set_loading(flag)`: mark every script overlay as loading or not. */
    method SetLoading(flag: bool)
      modifies this
      ensures data == old(data).(onchart := MarkLoading(old(data.onchart), flag), offchart := MarkLoading(old(data.offchart), flag))
      ensures uploading == old(uploading) && outbox == old(outbox)
    {
      var onchart := MarkEach(data.onchart, flag);
      var offchart := MarkEach(data.offchart, flag);
      data := data.(onchart := onchart, offchart := offchart);
    }

    /**
     * `data_changed()`: with scripts on, execution on data change not
     * switched off, no upload in flight and the engine running scripts, the
     * data is uploaded and every script overlay marked as loading; otherwise
     * nothing happens.
     */
    method DataChanged(scripts: bool, dataChangeExec: Value, engineScripts: bool)
      modifies this
      ensures var sends := scripts && dataChangeExec != Bool(false) && !old(uploading) && engineScripts;
        && (sends ==>
              && uploading && outbox == old(outbox) + [SendMetaInfo, UploadData]
              && data == old(data).(onchart := MarkLoading(old(data.onchart), true), offchart := MarkLoading(old(data.offchart), true)))
        && (!sends ==> uploading == old(uploading) && outbox == old(outbox) && data == old(data))
    {
      if !scripts || dataChangeExec == Bool(false) || uploading || !engineScripts {
        return;
      }
      outbox := outbox + [SendMetaInfo, UploadData];
      uploading := true;
      SetLoading(true);
    }

    /** `on_ids_changed(values, prev)`: ask the worker to drop the scripts whose ids went away, if any did. */
    method OnIdsChanged(values: seq<Option<string>>, prev: seq<Option<string>>)
      modifies this
      ensures var rem := RemovedIds(values, prev);
        outbox == old(outbox) + (if |rem| > 0 then [RemoveScripts(rem)] else [])
      ensures data == old(data) && uploading == old(uploading)
    {
      var rem := RemovedIds(values, prev);
      if |rem| > 0 {
        outbox := outbox + [RemoveScripts(rem)];
      }
    }

    /** `drawing_mode_off()`. */
    method DrawingModeOff()
      modifies this
      ensures data == old(data).(drawingMode := false, tool := "Cursor")
      ensures uploading == old(uploading) && outbox == old(outbox)
    {
      data := data.(drawingMode := false, tool := "Cursor");
    }

    /** `on_scroll_lock(flag)`. */
    method OnScrollLock(flag: bool)
      modifies this
      ensures data == old(data).(scrollLock := flag)
      ensures uploading == old(uploading) && outbox == old(outbox)
    {
      data := data.(scrollLock := flag);
    }

    /** `add_trash_icon()`: the remove button is listed, once if it was not listed before. */
    method AddTrashIcon()
      modifies this
      ensures data == old(data).(tools := WithTrashIcon(icons, old(data.tools)))
      ensures Listed(data.tools, Some(TrashType))
      ensures AtMostOneTrashIcon(old(data.tools)) ==> AtMostOneTrashIcon(data.tools)
      ensures uploading == old(uploading) && outbox == old(outbox)
    {
      if !Listed(data.tools, Some(TrashType)) {
        data := data.(tools := data.tools + [TrashEntry(icons)]);
      }
    }

    /** `remove_trash_icon()`: no remove button is left; the other tools stay, in order. */
    method RemoveTrashIcon()
      modifies this
      ensures data == old(data).(tools := WithoutTrashIcon(old(data.tools)))
      ensures !Listed(data.tools, Some(TrashType))
      ensures uploading == old(uploading) && outbox == old(outbox)
    {
      data := data.(tools := Filter(data.tools, NotTrash));
    }

    /**
     * `object_selected(args)`: the previous selection, if any, is
     * deselected and the remove button removed; with arguments, the tool
     * whose `$uuid` is the third one is selected and the remove button
     * listed again.
     */
    method ObjectSelected(args: seq<Option<string>>)
      modifies this
      ensures var previous := old(data.selected);
        var cleared := if IsSelected(previous)
          then MergeIntoSettings(old(data), previous.value, "$selected", Bool(false)).(tools := WithoutTrashIcon(old(data.tools)))
          else old(data);
        var chosen := if |args| > 2 then args[2] else None;
        if |args| == 0 then data == cleared.(selected := None)
        else data == MergeIntoSettings(cleared, KeyOf(chosen), "$selected", Bool(true))
          .(selected := chosen, tools := WithTrashIcon(icons, cleared.tools))
      ensures |args| > 0 ==> Listed(data.tools, Some(TrashType))
      ensures AtMostOneTrashIcon(old(data.tools)) ==> AtMostOneTrashIcon(data.tools)
      ensures uploading == old(uploading) && outbox == old(outbox)
    {
      var q := data.selected;
      if IsSelected(q) {
        data := MergeIntoSettings(data, q.value, "$selected", Bool(false));
        RemoveTrashIcon();
      }
      data := data.(selected := None);
      if |args| == 0 {
        return;
      }
      var chosen := if |args| > 2 then args[2] else None;
      data := data.(selected := chosen);
      data := MergeIntoSettings(data, KeyOf(chosen), "$selected", Bool(true));
      AddTrashIcon();
    }

    /**
     * `system_tool(type)`: `Remove` with a tool selected deletes it, removes
     * the remove button, leaves drawing mode and unlocks scrolling; anything
     * else changes nothing.
     */
    method SystemTool(kind: Option<string>)
      modifies this
      ensures kind == Some("Remove") && IsSelected(old(data.selected)) ==> data == RemoveSelected(old(data), old(data.selected).value)
      ensures !(kind == Some("Remove") && IsSelected(old(data.selected))) ==> data == old(data)
      ensures AtMostOneTrashIcon(old(data.tools)) ==> AtMostOneTrashIcon(data.tools)
      ensures uploading == old(uploading) && outbox == old(outbox)
    {
      if kind == Some("Remove") && IsSelected(data.selected) {
        var q := data.selected.value;
        data := data.(onchart := Delete(data.onchart, q), offchart := Delete(data.offchart, q));
        RemoveTrashIcon();
        DrawingModeOff();
        OnScrollLock(false);
      }
    }

    /**
     * The `tool-selected` custom event: no tool changes nothing; a
     * `System:<name>` tool runs the system tool `<name>`; any other becomes
     * the current tool, and choosing the cursor also leaves drawing mode.
     */
    method ToolSelected(args: seq<Option<string>>)
      modifies this
      ensures var chosen := if |args| > 0 then args[0] else None;
        && (!IsSelected(chosen) ==> data == old(data))
        && (IsSelected(chosen) && Split(chosen.value)[0] == "System" ==>
              var parts := Split(chosen.value);
              data == if |parts| > 1 && parts[1] == "Remove" && IsSelected(old(data.selected))
                then RemoveSelected(old(data), old(data.selected).value) else old(data))
        && (IsSelected(chosen) && Split(chosen.value)[0] != "System" ==>
              data == old(data).(tool := chosen.value, drawingMode := chosen.value != "Cursor" && old(data.drawingMode)))
      ensures AtMostOneTrashIcon(old(data.tools)) ==> AtMostOneTrashIcon(data.tools)
      ensures uploading == old(uploading) && outbox == old(outbox)
    {
      var chosen := if |args| > 0 then args[0] else None;
      if !IsSelected(chosen) {
        return;
      }
      var parts := Split(chosen.value);
      if parts[0] == "System" {
        SystemTool(if |parts| > 1 then Some(parts[1]) else None);
        return;
      }
      data := data.(tool := chosen.value);
      if chosen.value == "Cursor" {
        DrawingModeOff();
      }
    }

    /**
     * `before_destroy()`: only finished or stateless overlays stay, in
     * order; drawing mode goes off, scrolling is unlocked and the selection
     * cleared.
     */
    method BeforeDestroy()
      modifies this
      ensures forall k :: 0 <= k < |data.onchart| ==> Finished(data.onchart[k])
      ensures forall k :: 0 <= k < |data.offchart| ==> Finished(data.offchart[k])
      ensures !data.drawingMode && data.tool == "Cursor" && !data.scrollLock && data.selected.None?
      ensures var kept := old(data).(onchart := Filter(old(data.onchart), Finished), offchart := Filter(old(data.offchart), Finished),
          drawingMode := false, tool := "Cursor", scrollLock := false);
        data == (if IsSelected(old(data.selected))
          then MergeIntoSettings(kept, old(data.selected).value, "$selected", Bool(false)).(tools := WithoutTrashIcon(old(data.tools)))
          else kept).(selected := None)
      ensures AtMostOneTrashIcon(old(data.tools)) ==> AtMostOneTrashIcon(data.tools)
      ensures uploading == old(uploading) && outbox == old(outbox)
    {
      data := data.(onchart := Filter(data.onchart, Finished), offchart := Filter(data.offchart, Finished));
      DrawingModeOff();
      OnScrollLock(false);
      ObjectSelected([]);
    }

    /**
     * `init_toolbar_tools(tools)`: the given tools are added under new
     * types, the line tools by hand when no segment tool is listed, and the
     * cursor becomes the current tool when there is none.
     */
    method InitToolbarTools(tools: seq<Entry>)
      modifies this
      ensures data == old(data).(tools := InitializedTools(icons, old(data.tools), tools),
        tool := if old(data.tool) == "" then "Cursor" else old(data.tool))
      ensures AtMostOneTrashIcon(old(data.tools)) ==> AtMostOneTrashIcon(data.tools)
      ensures uploading == old(uploading) && outbox == old(outbox)
    {
      var list := data.tools;
      for k := 0 to |tools|
        invariant list == AddMissing(old(data.tools), tools[..k])
      {
        assert tools[..k + 1][..k] == tools[..k];
        if !Listed(list, tools[k].toolType) {
          list := Push(list, tools[k]);
        }
      }
      assert tools[..|tools|] == tools;
      if !HasLineTool(list) {
        list := list + IfIconExists(icons, SegmentLine) + IfIconExists(icons, ExtendedLine) + IfIconExists(icons, RayLine);
      }
      if AtMostOneTrashIcon(old(data.tools)) {
        InitializedToolsKeepTrash(icons, old(data.tools), tools);
      }
      data := data.(tools := list);
      if data.tool == "" {
        data := data.(tool := "Cursor");
      }
    }

    /**
     * `register_tools(tools)`: the list is rebuilt from the cursor, the basic
     * line tools and every registered tool and mod, merged with the presets
     * the old list held, and the cursor becomes the current tool. A preset
     * with settings for a prototype without any throws, leaving the list
     * empty.
     */
    method RegisterTools(tools: seq<ComponentTool>) returns (completed: bool)
      modifies this
      ensures completed <==> Registered(icons, old(data.tools), tools).Success?
      ensures completed ==> data == old(data).(tools := Registered(icons, old(data.tools), tools).value, tool := "Cursor")
      ensures !completed ==> data == old(data).(tools := [])
      ensures AtMostOneTrashIcon(data.tools)
      ensures uploading == old(uploading) && outbox == old(outbox)
    {
      var current := data.tools;
      var presets := CollectPresets(current);
      data := data.(tools := []);
      var registered := RegisterEach(RegistrationStart(icons), presets, tools);
      if registered.Failure? {
        return false;
      }
      RegisteredToolbar(icons, current, tools);
      data := data.(tools := registered.value, tool := "Cursor");
      completed := true;
    }

    /**
     * `build_tool(grid_id, type)`: the requested type, or the current tool,
     * normalised, is placed from its prototype as a new overlay (on the main
     * chart for grid 0, in its pane otherwise), selected by its `$uuid`, in
     * drawing mode, with the remove button listed; a line type nobody
     * registered gets a prototype made by hand and added to the toolbar.
     * Without a type, or for an unknown one, nothing changes. `id` is the id
     * the DataCube gives the new overlay, `stamp` the time it is placed at.
     */
    method BuildTool(gridId: nat, requested: string, id: string, stamp: string) returns (added: Option<string>)
      modifies this
      ensures var t0 := if requested != "" then requested else old(data.tool);
        var resolved := ResolvePrototype(old(data.tools), Normalised(t0));
        && (t0 == "" || resolved.None? ==> added.None? && data == old(data))
        && (t0 != "" && resolved.Some? ==>
              var t := Normalised(t0);
              var proto := resolved.value.0;
              var tools := if resolved.value.1 then old(data.tools) + [proto] else old(data.tools);
              var o := NewToolOverlay(proto, t, gridId, id, stamp);
              && added == Some(id)
              && data == old(data).(
                   tools := WithTrashIcon(icons, tools),
                   onchart := if gridId == 0 then old(data.onchart) + [o] else old(data.onchart),
                   offchart := if gridId != 0 then old(data.offchart) + [o] else old(data.offchart),
                   selected := Some(Uuid(id, stamp)),
                   drawingMode := true))
      ensures AtMostOneTrashIcon(old(data.tools)) ==> AtMostOneTrashIcon(data.tools)
      ensures uploading == old(uploading) && outbox == old(outbox)
    {
      var t := if requested != "" then requested else data.tool;
      if t == "" {
        return None;
      }
      t := Normalised(t);
      var resolved := ResolvePrototype(data.tools, t);
      if resolved.None? {
        return None;
      }
      PlaceTool(resolved.value.0, resolved.value.1, t, gridId, id, stamp);
      added := Some(id);
    }

    /**
     * The second half of `build_tool`, once the prototype is known: a
     * prototype made by hand joins the toolbar, the new overlay is added and
     * selected, drawing mode is on and the remove button is listed.
     */
    method PlaceTool(proto: Entry, made: bool, t: string, gridId: nat, id: string, stamp: string)
      modifies this
      ensures var o := NewToolOverlay(proto, t, gridId, id, stamp);
        data == old(data).(
          tools := WithTrashIcon(icons, if made then old(data.tools) + [proto] else old(data.tools)),
          onchart := if gridId == 0 then old(data.onchart) + [o] else old(data.onchart),
          offchart := if gridId != 0 then old(data.offchart) + [o] else old(data.offchart),
          selected := Some(Uuid(id, stamp)),
          drawingMode := true)
      ensures (made ==> NotTrash(proto)) && AtMostOneTrashIcon(old(data.tools)) ==> AtMostOneTrashIcon(data.tools)
      ensures uploading == old(uploading) && outbox == old(outbox)
    {
      if made {
        data := data.(tools := Push(data.tools, proto));
      }
      var o := NewToolOverlay(proto, t, gridId, id, stamp);
      if gridId != 0 {
        data := data.(offchart := data.offchart + [o]);
      } else {
        data := data.(onchart := data.onchart + [o]);
      }
      data := data.(selected := Some(Uuid(id, stamp)), drawingMode := true);
      AddTrashIcon();
    }
  }
}
