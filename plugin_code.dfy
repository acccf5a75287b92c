/**
 * The importer plugin's main thread (figma-plugin/pixelport-importer/code.js):
 * the bundle payload posted by the panel is checked and placed on the
 * current page as a frame holding one image rectangle per tile. The Figma
 * nodes are objects updated in place: `Frame` and `Page` below. An image
 * fill is the bytes it was created from.
 */
module PluginCode {
  import opened Wrappers
  import opened Text
  import opened Js
  import PluginUi

  const ManifestMissing := "Manifest data is missing."
  const FrameSizeInvalid := "Manifest frame size is invalid."
  const NoTileEntries := "No tile entries were found in the manifest."
  const MissingTilePrefix := "Missing tile file: "
  const DefaultFrameName := "PixelPort Capture"

  /**
   * An element of `payload.files`: a falsy element, or one with a `file`
   * value and its bytes, None when `bytes` is falsy or absent.
   */
  datatype PayloadItem = Falsy | Item(file: Value, bytes: Option<seq<bv8>>)

  /** An item `buildTileMap` keeps: truthy, with a string file and bytes. */
  predicate Usable(item: PayloadItem) {
    item.Item? && item.file.Str? && item.bytes.Some?
  }

  /** The map `buildTileMap` builds: each usable item sets its file, so a later one wins. */
  function TileMap(items: seq<PayloadItem>): map<string, seq<bv8>>
    decreases |items|
  {
    if items == [] then map[]
    else
      var last := items[|items| - 1];
      var init := TileMap(items[..|items| - 1]);
      if Usable(last) then init[last.file.s := last.bytes.value] else init
  }

  /**
   * A file is in the map exactly when a usable item names it, and maps to
   * the bytes of the last such item.
   */
  lemma {:induction false} TileMapLookup(items: seq<PayloadItem>, file: string)
    ensures file in TileMap(items) <==> exists i :: 0 <= i < |items| && Usable(items[i]) && items[i].file.s == file
    ensures forall i :: 0 <= i < |items| && Usable(items[i]) && items[i].file.s == file
                        && (forall j :: i < j < |items| && Usable(items[j]) ==> items[j].file.s != file)
                        ==> TileMap(items)[file] == items[i].bytes.value
    decreases |items|
  {
    if items != [] {
      var init := items[..|items| - 1];
      TileMapLookup(init, file);
      assert forall i :: 0 <= i < |init| ==> init[i] == items[i];
    }
  }

  /** `buildTileMap`: the for-of loop with its `continue` and `map.set`. */
  method BuildTileMap(items: seq<PayloadItem>) returns (m: map<string, seq<bv8>>)
    ensures m == TileMap(items)
  {
    m := map[];
    var i := 0;
    while i < |items|
      invariant 0 <= i <= |items|
      invariant m == TileMap(items[..i])
    {
      assert items[..i + 1][..i] == items[..i];
      var item := items[i];
      i := i + 1;
      if !Usable(item) {
        continue;
      }
      m := m[item.file.s := item.bytes.value];
    }
    assert items[..i] == items;
  }

  /**
   * Why an import stops: an error raised with its message, or the TypeError
   * of reading `file` from a tile entry that is null or undefined.
   */
  datatype Failure = Error(message: string) | TypeError

  /** An image rectangle: its name, position and size as the tile entry gives them, and its fill. */
  datatype Rect = Rect(name: string, x: Value, y: Value, width: Value, height: Value, image: seq<bv8>)

  /** `manifest.frame` is truthy and its width and height are finite numbers. */
  predicate FrameSized(frame: Value) {
    Truthy(frame) && Prop(frame, "width").Num? && Prop(frame, "height").Num?
  }

  /** The three manifest checks, in the order they are made. */
  function ManifestError(manifest: Value): (r: Option<string>)
    ensures r == None || r == Some(ManifestMissing) || r == Some(FrameSizeInvalid) || r == Some(NoTileEntries)
    ensures !IsObject(manifest) ==> r == Some(ManifestMissing)
    ensures IsObject(manifest) && !FrameSized(Prop(manifest, "frame")) ==> r == Some(FrameSizeInvalid)
    ensures IsObject(manifest) && FrameSized(Prop(manifest, "frame")) ==>
              (r == Some(NoTileEntries) <==> PluginUi.RequiredTiles(manifest) == [])
              && (r.None? <==> PluginUi.RequiredTiles(manifest) != [])
  {
    var frame := Prop(manifest, "frame");
    if !IsObject(manifest) then Some(ManifestMissing)
    else if !FrameSized(frame) then Some(FrameSizeInvalid)
    else if |PluginUi.RequiredTiles(manifest)| == 0 then Some(NoTileEntries)
    else None
  }

  /** `manifest.frame.name || 'PixelPort Capture'`. */
  function FrameName(manifest: Value): Value {
    var name := Prop(Prop(manifest, "frame"), "name");
    if Truthy(name) then name else Str(DefaultFrameName)
  }

  /** One pass of the tile loop: the entry's rectangle, or why the import stops there. */
  function PlaceTile(tile: Value, tileMap: map<string, seq<bv8>>): Result<Rect, Failure> {
    if tile.Undefined? || tile.Null? then Err(TypeError)
    else
      var fileName := Prop(tile, "file");
      if !fileName.Str? || fileName.s !in tileMap then Err(Error(MissingTilePrefix + ToStr(fileName)))
      else
        var name := "Tile " + ToStr(Prop(tile, "row")) + "-" + ToStr(Prop(tile, "col"));
        Ok(Rect(name, Prop(tile, "x"), Prop(tile, "y"), Prop(tile, "width"), Prop(tile, "height"), tileMap[fileName.s]))
  }

  /** The tile loop as a value: every entry's rectangle in order, or the first entry's failure. */
  function PlaceTiles(tiles: seq<Value>, tileMap: map<string, seq<bv8>>): Result<seq<Rect>, Failure>
    decreases |tiles|
  {
    if tiles == [] then Ok([])
    else match PlaceTile(tiles[0], tileMap)
      case Err(e) => Err(e)
      case Ok(rect) => PluginUi.Prefixed([rect], PlaceTiles(tiles[1..], tileMap))
  }

  /**
   * The loop succeeds exactly when every entry places, giving one rectangle
   * per entry in manifest order; otherwise it stops at the first entry that
   * does not.
   */
  lemma {:induction false} PlaceTilesSpec(tiles: seq<Value>, tileMap: map<string, seq<bv8>>)
    ensures PlaceTiles(tiles, tileMap).Ok? <==> forall i :: 0 <= i < |tiles| ==> PlaceTile(tiles[i], tileMap).Ok?
    ensures PlaceTiles(tiles, tileMap).Ok? ==>
              |PlaceTiles(tiles, tileMap).value| == |tiles|
              && forall i :: 0 <= i < |tiles| ==> PlaceTiles(tiles, tileMap).value[i] == PlaceTile(tiles[i], tileMap).value
    ensures PlaceTiles(tiles, tileMap).Err? ==>
              exists k :: 0 <= k < |tiles| && PlaceTile(tiles[k], tileMap).Err?
                          && (forall j :: 0 <= j < k ==> PlaceTile(tiles[j], tileMap).Ok?)
                          && PlaceTiles(tiles, tileMap).error == PlaceTile(tiles[k], tileMap).error
    decreases |tiles|
  {
    if tiles != [] {
      var rest := tiles[1..];
      PlaceTilesSpec(rest, tileMap);
      assert forall i :: 0 < i < |tiles| ==> tiles[i] == rest[i - 1];
      if PlaceTile(tiles[0], tileMap).Ok? && PlaceTiles(rest, tileMap).Err? {
        var k :| 0 <= k < |rest| && PlaceTile(rest[k], tileMap).Err?
                 && (forall j :: 0 <= j < k ==> PlaceTile(rest[j], tileMap).Ok?)
                 && PlaceTiles(rest, tileMap).error == PlaceTile(rest[k], tileMap).error;
        assert tiles[k + 1] == rest[k];
      }
    }
  }

  /** The frame `importBundle` leaves on the page. */
  datatype Plan = Plan(name: Value, width: int, height: int, rects: seq<Rect>)

  /** `importBundle` as a value: the checks, then the frame with its rectangles. */
  function ImportPlan(manifest: Value, files: seq<PayloadItem>): Result<Plan, Failure> {
    match ManifestError(manifest)
    case Some(message) => Err(Error(message))
    case None =>
      var frame := Prop(manifest, "frame");
      match PlaceTiles(PluginUi.RequiredTiles(manifest), TileMap(files))
      case Err(e) => Err(e)
      case Ok(rects) => Ok(Plan(FrameName(manifest), Prop(frame, "width").n, Prop(frame, "height").n, rects))
  }

  /**
   * The checks come first and in order; an imported frame is named after
   * the manifest's frame, or 'PixelPort Capture' when that name is falsy,
   * has the frame's size, and holds one rectangle per tile entry in order.
   */
  lemma ImportPlanSpec(manifest: Value, files: seq<PayloadItem>)
    ensures !IsObject(manifest) ==> ImportPlan(manifest, files) == Err(Error(ManifestMissing))
    ensures IsObject(manifest) && !Truthy(Prop(manifest, "frame"))
            ==> ImportPlan(manifest, files) == Err(Error(FrameSizeInvalid))
    ensures IsObject(manifest) && Truthy(Prop(manifest, "frame"))
            && (!Prop(Prop(manifest, "frame"), "width").Num? || !Prop(Prop(manifest, "frame"), "height").Num?)
            ==> ImportPlan(manifest, files) == Err(Error(FrameSizeInvalid))
    ensures IsObject(manifest) && Truthy(Prop(manifest, "frame")) && Prop(Prop(manifest, "frame"), "width").Num?
            && Prop(Prop(manifest, "frame"), "height").Num? && PluginUi.RequiredTiles(manifest) == []
            ==> ImportPlan(manifest, files) == Err(Error(NoTileEntries))
    ensures ImportPlan(manifest, files).Ok? ==>
              var plan := ImportPlan(manifest, files).value;
              var frame := Prop(manifest, "frame");
              var tiles := PluginUi.RequiredTiles(manifest);
              ManifestError(manifest).None?
              && (Truthy(Prop(frame, "name")) ==> plan.name == Prop(frame, "name"))
              && (!Truthy(Prop(frame, "name")) ==> plan.name == Str(DefaultFrameName))
              && Prop(frame, "width") == Num(plan.width) && Prop(frame, "height") == Num(plan.height)
              && |plan.rects| == |tiles|
              && forall i :: 0 <= i < |tiles| ==> PlaceTile(tiles[i], TileMap(files)) == Ok(plan.rects[i])
  {
    if ManifestError(manifest).None? {
      PlaceTilesSpec(PluginUi.RequiredTiles(manifest), TileMap(files));
    }
  }

  /** A placed tile is the rectangle of its entry, filled with the bytes posted under its file name. */
  lemma PlaceTileSpec(tile: Value, tileMap: map<string, seq<bv8>>)
    ensures PlaceTile(tile, tileMap).Ok? <==> Prop(tile, "file").Str? && Prop(tile, "file").s in tileMap
    ensures PlaceTile(tile, tileMap).Ok? ==>
              var rect := PlaceTile(tile, tileMap).value;
              rect.image == tileMap[Prop(tile, "file").s]
              && rect.x == Prop(tile, "x") && rect.y == Prop(tile, "y")
              && rect.width == Prop(tile, "width") && rect.height == Prop(tile, "height")
              && rect.name == "Tile " + ToStr(Prop(tile, "row")) + "-" + ToStr(Prop(tile, "col"))
    ensures tile.Undefined? || tile.Null? ==> PlaceTile(tile, tileMap) == Err(TypeError)
  {
  }

  /** The files the panel posts: each tile file under its name, with its bytes. */
  function Posted(files: seq<PluginUi.TileFile>): (r: seq<PayloadItem>)
    ensures |r| == |files|
    ensures forall i :: 0 <= i < |r| ==> Usable(r[i]) && r[i].file.s == files[i].file && r[i].bytes.value == files[i].bytes
  {
    seq(|files|, i requires 0 <= i < |files| => Item(Str(files[i].file), Some(files[i].bytes)))
  }

  /**
   * What the panel reads is what the plugin places: when every tile entry
   * of the manifest names a file and the frame size is valid, a selection
   * the panel resolved imports as one rectangle per entry, each filled with
   * the bytes of the selected file at the entry's path.
   */
  lemma SelectionImports(files: seq<PluginUi.SelectedFile>, parseJson: seq<bv8> -> Result<Value, string>)
    requires PluginUi.BundleSelection(files, parseJson).Ok?
    requires var manifest := PluginUi.BundleSelection(files, parseJson).value.manifest;
             var frame := Prop(manifest, "frame");
             Truthy(frame) && Prop(frame, "width").Num? && Prop(frame, "height").Num?
             && forall i :: 0 <= i < |PluginUi.RequiredTiles(manifest)| ==> PluginUi.IsTileRef(PluginUi.RequiredTiles(manifest)[i])
    ensures var selection := PluginUi.BundleSelection(files, parseJson).value;
            var tiles := PluginUi.RequiredTiles(selection.manifest);
            var paths := PluginUi.PathMap(PluginUi.Entries(files));
            var names := PluginUi.TileNames(tiles);
            var plan := ImportPlan(selection.manifest, Posted(selection.files));
            plan.Ok? && |plan.value.rects| == |tiles| && |names| == |tiles|
            && forall i :: 0 <= i < |tiles| ==>
                 Prop(tiles[i], "file") == Str(names[i]) && names[i] in paths
                 && plan.value.rects[i].image == paths[names[i]].content
  {
    var selection := PluginUi.BundleSelection(files, parseJson).value;
    var manifest := selection.manifest;
    var tiles := PluginUi.RequiredTiles(manifest);
    var entries := PluginUi.Entries(files);
    var paths := PluginUi.PathMap(entries);
    PluginUi.BundleSelectionSpec(files, parseJson);
    var names := PluginUi.TileNames(tiles);
    TileNamesAll(tiles);
    assert selection.files == PluginUi.FilesOf(names, paths);
    var posted := Posted(selection.files);
    var tileMap := TileMap(posted);
    forall i | 0 <= i < |tiles|
      ensures PlaceTile(tiles[i], tileMap).Ok?
      ensures PlaceTile(tiles[i], tileMap).value.image == paths[names[i]].content
    {
      PostedLookup(names, paths, i);
    }
    PlaceTilesSpec(tiles, tileMap);
  }

  /** When every entry names a file, the names are the entries' files, one per entry. */
  lemma {:induction false} TileNamesAll(tiles: seq<Value>)
    requires forall i :: 0 <= i < |tiles| ==> PluginUi.IsTileRef(tiles[i])
    ensures |PluginUi.TileNames(tiles)| == |tiles|
    ensures forall i :: 0 <= i < |tiles| ==> Prop(tiles[i], "file") == Str(PluginUi.TileNames(tiles)[i])
    decreases |tiles|
  {
    if tiles != [] {
      TileNamesAll(tiles[1..]);
      assert forall i :: 0 < i < |tiles| ==> tiles[i] == tiles[1..][i - 1];
    }
  }

  /** Posting the files of a selection maps each name to the bytes of its selected file. */
  lemma PostedLookup(names: seq<string>, paths: map<string, PluginUi.SelectedFile>, i: nat)
    requires forall k :: 0 <= k < |names| ==> names[k] in paths
    requires i < |names|
    ensures names[i] in TileMap(Posted(PluginUi.FilesOf(names, paths)))
    ensures TileMap(Posted(PluginUi.FilesOf(names, paths)))[names[i]] == paths[names[i]].content
  {
    var items := Posted(PluginUi.FilesOf(names, paths));
    assert Usable(items[i]) && items[i].file.s == names[i];
    TileMapConsistent(items, names[i], paths[names[i]].content);
  }

  /** A file that every usable item naming it gives the same bytes maps to those bytes. */
  lemma {:induction false} TileMapConsistent(items: seq<PayloadItem>, file: string, bytes: seq<bv8>)
    requires exists i :: 0 <= i < |items| && Usable(items[i]) && items[i].file.s == file
    requires forall i :: 0 <= i < |items| && Usable(items[i]) && items[i].file.s == file ==> items[i].bytes.value == bytes
    ensures file in TileMap(items) && TileMap(items)[file] == bytes
    decreases |items|
  {
    var last := items[|items| - 1];
    var init := items[..|items| - 1];
    if !(Usable(last) && last.file.s == file) {
      var i :| 0 <= i < |items| && Usable(items[i]) && items[i].file.s == file;
      assert init[i] == items[i];
      assert forall j :: 0 <= j < |init| ==> init[j] == items[j];
      TileMapConsistent(init, file, bytes);
    }
  }

  /** A Figma frame node, updated in place as the import fills it. */
  class Frame {
    var name: Value
    var width: int
    var height: int
    var clipsContent: bool
    var children: seq<Rect>

    /** `figma.createFrame()`: an empty frame. */
    constructor ()
      ensures children == []
    {
      name := Str("");
      width := 0;
      height := 0;
      clipsContent := false;
      children := [];
    }

    /** `frame.resizeWithoutConstraints(width, height)`. */
    method Resize(w: int, h: int)
      modifies this
      ensures width == w && height == h
      ensures name == old(name) && clipsContent == old(clipsContent) && children == old(children)
    {
      width := w;
      height := h;
    }

    /** `frame.appendChild(rect)`. */
    method AppendChild(rect: Rect)
      modifies this
      ensures children == old(children) + [rect]
      ensures name == old(name) && width == old(width) && height == old(height) && clipsContent == old(clipsContent)
    {
      children := children + [rect];
    }
  }

  /** The current page: its top-level frames and the selection. */
  class Page {
    var children: seq<Frame>
    var selection: seq<Frame>

    constructor ()
      ensures children == [] && selection == []
    {
      children := [];
      selection := [];
    }

    /** `appendChild(frame)` followed by `selection = [frame]`. */
    method AddAndSelect(frame: Frame)
      modifies this
      ensures children == old(children) + [frame]
      ensures selection == [frame]
    {
      children := children + [frame];
      selection := [frame];
    }
  }

  /**
   * The tile loop of `importBundle`: each entry's rectangle is appended to
   * the frame until an entry fails.
   */
  method AppendTiles(frame: Frame, tiles: seq<Value>, tileMap: map<string, seq<bv8>>) returns (failure: Option<Failure>)
    modifies frame
    ensures PlaceTiles(tiles, tileMap).Err? <==> failure.Some?
    ensures failure.Some? ==> failure.value == PlaceTiles(tiles, tileMap).error
    ensures PlaceTiles(tiles, tileMap).Ok? ==> frame.children == old(frame.children) + PlaceTiles(tiles, tileMap).value
    ensures frame.name == old(frame.name) && frame.width == old(frame.width) && frame.height == old(frame.height)
    ensures frame.clipsContent == old(frame.clipsContent)
  {
    var k := 0;
    ghost var added: seq<Rect> := [];
    assert tiles[k..] == tiles;
    PluginUi.PrefixedEmpty(PlaceTiles(tiles, tileMap));
    while k < |tiles|
      invariant 0 <= k <= |tiles|
      invariant frame.children == old(frame.children) + added
      invariant PlaceTiles(tiles, tileMap) == PluginUi.Prefixed(added, PlaceTiles(tiles[k..], tileMap))
      invariant frame.name == old(frame.name) && frame.width == old(frame.width) && frame.height == old(frame.height)
      invariant frame.clipsContent == old(frame.clipsContent)
    {
      assert tiles[k..][1..] == tiles[k + 1..];
      var placed := PlaceTile(tiles[k], tileMap);
      if placed.Err? {
        return Some(placed.error);
      }
      PluginUi.PrefixedCons(added, placed.value, PlaceTiles(tiles[k + 1..], tileMap));
      frame.AppendChild(placed.value);
      added := added + [placed.value];
      k := k + 1;
    }
    assert tiles[k..] == [];
    assert added + [] == added;
    return None;
  }

  /**
   * `importBundle`: on a failed check nothing is created; after the checks a
   * frame is created, and only a frame whose every tile placed is added to
   * the page and selected. On success the frame is the plan.
   */
  method ImportBundle(page: Page, manifest: Value, files: seq<PayloadItem>) returns (r: Result<Frame, Failure>)
    modifies page
    ensures ImportPlan(manifest, files).Err? <==> r.Err?
    ensures r.Err? ==> r.error == ImportPlan(manifest, files).error
                       && page.children == old(page.children) && page.selection == old(page.selection)
    ensures r.Ok? ==> fresh(r.value)
                      && var plan := ImportPlan(manifest, files).value;
                      r.value.name == plan.name && r.value.width == plan.width && r.value.height == plan.height
                      && r.value.clipsContent && r.value.children == plan.rects
                      && page.children == old(page.children) + [r.value] && page.selection == [r.value]
  {
    var error := ManifestError(manifest);
    if error.Some? {
      return Err(Error(error.value));
    }
    var tileDefs := PluginUi.RequiredTiles(manifest);
    var fileMap := BuildTileMap(files);
    var frame := new Frame();
    frame.name := FrameName(manifest);
    frame.Resize(Prop(Prop(manifest, "frame"), "width").n, Prop(Prop(manifest, "frame"), "height").n);
    frame.clipsContent := true;
    var failure := AppendTiles(frame, tileDefs, fileMap);
    if failure.Some? {
      return Err(failure.value);
    }
    page.AddAndSelect(frame);
    return Ok(frame);
  }
}
