/**
 * The importer plugin's panel (figma-plugin/pixelport-importer/ui.js): the
 * files of a selected bundle folder are read into the manifest and the tile
 * files it lists. A selected file carries its bytes; decoding and
 * `JSON.parse` of the manifest file are the parameter `parseJson`, which
 * gives the parsed value or the message of the error it throws.
 */
module PluginUi {
  import opened Wrappers
  import opened Text
  import opened Js

  const ManifestName := "manifest.json"
  const ManifestMissing := "manifest.json was not found in the selected folder."
  const NoTileEntries := "Manifest has no tile entries."
  const MissingTilePrefix := "Missing tile file: "

  /** A file of the folder selection. */
  datatype SelectedFile = SelectedFile(webkitRelativePath: string, name: string, content: seq<bv8>)

  /** `file.webkitRelativePath || file.name`. */
  function RootPath(file: SelectedFile): string {
    if file.webkitRelativePath != "" then file.webkitRelativePath else file.name
  }

  /**
   * `normalizeRelativePath`: the path with its first '/'-separated segment,
   * the selected folder, dropped.
   */
  function NormalizeRelativePath(file: SelectedFile): (r: string)
    ensures '/' !in RootPath(file) ==> r == ""
  {
    Join(Split(RootPath(file), '/')[1..], '/')
  }

  /** A path below the selected folder comes back without the folder's name. */
  lemma NormalizeDropsFolder(file: SelectedFile, folder: string, rest: string)
    requires RootPath(file) == folder + "/" + rest
    requires '/' !in folder
    ensures NormalizeRelativePath(file) == rest
  {
    IndexOfSeparator(folder, rest, '/');
    var path := RootPath(file);
    assert path[..|folder|] == folder;
    assert path[|folder| + 1..] == rest;
    assert Split(path, '/')[1..] == Split(rest, '/');
    JoinSplit(rest, '/');
  }

  /** A selected file with its path relative to the selected folder. */
  datatype Entry = Entry(file: SelectedFile, relativePath: string)

  /** `all.map(...)`: every file with its relative path, in order. */
  function Entries(files: seq<SelectedFile>): (r: seq<Entry>)
    ensures |r| == |files|
    ensures forall i :: 0 <= i < |r| ==> r[i] == Entry(files[i], NormalizeRelativePath(files[i]))
  {
    seq(|files|, i requires 0 <= i < |files| => Entry(files[i], NormalizeRelativePath(files[i])))
  }

  /** `normalized.find(...)` for the manifest: the first entry at 'manifest.json'. */
  function FindManifest(entries: seq<Entry>): (r: Option<nat>)
    ensures r.None? <==> forall i :: 0 <= i < |entries| ==> entries[i].relativePath != ManifestName
    ensures r.Some? ==> r.value < |entries| && entries[r.value].relativePath == ManifestName
                        && forall j :: 0 <= j < r.value ==> entries[j].relativePath != ManifestName
    decreases |entries|
  {
    if entries == [] then None
    else if entries[0].relativePath == ManifestName then Some(0)
    else
      var rest := FindManifest(entries[1..]);
      assert forall j :: 0 < j < |entries| ==> entries[1..][j - 1] == entries[j];
      if rest.None? then None else Some(rest.value + 1)
  }

  /** The map the `forEach` fills: each entry sets its path, so a later entry wins. */
  function PathMap(entries: seq<Entry>): map<string, SelectedFile>
    decreases |entries|
  {
    if entries == [] then map[]
    else PathMap(entries[..|entries| - 1])[entries[|entries| - 1].relativePath := entries[|entries| - 1].file]
  }

  /**
   * A path is in the map exactly when some entry has it, and it maps to the
   * file of the last such entry.
   */
  lemma {:induction false} PathMapLookup(entries: seq<Entry>, path: string)
    ensures path in PathMap(entries) <==> exists i :: 0 <= i < |entries| && entries[i].relativePath == path
    ensures forall i :: 0 <= i < |entries| && entries[i].relativePath == path
                        && (forall j :: i < j < |entries| ==> entries[j].relativePath != path)
                        ==> PathMap(entries)[path] == entries[i].file
    decreases |entries|
  {
    if entries != [] {
      var init := entries[..|entries| - 1];
      PathMapLookup(init, path);
      assert forall i :: 0 <= i < |init| ==> init[i] == entries[i];
    }
  }

  /** `manifest.tiles.files` when the manifest has such an array, else none. */
  function RequiredTiles(manifest: Value): seq<Value> {
    var tiles := Prop(manifest, "tiles");
    if Truthy(manifest) && Truthy(tiles) && Prop(tiles, "files").Arr? then Prop(tiles, "files").items else []
  }

  /** A tile entry that is read: truthy, with a string `file`. */
  predicate IsTileRef(tile: Value) {
    Truthy(tile) && Prop(tile, "file").Str?
  }

  /** The `file` names of the tile entries that are read, in manifest order. */
  function TileNames(tiles: seq<Value>): (r: seq<string>)
    ensures |r| <= |tiles|
    decreases |tiles|
  {
    if tiles == [] then []
    else if IsTileRef(tiles[0]) then [Prop(tiles[0], "file").s] + TileNames(tiles[1..])
    else TileNames(tiles[1..])
  }

  /** A tile file as posted to the plugin: its manifest name and its bytes. */
  datatype TileFile = TileFile(file: string, bytes: seq<bv8>)

  /** What `readBundleSelection` resolves with. */
  datatype Selection = Selection(manifest: Value, files: seq<TileFile>)

  /** The tile files of the named tiles, in order. */
  function FilesOf(names: seq<string>, files: map<string, SelectedFile>): (r: seq<TileFile>)
    requires forall i :: 0 <= i < |names| ==> names[i] in files
    ensures |r| == |names|
    ensures forall i :: 0 <= i < |r| ==> r[i] == TileFile(names[i], files[names[i]].content)
  {
    seq(|names|, i requires 0 <= i < |names| => TileFile(names[i], files[names[i]].content))
  }

  /**
   * The `for...of` over the tile entries: entries that are not read are
   * skipped, and the first one whose file is absent raises its message.
   */
  function CollectTiles(tiles: seq<Value>, files: map<string, SelectedFile>): Result<seq<TileFile>, string>
    decreases |tiles|
  {
    if tiles == [] then Ok([])
    else if !IsTileRef(tiles[0]) then CollectTiles(tiles[1..], files)
    else
      var name := Prop(tiles[0], "file").s;
      if name !in files then Err(MissingTilePrefix + name)
      else match CollectTiles(tiles[1..], files)
        case Ok(rest) => Ok([TileFile(name, files[name].content)] + rest)
        case Err(e) => Err(e)
  }

  /**
   * The loop succeeds exactly when every named tile is present, and then
   * yields one file per named tile in manifest order; otherwise it fails on
   * the first absent name.
   */
  lemma {:induction false} CollectTilesSpec(tiles: seq<Value>, files: map<string, SelectedFile>)
    ensures var names := TileNames(tiles);
            CollectTiles(tiles, files).Ok? <==> forall i :: 0 <= i < |names| ==> names[i] in files
    ensures var names := TileNames(tiles);
            CollectTiles(tiles, files).Ok? ==> CollectTiles(tiles, files).value == FilesOf(names, files)
    ensures var names := TileNames(tiles);
            CollectTiles(tiles, files).Err? ==>
              exists k :: 0 <= k < |names| && names[k] !in files
                          && (forall j :: 0 <= j < k ==> names[j] in files)
                          && CollectTiles(tiles, files).error == MissingTilePrefix + names[k]
    decreases |tiles|
  {
    if tiles != [] {
      CollectTilesSpec(tiles[1..], files);
      var rest := TileNames(tiles[1..]);
      if IsTileRef(tiles[0]) {
        var name := Prop(tiles[0], "file").s;
        assert TileNames(tiles) == [name] + rest;
        assert forall i :: 0 < i < |rest| + 1 ==> ([name] + rest)[i] == rest[i - 1];
        var r := CollectTiles(tiles, files);
        if r.Err? && name in files {
          var k :| 0 <= k < |rest| && rest[k] !in files
                   && (forall j :: 0 <= j < k ==> rest[j] in files)
                   && CollectTiles(tiles[1..], files).error == MissingTilePrefix + rest[k];
          assert ([name] + rest)[k + 1] == rest[k];
        }
        if r.Err? && name !in files {
          assert ([name] + rest)[0] == name;
        }
      }
    }
  }

  /**
   * `readBundleSelection` as a value: the manifest is found and parsed, its
   * tile list must not be empty, and every tile it names must be selected.
   */
  function BundleSelection(files: seq<SelectedFile>, parseJson: seq<bv8> -> Result<Value, string>)
    : Result<Selection, string>
  {
    var entries := Entries(files);
    match FindManifest(entries)
    case None => Err(ManifestMissing)
    case Some(i) =>
      match parseJson(entries[i].file.content)
      case Err(e) => Err(e)
      case Ok(manifest) =>
        var required := RequiredTiles(manifest);
        if |required| == 0 then Err(NoTileEntries)
        else match CollectTiles(required, PathMap(entries))
          case Err(e) => Err(e)
          case Ok(tileFiles) => Ok(Selection(manifest, tileFiles))
  }

  /**
   * The error cases in their order, and on success the manifest with one
   * tile file per named tile, in manifest order, each the last selected file
   * at that path.
   */
  lemma BundleSelectionSpec(files: seq<SelectedFile>, parseJson: seq<bv8> -> Result<Value, string>)
    ensures var entries := Entries(files);
            var r := BundleSelection(files, parseJson);
            (FindManifest(entries).None? ==> r == Err(ManifestMissing))
            && (FindManifest(entries).Some? ==>
                  var parsed := parseJson(entries[FindManifest(entries).value].file.content);
                  (parsed.Err? ==> r == Err(parsed.error))
                  && (parsed.Ok? && RequiredTiles(parsed.value) == [] ==> r == Err(NoTileEntries))
                  && (r.Ok? ==> parsed.Ok? && r.value.manifest == parsed.value
                                && var names := TileNames(RequiredTiles(parsed.value));
                                   (forall k :: 0 <= k < |names| ==> names[k] in PathMap(entries))
                                   && r.value.files == FilesOf(names, PathMap(entries))))
  {
    var entries := Entries(files);
    match FindManifest(entries)
    case None =>
    case Some(i) =>
      match parseJson(entries[i].file.content)
      case Err(e) =>
      case Ok(manifest) =>
        CollectTilesSpec(RequiredTiles(manifest), PathMap(entries));
  }

  /**
   * `readBundleSelection`, step by step: the path map filled entry by entry,
   * then the tile loop with its early exit.
   */
  method ReadBundleSelection(files: seq<SelectedFile>, parseJson: seq<bv8> -> Result<Value, string>)
    returns (r: Result<Selection, string>)
    ensures r == BundleSelection(files, parseJson)
  {
    var normalized := Entries(files);
    var manifestEntry := FindManifest(normalized);
    if manifestEntry.None? {
      return Err(ManifestMissing);
    }
    var parsed := parseJson(normalized[manifestEntry.value].file.content);
    if parsed.Err? {
      return Err(parsed.error);
    }
    var manifest := parsed.value;
    var requiredTiles := RequiredTiles(manifest);
    if |requiredTiles| == 0 {
      return Err(NoTileEntries);
    }
    var paths := BuildPathMap(normalized);
    var collected := CollectTileFiles(requiredTiles, paths);
    if collected.Err? {
      return Err(collected.error);
    }
    return Ok(Selection(manifest, collected.value));
  }

  /** The `forEach` that fills the path map, entry by entry. */
  method BuildPathMap(entries: seq<Entry>) returns (paths: map<string, SelectedFile>)
    ensures paths == PathMap(entries)
  {
    paths := map[];
    var i := 0;
    while i < |entries|
      invariant 0 <= i <= |entries|
      invariant paths == PathMap(entries[..i])
    {
      assert entries[..i + 1][..i] == entries[..i];
      paths := paths[entries[i].relativePath := entries[i].file];
      i := i + 1;
    }
    assert entries[..i] == entries;
  }

  /** The `for...of` over the tile entries, leaving at the first absent file. */
  method CollectTileFiles(requiredTiles: seq<Value>, paths: map<string, SelectedFile>)
    returns (r: Result<seq<TileFile>, string>)
    ensures r == CollectTiles(requiredTiles, paths)
  {
    var tileFiles: seq<TileFile> := [];
    var k := 0;
    assert requiredTiles[k..] == requiredTiles;
    PrefixedEmpty(CollectTiles(requiredTiles, paths));
    while k < |requiredTiles|
      invariant 0 <= k <= |requiredTiles|
      invariant CollectTiles(requiredTiles, paths) == Prefixed(tileFiles, CollectTiles(requiredTiles[k..], paths))
    {
      var tile := requiredTiles[k];
      assert requiredTiles[k..][1..] == requiredTiles[k + 1..];
      if !IsTileRef(tile) {
        k := k + 1;
        continue;
      }
      var name := Prop(tile, "file").s;
      if name !in paths {
        return Err(MissingTilePrefix + name);
      }
      PrefixedCons(tileFiles, TileFile(name, paths[name].content), CollectTiles(requiredTiles[k + 1..], paths));
      tileFiles := tileFiles + [TileFile(name, paths[name].content)];
      k := k + 1;
    }
    assert requiredTiles[k..] == [];
    assert tileFiles + [] == tileFiles;
    return Ok(tileFiles);
  }

  /** The loop's result so far: the files collected, then whatever the rest of the loop gives. */
  function Prefixed<T, E>(done: seq<T>, rest: Result<seq<T>, E>): Result<seq<T>, E> {
    match rest
    case Ok(more) => Ok(done + more)
    case Err(e) => Err(e)
  }

  lemma PrefixedEmpty<T, E>(rest: Result<seq<T>, E>)
    ensures Prefixed([], rest) == rest
  {
    if rest.Ok? {
      assert [] + rest.value == rest.value;
    }
  }

  lemma PrefixedCons<T, E>(done: seq<T>, t: T, rest: Result<seq<T>, E>)
    ensures Prefixed(done, Prefixed([t], rest)) == Prefixed(done + [t], rest)
  {
    if rest.Ok? {
      assert done + ([t] + rest.value) == done + [t] + rest.value;
    }
  }
}
