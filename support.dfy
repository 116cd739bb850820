/**
 * The asset helpers of utils/support.py: building an asset's path from its
 * parts (rewriting the extension when a suffix is asked for), walking an
 * asset folder depth-first, and the naming rules of the loaders, which
 * order animation frames by the number before the first "." of their file
 * names and key image dictionaries by that prefix.
 *
 * The package's asset folder is a tree of entries handed in as a value;
 * a loaded image is identified by the path it is loaded from.
 */
module Support {
  import opened Wrappers
  import opened PaintOrder

  // ----- strings -----

  /** str.rfind(c): the last index of c in s, or -1. */
  function RFind(s: string, c: char): (k: int)
    ensures -1 <= k < |s|
    ensures k == -1 <==> c !in s
    ensures k >= 0 ==> s[k] == c && forall j :: k < j < |s| ==> s[j] != c
    decreases |s|
  {
    if s == [] then -1
    else if s[|s| - 1] == c then |s| - 1
    else RFind(s[..|s| - 1], c)
  }

  /** str.find(c): the first index of c in s, or -1. */
  function Find(s: string, c: char): (k: int)
    ensures -1 <= k < |s|
    ensures k == -1 <==> c !in s
    ensures k >= 0 ==> s[k] == c && forall j :: 0 <= j < k ==> s[j] != c
    decreases |s|
  {
    if s == [] then -1
    else if s[0] == c then 0
    else
      var k := Find(s[1..], c);
      if k == -1 then -1 else k + 1
  }

  /** s[:k] with Python's slice rules: negative k counts from the end, out-of-range ends clip. */
  function SliceTo(s: string, k: int): (r: string)
    ensures 0 <= k <= |s| ==> r == s[..k]
  {
    if k >= |s| then s
    else if k >= 0 then s[..k]
    else if |s| + k >= 0 then s[..|s| + k]
    else []
  }

  /** name.split(".")[0]: the name up to its first ".". */
  function Stem(name: string): (r: string)
    ensures '.' !in r
    ensures '.' !in name ==> r == name
    ensures '.' in name ==> |r| < |name| && name[|r|] == '.' && r == name[..|r|]
  {
    var k := Find(name, '.');
    if k == -1 then name else name[..k]
  }

  predicate IsDigit(c: char) {
    '0' <= c <= '9'
  }

  function DigitValue(c: char): nat
    requires IsDigit(c)
  {
    c as int - '0' as int
  }

  /** The value of a string of decimal digits. */
  function Digits(s: string): nat
    requires forall i :: 0 <= i < |s| ==> IsDigit(s[i])
    decreases |s|
  {
    if s == [] then 0 else 10 * Digits(s[..|s| - 1]) + DigitValue(s[|s| - 1])
  }

  /**
   * int(s) for the stems of file names: an optional sign followed by ASCII
   * digits; anything else raises ValueError.
   */
  function ParseInt(s: string): (r: Result<int>)
    ensures r.Ok? <==>
      (var body := if s != [] && (s[0] == '-' || s[0] == '+') then s[1..] else s;
       body != [] && forall i :: 0 <= i < |body| ==> IsDigit(body[i]))
    ensures r.Err? ==> r.error == ValueError
  {
    var neg := s != [] && s[0] == '-';
    var body := if s != [] && (s[0] == '-' || s[0] == '+') then s[1..] else s;
    if body == [] || exists i :: 0 <= i < |body| && !IsDigit(body[i]) then Err(ValueError)
    else if neg then Ok(-(Digits(body) as int))
    else Ok(Digits(body))
  }

  // ----- paths -----

  /** Path.joinpath with one part: an empty part is ignored, an absolute one replaces the path. */
  function JoinPart(base: string, part: string): string {
    if part == [] then base
    else if part[0] == '/' then part
    else base + "/" + part
  }

  /** files("savematter.assets").joinpath(*parts), as a string. */
  function Join(base: string, parts: seq<string>): string
    decreases |parts|
  {
    if parts == [] then base else JoinPart(Join(base, parts[..|parts| - 1]), parts[|parts| - 1])
  }

  /**
   * _get_asset(*parts, suffix=suffix): the joined path; with a non-empty
   * suffix, the text from the path's last "." is dropped when the last part
   * has a ".", and "." + suffix is appended. Reading the last part of no
   * parts raises IndexError.
   */
  function GetAsset(root: string, parts: seq<string>, suffix: Option<string>): Result<string> {
    var path := Join(root, parts);
    if suffix.Some? && suffix.value != [] then
      if parts == [] then Err(IndexError)
      else
        var stripped := if '.' in parts[|parts| - 1] then SliceTo(path, RFind(path, '.')) else path;
        Ok(stripped + "." + suffix.value)
    else Ok(path)
  }

  /** A part that names an entry of a folder: not empty, not absolute, without "/". */
  predicate NamePart(p: string) {
    p != [] && '/' !in p
  }

  /** Without a suffix (or with an empty one) the joined path is returned unchanged. */
  lemma GetAssetWithoutSuffix(root: string, parts: seq<string>, suffix: Option<string>)
    requires suffix.None? || suffix.value == []
    ensures GetAsset(root, parts, suffix) == Ok(Join(root, parts))
  {
  }

  /** Asking for a suffix without parts raises IndexError. */
  lemma GetAssetNoParts(root: string, suffix: string)
    requires suffix != []
    ensures GetAsset(root, [], Some(suffix)) == Err(IndexError)
  {
  }

  /** When the last part has no ".", the suffix is appended to the joined path. */
  lemma GetAssetAppends(root: string, parts: seq<string>, suffix: string)
    requires suffix != [] && parts != [] && '.' !in parts[|parts| - 1]
    ensures GetAsset(root, parts, Some(suffix)) == Ok(Join(root, parts) + "." + suffix)
  {
  }

  /**
   * When the last part names a file with an extension, the extension (from
   * the part's last ".") is replaced by the suffix; everything before the
   * last part is kept.
   */
  lemma {:induction false} GetAssetReplacesExtension(root: string, parts: seq<string>, name: string, ext: string, suffix: string)
    requires suffix != [] && '.' !in ext && NamePart(name)
    requires parts != [] && parts[|parts| - 1] == name + "." + ext
    ensures GetAsset(root, parts, Some(suffix)) ==
      Ok(Join(root, parts[..|parts| - 1]) + "/" + name + "." + suffix)
  {
    var last := name + "." + ext;
    assert last[|name|] == '.';
    assert last[0] == name[0];
    var prefix := Join(root, parts[..|parts| - 1]) + "/";
    var path := Join(root, parts);
    assert path == prefix + last;
    var k := |prefix| + |name|;
    assert path[k] == '.';
    forall j | k < j < |path|
      ensures path[j] != '.'
    {
      assert path[j] == ext[j - k - 1];
    }
    assert RFind(path, '.') == k;
    assert path[..k] == prefix + name;
  }

  /** Asking again for the extension a file already has gives its path back. */
  lemma SameExtensionKept(root: string, parts: seq<string>, name: string, ext: string)
    requires ext != [] && '.' !in ext && NamePart(name)
    requires parts != [] && parts[|parts| - 1] == name + "." + ext
    ensures GetAsset(root, parts, Some(ext)) == Ok(Join(root, parts))
  {
    GetAssetReplacesExtension(root, parts, name, ext, ext);
    var base := Join(root, parts[..|parts| - 1]);
    var last := name + "." + ext;
    assert last[0] != '/' by {
      assert last[0] == name[0] && name[0] in name;
    }
    assert Join(root, parts) == JoinPart(base, last);
    assert JoinPart(base, last) == base + "/" + last;
    assert base + "/" + name + "." + ext == base + "/" + last;
  }

  // ----- walking the asset folder -----

  /** An entry of the asset folder: a file, or a folder with its entries in iterdir order. */
  datatype Entry = File(name: string) | Folder(name: string, entries: seq<Entry>)

  /** One step of _walk_assets: the folder's path and its subfolder and file names. */
  datatype WalkStep = WalkStep(path: string, subdirs: seq<string>, files: seq<string>)

  function SubdirNames(es: seq<Entry>): (r: seq<string>)
    decreases |es|
  {
    if es == [] then []
    else SubdirNames(es[..|es| - 1]) + (if es[|es| - 1].Folder? then [es[|es| - 1].name] else [])
  }

  function FileNames(es: seq<Entry>): (r: seq<string>)
    decreases |es|
  {
    if es == [] then []
    else FileNames(es[..|es| - 1]) + (if es[|es| - 1].File? then [es[|es| - 1].name] else [])
  }

  /** The steps of a folder at `path`: the folder itself, then each subfolder's steps in order. */
  function WalkFolder(f: Entry, path: string): seq<WalkStep>
    requires f.Folder?
    decreases f, 1
  {
    [WalkStep(path, SubdirNames(f.entries), FileNames(f.entries))] + WalkEntries(f.entries, path)
  }

  function WalkEntries(es: seq<Entry>, path: string): seq<WalkStep>
    decreases es, 0
  {
    if es == [] then []
    else
      (if es[0].Folder? then WalkFolder(es[0], JoinPart(path, es[0].name)) else []) + WalkEntries(es[1..], path)
  }

  /** The number of folders in a tree, the root included. */
  function FolderCount(e: Entry): nat
    decreases e, 1
  {
    if e.File? then 0 else 1 + EntriesFolderCount(e.entries)
  }

  function EntriesFolderCount(es: seq<Entry>): nat
    decreases es, 0
  {
    if es == [] then 0 else FolderCount(es[0]) + EntriesFolderCount(es[1..])
  }

  /** The entry reached by following named folders. */
  function Lookup(e: Entry, parts: seq<string>): Option<Entry>
    decreases |parts|
  {
    if parts == [] then Some(e)
    else match Lookup(e, parts[..|parts| - 1])
      case None => None
      case Some(d) => if d.File? then None else Child(d.entries, parts[|parts| - 1])
  }

  /** The first entry called `name`. */
  function Child(es: seq<Entry>, name: string): (r: Option<Entry>)
    ensures r.Some? ==> r.value in es && r.value.name == name
    decreases |es|
  {
    if es == [] then None else if es[0].name == name then Some(es[0]) else Child(es[1..], name)
  }

  /**
   * _walk_assets(*parts) over the asset folder `tree` located at `root`:
   * NotADirectoryError unless the parts lead to a folder, the folder's
   * steps otherwise.
   */
  function Walk(root: string, tree: Entry, parts: seq<string>): Result<seq<WalkStep>> {
    match Lookup(tree, parts)
    case Some(f) => if f.Folder? then Ok(WalkFolder(f, Join(root, parts))) else Err(NotADirectoryError)
    case None => Err(NotADirectoryError)
  }

  /** The walk raises exactly when the parts do not lead to a folder. */
  lemma WalkFailsOnlyOffFolders(root: string, tree: Entry, parts: seq<string>)
    ensures Walk(root, tree, parts).Err? <==> !(Lookup(tree, parts).Some? && Lookup(tree, parts).value.Folder?)
    ensures Walk(root, tree, parts).Err? ==> Walk(root, tree, parts).error == NotADirectoryError
  {
  }

  /** A folder is listed before everything below it, and every folder of the tree once. */
  lemma {:induction false} WalkPreOrder(f: Entry, path: string)
    requires f.Folder?
    ensures var w := WalkFolder(f, path);
      |w| == FolderCount(f) && w[0] == WalkStep(path, SubdirNames(f.entries), FileNames(f.entries))
    decreases f, 1
  {
    WalkEntriesCount(f.entries, path);
  }

  lemma {:induction false} WalkEntriesCount(es: seq<Entry>, path: string)
    ensures |WalkEntries(es, path)| == EntriesFolderCount(es)
    decreases es, 0
  {
    if es != [] {
      if es[0].Folder? {
        WalkPreOrder(es[0], JoinPart(path, es[0].name));
      }
      WalkEntriesCount(es[1..], path);
    }
  }

  /** A folder's subfolders and files split its entries by kind, in order. */
  lemma {:induction false} NamesPartition(es: seq<Entry>)
    ensures |SubdirNames(es)| + |FileNames(es)| == |es|
    ensures forall n :: n in SubdirNames(es) <==> exists e :: e in es && e.Folder? && e.name == n
    ensures forall n :: n in FileNames(es) <==> exists e :: e in es && e.File? && e.name == n
    decreases |es|
  {
    if es != [] {
      var init := es[..|es| - 1];
      NamesPartition(init);
      assert es == init + [es[|es| - 1]];
    }
  }

  // ----- loaders -----

  /** The sort key of a frame file: int of its stem (0 for a stem that does not parse). */
  function FrameKey(name: string): real {
    match ParseInt(Stem(name))
    case Ok(v) => v as real
    case Err(_) => 0.0
  }

  predicate Numbered(name: string) {
    ParseInt(Stem(name)).Ok?
  }

  /**
   * The frames of one walk step, in load order: its files sorted by the
   * number of their stem; sorted() computes every key first, so one file
   * whose stem is not a number raises ValueError.
   */
  function StepFrames(root: string, s: WalkStep): Result<seq<string>> {
    if exists i :: 0 <= i < |s.files| && !Numbered(s.files[i]) then Err(ValueError)
    else
      var order := SortedBy(s.files, FrameKey);
      Ok(seq(|order|, i requires 0 <= i < |order| => Join(root, [s.path, order[i]])))
  }

  /** The frames of the whole walk: each folder's frames in walk order. */
  function FramesOf(root: string, steps: seq<WalkStep>): Result<seq<string>>
    decreases |steps|
  {
    if steps == [] then Ok([])
    else match FramesOf(root, steps[..|steps| - 1])
      case Err(e) => Err(e)
      case Ok(fs) =>
        match StepFrames(root, steps[|steps| - 1])
        case Err(e) => Err(e)
        case Ok(more) => Ok(fs + more)
  }

  /** import_frames(*parts), as the paths it loads. */
  function Frames(root: string, tree: Entry, parts: seq<string>): Result<seq<string>> {
    match Walk(root, tree, parts)
    case Err(e) => Err(e)
    case Ok(steps) => FramesOf(root, steps)
  }

  /**
   * The frames of one folder come in ascending frame number, each of its
   * files exactly once; with an absolute asset root each path is the
   * folder's path followed by the file name.
   */
  lemma StepFramesOrdered(root: string, s: WalkStep)
    requires StepFrames(root, s).Ok?
    ensures var order := SortedBy(s.files, FrameKey);
      Ascending(order, FrameKey) && multiset(order) == multiset(s.files) &&
      |StepFrames(root, s).value| == |s.files| &&
      forall i :: 0 <= i < |order| ==> StepFrames(root, s).value[i] == Join(root, [s.path, order[i]])
    ensures forall i :: 0 <= i < |s.files| ==> Numbered(s.files[i])
  {
    SortedAscending(s.files, FrameKey);
    SortedPermutes(s.files, FrameKey);
  }

  /** The path of a frame under an absolute folder path: the folder, "/", the file. */
  lemma AbsoluteFolderJoin(root: string, folder: string, name: string)
    requires folder != [] && folder[0] == '/' && NamePart(name)
    ensures Join(root, [folder, name]) == folder + "/" + name
  {
    assert [folder, name][..1] == [folder];
    assert [folder][..0] == [];
  }

  /** The stem of a name with a "." after a dot-free prefix is that prefix. */
  lemma StemBeforeDot(prefix: string, rest: string)
    requires '.' !in prefix
    ensures Stem(prefix + "." + rest) == prefix
  {
    var name := prefix + "." + rest;
    assert name[|prefix|] == '.';
    assert forall j :: 0 <= j < |prefix| ==> name[j] == prefix[j];
    assert name[..|prefix|] == prefix;
  }

  /** A run of digits parses as the number it spells. */
  lemma ParseDigits(digits: string)
    requires digits != [] && forall i :: 0 <= i < |digits| ==> IsDigit(digits[i])
    ensures ParseInt(digits) == Ok(Digits(digits) as int)
  {
    assert IsDigit(digits[0]);
  }

  /** The key of a file named by a run of digits and an extension is the number the digits spell. */
  lemma NumberedKey(digits: string, ext: string)
    requires digits != [] && forall i :: 0 <= i < |digits| ==> IsDigit(digits[i])
    ensures FrameKey(digits + "." + ext) == Digits(digits) as real
  {
    assert '.' !in digits by {
      forall i | 0 <= i < |digits|
        ensures digits[i] != '.'
      {
        assert IsDigit(digits[i]);
      }
    }
    StemBeforeDot(digits, ext);
    ParseDigits(digits);
  }

  /** Frame "10" comes after frame "2", whatever their extension: frames are ordered by number, not by text. */
  lemma FramesByNumber(ext: string)
    ensures FrameKey("2" + "." + ext) < FrameKey("10" + "." + ext)
  {
    NumberedKey("2", ext);
    NumberedKey("10", ext);
    assert "10"[..1] == "1";
  }

  /** The image dictionary after a step: each file is stored under its stem, later files winning. */
  function StoreFiles(d: map<string, string>, root: string, path: string, files: seq<string>): map<string, string>
    decreases |files|
  {
    if files == [] then d
    else
      var name := files[|files| - 1];
      StoreFiles(d, root, path, files[..|files| - 1])[Stem(name) := Join(root, [path, name])]
  }

  function ImageDictOf(root: string, steps: seq<WalkStep>): map<string, string>
    decreases |steps|
  {
    if steps == [] then map[]
    else
      var s := steps[|steps| - 1];
      StoreFiles(ImageDictOf(root, steps[..|steps| - 1]), root, s.path, s.files)
  }

  /** import_image_dict(*parts), as the paths it stores. */
  function ImageDict(root: string, tree: Entry, parts: seq<string>): Result<map<string, string>> {
    match Walk(root, tree, parts)
    case Err(e) => Err(e)
    case Ok(steps) => Ok(ImageDictOf(root, steps))
  }

  /** After storing a folder's files, the keys are the old keys and the files' stems. */
  lemma {:induction false} StoreFilesKeySet(d: map<string, string>, root: string, path: string, files: seq<string>)
    ensures forall k :: k in StoreFiles(d, root, path, files) <==>
      (k in d || exists i :: 0 <= i < |files| && Stem(files[i]) == k)
    decreases |files|
  {
    if files != [] {
      var init := files[..|files| - 1];
      var last := |files| - 1;
      StoreFilesKeySet(d, root, path, init);
      var m0 := StoreFiles(d, root, path, init);
      var m := StoreFiles(d, root, path, files);
      assert m == m0[Stem(files[last]) := Join(root, [path, files[last]])];
      forall k
        ensures k in m <==> (k in d || exists i :: 0 <= i < |files| && Stem(files[i]) == k)
      {
        if k == Stem(files[last]) {
          assert k in m;
        } else if k in m0 {
          if k !in d {
            var i :| 0 <= i < |init| && Stem(init[i]) == k;
            assert files[i] == init[i];
          }
        } else {
          forall i | 0 <= i < |files|
            ensures Stem(files[i]) != k
          {
            if i < last {
              assert files[i] == init[i];
            }
          }
        }
      }
    }
  }

  /** After storing a folder's files, each key keeps its old value or holds a file with that stem. */
  lemma {:induction false} StoreFilesValues(d: map<string, string>, root: string, path: string, files: seq<string>)
    ensures forall k :: k in StoreFiles(d, root, path, files) ==>
      (k in d && StoreFiles(d, root, path, files)[k] == d[k]) ||
      exists i :: 0 <= i < |files| && Stem(files[i]) == k && StoreFiles(d, root, path, files)[k] == Join(root, [path, files[i]])
    decreases |files|
  {
    if files != [] {
      var init := files[..|files| - 1];
      StoreFilesValues(d, root, path, init);
      var m := StoreFiles(d, root, path, files);
      forall k | k in m
        ensures (k in d && m[k] == d[k]) ||
          exists i :: 0 <= i < |files| && Stem(files[i]) == k && m[k] == Join(root, [path, files[i]])
      {
        if k != Stem(files[|files| - 1]) {
          var m0 := StoreFiles(d, root, path, init);
          if !(k in d && m[k] == d[k]) {
            var i :| 0 <= i < |init| && Stem(init[i]) == k && m0[k] == Join(root, [path, init[i]]);
            assert files[i] == init[i];
          }
        }
      }
    }
  }

  /**
   * The keys of the image dictionary are exactly the stems of the files
   * walked, and each key holds the path of a file with that stem.
   */
  lemma StoreFilesKeys(d: map<string, string>, root: string, path: string, files: seq<string>)
    ensures forall k :: k in StoreFiles(d, root, path, files) <==>
      (k in d || exists i :: 0 <= i < |files| && Stem(files[i]) == k)
    ensures forall k :: k in StoreFiles(d, root, path, files) ==>
      (k in d && StoreFiles(d, root, path, files)[k] == d[k]) ||
      exists i :: 0 <= i < |files| && Stem(files[i]) == k && StoreFiles(d, root, path, files)[k] == Join(root, [path, files[i]])
  {
    StoreFilesKeySet(d, root, path, files);
    StoreFilesValues(d, root, path, files);
  }

  /** The keys of import_image_dict are exactly the stems of the files of every folder walked. */
  lemma {:induction false} ImageDictKeys(root: string, steps: seq<WalkStep>)
    ensures forall k :: k in ImageDictOf(root, steps) <==>
      exists i, j :: 0 <= i < |steps| && 0 <= j < |steps[i].files| && Stem(steps[i].files[j]) == k
    decreases |steps|
  {
    if steps != [] {
      var init := steps[..|steps| - 1];
      var last := |steps| - 1;
      var s := steps[last];
      ImageDictKeys(root, init);
      var m0 := ImageDictOf(root, init);
      StoreFilesKeySet(m0, root, s.path, s.files);
      assert ImageDictOf(root, steps) == StoreFiles(m0, root, s.path, s.files);
      forall k
        ensures k in ImageDictOf(root, steps) <==>
          exists i, j :: 0 <= i < |steps| && 0 <= j < |steps[i].files| && Stem(steps[i].files[j]) == k
      {
        if k in m0 {
          var i, j :| 0 <= i < |init| && 0 <= j < |init[i].files| && Stem(init[i].files[j]) == k;
          assert init[i] == steps[i];
          assert 0 <= i < |steps| && 0 <= j < |steps[i].files| && Stem(steps[i].files[j]) == k;
        } else if exists j :: 0 <= j < |s.files| && Stem(s.files[j]) == k {
          var j :| 0 <= j < |s.files| && Stem(s.files[j]) == k;
          assert 0 <= last < |steps| && 0 <= j < |steps[last].files| && Stem(steps[last].files[j]) == k;
        } else {
          forall i, j | 0 <= i < |steps| && 0 <= j < |steps[i].files|
            ensures Stem(steps[i].files[j]) != k
          {
            if i < last {
              assert init[i] == steps[i];
            }
          }
        }
      }
    }
  }


  /**
   * import_anim_states(*parts): for every walk step that has subfolders,
   * each subfolder name maps to import_frames(*parts, name). The name is
   * looked up under the top folder even for the subfolders of deeper steps.
   */
  function AnimStatesOf(root: string, tree: Entry, parts: seq<string>, steps: seq<WalkStep>): Result<map<string, seq<string>>>
    decreases |steps|
  {
    if steps == [] then Ok(map[])
    else match AnimStatesOf(root, tree, parts, steps[..|steps| - 1])
      case Err(e) => Err(e)
      case Ok(d) => StoreStates(d, Loader(root, tree, parts), steps[|steps| - 1].subdirs)
  }

  /** import_frames(*parts, name), as a function of the name. */
  function Loader(root: string, tree: Entry, parts: seq<string>): string -> Result<seq<string>> {
    name => Frames(root, tree, parts + [name])
  }

  /** The states stored for the names of one walk step, each from `load`; the first exception ends the loop. */

  function StoreStates(d: map<string, seq<string>>, load: string -> Result<seq<string>>, names: seq<string>): Result<map<string, seq<string>>>
    decreases |names|
  {
    if names == [] then Ok(d)
    else match StoreStates(d, load, names[..|names| - 1])
      case Err(e) => Err(e)
      case Ok(d1) => StoreOne(d1, load, names[|names| - 1])
  }

  /** frame_dict[name] = load(name), or the exception it raises. */
  function StoreOne(d: map<string, seq<string>>, load: string -> Result<seq<string>>, name: string): Result<map<string, seq<string>>> {
    match load(name)
    case Err(e) => Err(e)
    case Ok(fs) => Ok(d[name := fs])
  }

  function AnimStates(root: string, tree: Entry, parts: seq<string>): Result<map<string, seq<string>>> {
    match Walk(root, tree, parts)
    case Err(e) => Err(e)
    case Ok(steps) => AnimStatesOf(root, tree, parts, steps)
  }

  /** A folder holding only files: no subfolder names and nothing more to walk. */
  lemma {:induction false} FilesOnly(es: seq<Entry>, path: string)
    requires forall i :: 0 <= i < |es| ==> es[i].File?
    ensures SubdirNames(es) == [] && WalkEntries(es, path) == []
    decreases |es|
  {
    if es != [] {
      FilesOnly(es[..|es| - 1], path);
      FilesOnly(es[1..], path);
    }
  }

  /** A folder whose subfolders hold only files. */
  predicate TwoLevels(f: Entry) {
    f.Folder? &&
    forall i :: 0 <= i < |f.entries| && f.entries[i].Folder? ==>
      forall j :: 0 <= j < |f.entries[i].entries| ==> f.entries[i].entries[j].File?
  }

  lemma {:induction false} FlatSubfoldersWalk(es: seq<Entry>, path: string)
    requires forall i :: 0 <= i < |es| && es[i].Folder? ==>
      forall j :: 0 <= j < |es[i].entries| ==> es[i].entries[j].File?
    ensures forall k :: 0 <= k < |WalkEntries(es, path)| ==> WalkEntries(es, path)[k].subdirs == []
    decreases |es|
  {
    if es != [] {
      FlatSubfoldersWalk(es[1..], path);
      if es[0].Folder? {
        FilesOnly(es[0].entries, JoinPart(path, es[0].name));
      }
      var head := if es[0].Folder? then WalkFolder(es[0], JoinPart(path, es[0].name)) else [];
      assert forall k :: 0 <= k < |head| ==> head[k].subdirs == [];
      assert WalkEntries(es, path) == head + WalkEntries(es[1..], path);
    }
  }

  lemma {:induction false} AnimStatesOfFirstOnly(root: string, tree: Entry, parts: seq<string>, steps: seq<WalkStep>)
    requires |steps| >= 1 && forall k :: 1 <= k < |steps| ==> steps[k].subdirs == []
    ensures AnimStatesOf(root, tree, parts, steps) == StoreStates(map[], Loader(root, tree, parts), steps[0].subdirs)
    decreases |steps|
  {
    if |steps| == 1 {
      assert steps[..0] == [];
    } else {
      var init := steps[..|steps| - 1];
      AnimStatesOfFirstOnly(root, tree, parts, init);
    }
  }

  /**
   * For the usual layout (a folder of animation folders that hold only
   * frames) the animation states are the top folder's subfolders, each
   * mapped to its frames, with the first exception if one is raised.
   */
  lemma AnimStatesOfTwoLevels(root: string, tree: Entry, parts: seq<string>)
    requires Lookup(tree, parts).Some? && TwoLevels(Lookup(tree, parts).value)
    ensures AnimStates(root, tree, parts) ==
      StoreStates(map[], Loader(root, tree, parts), SubdirNames(Lookup(tree, parts).value.entries))
  {
    var f := Lookup(tree, parts).value;
    var path := Join(root, parts);
    FlatSubfoldersWalk(f.entries, path);
    var steps := WalkFolder(f, path);
    assert steps[1..] == WalkEntries(f.entries, path);
    forall k | 1 <= k < |steps|
      ensures steps[k].subdirs == []
    {
      assert steps[k] == WalkEntries(f.entries, path)[k - 1];
    }
    AnimStatesOfFirstOnly(root, tree, parts, steps);
  }

  /** Without exceptions, the states stored are exactly the names given, each with its frames. */
  lemma {:induction false} StoreStatesContents(d: map<string, seq<string>>, load: string -> Result<seq<string>>, names: seq<string>)
    requires StoreStates(d, load, names).Ok?
    ensures var m := StoreStates(d, load, names).value;
      (forall n :: n in m <==> n in d || n in names) &&
      forall n :: n in names ==> load(n).Ok? && m[n] == load(n).value
    decreases |names|
  {
    if names != [] {
      var init := names[..|names| - 1];
      var last := names[|names| - 1];
      assert StoreStates(d, load, init).Ok? && load(last).Ok?;
      StoreStatesContents(d, load, init);
      var m0 := StoreStates(d, load, init).value;
      assert StoreStates(d, load, names).value == m0[last := load(last).value];
      assert forall n :: n in names <==> n in init || n == last by {
        assert names == init + [last];
      }
    }
  }

  // ----- the loaders' loops -----

  /** An exception in an earlier step ends the whole walk with it. */
  lemma {:induction false} FramesOfErrSticks(root: string, steps: seq<WalkStep>, n: nat)
    requires n <= |steps| && FramesOf(root, steps[..n]).Err?
    ensures FramesOf(root, steps) == FramesOf(root, steps[..n])
    decreases |steps| - n
  {
    if n < |steps| {
      assert steps[..n + 1][..n] == steps[..n];
      FramesOfErrSticks(root, steps, n + 1);
    } else {
      assert steps[..n] == steps;
    }
  }

  /** One more name: the loop goes on with the name stored, or ends with its exception. */
  lemma StoreStatesStep(d: map<string, seq<string>>, load: string -> Result<seq<string>>, names: seq<string>, k: nat, m: map<string, seq<string>>)
    requires k < |names| && StoreStates(d, load, names[..k]) == Ok(m)
    ensures StoreStates(d, load, names[..k + 1]) == StoreOne(m, load, names[k])
  {
    assert names[..k + 1][..k] == names[..k];
  }

  lemma {:induction false} StoreStatesErrSticks(d: map<string, seq<string>>, load: string -> Result<seq<string>>, names: seq<string>, n: nat)
    requires n <= |names| && StoreStates(d, load, names[..n]).Err?
    ensures StoreStates(d, load, names) == StoreStates(d, load, names[..n])
    decreases |names| - n
  {
    if n < |names| {
      assert names[..n + 1][..n] == names[..n];
      StoreStatesErrSticks(d, load, names, n + 1);
    } else {
      assert names[..n] == names;
    }
  }

  /** One more walk step: the states of its subfolders are stored on top of those so far. */
  lemma AnimStatesStep(root: string, tree: Entry, parts: seq<string>, steps: seq<WalkStep>, k: nat, d: map<string, seq<string>>)
    requires k < |steps| && AnimStatesOf(root, tree, parts, steps[..k]) == Ok(d)
    ensures AnimStatesOf(root, tree, parts, steps[..k + 1]) == StoreStates(d, Loader(root, tree, parts), steps[k].subdirs)
  {
    assert steps[..k + 1][..k] == steps[..k];
  }

  lemma {:induction false} AnimStatesErrSticks(root: string, tree: Entry, parts: seq<string>, steps: seq<WalkStep>, n: nat)
    requires n <= |steps| && AnimStatesOf(root, tree, parts, steps[..n]).Err?
    ensures AnimStatesOf(root, tree, parts, steps) == AnimStatesOf(root, tree, parts, steps[..n])
    decreases |steps| - n
  {
    if n < |steps| {
      assert steps[..n + 1][..n] == steps[..n];
      AnimStatesErrSticks(root, tree, parts, steps, n + 1);
    } else {
      assert steps[..n] == steps;
    }
  }

  /** The body of import_frames' loop for one folder: its files, sorted by number. */
  method LoadStep(root: string, s: WalkStep) returns (r: Result<seq<string>>)
    ensures r == StepFrames(root, s)
  {
    if exists j :: 0 <= j < |s.files| && !Numbered(s.files[j]) {
      return Err(ValueError);
    }
    var order := SortedBy(s.files, FrameKey);
    ghost var spec := StepFrames(root, s).value;
    assert |spec| == |order| && forall i :: 0 <= i < |order| ==> spec[i] == Join(root, [s.path, order[i]]);
    var frames: seq<string> := [];
    var k := 0;
    while k < |order|
      invariant 0 <= k <= |order|
      invariant |frames| == k && forall i :: 0 <= i < k ==> frames[i] == spec[i]
    {
      frames := frames + [Join(root, [s.path, order[k]])];
      k := k + 1;
    }
    assert frames == spec;
    return Ok(frames);
  }

  /** import_frames(*parts): the frames loaded, folder by folder, each sorted by number. */
  method ImportFrames(root: string, tree: Entry, parts: seq<string>) returns (r: Result<seq<string>>)
    ensures r == Frames(root, tree, parts)
  {
    var w := Walk(root, tree, parts);
    if w.Err? {
      return Err(w.error);
    }
    r := WalkFrames(root, w.value);
  }

  /** The loop of import_frames over the walk: each folder's frames appended in walk order. */
  method WalkFrames(root: string, steps: seq<WalkStep>) returns (r: Result<seq<string>>)
    ensures r == FramesOf(root, steps)
  {
    var frames: seq<string> := [];
    var i := 0;
    while i < |steps|
      invariant 0 <= i <= |steps|
      invariant FramesOf(root, steps[..i]) == Ok(frames)
    {
      assert steps[..i + 1][..i] == steps[..i];
      var more := LoadStep(root, steps[i]);
      if more.Err? {
        FramesOfErrSticks(root, steps, i + 1);
        return Err(more.error);
      }
      frames := frames + more.value;
      i := i + 1;
    }
    assert steps[..i] == steps;
    return Ok(frames);
  }

  /** The body of import_image_dict's loop for one folder: each file stored under its stem. */
  method StoreFolder(d: map<string, string>, root: string, path: string, files: seq<string>) returns (r: map<string, string>)
    ensures r == StoreFiles(d, root, path, files)
  {
    r := d;
    var k := 0;
    while k < |files|
      invariant 0 <= k <= |files|
      invariant r == StoreFiles(d, root, path, files[..k])
    {
      assert files[..k + 1][..k] == files[..k];
      r := r[Stem(files[k]) := Join(root, [path, files[k]])];
      k := k + 1;
    }
    assert files[..k] == files;
  }

  /** import_image_dict(*parts): every file walked, stored under its stem. */
  method ImportImageDict(root: string, tree: Entry, parts: seq<string>) returns (r: Result<map<string, string>>)
    ensures r == ImageDict(root, tree, parts)
  {
    var w := Walk(root, tree, parts);
    if w.Err? {
      return Err(w.error);
    }
    var steps := w.value;
    var d: map<string, string> := map[];
    var i := 0;
    while i < |steps|
      invariant 0 <= i <= |steps|
      invariant d == ImageDictOf(root, steps[..i])
    {
      assert steps[..i + 1][..i] == steps[..i];
      d := StoreFolder(d, root, steps[i].path, steps[i].files);
      i := i + 1;
    }
    assert steps[..i] == steps;
    return Ok(d);
  }

  /** frame_dict[name] = import_frames(*parts, name) for one animation state. */
  method StoreState(d: map<string, seq<string>>, root: string, tree: Entry, parts: seq<string>, name: string)
    returns (r: Result<map<string, seq<string>>>)
    ensures r == StoreOne(d, Loader(root, tree, parts), name)
  {
    var frames := ImportFrames(root, tree, parts + [name]);
    if frames.Err? {
      return Err(frames.error);
    }
    return Ok(d[name := frames.value]);
  }

  /** The body of import_anim_states' loop for one walk step: each subfolder name stored with its frames. */
  method StoreStep(d: map<string, seq<string>>, root: string, tree: Entry, parts: seq<string>, subs: seq<string>)
    returns (r: Result<map<string, seq<string>>>)
    ensures r == StoreStates(d, Loader(root, tree, parts), subs)
  {
    ghost var load := Loader(root, tree, parts);
    var m := d;
    var k := 0;
    while k < |subs|
      invariant 0 <= k <= |subs|
      invariant StoreStates(d, load, subs[..k]) == Ok(m)
    {
      var stored := StoreState(m, root, tree, parts, subs[k]);
      StoreStatesStep(d, load, subs, k, m);
      if stored.Err? {
        StoreStatesErrSticks(d, load, subs, k + 1);
        return stored;
      }
      m := stored.value;
      k := k + 1;
    }
    assert subs[..k] == subs;
    return Ok(m);
  }

  /** import_anim_states(*parts): the frames of every subfolder name met on the walk. */
  method ImportAnimStates(root: string, tree: Entry, parts: seq<string>) returns (r: Result<map<string, seq<string>>>)
    ensures r == AnimStates(root, tree, parts)
  {
    var w := Walk(root, tree, parts);
    if w.Err? {
      return Err(w.error);
    }
    r := WalkStates(root, tree, parts, w.value);
  }

  /** The loop of import_anim_states over the walk: each step's subfolders stored in walk order. */
  method WalkStates(root: string, tree: Entry, parts: seq<string>, steps: seq<WalkStep>) returns (r: Result<map<string, seq<string>>>)
    ensures r == AnimStatesOf(root, tree, parts, steps)
  {
    var d: map<string, seq<string>> := map[];
    var i := 0;
    while i < |steps|
      invariant 0 <= i <= |steps|
      invariant AnimStatesOf(root, tree, parts, steps[..i]) == Ok(d)
    {
      var stored := StoreStep(d, root, tree, parts, steps[i].subdirs);
      AnimStatesStep(root, tree, parts, steps, i, d);
      if stored.Err? {
        AnimStatesErrSticks(root, tree, parts, steps, i + 1);
        return stored;
      }
      d := stored.value;
      i := i + 1;
    }
    assert steps[..i] == steps;
    return Ok(d);
  }

  /** The paths of import_image, import_font, import_tmx and import_audio. */
  function ImagePath(root: string, parts: seq<string>, format: string): Result<string> {
    GetAsset(root, parts, Some(format))
  }

  function FontPath(root: string, parts: seq<string>, suffix: string): Result<string> {
    GetAsset(root, ["graphics", "ui", "fonts"] + parts, Some(suffix))
  }

  function TmxPath(root: string, parts: seq<string>): Result<string> {
    GetAsset(root, parts, Some("tmx"))
  }

  function AudioPath(root: string, parts: seq<string>, suffix: string): Result<string> {
    GetAsset(root, ["audio"] + parts, Some(suffix))
  }

  /** Fonts and sounds always have a last part, so their paths never raise and end in their suffix. */
  lemma PrefixedPathsEndInSuffix(root: string, parts: seq<string>, suffix: string)
    requires suffix != []
    ensures var f := FontPath(root, parts, suffix);
      f.Ok? && f.value[|f.value| - |suffix|..] == suffix
    ensures var a := AudioPath(root, parts, suffix);
      a.Ok? && a.value[|a.value| - |suffix|..] == suffix
  {
  }
}
