/** The content store: recordings are files named `recording_<id>.<format>`
    in a base directory. The file system is a map from path to contents plus
    the set of directory paths; `fs.writeFile`, `fs.readFile`, `fs.unlink`,
    `fs.readdir`, `fs.existsSync` and `fs.mkdirSync(…, {recursive: true})`
    are functions on it, and `AudioFileManager` applies them to its state. */
module AudioFiles {
  import opened Common
  import opened Strings

  // ============ the file system ============

  datatype Disk = Disk(files: map<string, Bytes>, dirs: set<string>)

  /** No path is both a file and a directory. */
  ghost predicate DiskValid(d: Disk) {
    d.files.Keys !! d.dirs
  }

  /** `fs.existsSync(p)`. */
  predicate Exists(d: Disk, p: string) {
    p in d.files || p in d.dirs
  }

  /** `p` and every directory above it, as `mkdir -p` walks them. */
  function Ancestors(p: string): (r: set<string>)
    ensures p in r
    ensures '/' in p ==> Parent(p) in r
    decreases |p|
  {
    match LastIndexOf(p, '/')
    case None => {p}
    case Some(i) => {p} + Ancestors(p[..i])
  }

  /** `fs.mkdirSync(p, { recursive: true })`: creates `p` and its missing
      ancestors; fails when one of them is a file. */
  function MakeDirs(d: Disk, p: string): Result<Disk> {
    if Ancestors(p) !! d.files.Keys then Ok(d.(dirs := d.dirs + Ancestors(p)))
    else Err(NotDirectory(p))
  }

  /** `fs.writeFile(p, data)`: creates or replaces the file `p`. */
  function WriteFile(d: Disk, p: string, data: Bytes): Result<Disk> {
    if p in d.dirs then Err(IsDirectory(p))
    else if Parent(p) in d.files then Err(NotDirectory(p))
    else if Parent(p) !in d.dirs then Err(NoSuchFile(p))
    else Ok(d.(files := d.files[p := data]))
  }

  /** `fs.readFile(p)`. */
  function ReadFile(d: Disk, p: string): Result<Bytes> {
    if p in d.files then Ok(d.files[p])
    else if p in d.dirs then Err(IsDirectory(p))
    else Err(NoSuchFile(p))
  }

  /** `fs.unlink(p)`. */
  function Unlink(d: Disk, p: string): Result<Disk> {
    if p in d.files then Ok(d.(files := d.files - {p}))
    else if p in d.dirs then Err(IsDirectory(p))
    else Err(NoSuchFile(p))
  }

  /** `fs.readdir(dir)`: the names of the entries directly inside `dir`. */
  function ReadDir(d: Disk, dir: string): Result<set<string>> {
    if dir in d.dirs then Ok(set p | p in d.files.Keys + d.dirs && Parent(p) == dir :: BaseName(p))
    else if dir in d.files then Err(NotDirectory(dir))
    else Err(NoSuchFile(dir))
  }

  lemma WriteKeepsValid(d: Disk, p: string, data: Bytes)
    requires DiskValid(d) && WriteFile(d, p, data).Ok?
    ensures DiskValid(WriteFile(d, p, data).value)
  {
  }

  /** After a successful write, reading the path gives exactly the bytes
      written, and every other path reads as before. */
  lemma ReadAfterWrite(d: Disk, p: string, data: Bytes, q: string)
    requires WriteFile(d, p, data).Ok?
    ensures ReadFile(WriteFile(d, p, data).value, p) == Ok(data)
    ensures q != p ==> ReadFile(WriteFile(d, p, data).value, q) == ReadFile(d, q)
  {
  }

  /** unlink succeeds exactly on a file, removes that path only, and a
      later read of it fails. */
  lemma UnlinkEffect(d: Disk, p: string, q: string)
    requires DiskValid(d)
    ensures Unlink(d, p).Ok? <==> p in d.files
    ensures Unlink(d, p).Ok? ==>
      && Unlink(d, p).value.files.Keys == d.files.Keys - {p}
      && Unlink(d, p).value.dirs == d.dirs
      && ReadFile(Unlink(d, p).value, p) == Err(NoSuchFile(p))
      && (q != p ==> ReadFile(Unlink(d, p).value, q) == ReadFile(d, q))
      && DiskValid(Unlink(d, p).value)
  {
  }

  // ============ file names ============

  const DEFAULT_FORMAT: string := "wav"

  function FileName(id: string, format: string): string {
    "recording_" + id + "." + format
  }

  /** `getNewFilePath(id, format)` and `getCustomStoragePath(dir, id, format)`. */
  function FilePath(dir: string, id: string, format: string): string {
    Join(dir, FileName(id, format))
  }

  /** `file.startsWith('recording') && file.endsWith('.wav')`. */
  predicate IsAudioName(name: string) {
    StartsWith(name, "recording") && EndsWith(name, ".wav")
  }

  /** `file.replace('recording_', '').replace('.wav', '')`. */
  function IdOf(name: string): string {
    RemoveFirst(RemoveFirst(name, "recording_"), ".wav")
  }

  /** An entry of `listAudioFiles`. */
  datatype AudioFile = AudioFile(id: string, path: string)

  /** A name built from an id and a format without '/' has no '/'. */
  lemma FileNameHasNoSlash(id: string, format: string)
    requires '/' !in id && '/' !in format
    ensures '/' !in FileName(id, format)
  {
    var n := FileName(id, format);
    assert n == "recording_" + id + "." + format;
    forall k | 0 <= k < |n| ensures n[k] != '/' {
      if k < 10 { assert n[k] == "recording_"[k]; }
      else if k < 10 + |id| { assert n[k] == id[k - 10]; }
      else if k > 10 + |id| { assert n[k] == format[k - 11 - |id|]; }
    }
  }

  /** Names built for an id without '/' lie directly in the directory, and
      a default-format name passes the listing filter. */
  lemma FilePathSplits(dir: string, id: string, format: string)
    requires '/' !in id && '/' !in format
    ensures '/' !in FileName(id, format)
    ensures Parent(FilePath(dir, id, format)) == dir
    ensures BaseName(FilePath(dir, id, format)) == FileName(id, format)
    ensures format == DEFAULT_FORMAT ==> IsAudioName(FileName(id, format))
  {
    var n := FileName(id, format);
    FileNameHasNoSlash(id, format);
    JoinSplits(dir, n);
    if format == DEFAULT_FORMAT {
      assert n[..9] == "recording";
      assert n[|n| - 4..] == ".wav";
    }
  }

  /** Different ids give different paths in the same directory. */
  lemma FilePathInjective(dir: string, id1: string, id2: string, format: string)
    requires FilePath(dir, id1, format) == FilePath(dir, id2, format)
    ensures id1 == id2
  {
    var p := FilePath(dir, id1, format);
    var start := |dir| + 11;
    assert p == dir + "/recording_" + id1 + "." + format;
    assert FilePath(dir, id2, format) == dir + "/recording_" + id2 + "." + format;
    assert |id1| == |id2|;
    assert p[start..start + |id1|] == id1;
    assert p[start..start + |id2|] == id2;
  }

  /** Removing the first "recording_" and then the first ".wav" from a
      default-format name gives back the id, provided the id does not itself
      contain ".wav". */
  lemma IdOfFileName(id: string)
    requires !Contains(id, ".wav")
    ensures IdOf(FileName(id, DEFAULT_FORMAT)) == id
  {
    var stem := id + ".wav";
    var name := FileName(id, DEFAULT_FORMAT);
    assert name == "recording_" + stem by {
      assert "." + DEFAULT_FORMAT == ".wav";
    }
    RemovePrefix("recording_", stem);
    assert RemoveFirst(name, "recording_") == stem;
    FirstWavIsSuffix(id);
    assert RemoveFirst(stem, ".wav") == stem[..|id|] + stem[|id| + 4..];
    assert stem[..|id|] == id && stem[|id| + 4..] == [];
  }

  /** `listAudioFiles` on a directory: the entries whose names pass the
      filter, with the id and the joined path. */
  function ListIn(d: Disk, dir: string): Result<set<AudioFile>> {
    match ReadDir(d, dir)
    case Err(e) => Err(e)
    case Ok(names) => Ok(set n | n in names && IsAudioName(n) :: AudioFile(IdOf(n), Join(dir, n)))
  }

  /** Every listed file exists directly in the directory, passes the
      filter, and carries the id its name gives. */
  lemma ListingSound(d: Disk, dir: string, f: AudioFile)
    requires ListIn(d, dir).Ok? && f in ListIn(d, dir).value
    requires dir != "."
    ensures Exists(d, f.path) && Parent(f.path) == dir
    ensures IsAudioName(BaseName(f.path)) && f.id == IdOf(BaseName(f.path))
  {
    var names := ReadDir(d, dir).value;
    var n :| n in names && IsAudioName(n) && f == AudioFile(IdOf(n), Join(dir, n));
    var p :| p in d.files.Keys + d.dirs && Parent(p) == dir && BaseName(p) == n;
    var i := LastIndexOf(p, '/');
    assert i.Some?;
    assert p[i.value] == '/';
    SplitJoins(p);
  }

  /** Every entry directly in the directory that passes the filter is listed. */
  lemma ListingComplete(d: Disk, dir: string, p: string)
    requires dir in d.dirs && Exists(d, p) && Parent(p) == dir && IsAudioName(BaseName(p))
    ensures ListIn(d, dir).Ok?
    ensures AudioFile(IdOf(BaseName(p)), Join(dir, BaseName(p))) in ListIn(d, dir).value
    ensures '/' in p ==> Join(dir, BaseName(p)) == p
  {
    assert BaseName(p) in ReadDir(d, dir).value;
    if '/' in p { SplitJoins(p); }
  }

  /** Writing a file outside the directory leaves its listing as it was. */
  lemma WriteElsewhereKeepsListing(d: Disk, p: string, data: Bytes, dir: string)
    requires WriteFile(d, p, data).Ok? && Parent(p) != dir && dir in d.dirs
    ensures ListIn(WriteFile(d, p, data).value, dir) == ListIn(d, dir)
  {
    var d2 := WriteFile(d, p, data).value;
    var before := set q | q in d.files.Keys + d.dirs && Parent(q) == dir;
    var after := set q | q in d2.files.Keys + d2.dirs && Parent(q) == dir;
    assert after == before;
    assert ReadDir(d, dir).value == set q | q in before :: BaseName(q);
    assert ReadDir(d2, dir).value == set q | q in after :: BaseName(q);
  }

  // ============ the manager's operations on a disk ============

  /** The effect of an operation: the disk afterwards and how its promise settles. */
  datatype Outcome<+R> = Outcome(disk: Disk, result: Result<R>)

  /** ensureDirectoryExists: `mkdir -p` only when nothing exists at the path. */
  function EnsureDirectoryOn(d: Disk, dir: string): Outcome<()> {
    if Exists(d, dir) then Outcome(d, Ok(()))
    else match MakeDirs(d, dir)
      case Ok(d2) => Outcome(d2, Ok(()))
      case Err(e) => Outcome(d, Err(e))
  }

  /** ensureDirectoryExists creates the directory when nothing is there,
      keeps the disk valid, and running it again changes nothing. */
  lemma EnsureDirectoryIdempotent(d: Disk, dir: string)
    requires DiskValid(d)
    ensures var o := EnsureDirectoryOn(d, dir);
      && DiskValid(o.disk) && o.disk.files == d.files
      && (o.result.Ok? && dir !in d.files ==> dir in o.disk.dirs)
      && (dir in d.dirs ==> o == Outcome(d, Ok(())))
      && EnsureDirectoryOn(o.disk, dir) == o
  {
  }

  /** saveAudioFile(id, data, format): writes `FilePath(baseDir, id, format)`
      and resolves to that path. */
  function SaveAudioOn(d: Disk, baseDir: string, id: string, data: Bytes, format: string): Outcome<string> {
    var p := FilePath(baseDir, id, format);
    match WriteFile(d, p, data)
    case Ok(d2) => Outcome(d2, Ok(p))
    case Err(e) => Outcome(d, Err(e))
  }

  /** readAudioFile(id): always the default format. */
  function ReadAudioOn(d: Disk, baseDir: string, id: string): Result<Bytes> {
    ReadFile(d, FilePath(baseDir, id, DEFAULT_FORMAT))
  }

  /** deleteAudioFile(id): always the default format. */
  function DeleteAudioOn(d: Disk, baseDir: string, id: string): Outcome<()> {
    match Unlink(d, FilePath(baseDir, id, DEFAULT_FORMAT))
    case Ok(d2) => Outcome(d2, Ok(()))
    case Err(e) => Outcome(d, Err(e))
  }

  /** saveToCustomPath(id, data, customPath): creates the file's directory
      when nothing exists there (a failure rejects), then writes. */
  function SaveToCustomOn(d: Disk, customPath: string, id: string, data: Bytes): Outcome<string> {
    var p := FilePath(customPath, id, DEFAULT_FORMAT);
    var dir := Parent(p);
    var prepared := if Exists(d, dir) then Ok(d) else MakeDirs(d, dir);
    match prepared
    case Err(e) => Outcome(d, Err(e))
    case Ok(d2) =>
      match WriteFile(d2, p, data)
      case Ok(d3) => Outcome(d3, Ok(p))
      case Err(e) => Outcome(d2, Err(e))
  }

  /** saveAudioFile followed by readAudioFile of the same id gives back the
      bytes saved; the save also leaves every other file as it was. */
  lemma SaveThenRead(d: Disk, baseDir: string, id: string, data: Bytes, q: string)
    requires SaveAudioOn(d, baseDir, id, data, DEFAULT_FORMAT).result.Ok?
    ensures var o := SaveAudioOn(d, baseDir, id, data, DEFAULT_FORMAT);
      && o.result.value == FilePath(baseDir, id, DEFAULT_FORMAT)
      && ReadAudioOn(o.disk, baseDir, id) == Ok(data)
      && (q != o.result.value ==> ReadFile(o.disk, q) == ReadFile(d, q))
  {
    ReadAfterWrite(d, FilePath(baseDir, id, DEFAULT_FORMAT), data, q);
  }

  /** readAudioFile and deleteAudioFile reject when there is no file; a
      successful delete removes that file only. */
  lemma DeleteAudioEffect(d: Disk, baseDir: string, id: string, q: string)
    requires DiskValid(d)
    ensures var p := FilePath(baseDir, id, DEFAULT_FORMAT);
      && (p !in d.files ==> ReadAudioOn(d, baseDir, id).Err? && DeleteAudioOn(d, baseDir, id) == Outcome(d, Err(Unlink(d, p).error)))
      && (p in d.files ==>
            var o := DeleteAudioOn(d, baseDir, id);
            && o.result.Ok? && o.disk.files.Keys == d.files.Keys - {p}
            && ReadAudioOn(o.disk, baseDir, id).Err?
            && (q != p ==> ReadFile(o.disk, q) == ReadFile(d, q)))
  {
    UnlinkEffect(d, FilePath(baseDir, id, DEFAULT_FORMAT), q);
  }

  /** The round trip: after saving with the default format an id without
      '/' and without ".wav" (every decimal clock reading is one), the
      listing of the base directory contains that id with the saved path. */
  lemma SaveThenList(d: Disk, baseDir: string, id: string, data: Bytes)
    requires '/' !in id && !Contains(id, ".wav")
    requires SaveAudioOn(d, baseDir, id, data, DEFAULT_FORMAT).result.Ok?
    ensures var o := SaveAudioOn(d, baseDir, id, data, DEFAULT_FORMAT);
      && ListIn(o.disk, baseDir).Ok?
      && AudioFile(id, o.result.value) in ListIn(o.disk, baseDir).value
  {
    var p := FilePath(baseDir, id, DEFAULT_FORMAT);
    var o := SaveAudioOn(d, baseDir, id, data, DEFAULT_FORMAT);
    FilePathSplits(baseDir, id, DEFAULT_FORMAT);
    IdOfFileName(id);
    ListingComplete(o.disk, baseDir, p);
  }

  /** saveToCustomPath leaves the directory holding the file, writes the
      default-format name there, and does not touch any file directly in
      another directory such as the base directory. */
  lemma SaveToCustomEffect(d: Disk, customPath: string, id: string, data: Bytes, baseDir: string, q: string)
    requires DiskValid(d) && '/' !in id
    requires customPath != baseDir && Parent(q) == baseDir
    ensures var o := SaveToCustomOn(d, customPath, id, data);
      && DiskValid(o.disk)
      && (o.result.Ok? ==>
            && o.result.value == FilePath(customPath, id, DEFAULT_FORMAT)
            && customPath in o.disk.dirs
            && ReadFile(o.disk, o.result.value) == Ok(data))
      && (q in o.disk.files <==> q in d.files)
      && (q in d.files ==> o.disk.files[q] == d.files[q])
      && o.disk.files.Keys <= d.files.Keys + {FilePath(customPath, id, DEFAULT_FORMAT)}
      && d.dirs <= o.disk.dirs <= d.dirs + Ancestors(customPath)
  {
    FilePathSplits(customPath, id, DEFAULT_FORMAT);
  }

  // ============ the manager ============

  class AudioFileManager {
    /** `path.join(app.getPath('userData'), 'recordings')`. */
    const baseDir: string
    var disk: Disk

    ghost predicate Valid()
      reads this
    {
      DiskValid(disk)
    }

    /** Builds the base directory path and runs ensureDirectoryExists. */
    constructor (userData: string, initial: Disk)
      requires DiskValid(initial)
      ensures baseDir == Join(userData, "recordings")
      ensures disk == EnsureDirectoryOn(initial, Join(userData, "recordings")).disk
      ensures Valid()
    {
      baseDir := Join(userData, "recordings");
      disk := initial;
      new;
      var _ := EnsureDirectoryExists();
    }

    method EnsureDirectoryExists() returns (r: Result<()>)
      requires Valid()
      modifies this
      ensures Valid()
      ensures Outcome(disk, r) == EnsureDirectoryOn(old(disk), baseDir)
    {
      EnsureDirectoryIdempotent(disk, baseDir);
      if !Exists(disk, baseDir) {
        match MakeDirs(disk, baseDir)
        case Ok(d2) =>
          disk := d2;
          r := Ok(());
        case Err(e) =>
          r := Err(e);
      } else {
        r := Ok(());
      }
    }

    function GetNewFilePath(id: string, format: string): string {
      FilePath(baseDir, id, format)
    }

    method SaveAudioFile(id: string, data: Bytes, format: string) returns (r: Result<string>)
      requires Valid()
      modifies this
      ensures Valid()
      ensures Outcome(disk, r) == SaveAudioOn(old(disk), baseDir, id, data, format)
    {
      var p := GetNewFilePath(id, format);
      match WriteFile(disk, p, data)
      case Ok(d2) =>
        WriteKeepsValid(disk, p, data);
        disk := d2;
        r := Ok(p);
      case Err(e) =>
        r := Err(e);
    }

    function ReadAudioFile(id: string): Result<Bytes>
      reads this
    {
      ReadAudioOn(disk, baseDir, id)
    }

    method DeleteAudioFile(id: string) returns (r: Result<()>)
      requires Valid()
      modifies this
      ensures Valid()
      ensures Outcome(disk, r) == DeleteAudioOn(old(disk), baseDir, id)
    {
      var p := GetNewFilePath(id, DEFAULT_FORMAT);
      match Unlink(disk, p)
      case Ok(d2) =>
        disk := d2;
        r := Ok(());
      case Err(e) =>
        r := Err(e);
    }

    function ListAudioFiles(): Result<set<AudioFile>>
      reads this
    {
      ListIn(disk, baseDir)
    }

    function GetCustomStoragePath(customPath: string, id: string, format: string): string {
      FilePath(customPath, id, format)
    }

    method SaveToCustomPath(id: string, data: Bytes, customPath: string) returns (r: Result<string>)
      requires Valid()
      modifies this
      ensures Valid()
      ensures Outcome(disk, r) == SaveToCustomOn(old(disk), customPath, id, data)
    {
      var p := GetCustomStoragePath(customPath, id, DEFAULT_FORMAT);
      var dir := Parent(p);
      if !Exists(disk, dir) {
        match MakeDirs(disk, dir)
        case Err(e) =>
          return Err(e);
        case Ok(d2) =>
          disk := d2;
      }
      match WriteFile(disk, p, data)
      case Ok(d3) =>
        WriteKeepsValid(disk, p, data);
        disk := d3;
        r := Ok(p);
      case Err(e) =>
        r := Err(e);
    }
  }
}
