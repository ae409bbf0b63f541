/** The file tool: path containment and the four workspace operations over a file system
    modelled as a map from resolved paths to nodes. */
module Files {
  import opened Wrappers
  import opened JsText
  import opened Paths

  datatype Node = File(content: string) | Dir

  /** The whole file system, keyed by resolved path. */
  type FS = map<Segments, Node>

  /** `/` is a directory and every other entry sits in a directory. */
  predicate WellFormed(fs: FS) {
    && [] in fs && fs[[]] == Dir
    && forall q {:trigger Parent(q)} :: q in fs && q != [] ==> Parent(q) in fs && fs[Parent(q)] == Dir
  }

  /** `action.operation`, `action.path` and `action.content`, each a string or absent. */
  datatype FileAction = FileAction(operation: Option<string>, path: Option<string>, content: Option<string>)

  /** The string the handler resolves to; `Listing` stands for `JSON.stringify` of the
      names `readdirSync` returns. */
  datatype Reply = Text(text: string) | Listing(names: set<string>)

  const MissingPath := "Missing path"
  const OutsideWorkspace := "Path must stay inside workspace"
  const NotDirectory := "ENOTDIR: not a directory"
  const IsDirectory := "EISDIR: illegal operation on a directory"

  function Failed(message: string): Reply {
    Text("File Operation Failed: " + message)
  }

  /** `resolveSafePath`: trims the input, resolves it against the workspace root and
      rejects what lands outside it. */
  function ResolveSafePath(root: Segments, inputPath: Option<string>): Result<Segments, string> {
    var candidate := Trim(OrElse(inputPath, ""));
    if candidate == "" then Err(MissingPath)
    else
      var fullPath := Resolve(root, candidate);
      if !Inside(Format(root), Format(fullPath)) then Err(OutsideWorkspace)
      else Ok(fullPath)
  }

  /** `fs.mkdirSync(p, { recursive: true })` for a `p` that does not exist: creates every
      missing ancestor; a file in the way fails with ENOTDIR. */
  function MakeDirs(fs: FS, p: Segments): Result<FS, string>
    decreases |p|
  {
    if p in fs then (if fs[p] == Dir then Ok(fs) else Err(NotDirectory))
    else if p == [] then Ok(fs[p := Dir])
    else
      match MakeDirs(fs, Parent(p))
      case Err(e) => Err(e)
      case Ok(fs1) => Ok(fs1[p := Dir])
  }

  /** The names directly inside `dir`. */
  function Children(fs: FS, dir: Segments): set<string> {
    set q | q in fs && |q| == |dir| + 1 && q[..|dir|] == dir :: q[|dir|]
  }

  /** The write branch: create the parent directory if it is missing, then write. */
  function Write(fs: FS, full: Segments, content: string): (FS, Reply) {
    var dir := Parent(full);
    var made := if dir in fs then Ok(fs) else MakeDirs(fs, dir);
    match made
    case Err(e) => (fs, Failed(e))
    case Ok(fs1) =>
      if !(dir in fs1 && fs1[dir] == Dir) then (fs1, Failed(NotDirectory))
      else if full in fs1 && fs1[full] == Dir then (fs1, Failed(IsDirectory))
      else (fs1[full := File(content)], Text("Written to " + Format(full)))
  }

  function Read(fs: FS, full: Segments): Reply {
    if full in fs then
      match fs[full]
      case File(c) => Text(c)
      case Dir => Failed(IsDirectory)
    else Text("Error: File not found")
  }

  function List(fs: FS, full: Segments): Reply {
    if full in fs then
      match fs[full]
      case Dir => Listing(Children(fs, full))
      case File(_) => Failed(NotDirectory)
    else Text("Error: Directory not found")
  }

  function Mkdir(fs: FS, full: Segments): (FS, Reply) {
    if full !in fs then
      match MakeDirs(fs, full)
      case Err(e) => (fs, Failed(e))
      case Ok(fs1) => (fs1, Text("Created directory " + Format(full)))
    else (fs, Text("Directory already exists"))
  }

  /** `handleFileAction`: the new file system and the reply. */
  function FileStep(fs: FS, root: Segments, action: FileAction): (FS, Reply) {
    match ResolveSafePath(root, action.path)
    case Err(e) => (fs, Failed(e))
    case Ok(full) =>
      if action.operation == Some("write") then Write(fs, full, OrElse(action.content, ""))
      else if action.operation == Some("read") then (fs, Read(fs, full))
      else if action.operation == Some("list") then (fs, List(fs, full))
      else if action.operation == Some("mkdir") then Mkdir(fs, full)
      else (fs, Text("Unknown file operation"))
  }

  /** The file tool's state: the file system and the fixed workspace root. */
  class FileTool {
    var fs: FS
    const root: Segments

    ghost predicate Valid()
      reads this
    {
      Normal(root) && WellFormed(fs)
    }

    constructor (root: Segments, fs: FS)
      requires Normal(root) && WellFormed(fs)
      ensures this.root == root && this.fs == fs && Valid()
    {
      this.root := root;
      this.fs := fs;
    }

    method HandleFileAction(action: FileAction) returns (reply: Reply)
      requires Valid()
      modifies this
      ensures Valid()
      ensures (fs, reply) == FileStep(old(fs), root, action)
    {
      FileStepWellFormed(fs, root, action);
      var resolved := ResolveSafePath(root, action.path);
      if resolved.Err? {
        return Failed(resolved.error);
      }
      var fullPath := resolved.value;
      if action.operation == Some("write") {
        var dir := Parent(fullPath);
        if dir !in fs {
          var made := MakeDirs(fs, dir);
          if made.Err? {
            return Failed(made.error);
          }
          fs := made.value;
        }
        if !(dir in fs && fs[dir] == Dir) {
          return Failed(NotDirectory);
        }
        if fullPath in fs && fs[fullPath] == Dir {
          return Failed(IsDirectory);
        }
        fs := fs[fullPath := File(OrElse(action.content, ""))];
        return Text("Written to " + Format(fullPath));
      }
      if action.operation == Some("read") {
        if fullPath in fs {
          return if fs[fullPath].File? then Text(fs[fullPath].content) else Failed(IsDirectory);
        }
        return Text("Error: File not found");
      }
      if action.operation == Some("list") {
        if fullPath in fs {
          return if fs[fullPath] == Dir then Listing(Children(fs, fullPath)) else Failed(NotDirectory);
        }
        return Text("Error: Directory not found");
      }
      if action.operation == Some("mkdir") {
        if fullPath !in fs {
          var made := MakeDirs(fs, fullPath);
          if made.Err? {
            return Failed(made.error);
          }
          fs := made.value;
          return Text("Created directory " + Format(fullPath));
        }
        return Text("Directory already exists");
      }
      return Text("Unknown file operation");
    }
  }

  // ---------------------------------------------------------------------------------
  // Properties
  // ---------------------------------------------------------------------------------

  /** A blank path is refused as missing, and only a blank one. */
  lemma ResolveSafePathMissing(root: Segments, inputPath: Option<string>)
    ensures ResolveSafePath(root, inputPath) == Err(MissingPath) <==> Trim(OrElse(inputPath, "")) == ""
  {
    assert |MissingPath| != |OutsideWorkspace|;
  }

  /** Any other path is accepted exactly when the workspace root leads its resolved form
      (only `/` itself when the root is `/`), and the accepted path is that resolved form;
      it is otherwise refused as outside the workspace. */
  lemma ResolveSafePathSpec(root: Segments, inputPath: Option<string>)
    requires Normal(root) && Trim(OrElse(inputPath, "")) != ""
    ensures var full := Resolve(root, Trim(OrElse(inputPath, "")));
      var r := ResolveSafePath(root, inputPath);
      && (r.Ok? <==> IsPrefix(root, full) && (root == [] ==> full == []))
      && (r.Ok? ==> r == Ok(full) && Normal(full))
      && (r.Ok? || r == Err(OutsideWorkspace))
  {
    var full := Resolve(root, Trim(OrElse(inputPath, "")));
    ResolveIsNormal(root, Trim(OrElse(inputPath, "")));
    InsideIffPrefix(root, full);
  }

  /** No ancestor of `p` (nor `p` itself) is a file. */
  predicate NoFileOnPath(fs: FS, p: Segments) {
    forall k :: 0 <= k <= |p| && p[..k] in fs ==> fs[p[..k]] == Dir
  }

  lemma {:induction false} AncestorsPresent(fs: FS, p: Segments)
    requires WellFormed(fs) && p in fs
    ensures forall k :: 0 <= k < |p| ==> p[..k] in fs && fs[p[..k]] == Dir
    decreases |p|
  {
    if p != [] {
      var q := Parent(p);
      AncestorsPresent(fs, q);
      forall k | 0 <= k < |p|
        ensures p[..k] in fs && fs[p[..k]] == Dir
      {
        if k < |q| {
          assert p[..k] == q[..k];
        } else {
          assert p[..k] == q;
        }
      }
    }
  }

  lemma PresentPath(fs: FS, p: Segments)
    requires WellFormed(fs) && p in fs
    ensures NoFileOnPath(fs, p) <==> fs[p] == Dir
  {
    AncestorsPresent(fs, p);
    assert p[..|p|] == p;
  }

  lemma AbsentPath(fs: FS, p: Segments)
    requires p != [] && p !in fs
    ensures NoFileOnPath(fs, p) <==> NoFileOnPath(fs, Parent(p))
  {
    var q := Parent(p);
    assert forall k :: 0 <= k < |p| ==> p[..k] == q[..k];
    assert q[..|q|] == q;
    assert p[..|p|] == p;
  }

  /** Recursive creation succeeds exactly when no file is in the way. */
  lemma {:induction false} MakeDirsOk(fs: FS, p: Segments)
    requires WellFormed(fs)
    ensures MakeDirs(fs, p).Ok? <==> NoFileOnPath(fs, p)
    ensures MakeDirs(fs, p).Err? ==> MakeDirs(fs, p).error == NotDirectory
    decreases |p|
  {
    if p in fs {
      PresentPath(fs, p);
    } else {
      MakeDirsOk(fs, Parent(p));
      AbsentPath(fs, p);
    }
  }

  /** On success it adds only directories leading to `p`, keeps every existing entry and
      keeps the system well formed. */
  lemma {:induction false} MakeDirsResult(fs: FS, p: Segments)
    requires WellFormed(fs) && MakeDirs(fs, p).Ok?
    ensures var f := MakeDirs(fs, p).value;
      && WellFormed(f) && p in f && f[p] == Dir
      && (forall q :: q in fs ==> q in f && f[q] == fs[q])
      && (forall q :: q in f && q !in fs ==> IsPrefix(q, p) && f[q] == Dir)
    decreases |p|
  {
    if p !in fs {
      var q := Parent(p);
      MakeDirsResult(fs, q);
      var f1 := MakeDirs(fs, q).value;
      assert p !in f1;
      var f := f1[p := Dir];
      assert f == MakeDirs(fs, p).value;
      forall r | r in f && r !in fs
        ensures IsPrefix(r, p)
      {
        if r != p {
          assert IsPrefix(r, q);
          assert p[..|r|] == q[..|r|];
        }
      }
    }
  }

  /** Whether `write` can succeed: not `/`, and no file on the way or at the place. */
  predicate Writable(fs: FS, full: Segments) {
    && full != []
    && (forall k :: 0 <= k < |full| && full[..k] in fs ==> fs[full[..k]] == Dir)
    && (full in fs ==> fs[full].File?)
  }

  lemma NoFileOnParent(fs: FS, full: Segments)
    requires full != []
    ensures NoFileOnPath(fs, Parent(full)) <==>
      forall k :: 0 <= k < |full| && full[..k] in fs ==> fs[full[..k]] == Dir
  {
    var dir := Parent(full);
    assert forall k :: 0 <= k <= |dir| ==> dir[..k] == full[..k];
  }

  lemma PutFileWellFormed(fs: FS, full: Segments, content: string)
    requires WellFormed(fs) && full != []
    requires Parent(full) in fs && fs[Parent(full)] == Dir
    requires !(full in fs && fs[full] == Dir)
    ensures WellFormed(fs[full := File(content)])
  {
    var f := fs[full := File(content)];
    forall q | q in f && q != []
      ensures Parent(q) in f && f[Parent(q)] == Dir
    {
      if q != full {
        assert Parent(q) in fs && fs[Parent(q)] == Dir;
        assert Parent(q) != full;
      }
    }
  }

  lemma FailedIsNotText(e: string, prefix: string, s: string)
    requires prefix != [] && prefix[0] != 'F'
    ensures Failed(e) != Text(prefix + s)
  {
    assert Failed(e).text[0] == 'F';
    assert (prefix + s)[0] == prefix[0];
  }

  /** The state a write reaches before it writes: the parent directory is there and a
      directory, exactly when the target is writable. */
  lemma WriteReady(fs: FS, full: Segments)
    requires WellFormed(fs)
    ensures var dir := Parent(full);
      var made := if dir in fs then Ok(fs) else MakeDirs(fs, dir);
      && (made.Ok? ==> WellFormed(made.value) && (forall q :: q in fs ==> q in made.value && made.value[q] == fs[q]))
      && (made.Ok? && full !in fs ==> full !in made.value)
      && (Writable(fs, full) <==>
            made.Ok? && dir in made.value && made.value[dir] == Dir && !(full in made.value && made.value[full] == Dir))
  {
    var dir := Parent(full);
    if full == [] {
      assert dir in fs;
    } else {
      NoFileOnParent(fs, full);
      if dir in fs {
        PresentPath(fs, dir);
      } else {
        MakeDirsOk(fs, dir);
        if MakeDirs(fs, dir).Ok? {
          MakeDirsResult(fs, dir);
        }
      }
    }
  }

  /** A write succeeds exactly when the target is writable; it then leaves the content
      there, changes no other existing entry and keeps the system well formed. */
  lemma WriteSpec(fs: FS, full: Segments, content: string)
    requires WellFormed(fs)
    ensures var (f, r) := Write(fs, full, content);
      && WellFormed(f)
      && (r == Text("Written to " + Format(full)) <==> Writable(fs, full))
      && (r == Text("Written to " + Format(full)) ==> full in f && f[full] == File(content))
      && (forall q :: q in fs && q != full ==> q in f && f[q] == fs[q])
  {
    WriteReady(fs, full);
    var dir := Parent(full);
    var made := if dir in fs then Ok(fs) else MakeDirs(fs, dir);
    var w := Text("Written to " + Format(full));
    match made
    case Err(e) =>
      FailedIsNotText(e, "Written to ", Format(full));
    case Ok(fs1) =>
      FailedIsNotText(NotDirectory, "Written to ", Format(full));
      FailedIsNotText(IsDirectory, "Written to ", Format(full));
      if dir in fs1 && fs1[dir] == Dir && !(full in fs1 && fs1[full] == Dir) {
        PutFileWellFormed(fs1, full, content);
      }
  }

  /** `mkdir` on an existing path answers that it exists and changes nothing; otherwise it
      creates the directory exactly when no file is in the way. */
  lemma MkdirSpec(fs: FS, full: Segments)
    requires WellFormed(fs)
    ensures var (f, r) := Mkdir(fs, full);
      && WellFormed(f)
      && (full in fs ==> f == fs && r == Text("Directory already exists"))
      && (full !in fs ==>
            (r == Text("Created directory " + Format(full)) <==> NoFileOnPath(fs, full)))
      && (r == Text("Created directory " + Format(full)) ==> full in f && f[full] == Dir)
      && (forall q :: q in fs ==> q in f && f[q] == fs[q])
  {
    assert "Directory already exists" != "Created directory " + Format(full) by {
      assert ("Created directory " + Format(full))[0] == 'C';
    }
    if full !in fs {
      MakeDirsOk(fs, full);
      if MakeDirs(fs, full).Ok? {
        MakeDirsResult(fs, full);
      } else {
        FailedIsNotText(MakeDirs(fs, full).error, "Created directory ", Format(full));
      }
    }
  }

  /** The names a listing returns are exactly the entries directly inside the directory. */
  lemma ChildrenSpec(fs: FS, dir: Segments, name: string)
    ensures name in Children(fs, dir) <==> dir + [name] in fs
  {
    if dir + [name] in fs {
      assert (dir + [name])[..|dir|] == dir;
      assert (dir + [name])[|dir|] == name;
    }
    if name in Children(fs, dir) {
      var q :| q in fs && |q| == |dir| + 1 && q[..|dir|] == dir && q[|dir|] == name;
      assert q == q[..|dir|] + [q[|dir|]];
    }
  }

  /** Once the path is resolved, the operation name alone picks the branch. */
  lemma Dispatch(fs: FS, root: Segments, action: FileAction, full: Segments)
    requires ResolveSafePath(root, action.path) == Ok(full)
    ensures FileStep(fs, root, action) ==
      if action.operation == Some("write") then Write(fs, full, OrElse(action.content, ""))
      else if action.operation == Some("read") then (fs, Read(fs, full))
      else if action.operation == Some("list") then (fs, List(fs, full))
      else if action.operation == Some("mkdir") then Mkdir(fs, full)
      else (fs, Text("Unknown file operation"))
  {
  }

  /** The path is checked before the operation is looked at: a bad path fails whatever the
      operation is; reading, listing and unknown operations never change the file system. */
  lemma PathCheckedFirst(fs: FS, root: Segments, action: FileAction)
    ensures ResolveSafePath(root, action.path).Err? ==>
      FileStep(fs, root, action) == (fs, Failed(ResolveSafePath(root, action.path).error))
  {
  }

  lemma ReadOnlyOperations(fs: FS, root: Segments, action: FileAction)
    ensures action.operation != Some("write") && action.operation != Some("mkdir") ==>
      FileStep(fs, root, action).0 == fs
  {
    var op := action.operation;
    if op != Some("write") && op != Some("mkdir") {
      match ResolveSafePath(root, action.path)
      case Err(_) =>
      case Ok(full) =>
        var reply := if op == Some("read") then Read(fs, full)
          else if op == Some("list") then List(fs, full)
          else Text("Unknown file operation");
        assert FileStep(fs, root, action) == (fs, reply);
    }
  }

  /** Reading or listing a path that does not exist answers "not found" and changes nothing. */
  lemma MissingTargetReplies(fs: FS, root: Segments, action: FileAction, full: Segments)
    requires ResolveSafePath(root, action.path) == Ok(full) && full !in fs
    ensures action.operation == Some("read") ==> FileStep(fs, root, action) == (fs, Text("Error: File not found"))
    ensures action.operation == Some("list") ==> FileStep(fs, root, action) == (fs, Text("Error: Directory not found"))
  {
    Dispatch(fs, root, action, full);
  }

  /** What was written is what is read back from the same path. */
  lemma WriteThenRead(fs: FS, root: Segments, full: Segments, path: Option<string>, content: Option<string>, other: Option<string>)
    requires WellFormed(fs)
    requires ResolveSafePath(root, path) == Ok(full) && Writable(fs, full)
    ensures var (f, r) := FileStep(fs, root, FileAction(Some("write"), path, content));
      && r == Text("Written to " + Format(full))
      && FileStep(f, root, FileAction(Some("read"), path, other)) == (f, Text(OrElse(content, "")))
  {
    var c := OrElse(content, "");
    Dispatch(fs, root, FileAction(Some("write"), path, content), full);
    WriteSpec(fs, full, c);
    var f := Write(fs, full, c).0;
    assert Read(f, full) == Text(c);
    Dispatch(f, root, FileAction(Some("read"), path, other), full);
  }

  /** A written file shows up in the listing of its directory. */
  lemma WrittenFileIsListed(fs: FS, full: Segments, content: string)
    requires WellFormed(fs) && Writable(fs, full)
    ensures var f := Write(fs, full, content).0;
      List(f, Parent(full)) == Listing(Children(f, Parent(full)))
      && full[|full| - 1] in Children(f, Parent(full))
  {
    WriteReady(fs, full);
    var dir := Parent(full);
    var made := if dir in fs then Ok(fs) else MakeDirs(fs, dir);
    var f := made.value[full := File(content)];
    assert Write(fs, full, content).0 == f;
    assert dir != full;
    assert dir in f && f[dir] == Dir;
    ChildrenSpec(f, dir, full[|full| - 1]);
    assert dir + [full[|full| - 1]] == full;
  }

  /** Every operation keeps the file system well formed. */
  lemma FileStepWellFormed(fs: FS, root: Segments, action: FileAction)
    requires WellFormed(fs)
    ensures WellFormed(FileStep(fs, root, action).0)
  {
    match ResolveSafePath(root, action.path)
    case Err(_) =>
    case Ok(full) =>
      Dispatch(fs, root, action, full);
      if action.operation == Some("write") {
        WriteSpec(fs, full, OrElse(action.content, ""));
      } else if action.operation == Some("mkdir") {
        MkdirSpec(fs, full);
      }
  }
}
