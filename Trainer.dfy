/**
 * Model of the artifact-saving tail of train_xgboost in custom/trainer/task.py.
 * When the job does not run locally, a `gs://` model directory is rewritten
 * to its Cloud Storage FUSE path under `/gcs/`, and the head of its
 * os.path.split is created when missing. The booster and the loss are then
 * written into the model directory itself. Creating the directory and
 * writing either file can raise; the model says when.
 *
 * Training, the validation loss and its text form (Python's str of a float)
 * are foreign: the loss enters as the text it prints as.
 */
module Trainer {
  import PyStr
  import PosixPath
  import opened Results

  const GS_PREFIX := "gs://"
  const GCSFUSE_PREFIX := "/gcs/"
  const MODEL_FILE := "model.bst"
  const METRICS_FILE := "loss.json"

  /** `model_dir.replace("gs://", "/gcs/")` when model_dir starts with "gs://"; unchanged otherwise. */
  function FuseRewrite(modelDir: string): (d: string)
    ensures !PyStr.StartsWith(modelDir, GS_PREFIX) ==> d == modelDir
    ensures PyStr.StartsWith(modelDir, GS_PREFIX) ==> PyStr.StartsWith(d, GCSFUSE_PREFIX)
  {
    if PyStr.StartsWith(modelDir, GS_PREFIX) then
      assert modelDir[..|GS_PREFIX|] == GS_PREFIX;
      PyStr.ReplaceAll(modelDir, GS_PREFIX, GCSFUSE_PREFIX)
    else modelDir
  }

  /**
   * The rewrite changes every occurrence of "gs://", not only the leading one:
   * it is "/gcs/".join(model_dir.split("gs://")).
   */
  lemma FuseRewriteReplacesEvery(modelDir: string)
    requires PyStr.StartsWith(modelDir, GS_PREFIX)
    ensures FuseRewrite(modelDir) == PyStr.Join(GCSFUSE_PREFIX, PyStr.Split(modelDir, GS_PREFIX))
  {
    PyStr.ReplaceAllIsSplitJoin(modelDir, GS_PREFIX, GCSFUSE_PREFIX);
  }

  /** One step of the rewrite at a string starting with "gs://". */
  lemma RewriteHit(s: string)
    requires |s| >= 5 && s[..5] == GS_PREFIX
    ensures PyStr.ReplaceAll(s, GS_PREFIX, GCSFUSE_PREFIX) == GCSFUSE_PREFIX + PyStr.ReplaceAll(s[5..], GS_PREFIX, GCSFUSE_PREFIX)
  {
  }

  /** One step of the rewrite at a string whose first character starts no "gs://". */
  lemma RewriteMiss(s: string)
    requires |s| >= 5 && s[0] != 'g'
    ensures PyStr.ReplaceAll(s, GS_PREFIX, GCSFUSE_PREFIX) == [s[0]] + PyStr.ReplaceAll(s[1..], GS_PREFIX, GCSFUSE_PREFIX)
  {
    assert s[..5][0] != GS_PREFIX[0];
  }

  /** The rewrite of the part after the leading "gs://" in the sample below. */
  lemma RewriteSampleTail()
    ensures PyStr.ReplaceAll("b/gs://x", GS_PREFIX, GCSFUSE_PREFIX) == "b//gcs/x"
  {
    var s1 := "b/gs://x";
    var s2 := "/gs://x";
    var s3 := "gs://x";
    assert s1[1..] == s2;
    RewriteMiss(s1);
    assert s2[1..] == s3;
    RewriteMiss(s2);
    assert s3[..5] == GS_PREFIX && s3[5..] == "x";
    RewriteHit(s3);
    assert [s1[0]] + [s2[0]] + GCSFUSE_PREFIX + "x" == "b//gcs/x";
  }

  /** A later "gs://" inside the path is rewritten too. */
  lemma FuseRewriteInnerOccurrence()
    ensures FuseRewrite("gs://b/gs://x") == "/gcs/b//gcs/x"
  {
    var s0 := "gs://b/gs://x";
    assert s0[..5] == GS_PREFIX && s0[5..] == "b/gs://x";
    FuseRewriteAtPrefix(s0);
    RewriteSampleTail();
    assert GCSFUSE_PREFIX + "b//gcs/x" == "/gcs/b//gcs/x";
  }

  /** The rewrite of a `gs://` directory is "/gcs/" followed by the rewrite of the rest. */
  lemma FuseRewriteAtPrefix(s: string)
    requires |s| >= 5 && s[..5] == GS_PREFIX
    ensures FuseRewrite(s) == GCSFUSE_PREFIX + PyStr.ReplaceAll(s[5..], GS_PREFIX, GCSFUSE_PREFIX)
  {
    assert PyStr.StartsWith(s, GS_PREFIX);
    RewriteHit(s);
  }

  /** After the rewrite of a `gs://` directory no "gs://" is left at its start. */
  lemma FuseRewriteLeavesNoPrefix(modelDir: string)
    requires PyStr.StartsWith(modelDir, GS_PREFIX)
    ensures !PyStr.StartsWith(FuseRewrite(modelDir), GS_PREFIX)
  {
    var d := FuseRewrite(modelDir);
    assert d[0] == '/';
    if |GS_PREFIX| <= |d| {
      assert d[..|GS_PREFIX|][0] == '/';
    }
  }

  /** The second conversion block (lines 94-100) changes nothing: the rewrite is idempotent. */
  lemma FuseRewriteIdempotent(modelDir: string)
    ensures FuseRewrite(FuseRewrite(modelDir)) == FuseRewrite(modelDir)
  {
    if PyStr.StartsWith(modelDir, GS_PREFIX) {
      FuseRewriteLeavesNoPrefix(modelDir);
    }
  }

  /** `dirpath`: the head of os.path.split of the rewritten directory, a prefix of it. */
  function FuseDir(modelDir: string): (dirpath: string)
    ensures PyStr.StartsWith(FuseRewrite(modelDir), dirpath)
    ensures |dirpath| <= |FuseRewrite(modelDir)|
  {
    PosixPath.Split(FuseRewrite(modelDir)).0
  }

  /** The directory created for a `gs://` model directory is the mount `/gcs` itself or lies under it. */
  lemma FuseDirUnderMount(modelDir: string)
    requires PyStr.StartsWith(modelDir, GS_PREFIX)
    ensures FuseDir(modelDir) == "/gcs" || PyStr.StartsWith(FuseDir(modelDir), "/gcs/")
  {
    var p := FuseRewrite(modelDir);
    assert p[..5] == GCSFUSE_PREFIX;
    assert p[4] == '/';
    var i := PosixPath.SlashEnd(p);
    assert i >= 5;
    var h := p[..i];
    assert h[..5] == GCSFUSE_PREFIX;
    assert !PosixPath.AllSlashes(h) by {
      assert h[1] == 'g';
    }
    var r := PosixPath.RStripSlashes(h);
    assert h[3] == 's';
    assert |r| >= 4;
    assert r == FuseDir(modelDir);
    if |r| == 4 {
      assert r == h[..4];
    } else {
      assert r[..5] == h[..5];
    }
  }

  /** `gcs_model_path`: os.path.join(model_dir, "model.bst"), a file named model.bst inside model_dir. */
  function ModelPath(modelDir: string): (path: string)
    ensures PyStr.StartsWith(path, modelDir) && PyStr.EndsWith(path, MODEL_FILE)
    ensures |path| > |modelDir|
  {
    assert MODEL_FILE[0] != '/';
    PosixPath.Join(modelDir, MODEL_FILE)
  }

  /** `gcs_metrics_path`: os.path.join(model_dir, "loss.json"), a file named loss.json inside model_dir. */
  function MetricsPath(modelDir: string): (path: string)
    ensures PyStr.StartsWith(path, modelDir) && PyStr.EndsWith(path, METRICS_FILE)
    ensures |path| > |modelDir|
  {
    assert METRICS_FILE[0] != '/';
    PosixPath.Join(modelDir, METRICS_FILE)
  }

  /** The directory a file is opened in: the head of os.path.split of its path. */
  function ParentDir(path: string): string {
    PosixPath.Split(path).0
  }

  /** Both artifacts land in the model directory (trailing slashes aside), under their own names. */
  lemma ArtifactsShareDirectory(modelDir: string)
    ensures PosixPath.Split(ModelPath(modelDir)) == (PosixPath.TrimHead(modelDir), MODEL_FILE)
    ensures PosixPath.Split(MetricsPath(modelDir)) == (PosixPath.TrimHead(modelDir), METRICS_FILE)
    ensures ModelPath(modelDir) != MetricsPath(modelDir)
  {
    PosixPath.SplitJoin(modelDir, MODEL_FILE);
    PosixPath.SplitJoin(modelDir, METRICS_FILE);
  }

  /** The FUSE path of a `gs://` directory starts with "/gcs/" and ends with the same character. */
  lemma FuseRewriteShape(modelDir: string)
    requires PyStr.StartsWith(modelDir, GS_PREFIX)
    ensures var p := FuseRewrite(modelDir);
      |p| >= 5 && p[..5] == GCSFUSE_PREFIX && p[|p| - 1] == modelDir[|modelDir| - 1] && !PosixPath.AllSlashes(p)
  {
    var p := FuseRewrite(modelDir);
    assert p[..5] == GCSFUSE_PREFIX;
    assert p[1] == 'g';
  }

  /** In a directory ending in '/', both files sit in the directory os.path.split takes from it. */
  lemma SlashedPathParents(p: string)
    requires p != [] && p[|p| - 1] == '/'
    ensures ParentDir(ModelPath(p)) == ParentDir(p) && ParentDir(MetricsPath(p)) == ParentDir(p)
    ensures |ParentDir(p)| < |ModelPath(p)| && |ParentDir(p)| < |MetricsPath(p)|
  {
    ArtifactsShareDirectory(p);
    PosixPath.SplitSlashEnded(p);
  }

  /** In a directory not ending in '/', both files sit in the directory itself, which is longer than its own split head. */
  lemma UnslashedPathParents(p: string)
    requires p != [] && p[|p| - 1] != '/'
    ensures ParentDir(ModelPath(p)) == p && ParentDir(MetricsPath(p)) == p
    ensures |ParentDir(p)| < |p|
  {
    ArtifactsShareDirectory(p);
    PosixPath.SplitUnslashed(p);
  }

  /** The last character of a non-empty string decides whether it ends in '/'. */
  lemma EndsWithSlash(s: string)
    requires s != []
    ensures PyStr.EndsWith(s, "/") <==> s[|s| - 1] == '/'
  {
    assert s[|s| - 1..] == [s[|s| - 1]];
  }

  /**
   * The files are written into the directory that was created exactly when
   * the `gs://` model directory ends in '/'. Without the trailing slash the
   * created directory is the model directory's parent.
   */
  lemma WritesLandInCreatedDir(modelDir: string)
    requires PyStr.StartsWith(modelDir, GS_PREFIX)
    ensures ParentDir(ModelPath(FuseRewrite(modelDir))) == FuseDir(modelDir) <==> PyStr.EndsWith(modelDir, "/")
    ensures ParentDir(MetricsPath(FuseRewrite(modelDir))) == ParentDir(ModelPath(FuseRewrite(modelDir)))
  {
    var p := FuseRewrite(modelDir);
    FuseRewriteShape(modelDir);
    EndsWithSlash(modelDir);
    assert FuseDir(modelDir) == ParentDir(p);
    if p[|p| - 1] == '/' {
      SlashedPathParents(p);
    } else {
      UnslashedPathParents(p);
    }
  }

  /** The metrics file holds "loss: " followed by the loss as Python prints it, which can be read back. */
  function MetricsText(lossText: string): (t: string)
    ensures PyStr.StartsWith(t, "loss: ") && t[6..] == lossText
  {
    "loss: " + lossText
  }

  /** Different losses give different metrics files: the text after "loss: " is the loss itself. */
  lemma MetricsTextInjective(a: string, b: string)
    requires MetricsText(a) == MetricsText(b)
    ensures a == b
  {
    assert a == MetricsText(a)[6..] == MetricsText(b)[6..] == b;
  }

  /** The parsed command line; train_xgboost reassigns `model_dir` in place. */
  class Args {
    var modelDir: string
    const runLocally: bool

    constructor (modelDir: string, runLocally: bool)
      ensures this.modelDir == modelDir && this.runLocally == runLocally
    {
      this.modelDir := modelDir;
      this.runLocally := runLocally;
    }
  }

  datatype FileContent = SavedBooster | Text(text: string)

  /** The OSError raised by os.makedirs, save_model or open(..., "w"). */
  datatype IoError = FileExists(path: string) | NoSuchDirectory(path: string) | IsADirectory(path: string)

  /** Why writing a file at `path` raises, given the existing directories: its directory is missing, or the path is a directory. */
  function WriteError(dirs: set<string>, path: string): Option<IoError> {
    if ParentDir(path) !in dirs then Some(NoSuchDirectory(ParentDir(path)))
    else if path in dirs then Some(IsADirectory(path))
    else None
  }

  /** The model directory, the directories, the files, and the exception that ended the block, if any. */
  datatype SaveState = SaveState(
    modelDir: string, dirs: set<string>, files: map<string, FileContent>, error: Option<IoError>)

  /** One GCSFuse conversion block: rewrite, then create `dirpath` unless it is a directory; a file there makes makedirs raise. */
  function Convert(modelDir: string, dirs: set<string>, files: map<string, FileContent>): SaveState {
    if !PyStr.StartsWith(modelDir, GS_PREFIX) then SaveState(modelDir, dirs, files, None)
    else
      var dirpath := FuseDir(modelDir);
      if dirpath in dirs then SaveState(FuseRewrite(modelDir), dirs, files, None)
      else if dirpath in files then SaveState(FuseRewrite(modelDir), dirs, files, Some(FileExists(dirpath)))
      else SaveState(FuseRewrite(modelDir), dirs + {dirpath}, files, None)
  }

  /** save_model at `modelPath`, then the metrics file at `metricsPath`; the first write that raises ends the block. */
  function WritePair(c: SaveState, modelPath: string, metricsPath: string, lossText: string): SaveState {
    if WriteError(c.dirs, modelPath).Some? then c.(error := WriteError(c.dirs, modelPath))
    else if WriteError(c.dirs, metricsPath).Some? then
      c.(files := c.files[modelPath := SavedBooster], error := WriteError(c.dirs, metricsPath))
    else c.(files := c.files[modelPath := SavedBooster][metricsPath := Text(MetricsText(lossText))], error := None)
  }

  /** Lines 103-110 after a conversion that raised nothing. */
  function WriteArtifacts(c: SaveState, lossText: string): SaveState {
    WritePair(c, ModelPath(c.modelDir), MetricsPath(c.modelDir), lossText)
  }

  /** Lines 78-110 as a value: the state after the block, or at the exception that ended it. */
  function Save(modelDir: string, runLocally: bool, dirs: set<string>, files: map<string, FileContent>, lossText: string)
    : SaveState
  {
    if runLocally then SaveState(modelDir, dirs, files, None)
    else
      var c := Convert(modelDir, dirs, files);
      if c.error.Some? then c else WriteArtifacts(c, lossText)
  }

  /**
   * Both files go into the model directory: the writes succeed exactly when
   * that directory exists and neither path is a directory, and a missing
   * directory leaves every file as it was.
   */
  lemma WriteArtifactsResult(c: SaveState, lossText: string)
    ensures var s := WriteArtifacts(c, lossText);
      var dir := ParentDir(ModelPath(c.modelDir));
      && s.modelDir == c.modelDir && s.dirs == c.dirs
      && (s.error.None? <==> dir in c.dirs && ModelPath(c.modelDir) !in c.dirs && MetricsPath(c.modelDir) !in c.dirs)
      && (s.error.None? ==>
           s.files == c.files[ModelPath(c.modelDir) := SavedBooster][MetricsPath(c.modelDir) := Text(MetricsText(lossText))])
      && (dir !in c.dirs ==> s.error == Some(NoSuchDirectory(dir)) && s.files == c.files)
  {
    ArtifactsShareDirectory(c.modelDir);
    WritePairResult(c, ModelPath(c.modelDir), MetricsPath(c.modelDir), lossText);
  }

  /** Two files in one directory: both are written exactly when the directory exists and neither path is a directory. */
  lemma WritePairResult(c: SaveState, modelPath: string, metricsPath: string, lossText: string)
    requires ParentDir(metricsPath) == ParentDir(modelPath)
    ensures var s := WritePair(c, modelPath, metricsPath, lossText);
      var dir := ParentDir(modelPath);
      && s.modelDir == c.modelDir && s.dirs == c.dirs
      && (s.error.None? <==> dir in c.dirs && modelPath !in c.dirs && metricsPath !in c.dirs)
      && (s.error.None? ==> s.files == c.files[modelPath := SavedBooster][metricsPath := Text(MetricsText(lossText))])
      && (dir !in c.dirs ==> s.error == Some(NoSuchDirectory(dir)) && s.files == c.files)
  {
  }

  /** One conversion block: the directory becomes its rewrite, and at most `dirpath` is added. */
  lemma ConvertResult(modelDir: string, dirs: set<string>, files: map<string, FileContent>)
    ensures var c := Convert(modelDir, dirs, files);
      && c.modelDir == FuseRewrite(modelDir) && c.files == files
      && dirs <= c.dirs && c.dirs - dirs <= {FuseDir(modelDir)}
      && (c.error.Some? <==> PyStr.StartsWith(modelDir, GS_PREFIX) && FuseDir(modelDir) !in dirs && FuseDir(modelDir) in files)
      && (PyStr.StartsWith(modelDir, GS_PREFIX) && c.error.None? ==> c.dirs == dirs + {FuseDir(modelDir)})
  {
  }

  /** Running locally skips the whole block: nothing is rewritten, created or written. */
  lemma SaveLocallyChangesNothing(modelDir: string, dirs: set<string>, files: map<string, FileContent>, lossText: string)
    ensures Save(modelDir, true, dirs, files, lossText) == SaveState(modelDir, dirs, files, None)
  {
  }

  /** Save, once the conversion has run: the block stops at its exception or goes on to write both files. */
  lemma SaveIsConvertThenWrite(modelDir: string, dirs: set<string>, files: map<string, FileContent>, lossText: string)
    ensures var c := Convert(modelDir, dirs, files);
      Save(modelDir, false, dirs, files, lossText)
        == if c.error.Some? then c else WritePair(c, ModelPath(c.modelDir), MetricsPath(c.modelDir), lossText)
  {
  }

  /** A `gs://` directory without a trailing slash: both files go into the rewritten path itself, which is not the created one. */
  lemma UnslashedWritesIntoRewrite(modelDir: string)
    requires PyStr.StartsWith(modelDir, GS_PREFIX) && !PyStr.EndsWith(modelDir, "/")
    ensures var p := FuseRewrite(modelDir);
      ParentDir(ModelPath(p)) == p && ParentDir(MetricsPath(p)) == p && FuseDir(modelDir) != p
  {
    var p := FuseRewrite(modelDir);
    FuseRewriteShape(modelDir);
    EndsWithSlash(modelDir);
    assert FuseDir(modelDir) == ParentDir(p);
    UnslashedPathParents(p);
  }

  /** A `gs://` directory with a trailing slash: both files go into the created directory, which is shorter than either path. */
  lemma SlashedWritesIntoCreated(modelDir: string)
    requires PyStr.StartsWith(modelDir, GS_PREFIX) && PyStr.EndsWith(modelDir, "/")
    ensures var p := FuseRewrite(modelDir);
      && ParentDir(ModelPath(p)) == FuseDir(modelDir) && ParentDir(MetricsPath(p)) == FuseDir(modelDir)
      && |FuseDir(modelDir)| < |ModelPath(p)| && |FuseDir(modelDir)| < |MetricsPath(p)|
  {
    var p := FuseRewrite(modelDir);
    FuseRewriteShape(modelDir);
    EndsWithSlash(modelDir);
    assert FuseDir(modelDir) == ParentDir(p);
    SlashedPathParents(p);
  }

  /** A directory without the `gs://` prefix passes through the conversion block untouched. */
  lemma ConvertWithoutPrefix(modelDir: string, dirs: set<string>, files: map<string, FileContent>)
    requires !PyStr.StartsWith(modelDir, GS_PREFIX)
    ensures Convert(modelDir, dirs, files) == SaveState(modelDir, dirs, files, None)
  {
  }

  /** A successful save rewrote the directory once and wrote exactly the two artifacts, into an existing directory. */
  lemma SaveSucceeded(modelDir: string, dirs: set<string>, files: map<string, FileContent>, lossText: string)
    requires Save(modelDir, false, dirs, files, lossText).error.None?
    ensures var s := Save(modelDir, false, dirs, files, lossText);
      && s.modelDir == FuseRewrite(modelDir)
      && dirs <= s.dirs && s.dirs - dirs <= {FuseDir(modelDir)}
      && ParentDir(ModelPath(s.modelDir)) in s.dirs
      && ParentDir(MetricsPath(s.modelDir)) in s.dirs
      && s.files == files[ModelPath(s.modelDir) := SavedBooster][MetricsPath(s.modelDir) := Text(MetricsText(lossText))]
  {
    var c := Convert(modelDir, dirs, files);
    ConvertResult(modelDir, dirs, files);
    SaveIsConvertThenWrite(modelDir, dirs, files, lossText);
    ArtifactsShareDirectory(c.modelDir);
    WritePairResult(c, ModelPath(c.modelDir), MetricsPath(c.modelDir), lossText);
  }

  /**
   * A `gs://` model directory without a trailing slash, whose FUSE path is not
   * already a directory: only its parent is created, so save_model raises and
   * no file is written.
   */
  lemma SaveFailsWithoutTrailingSlash(modelDir: string, dirs: set<string>, files: map<string, FileContent>, lossText: string)
    requires PyStr.StartsWith(modelDir, GS_PREFIX) && !PyStr.EndsWith(modelDir, "/")
    requires FuseDir(modelDir) !in files
    requires FuseRewrite(modelDir) !in dirs
    ensures Save(modelDir, false, dirs, files, lossText).error == Some(NoSuchDirectory(FuseRewrite(modelDir)))
    ensures Save(modelDir, false, dirs, files, lossText).files == files
    ensures Save(modelDir, false, dirs, files, lossText).dirs == dirs + {FuseDir(modelDir)}
  {
    var p := FuseRewrite(modelDir);
    var c := Convert(modelDir, dirs, files);
    ConvertResult(modelDir, dirs, files);
    SaveIsConvertThenWrite(modelDir, dirs, files, lossText);
    UnslashedWritesIntoRewrite(modelDir);
    WriteIntoMissingDir(c, ModelPath(p), MetricsPath(p), p, FuseDir(modelDir), dirs, lossText);
  }

  /** Writing into a directory that neither existed before nor was the one just added raises and writes nothing. */
  lemma WriteIntoMissingDir(
    c: SaveState, modelPath: string, metricsPath: string, dir: string, added: string, dirs: set<string>, lossText: string)
    requires c.dirs - dirs <= {added} && dir !in dirs && added != dir
    requires ParentDir(modelPath) == dir && ParentDir(metricsPath) == dir
    ensures WritePair(c, modelPath, metricsPath, lossText).error == Some(NoSuchDirectory(dir))
    ensures WritePair(c, modelPath, metricsPath, lossText).files == c.files
    ensures WritePair(c, modelPath, metricsPath, lossText).dirs == c.dirs
  {
    assert dir !in c.dirs - dirs;
    WritePairResult(c, modelPath, metricsPath, lossText);
  }

  /**
   * A `gs://` model directory with a trailing slash: the created directory is
   * the one the files go into, so both are written unless something already
   * blocks a path.
   */
  lemma SaveSucceedsWithTrailingSlash(modelDir: string, dirs: set<string>, files: map<string, FileContent>, lossText: string)
    requires PyStr.StartsWith(modelDir, GS_PREFIX) && PyStr.EndsWith(modelDir, "/")
    requires FuseDir(modelDir) in dirs || FuseDir(modelDir) !in files
    requires ModelPath(FuseRewrite(modelDir)) !in dirs && MetricsPath(FuseRewrite(modelDir)) !in dirs
    ensures var s := Save(modelDir, false, dirs, files, lossText);
      && s.error.None?
      && s.files == files[ModelPath(s.modelDir) := SavedBooster][MetricsPath(s.modelDir) := Text(MetricsText(lossText))]
  {
    var p := FuseRewrite(modelDir);
    var c := Convert(modelDir, dirs, files);
    ConvertResult(modelDir, dirs, files);
    SaveIsConvertThenWrite(modelDir, dirs, files, lossText);
    SlashedWritesIntoCreated(modelDir);
    assert c.error.None? && c.modelDir == p && c.files == files;
    WriteIntoPresentDir(c, ModelPath(p), MetricsPath(p), FuseDir(modelDir), dirs, lossText);
  }

  /** Writing two files into an existing directory, where neither path was or became a directory, writes both. */
  lemma WriteIntoPresentDir(
    c: SaveState, modelPath: string, metricsPath: string, dir: string, dirs: set<string>, lossText: string)
    requires dir in c.dirs && c.dirs - dirs <= {dir}
    requires modelPath !in dirs && metricsPath !in dirs && modelPath != dir && metricsPath != dir
    requires ParentDir(modelPath) == dir && ParentDir(metricsPath) == dir
    ensures WritePair(c, modelPath, metricsPath, lossText).modelDir == c.modelDir
    ensures WritePair(c, modelPath, metricsPath, lossText).error.None?
    ensures WritePair(c, modelPath, metricsPath, lossText).files
      == c.files[modelPath := SavedBooster][metricsPath := Text(MetricsText(lossText))]
  {
    assert modelPath !in c.dirs - dirs && metricsPath !in c.dirs - dirs;
    WritePairResult(c, modelPath, metricsPath, lossText);
  }

  /** The directories and files the training container sees, FUSE mount included. */
  class FileSystem {
    var dirs: set<string>
    var files: map<string, FileContent>

    constructor (dirs: set<string>, files: map<string, FileContent>)
      ensures this.dirs == dirs && this.files == files
    {
      this.dirs := dirs;
      this.files := files;
    }

    /** `if not os.path.isdir(path): os.makedirs(path)`; makedirs raises FileExistsError when a file sits at the path. */
    method MakeDirsIfMissing(path: string) returns (err: Option<IoError>)
      modifies this`dirs
      ensures err == if path !in old(dirs) && path in files then Some(FileExists(path)) else None
      ensures dirs == if err.None? then old(dirs) + {path} else old(dirs)
    {
      err := None;
      if path !in dirs {
        if path in files {
          err := Some(FileExists(path));
        } else {
          dirs := dirs + {path};
        }
      }
    }

    /** Writing a file replaces whatever the path held, or raises without writing. */
    method Write(path: string, content: FileContent) returns (err: Option<IoError>)
      modifies this`files
      ensures err == WriteError(dirs, path)
      ensures files == if err.None? then old(files)[path := content] else old(files)
    {
      err := WriteError(dirs, path);
      if err.None? {
        files := files[path := content];
      }
    }
  }

  /** The GCSFuse conversion block (lines 80-86, repeated verbatim at 94-100). */
  method ConvertToFuse(args: Args, fs: FileSystem) returns (err: Option<IoError>)
    modifies args`modelDir, fs`dirs
    ensures SaveState(args.modelDir, fs.dirs, fs.files, err) == Convert(old(args.modelDir), old(fs.dirs), fs.files)
  {
    err := None;
    if PyStr.StartsWith(args.modelDir, GS_PREFIX) {
      args.modelDir := PyStr.ReplaceAll(args.modelDir, GS_PREFIX, GCSFUSE_PREFIX);
      var dirpath := PosixPath.Split(args.modelDir).0;
      err := fs.MakeDirsIfMissing(dirpath);
    }
  }

  /** Lines 103-110: save_model at the model path, then the metrics text at the metrics path. */
  method WriteArtifactFiles(fs: FileSystem, modelDir: string, modelPath: string, metricsPath: string, lossText: string)
    returns (err: Option<IoError>)
    modifies fs`files
    ensures SaveState(modelDir, fs.dirs, fs.files, err)
      == WritePair(SaveState(modelDir, fs.dirs, old(fs.files), None), modelPath, metricsPath, lossText)
  {
    err := fs.Write(modelPath, SavedBooster);
    if err.Some? {
      return;
    }
    err := fs.Write(metricsPath, Text(MetricsText(lossText)));
  }

  /** Lines 78-110 of train_xgboost, after training has produced the booster and its loss. */
  method SaveArtifacts(args: Args, fs: FileSystem, lossText: string) returns (err: Option<IoError>)
    modifies args, fs
    ensures SaveState(args.modelDir, fs.dirs, fs.files, err)
      == Save(old(args.modelDir), args.runLocally, old(fs.dirs), old(fs.files), lossText)
  {
    err := None;
    if !args.runLocally {
      SaveIsConvertThenWrite(old(args.modelDir), old(fs.dirs), old(fs.files), lossText);
      err := ConvertToFuse(args, fs);
      if err.Some? {
        return;
      }
      // the first model path is only logged; the second conversion finds nothing to do
      ConvertResult(old(args.modelDir), old(fs.dirs), old(fs.files));
      if PyStr.StartsWith(old(args.modelDir), GS_PREFIX) {
        FuseRewriteLeavesNoPrefix(old(args.modelDir));
      }
      ConvertWithoutPrefix(args.modelDir, fs.dirs, fs.files);
      err := ConvertToFuse(args, fs);
      err := WriteArtifactFiles(fs, args.modelDir, ModelPath(args.modelDir), MetricsPath(args.modelDir), lossText);
    }
  }
}
