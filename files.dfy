/** src/utils/files.py: making sure a directory exists, and finding the files
    under a directory whose names end with one of a list of extensions. The
    filesystem itself is a parameter: the directories that exist and the
    files written so far. */
module Files {
  import opened PyText
  import opened PyPaths

  /** The filesystem as far as the pipeline changes it: the set of
      directories that exist, and every file written, in write order, with
      what was written (`C` is the kind of content a step writes). */
  class FileSystem<C> {
    var dirs: set<string>
    var writes: seq<(string, C)>

    constructor (existing: set<string>)
      ensures dirs == existing && writes == []
    {
      dirs := existing;
      writes := [];
    }

    /** `ensure_dir(path)`: `os.makedirs(path, exist_ok=True)`. The directory
        exists afterwards whether or not it did before; nothing is written. */
    method EnsureDir(path: string)
      modifies this
      ensures dirs == WithDir(old(dirs), path)
      ensures writes == old(writes)
    {
      dirs := dirs + {path};
    }

    /** One file saved at `path` (an image writer or a json dump). */
    method Write(path: string, content: C)
      modifies this
      ensures writes == old(writes) + [(path, content)]
      ensures dirs == old(dirs)
    {
      writes := writes + [(path, content)];
    }
  }

  /** The directories that exist after `ensure_dir(path)`. */
  function WithDir(dirs: set<string>, path: string): (r: set<string>)
    ensures path in r && dirs <= r && r - dirs <= {path}
  {
    dirs + {path}
  }

  /** An existing directory is not an error for `ensure_dir`, so calling it
      twice leaves the same directories as calling it once. */
  lemma EnsureDirIdempotent(dirs: set<string>, path: string)
    ensures WithDir(WithDir(dirs, path), path) == WithDir(dirs, path)
    ensures path in dirs ==> WithDir(dirs, path) == dirs
  {
  }

  /** One triple of `os.walk`: a directory and the names of the files in it
      (the list of subdirectories is not used). */
  datatype WalkEntry = WalkEntry(root: string, files: seq<string>)

  /** The selection in `find_files`: the lower-cased file name ends with at
      least one of the extensions, compared as given. */
  predicate HasExtension(name: string, extensions: seq<string>) {
    exists ext :: ext in extensions && EndsWith(Lower(name), ext)
  }

  /** The paths `find_files` yields for one directory: the root joined with
      each selected name, in listing order. */
  function SelectedIn(root: string, names: seq<string>, extensions: seq<string>): seq<string> {
    if names == [] then []
    else
      var last := names[|names| - 1];
      SelectedIn(root, names[..|names| - 1], extensions)
        + (if HasExtension(last, extensions) then [Join(root, last)] else [])
  }

  /** Everything `find_files` yields, directory after directory in walk
      order. */
  function Found(walk: seq<WalkEntry>, extensions: seq<string>): seq<string> {
    if walk == [] then []
    else
      var last := walk[|walk| - 1];
      Found(walk[..|walk| - 1], extensions) + SelectedIn(last.root, last.files, extensions)
  }

  /** `find_files(directory, extensions)` run to exhaustion, where `walk` is
      what `os.walk(directory)` yields. */
  method FindFiles(walk: seq<WalkEntry>, extensions: seq<string>) returns (found: seq<string>)
    ensures found == Found(walk, extensions)
  {
    found := [];
    var d := 0;
    while d < |walk|
      invariant 0 <= d <= |walk|
      invariant found == Found(walk[..d], extensions)
    {
      var entry := walk[d];
      var j := 0;
      ghost var before := found;
      while j < |entry.files|
        invariant 0 <= j <= |entry.files|
        invariant found == before + SelectedIn(entry.root, entry.files[..j], extensions)
      {
        var file := entry.files[j];
        var matches := false;
        var e := 0;
        while e < |extensions| && !matches
          invariant 0 <= e <= |extensions|
          invariant matches <==> exists k :: 0 <= k < e && EndsWith(Lower(file), extensions[k])
        {
          matches := EndsWith(Lower(file), extensions[e]);
          e := e + 1;
        }
        assert matches <==> HasExtension(file, extensions);
        if matches {
          found := found + [Join(entry.root, file)];
        }
        assert entry.files[..j + 1][..j] == entry.files[..j];
        j := j + 1;
      }
      assert entry.files[..j] == entry.files;
      assert walk[..d + 1][..d] == walk[..d];
      d := d + 1;
    }
    assert walk[..d] == walk;
  }

  /** A path is yielded exactly when it is some walked directory joined with
      one of its file names that carries a listed extension. */
  lemma {:induction false} SelectedInMembers(root: string, names: seq<string>, extensions: seq<string>, p: string)
    ensures p in SelectedIn(root, names, extensions) <==>
            exists name :: name in names && HasExtension(name, extensions) && p == Join(root, name)
  {
    if names != [] {
      var init := names[..|names| - 1];
      SelectedInMembers(root, init, extensions, p);
      assert names == init + [names[|names| - 1]];
    }
  }

  lemma {:induction false} FoundMembers(walk: seq<WalkEntry>, extensions: seq<string>, p: string)
    ensures p in Found(walk, extensions) <==>
            exists entry :: entry in walk && p in SelectedIn(entry.root, entry.files, extensions)
  {
    if walk != [] {
      var init := walk[..|walk| - 1];
      FoundMembers(init, extensions, p);
      assert walk == init + [walk[|walk| - 1]];
    }
  }

  /** Every yielded path is the walk root joined with a selected file name. */
  lemma FoundIsSound(walk: seq<WalkEntry>, extensions: seq<string>, p: string)
    requires p in Found(walk, extensions)
    ensures exists entry, name :: entry in walk && name in entry.files &&
              HasExtension(name, extensions) && p == Join(entry.root, name)
  {
    FoundMembers(walk, extensions, p);
    var entry :| entry in walk && p in SelectedIn(entry.root, entry.files, extensions);
    SelectedInMembers(entry.root, entry.files, extensions, p);
  }

  /** Every selected file of every walked directory is yielded. */
  lemma FoundIsComplete(walk: seq<WalkEntry>, extensions: seq<string>, entry: WalkEntry, name: string)
    requires entry in walk && name in entry.files && HasExtension(name, extensions)
    ensures Join(entry.root, name) in Found(walk, extensions)
  {
    SelectedInMembers(entry.root, entry.files, extensions, Join(entry.root, name));
    FoundMembers(walk, extensions, Join(entry.root, name));
  }

  /** With no extensions to match, nothing is yielded. */
  lemma {:induction false} NoExtensionsFindNothing(walk: seq<WalkEntry>)
    ensures Found(walk, []) == []
  {
    if walk != [] {
      NoExtensionsFindNothing(walk[..|walk| - 1]);
      var last := walk[|walk| - 1];
      NoExtensionsSelectNothing(last.root, last.files);
    }
  }

  lemma {:induction false} NoExtensionsSelectNothing(root: string, names: seq<string>)
    ensures SelectedIn(root, names, []) == []
  {
    if names != [] {
      NoExtensionsSelectNothing(root, names[..|names| - 1]);
    }
  }

  /** Only the file name is lower-cased: an extension written with an
      upper-case letter never matches anything, so adding one changes no
      selection. */
  lemma UpperCaseExtensionNeverMatches(name: string, extensions: seq<string>, ext: string)
    requires HasUpper(ext)
    ensures HasExtension(name, extensions + [ext]) <==> HasExtension(name, extensions)
  {
    UpperSuffixNeverMatchesLowered(name, ext);
  }

  /** The case of the file name does not matter. */
  lemma NameCaseIgnored(name: string, extensions: seq<string>)
    ensures HasExtension(Lower(name), extensions) <==> HasExtension(name, extensions)
  {
    LowerIsLower(name);
  }
}
