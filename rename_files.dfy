/** The renamer of notebooks/NUPH_analysis/change_raw_filenames.py: every
    regular file of a directory loses everything up to and including the
    first '_' of its name. The name rule is a function; the directory is a
    map from names to entries that the renaming loop updates in place. */
module RenameFiles {
  import PosixPath

  // ---------------------------------------------------------------------------
  // The name rule

  /** The position of the first `c` in `s`. */
  function IndexOf(s: string, c: char): (i: nat)
    requires c in s
    ensures i < |s| && s[i] == c && c !in s[..i]
  {
    if s[0] == c then 0
    else
      assert s == [s[0]] + s[1..];
      var j := IndexOf(s[1..], c);
      assert s[..j + 1] == [s[0]] + s[1..][..j];
      j + 1
  }

  /** `s.split(sep, 1)`: the text before the first separator and the text after
      it, or `[s]` when there is no separator. */
  function SplitOnce(s: string, sep: char): (parts: seq<string>)
    ensures |parts| == (if sep in s then 2 else 1)
  {
    if sep in s then
      var i := IndexOf(s, sep);
      [s[..i], s[i + 1..]]
    else [s]
  }

  /** `filename.split('_', 1)[-1]`. */
  function NewName(filename: string): string
  {
    var parts := SplitOnce(filename, '_');
    parts[|parts| - 1]
  }

  /** A name without '_' is kept. */
  lemma NoUnderscoreUnchanged(filename: string)
    requires '_' !in filename
    ensures NewName(filename) == filename
  {
  }

  /** A name with '_' becomes what follows its first '_': the name is some
      underscore-free prefix, '_', and the new name; and any such split of the
      name gives the new name. */
  lemma SplitAtFirstUnderscore(filename: string, prefix: string, rest: string)
    requires '_' in filename
    ensures var i := IndexOf(filename, '_');
      filename == filename[..i] + "_" + NewName(filename) && '_' !in filename[..i]
    ensures filename == prefix + "_" + rest && '_' !in prefix ==> NewName(filename) == rest
  {
    var i := IndexOf(filename, '_');
    assert filename == filename[..i] + "_" + filename[i + 1..];
    if filename == prefix + "_" + rest && '_' !in prefix {
      assert filename[|prefix|] == '_';
      assert filename[i + 1..] == rest;
    }
  }

  /** The new name is the end of the old one, so never longer; it is shorter
      exactly when the old name has an underscore. */
  lemma NewNameIsSuffix(filename: string)
    ensures var r := NewName(filename);
      |r| <= |filename| && r == filename[|filename| - |r|..]
      && (|r| < |filename| <==> '_' in filename)
  {
    if '_' in filename {
      var i := IndexOf(filename, '_');
      assert NewName(filename) == filename[i + 1..];
    }
  }

  /** Different names can collide: "1_a" and "2_a" both become "a". */
  lemma NotInjective()
    ensures NewName("1_a") == NewName("2_a") == "a"
  {
    assert '_' in "1_a" && IndexOf("1_a", '_') == 1;
    assert '_' in "2_a" && IndexOf("2_a", '_') == 1;
  }

  /** A name listed in a directory has no '/', and then neither has the new name. */
  lemma NewNameHasNoSlash(filename: string)
    requires '/' !in filename
    ensures '/' !in NewName(filename)
  {
    NewNameIsSuffix(filename);
  }

  /** The old and the new path differ only in their last component: both are the
      directory part of `directory` followed by the name. */
  lemma SameDirectory(directory: string, filename: string)
    requires '/' !in filename
    ensures PosixPath.Join(directory, filename) == PosixPath.DirPrefix(directory) + filename
    ensures PosixPath.Join(directory, NewName(filename)) == PosixPath.DirPrefix(directory) + NewName(filename)
  {
    NewNameHasNoSlash(filename);
    PosixPath.JoinRelative(directory, filename);
    PosixPath.JoinRelative(directory, NewName(filename));
  }

  // ---------------------------------------------------------------------------
  // The directory

  /** What a directory holds under a name: a regular file with its contents, or
      something that is not a regular file (a sub-directory). */
  datatype Entry<C> = RegularFile(content: C) | Directory

  /** The printed report of one rename: "Renamed: {old_file} to {new_file}". */
  datatype Renamed = Renamed(oldFile: string, newFile: string)

  /** Where a loop over the listing got to: the directory, what was reported,
      and the name os.rename raised on, if it did. */
  datatype RenameRun<C> = RenameRun(entries: map<string, Entry<C>>, report: seq<Renamed>, failedOn: seq<string>)

  /** The names that resolve to a directory whatever the listing holds: the path
      "dir/" of the empty name, "." and "..". */
  predicate IsDirectoryPath<C>(entries: map<string, Entry<C>>, name: string)
  {
    name == "" || name == "." || name == ".." || (name in entries && entries[name].Directory?)
  }

  /** One iteration of `rename_files` on `filename`: skipped unless it is a regular
      file now; renaming onto itself changes nothing; onto a directory raises
      (POSIX rename); otherwise the file moves, replacing a regular file of that name. */
  function RenameOne<C>(directory: string, entries: map<string, Entry<C>>, filename: string): (r: RenameRun<C>)
  {
    if filename in entries && entries[filename].RegularFile? then
      var target := NewName(filename);
      if target == filename then
        RenameRun(entries, [Renamed(PosixPath.Join(directory, filename), PosixPath.Join(directory, target))], [])
      else if IsDirectoryPath(entries, target) then
        RenameRun(entries, [], [filename])
      else
        RenameRun((entries - {filename})[target := entries[filename]],
                  [Renamed(PosixPath.Join(directory, filename), PosixPath.Join(directory, target))], [])
    else RenameRun(entries, [], [])
  }

  /** `rename_files` over the listing taken by `os.listdir`, in its order; the
      first exception ends the loop. */
  function RenameAll<C>(directory: string, entries: map<string, Entry<C>>, listing: seq<string>): RenameRun<C>
    decreases |listing|
  {
    if listing == [] then RenameRun(entries, [], [])
    else
      var step := RenameOne(directory, entries, listing[0]);
      if step.failedOn != [] then step
      else
        var rest := RenameAll(directory, step.entries, listing[1..]);
        RenameRun(rest.entries, step.report + rest.report, rest.failedOn)
  }

  /** One step keeps every directory, adds none, and moves only a regular file. */
  lemma RenameOneKeepsDirectories<C>(directory: string, entries: map<string, Entry<C>>, filename: string)
    ensures var r := RenameOne(directory, entries, filename).entries;
      (forall n :: n in entries && entries[n].Directory? ==> n in r && r[n].Directory?)
      && (forall n :: n in r && r[n].Directory? ==> n in entries && entries[n].Directory?)
  {
  }

  /** The whole loop leaves directories where they are and creates none. */
  lemma {:induction false} DirectoriesUntouched<C>(directory: string, entries: map<string, Entry<C>>, listing: seq<string>)
    ensures var r := RenameAll(directory, entries, listing).entries;
      (forall n :: n in entries && entries[n].Directory? ==> n in r && r[n].Directory?)
      && (forall n :: n in r && r[n].Directory? ==> n in entries && entries[n].Directory?)
    decreases |listing|
  {
    if listing != [] {
      var step := RenameOne(directory, entries, listing[0]);
      RenameOneKeepsDirectories(directory, entries, listing[0]);
      if step.failedOn == [] {
        DirectoriesUntouched(directory, step.entries, listing[1..]);
      }
    }
  }

  /** A listed name that is not a regular file is passed over: nothing changes and nothing is reported. */
  lemma NonFileSkipped<C>(directory: string, entries: map<string, Entry<C>>, filename: string)
    requires filename !in entries || entries[filename].Directory?
    ensures RenameOne(directory, entries, filename) == RenameRun(entries, [], [])
  {
  }

  /** Renaming a regular file whose new name is not a directory puts its contents
      under the new name (when the name has no '_' the file stays where it is):
      the old name goes, the new one comes, no other name appears or changes,
      and the move is reported once. */
  lemma FileMoves<C>(directory: string, entries: map<string, Entry<C>>, filename: string)
    requires filename in entries && entries[filename].RegularFile?
    requires !IsDirectoryPath(entries, NewName(filename))
    ensures var r := RenameOne(directory, entries, filename);
      r.failedOn == [] && NewName(filename) in r.entries && r.entries[NewName(filename)] == entries[filename]
      && (NewName(filename) != filename ==> filename !in r.entries)
      && (forall n :: n in entries && n != filename && n != NewName(filename) ==> n in r.entries && r.entries[n] == entries[n])
      && r.entries.Keys == (entries.Keys - {filename}) + {NewName(filename)}
      && r.report == [Renamed(PosixPath.Join(directory, filename), PosixPath.Join(directory, NewName(filename)))]
  {
  }

  /** A run that reported `done` before going on as `rest`. */
  function Continue<C>(done: seq<Renamed>, rest: RenameRun<C>): RenameRun<C>
  {
    RenameRun(rest.entries, done + rest.report, rest.failedOn)
  }

  lemma ContinueTwice<C>(a: seq<Renamed>, b: seq<Renamed>, rest: RenameRun<C>)
    ensures Continue(a, Continue(b, rest)) == Continue(a + b, rest)
  {
  }

  /** The loop from position k is one step and then the loop from position k + 1. */
  lemma UnfoldRenameAll<C>(directory: string, entries: map<string, Entry<C>>, listing: seq<string>, k: nat)
    requires k < |listing|
    ensures var step := RenameOne(directory, entries, listing[k]);
      RenameAll(directory, entries, listing[k..])
      == if step.failedOn != [] then step
         else Continue(step.report, RenameAll(directory, step.entries, listing[k + 1..]))
  {
    assert listing[k..][0] == listing[k] && listing[k..][1..] == listing[k + 1..];
  }

  /** The directory of the script: `rename_files` works on it. */
  const DIRECTORY: string := "notebooks/NUPH_analysis/data/raw"

  /** In the script's own directory, a listed name and its new name are both
      entries of "notebooks/NUPH_analysis/data/raw". */
  lemma ConfiguredPaths(filename: string)
    requires '/' !in filename
    ensures PosixPath.Join(DIRECTORY, filename) == "notebooks/NUPH_analysis/data/raw/" + filename
    ensures PosixPath.Join(DIRECTORY, NewName(filename)) == "notebooks/NUPH_analysis/data/raw/" + NewName(filename)
  {
    SameDirectory(DIRECTORY, filename);
  }

  /** The directory being renamed in, with what it reports. */
  class Folder<C> {
    var entries: map<string, Entry<C>>
    var report: seq<Renamed>

    constructor (initial: map<string, Entry<C>>)
      ensures entries == initial && report == []
    {
      entries := initial;
      report := [];
    }

    /** `rename_files(directory)`; `listing` is what `os.listdir` returned, in its
        order. `failedOn` is empty when the loop ran to the end, and otherwise
        names the file whose os.rename raised. */
    method RenameFilesIn(directory: string, listing: seq<string>) returns (failedOn: seq<string>)
      modifies this
      ensures entries == RenameAll(directory, old(entries), listing).entries
      ensures report == old(report) + RenameAll(directory, old(entries), listing).report
      ensures failedOn == RenameAll(directory, old(entries), listing).failedOn
    {
      ghost var whole := RenameAll(directory, entries, listing);
      ghost var reported := report;
      ghost var done: seq<Renamed> := [];
      var k := 0;
      while k < |listing|
        invariant 0 <= k <= |listing|
        invariant report == reported + done
        invariant whole == Continue(done, RenameAll(directory, entries, listing[k..]))
      {
        var filename := listing[k];
        ghost var before := entries;
        ghost var step := RenameOne(directory, entries, filename);
        UnfoldRenameAll(directory, entries, listing, k);
        var oldFile := PosixPath.Join(directory, filename);
        if filename in entries && entries[filename].RegularFile? {
          var newFilename := NewName(filename);
          var newFile := PosixPath.Join(directory, newFilename);
          if newFilename != filename {
            if IsDirectoryPath(entries, newFilename) {
              assert step == RenameRun(entries, [], [filename]);
              assert whole == RenameRun(entries, done + [], [filename]);
              assert done + [] == done;
              return [filename];
            }
            entries := (entries - {filename})[newFilename := entries[filename]];
          }
          report := report + [Renamed(oldFile, newFile)];
          assert step == RenameRun(entries, [Renamed(oldFile, newFile)], []);
          ContinueTwice(done, step.report, RenameAll(directory, entries, listing[k + 1..]));
          done := done + [Renamed(oldFile, newFile)];
        } else {
          assert step == RenameRun(entries, [], []);
          ContinueTwice(done, [], RenameAll(directory, entries, listing[k + 1..]));
          assert done + [] == done;
        }
        k := k + 1;
      }
      return [];
    }
  }
}
