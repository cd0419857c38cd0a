/**
 * The two backend commands of src-tauri/src/lib.rs: `greet`, and `load_photos_from_directory`, which
 * lists a directory and keeps, in listing order, the entries whose extension names an image format.
 *
 * The file system is not modelled: what it reports about the requested directory and each of its
 * entries is given to the command as a `DirectoryProbe`.
 */
module Commands {
  import opened Wrappers
  import opened Ascii

  /** What the command returns per photo: file name, full path and byte length. */
  datatype PhotoInfo = PhotoInfo(name: string, path: string, size: nat)

  /** The extension of an entry's path, as `Path::extension` and `OsStr::to_str` see it. */
  datatype Extension = NoExtension | NotUtf8 | Utf8(text: string)

  /**
   * A directory entry that was read: its full path and file name (both already lossily converted to
   * text), its extension, and the length from its metadata (`None` when `metadata()` failed).
   */
  datatype DirEntry = DirEntry(path: string, fileName: string, extension: Extension, metadataLen: Option<nat>)

  /**
   * What the file system reports about the requested path: whether it exists, whether it is a
   * directory, and the outcome of `read_dir` — its error text or the entries in iteration order, each
   * of which may itself have failed to read (`None`).
   */
  datatype DirectoryProbe = DirectoryProbe(pathExists: bool, isDir: bool, listing: Result<seq<Option<DirEntry>>, string>)

  const InvalidDirectory: string := "Invalid directory path"
  const ReadDirPrefix: string := "Failed to read directory: "

  /** The image extensions the command accepts, in lower case. */
  const PhotoExtensions: seq<string> := ["jpg", "jpeg", "png", "gif", "bmp", "tiff", "tif", "webp"]

  /** `greet`: the greeting for `name`. */
  function Greet(name: string): (r: string)
    ensures |r| == |name| + 39
    ensures r[..7] == "Hello, "
    ensures r[7..7 + |name|] == name
    ensures r[7 + |name|..] == "! You've been greeted from Rust!"
  {
    "Hello, " + name + "! You've been greeted from Rust!"
  }

  /** Different names get different greetings: the name can always be read back from the greeting. */
  lemma GreetInjective(a: string, b: string)
    ensures Greet(a) == Greet(b) <==> a == b
  {
  }

  /** Whether an extension, lower-cased, is one of the image extensions. */
  predicate IsPhotoExtension(text: string)
    ensures IsPhotoExtension(text) ==> 3 <= |text| <= 4
  {
    Lower(text) in PhotoExtensions
  }

  /** Matching ignores case: an extension is accepted exactly when its lower-case form is. */
  lemma PhotoExtensionIgnoresCase(text: string)
    ensures IsPhotoExtension(text) <==> IsPhotoExtension(Lower(text))
  {
    LowerIdempotent(text);
  }

  /** An upper-case "JPG" is accepted, and so is a mixed-case "Webp"; "svg" is not. */
  lemma PhotoExtensionExamples()
    ensures IsPhotoExtension("JPG") && IsPhotoExtension("Webp")
    ensures !IsPhotoExtension("svg")
  {
    assert Lower("JPG") == "jpg";
    assert Lower("Webp") == "webp";
    assert Lower("svg") == "svg";
  }

  /** Whether an entry read from the listing becomes a photo. */
  predicate Accepted(entry: Option<DirEntry>)
    ensures Accepted(entry) ==> entry.Some? && entry.value.metadataLen.Some?
  {
    && entry.Some?
    && entry.value.extension.Utf8?
    && IsPhotoExtension(entry.value.extension.text)
    && entry.value.metadataLen.Some?
  }

  function ToPhoto(entry: DirEntry): PhotoInfo
    requires entry.metadataLen.Some?
  {
    PhotoInfo(entry.fileName, entry.path, entry.metadataLen.value)
  }

  /** The photos of a listing: the accepted entries, converted, in listing order. */
  function PhotosOf(entries: seq<Option<DirEntry>>): (r: seq<PhotoInfo>)
    ensures |r| <= |entries|
    decreases |entries|
  {
    if entries == [] then []
    else
      var last := entries[|entries| - 1];
      PhotosOf(entries[..|entries| - 1]) + (if Accepted(last) then [ToPhoto(last.value)] else [])
  }

  /** The whole result of the command for a given file system report. */
  function LoadOutcome(dir: DirectoryProbe): (r: Result<seq<PhotoInfo>, string>)
    ensures r.Err? ==> r.error == InvalidDirectory || (dir.listing.Err? && r.error == ReadDirPrefix + dir.listing.error)
    ensures r.Ok? ==> dir.pathExists && dir.isDir && dir.listing.Ok? && r.value == PhotosOf(dir.listing.value)
  {
    if !dir.pathExists || !dir.isDir then Err(InvalidDirectory)
    else match dir.listing
      case Err(e) => Err(ReadDirPrefix + e)
      case Ok(entries) => Ok(PhotosOf(entries))
  }

  /**
   * `load_photos_from_directory`: rejects a missing path or a non-directory, reports a failed `read_dir`,
   * and otherwise walks the listing, pushing a photo for every accepted entry and skipping the rest.
   */
  method LoadPhotosFromDirectory(dir: DirectoryProbe) returns (r: Result<seq<PhotoInfo>, string>)
    ensures r == LoadOutcome(dir)
  {
    if !dir.pathExists || !dir.isDir {
      return Err(InvalidDirectory);
    }
    var photos: seq<PhotoInfo> := [];
    match dir.listing {
      case Err(e) =>
        return Err(ReadDirPrefix + e);
      case Ok(entries) =>
        for i := 0 to |entries|
          invariant photos == PhotosOf(entries[..i])
        {
          assert entries[..i + 1][..i] == entries[..i];
          var entry := entries[i];
          if entry.Some? {
            var e := entry.value;
            if e.extension.Utf8? {
              if Lower(e.extension.text) in PhotoExtensions {
                if e.metadataLen.Some? {
                  photos := photos + [PhotoInfo(e.fileName, e.path, e.metadataLen.value)];
                }
              }
            }
          }
        }
        assert entries[..|entries|] == entries;
    }
    return Ok(photos);
  }

  /** The command fails exactly in its two named cases, with their messages; otherwise it lists the photos. */
  lemma LoadOutcomeCases(dir: DirectoryProbe)
    ensures !dir.pathExists || !dir.isDir ==> LoadOutcome(dir) == Err("Invalid directory path")
    ensures dir.pathExists && dir.isDir && dir.listing.Err? ==>
      LoadOutcome(dir) == Err("Failed to read directory: " + dir.listing.error)
    ensures LoadOutcome(dir).Ok? <==> dir.pathExists && dir.isDir && dir.listing.Ok?
  {
  }

  /** Filtering a concatenation filters each part: the photos keep the order of the listing. */
  lemma {:induction false} PhotosOfAppend(a: seq<Option<DirEntry>>, b: seq<Option<DirEntry>>)
    ensures PhotosOf(a + b) == PhotosOf(a) + PhotosOf(b)
    decreases |b|
  {
    if b == [] {
      assert a + b == a;
    } else {
      var b' := b[..|b| - 1];
      assert (a + b)[..|a + b| - 1] == a + b';
      assert (a + b)[|a + b| - 1] == b[|b| - 1];
      PhotosOfAppend(a, b');
    }
  }

  /** A single entry yields its photo when accepted and nothing otherwise. */
  lemma PhotosOfOne(entry: Option<DirEntry>)
    ensures PhotosOf([entry]) == if Accepted(entry) then [ToPhoto(entry.value)] else []
  {
  }

  /**
   * A failed entry, a missing or non-UTF-8 extension, an extension not in the list and failed metadata
   * are all skipped silently: such an entry adds nothing wherever it sits in the listing.
   */
  lemma SkippedEntriesVanish(before: seq<Option<DirEntry>>, entry: Option<DirEntry>, after: seq<Option<DirEntry>>)
    requires
      || entry.None?
      || entry.value.extension.NoExtension?
      || entry.value.extension.NotUtf8?
      || (entry.value.extension.Utf8? && !IsPhotoExtension(entry.value.extension.text))
      || entry.value.metadataLen.None?
    ensures PhotosOf(before + [entry] + after) == PhotosOf(before + after)
  {
    PhotosOfAppend(before + [entry], after);
    PhotosOfAppend(before, [entry]);
    PhotosOfOne(entry);
    PhotosOfAppend(before, after);
  }

  /**
   * An accepted entry contributes exactly its own photo, at its own place: after the photos of the
   * entries before it and before those of the entries after it.
   */
  lemma AcceptedEntryKeepsItsPlace(before: seq<Option<DirEntry>>, entry: Option<DirEntry>, after: seq<Option<DirEntry>>)
    requires Accepted(entry)
    ensures PhotosOf(before + [entry] + after) ==
      PhotosOf(before) + [PhotoInfo(entry.value.fileName, entry.value.path, entry.value.metadataLen.value)] + PhotosOf(after)
  {
    PhotosOfAppend(before + [entry], after);
    PhotosOfAppend(before, [entry]);
    PhotosOfOne(entry);
  }

  /**
   * Every photo comes from an accepted entry, and every accepted entry gives a photo: the photo's name,
   * path and size are the entry's file name, path and metadata length.
   */
  lemma {:induction false} PhotosOfMembers(entries: seq<Option<DirEntry>>, p: PhotoInfo)
    ensures p in PhotosOf(entries) <==>
      exists i :: 0 <= i < |entries| && Accepted(entries[i]) &&
        p == PhotoInfo(entries[i].value.fileName, entries[i].value.path, entries[i].value.metadataLen.value)
    decreases |entries|
  {
    if entries != [] {
      var init := entries[..|entries| - 1];
      var last := entries[|entries| - 1];
      PhotosOfMembers(init, p);
      if p in PhotosOf(init) {
        var i :| 0 <= i < |init| && Accepted(init[i]) &&
          p == PhotoInfo(init[i].value.fileName, init[i].value.path, init[i].value.metadataLen.value);
        assert entries[i] == init[i];
      }
      if exists i :: 0 <= i < |entries| && Accepted(entries[i]) &&
          p == PhotoInfo(entries[i].value.fileName, entries[i].value.path, entries[i].value.metadataLen.value) {
        var i :| 0 <= i < |entries| && Accepted(entries[i]) &&
          p == PhotoInfo(entries[i].value.fileName, entries[i].value.path, entries[i].value.metadataLen.value);
        if i < |init| {
          assert init[i] == entries[i];
        }
      }
    }
  }

  /** The number of accepted entries in a listing. */
  function AcceptedCount(entries: seq<Option<DirEntry>>): nat
    decreases |entries|
  {
    if entries == [] then 0
    else AcceptedCount(entries[..|entries| - 1]) + (if Accepted(entries[|entries| - 1]) then 1 else 0)
  }

  /** There is one photo per accepted entry, so never more photos than entries. */
  lemma {:induction false} PhotosOfLength(entries: seq<Option<DirEntry>>)
    ensures |PhotosOf(entries)| == AcceptedCount(entries) <= |entries|
    decreases |entries|
  {
    if entries != [] {
      PhotosOfLength(entries[..|entries| - 1]);
    }
  }
}
