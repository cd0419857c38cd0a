/**
 * The photo grid of src/_components/photo-display.tsx: the file-size formatter, the `loading` /
 * `error` / `photos` / `selectedPhoto` state that `loadPhotos` and `handlePhotoClick` update, and
 * the choice of what the component renders.
 *
 * As for the card stack, the state changes are pure functions on a `DisplayState` snapshot and the
 * class `PhotoDisplay` holds the same state in fields, its methods proved to perform those changes.
 */
module Photos {
  import opened Wrappers
  import opened Commands

  // ----- formatFileSize -----

  const Units: seq<string> := ["B", "KB", "MB", "GB"]

  /** 1024 to the power `k`. */
  function Pow1024(k: nat): (r: real)
    ensures r >= 1.0
  {
    if k == 0 then 1.0 else 1024.0 * Pow1024(k - 1)
  }

  lemma Pow1024Values()
    ensures Pow1024(0) == 1.0 && Pow1024(1) == 1024.0
    ensures Pow1024(2) == 1048576.0 && Pow1024(3) == 1073741824.0
  {
  }

  /** The unit a byte count is shown in, by thresholds: below 1 KiB bytes, below 1 MiB kilobytes, and so on up to gigabytes. */
  function UnitIndexFor(bytes: real): nat {
    if bytes < 1024.0 then 0
    else if bytes < 1048576.0 then 1
    else if bytes < 1073741824.0 then 2
    else 3
  }

  /** A larger byte count never gets a smaller unit. */
  lemma UnitIndexMonotone(a: real, b: real)
    requires a <= b
    ensures UnitIndexFor(a) <= UnitIndexFor(b)
  {
  }

  /**
   * `formatFileSize` without the final `toFixed(1)`: divides by 1024 while the size is at least 1024 and
   * a larger unit is left. Division by 1024 is exact in binary floating point, so `real` is faithful.
   */
  method FormatFileSize(bytes: real) returns (size: real, unitIndex: nat, unit: string)
    ensures unitIndex < |Units| && unit == Units[unitIndex]
    ensures unitIndex == UnitIndexFor(bytes)
    ensures size == bytes / Pow1024(unitIndex)
    ensures unitIndex < 3 ==> size < 1024.0
    ensures unitIndex > 0 ==> size >= 1.0
    ensures bytes < 1024.0 ==> unitIndex == 0 && unit == "B" && size == bytes
  {
    Pow1024Values();
    size := bytes;
    unitIndex := 0;
    while size >= 1024.0 && unitIndex < |Units| - 1
      invariant 0 <= unitIndex <= 3
      invariant size == bytes / Pow1024(unitIndex)
      invariant unitIndex > 0 ==> bytes >= Pow1024(unitIndex)
    {
      size := size / 1024.0;
      unitIndex := unitIndex + 1;
    }
    unit := Units[unitIndex];
  }

  // ----- component state -----

  const LoadErrorPrefix: string := "Failed to load photos: "

  /** The component's state fields, plus the photos it has forwarded to `onPhotoSelect`. */
  datatype DisplayState = DisplayState(
    photos: seq<PhotoInfo>,
    loading: bool,
    error: string,
    selectedPhoto: Option<PhotoInfo>,
    forwarded: seq<PhotoInfo>)

  /** The state on mount. */
  function InitialDisplay(): DisplayState {
    DisplayState([], false, "", None, [])
  }

  /** `loadPhotos` up to its `await`: loading, with the error cleared. */
  function AfterLoadStart(s: DisplayState): (r: DisplayState)
    ensures r.loading && r.error == ""
    ensures r.photos == s.photos && r.selectedPhoto == s.selectedPhoto && r.forwarded == s.forwarded
  {
    s.(loading := true, error := "")
  }

  /**
   * `loadPhotos` after its `await` settles: the list replaces the photos, or the rejection becomes the
   * error text; either way loading ends.
   */
  function AfterLoadSettle(s: DisplayState, result: Result<seq<PhotoInfo>, string>): (r: DisplayState)
    ensures !r.loading
    ensures r.selectedPhoto == s.selectedPhoto && r.forwarded == s.forwarded
    ensures result.Ok? ==> r.photos == result.value && r.error == s.error
    ensures result.Err? ==> r.photos == s.photos && r.error == LoadErrorPrefix + result.error
  {
    match result
    case Ok(list) => s.(photos := list, loading := false)
    case Err(e) => s.(error := LoadErrorPrefix + e, loading := false)
  }

  /** The effect on `sourceDirectory`: an empty path is falsy and starts nothing. */
  function AfterSourceChange(s: DisplayState, sourceDirectory: string): (r: DisplayState)
    ensures sourceDirectory == "" ==> r == s
    ensures sourceDirectory != "" ==> r == AfterLoadStart(s)
  {
    if sourceDirectory != "" then AfterLoadStart(s) else s
  }

  /** `handlePhotoClick`: select the photo and pass the same photo to `onPhotoSelect`, when given. */
  function AfterClick(hasOnPhotoSelect: bool, s: DisplayState, photo: PhotoInfo): (r: DisplayState)
    ensures r.selectedPhoto == Some(photo)
    ensures r.forwarded == s.forwarded + (if hasOnPhotoSelect then [photo] else [])
    ensures r.photos == s.photos && r.loading == s.loading && r.error == s.error
  {
    s.(selectedPhoto := Some(photo), forwarded := if hasOnPhotoSelect then s.forwarded + [photo] else s.forwarded)
  }

  /** What the component renders. */
  datatype Screen = Spinner | ErrorPanel(message: string) | NoPhotos | Grid(shown: seq<PhotoInfo>)

  /** The render branches in order: loading first, then a non-empty error, then an empty list, then the grid. */
  function ScreenOf(s: DisplayState): (r: Screen)
    ensures r == Spinner <==> s.loading
    ensures r.ErrorPanel? <==> !s.loading && s.error != ""
    ensures r.ErrorPanel? ==> r.message == s.error
    ensures r == NoPhotos <==> !s.loading && s.error == "" && s.photos == []
    ensures r.Grid? <==> !s.loading && s.error == "" && s.photos != []
    ensures r.Grid? ==> r.shown == s.photos
  {
    if s.loading then Spinner
    else if s.error != "" then ErrorPanel(s.error)
    else if |s.photos| == 0 then NoPhotos
    else Grid(s.photos)
  }

  /** While a load is pending the spinner shows, whatever the earlier error or photos. */
  lemma SpinnerWhileLoading(s: DisplayState)
    ensures ScreenOf(AfterLoadStart(s)) == Spinner
  {
  }

  /**
   * A load that succeeds leaves no error (the start cleared it), shows exactly the returned list
   * (or the empty-directory message) and keeps the selection.
   */
  lemma LoadSucceeds(s: DisplayState, list: seq<PhotoInfo>)
    ensures var t := AfterLoadSettle(AfterLoadStart(s), Ok(list));
      && !t.loading && t.photos == list && t.error == "" && t.selectedPhoto == s.selectedPhoto
      && ScreenOf(t) == (if list == [] then NoPhotos else Grid(list))
  {
  }

  /** A load that fails keeps the old photos and shows the prefixed error, even when the rejection text is empty. */
  lemma LoadFails(s: DisplayState, err: string)
    ensures var t := AfterLoadSettle(AfterLoadStart(s), Err(err));
      && !t.loading && t.photos == s.photos && t.error == "Failed to load photos: " + err
      && ScreenOf(t) == ErrorPanel("Failed to load photos: " + err)
  {
  }

  /** End to end with the backend command: a path that is not a directory shows the command's message behind the prefix. */
  lemma InvalidDirectoryShown(s: DisplayState, dir: DirectoryProbe)
    requires !dir.pathExists || !dir.isDir
    ensures ScreenOf(AfterLoadSettle(AfterLoadStart(s), LoadOutcome(dir))) ==
      ErrorPanel("Failed to load photos: Invalid directory path")
  {
    LoadFails(s, InvalidDirectory);
  }

  /** The component, with whether an `onPhotoSelect` prop was passed and its state fields. */
  class PhotoDisplay {
    const hasOnPhotoSelect: bool
    var photos: seq<PhotoInfo>
    var loading: bool
    var error: string
    var selectedPhoto: Option<PhotoInfo>
    var forwarded: seq<PhotoInfo>

    function State(): DisplayState
      reads this
    {
      DisplayState(photos, loading, error, selectedPhoto, forwarded)
    }

    constructor (hasOnPhotoSelect: bool)
      ensures this.hasOnPhotoSelect == hasOnPhotoSelect
      ensures State() == InitialDisplay()
    {
      this.hasOnPhotoSelect := hasOnPhotoSelect;
      photos, loading, error, selectedPhoto, forwarded := [], false, "", None, [];
    }

    /** `loadPhotos` up to the `invoke` call: `setLoading(true)`, `setError("")`. */
    method LoadPhotosStart()
      modifies this
      ensures State() == AfterLoadStart(old(State()))
    {
      loading := true;
      error := "";
    }

    /** `loadPhotos` once the `invoke` promise settles: `setPhotos` or `setError`, then `setLoading(false)`. */
    method LoadPhotosSettle(result: Result<seq<PhotoInfo>, string>)
      modifies this
      ensures State() == AfterLoadSettle(old(State()), result)
    {
      match result {
        case Ok(list) =>
          photos := list;
        case Err(e) =>
          error := LoadErrorPrefix + e;
      }
      loading := false;
    }

    /** The effect that runs when `sourceDirectory` changes. */
    method SourceDirectoryEffect(sourceDirectory: string)
      modifies this
      ensures State() == AfterSourceChange(old(State()), sourceDirectory)
    {
      if sourceDirectory != "" {
        LoadPhotosStart();
      }
    }

    /** `handlePhotoClick`. */
    method HandlePhotoClick(photo: PhotoInfo)
      modifies this
      ensures State() == AfterClick(hasOnPhotoSelect, old(State()), photo)
    {
      selectedPhoto := Some(photo);
      if hasOnPhotoSelect {
        forwarded := forwarded + [photo];
      }
    }

    /** The branch the component renders now. */
    function CurrentScreen(): Screen
      reads this
    {
      ScreenOf(State())
    }
  }
}
