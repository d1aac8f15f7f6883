/** The start screen's handlers: the upload guard chain of
    `handleFileSelect`, the loading guard of the camera/upload button and
    the side menu. Notices (`alert`) and console output are not modelled;
    the guard's verdict says which notice is shown. */
module HomePage {
  import opened Wrappers
  import opened Types
  import opened Strings

  const ImageTypePrefix: string := "image/"
  const MaxUploadBytes: int := 20 * 1024 * 1024
  const MinUploadBytes: int := 1024

  /** The verdict of the guard chain, one constructor per early return. */
  datatype UploadCheck = NoFileSelected | NotAnImage | TooLarge | TooSmall | Accepted

  /** The checks of lines 32-69, in order: a file, an image MIME type, at
      most 20 MiB, at least 1 KiB. */
  function CheckUpload(file: Option<ImageFile>): (r: UploadCheck)
    ensures r == NoFileSelected <==> file.None?
    ensures r == NotAnImage <==> file.Some? && !StartsWith(file.value.mimeType, ImageTypePrefix)
    ensures r == TooLarge <==>
      file.Some? && StartsWith(file.value.mimeType, ImageTypePrefix) && file.value.size > MaxUploadBytes
    ensures r == TooSmall <==>
      file.Some? && StartsWith(file.value.mimeType, ImageTypePrefix) && file.value.size < MinUploadBytes
    ensures r == Accepted <==>
      file.Some? && StartsWith(file.value.mimeType, ImageTypePrefix) &&
      MinUploadBytes <= file.value.size <= MaxUploadBytes
  {
    match file
    case None => NoFileSelected
    case Some(f) =>
      if !StartsWith(f.mimeType, ImageTypePrefix) then NotAnImage
      else if f.size > MaxUploadBytes then TooLarge
      else if f.size < MinUploadBytes then TooSmall
      else Accepted
  }

  /** The exact limits: 1023 and 20 MiB + 1 bytes are refused, 1024 and
      20 MiB accepted. */
  lemma UploadSizeBoundaries(mimeType: string)
    requires StartsWith(mimeType, ImageTypePrefix)
    ensures CheckUpload(Some(ImageFile(mimeType, 1023))) == TooSmall
    ensures CheckUpload(Some(ImageFile(mimeType, 1024))) == Accepted
    ensures CheckUpload(Some(ImageFile(mimeType, 20971520))) == Accepted
    ensures CheckUpload(Some(ImageFile(mimeType, 20971521))) == TooLarge
  {
  }

  /** The callbacks `handleFileSelect` invokes, in the order it invokes
      them. */
  datatype Effect =
    | ClearError                 // the `clearError` prop
    | StartAnalysis(file: ImageFile)  // the `onStartAnalysis` prop
    | StartFailedNotice          // the notice after `onStartAnalysis` rejects

  /** Lines 30-79: nothing without a file; otherwise `clearError` first (when
      the prop is given), then, for an accepted file only, the analysis
      start and, if it rejects, the failure notice. */
  function FileSelectEffects(file: Option<ImageFile>, startFails: bool, clearErrorGiven: bool): seq<Effect> {
    if file.None? then []
    else
      (if clearErrorGiven then [ClearError] else []) +
      (if CheckUpload(file) == Accepted
       then [StartAnalysis(file.value)] + (if startFails then [StartFailedNotice] else [])
       else [])
  }

  /** The analysis starts exactly for an image of 1 KiB to 20 MiB, and then
      with that file; `clearError` runs first for every selected file, so
      also before a type or size refusal; with no file nothing happens. */
  lemma {:induction false} FileSelectEffectsSpec(file: Option<ImageFile>, startFails: bool, clearErrorGiven: bool)
    ensures var effects := FileSelectEffects(file, startFails, clearErrorGiven);
      (file.None? ==> effects == []) &&
      (forall f :: StartAnalysis(f) in effects <==>
        file == Some(f) && StartsWith(f.mimeType, ImageTypePrefix) &&
        MinUploadBytes <= f.size <= MaxUploadBytes) &&
      (file.Some? && clearErrorGiven ==> |effects| > 0 && effects[0] == ClearError) &&
      (StartFailedNotice in effects <==> CheckUpload(file) == Accepted && startFails)
  {
    var effects := FileSelectEffects(file, startFails, clearErrorGiven);
    forall f
      ensures StartAnalysis(f) in effects <==>
        file == Some(f) && StartsWith(f.mimeType, ImageTypePrefix) &&
        MinUploadBytes <= f.size <= MaxUploadBytes
    {
      if StartAnalysis(f) in effects {
        assert CheckUpload(file) == Accepted;
      }
    }
  }

  /** A file that is not an image is refused before its size is looked at,
      however small or large it is. */
  lemma MimeCheckedBeforeSize(mimeType: string, size: int)
    requires !StartsWith(mimeType, ImageTypePrefix)
    ensures CheckUpload(Some(ImageFile(mimeType, size))) == NotAnImage
  {
  }

  /** What a press of the camera/upload button does. */
  datatype ClickOutcome = Ignored | FilePickerOpened | PickerUnavailable

  /** The side-menu entries (lines 160-196). */
  datatype MenuItem = HomeItem | CameraItem | SharingCenterItem | SharingSettingsItem | HelpItem

  /** The action a menu entry runs. */
  datatype MenuAction = Navigate(page: Page) | Click(outcome: ClickOutcome) | HelpLogged

  /** The start screen. The props are constants; the open state of the menu
      and the value of the hidden file input are its state. */
  class HomePage {
    const isLoading: bool
    const clearErrorGiven: bool
    /** Whether `fileInputRef.current` is set. */
    const inputMounted: bool
    var isMenuOpen: bool
    var inputValue: string

    constructor (isLoading: bool, clearErrorGiven: bool, inputMounted: bool)
      ensures this.isLoading == isLoading && this.clearErrorGiven == clearErrorGiven
      ensures this.inputMounted == inputMounted
      ensures !isMenuOpen && inputValue == ""
    {
      this.isLoading := isLoading;
      this.clearErrorGiven := clearErrorGiven;
      this.inputMounted := inputMounted;
      isMenuOpen := false;
      inputValue := "";
    }

    /** `handleFileSelect`: runs the guard chain and the callbacks; once a
        file has passed every check, the input is cleared whether the
        analysis start resolved or rejected. */
    method HandleFileSelect(file: Option<ImageFile>, startFails: bool) returns (check: UploadCheck, effects: seq<Effect>)
      modifies this`inputValue
      ensures check == CheckUpload(file)
      ensures effects == FileSelectEffects(file, startFails, clearErrorGiven)
      ensures inputValue == if check == Accepted && inputMounted then "" else old(inputValue)
    {
      effects := [];
      check := CheckUpload(file);
      if check == NoFileSelected {
        return;
      }
      if clearErrorGiven {
        effects := effects + [ClearError];
      }
      if check != Accepted {
        return;
      }
      effects := effects + [StartAnalysis(file.value)];
      if startFails {
        effects := effects + [StartFailedNotice];
      }
      if inputMounted {
        inputValue := "";
      }
    }

    /** `handleCameraUploadClick`: nothing while an analysis is loading;
        otherwise the file picker opens, or a notice when the input is not
        mounted. */
    function CameraUploadClick(): (r: ClickOutcome)
      ensures r == Ignored <==> isLoading
      ensures r == FilePickerOpened <==> !isLoading && inputMounted
    {
      if isLoading then Ignored
      else if inputMounted then FilePickerOpened
      else PickerUnavailable
    }

    /** The action each menu entry passes to `handleMenuItemClick`. */
    function MenuItemAction(item: MenuItem): MenuAction {
      match item
      case HomeItem => Navigate(Page.Home)
      case CameraItem => Click(CameraUploadClick())
      case SharingCenterItem => Navigate(Page.SharingCenter)
      case SharingSettingsItem => Navigate(Page.SharingSettings)
      case HelpItem => HelpLogged
    }

    method ToggleMenu()
      modifies this`isMenuOpen
      ensures isMenuOpen == !old(isMenuOpen)
    {
      isMenuOpen := !isMenuOpen;
    }

    method CloseMenu()
      modifies this`isMenuOpen
      ensures !isMenuOpen
    {
      isMenuOpen := false;
    }

    /** Runs the entry's action, then closes the menu. */
    method HandleMenuItemClick(item: MenuItem) returns (action: MenuAction)
      modifies this`isMenuOpen
      ensures action == MenuItemAction(item)
      ensures !isMenuOpen
    {
      action := MenuItemAction(item);
      CloseMenu();
    }
  }
}
