/**
 * `ImageUpload` of the home application: the check a chosen receipt image
 * must pass (JPEG or PNG, at most 1 MiB), and the component state
 * (`preview`, `error`, `isProcessing`) its handlers update.  The file's
 * contents as a data URL come from a `FileReader`; the model takes the
 * outcome of that conversion as a parameter.  The values handed to
 * `onImageSelect` are recorded, oldest first.
 */
module ImageUpload {
  import opened Wrappers

  /** What the handler reads of the chosen `File`: its MIME type and size in bytes. */
  datatype FileInfo = FileInfo(mimeType: string, size: nat)

  /** `MAX_FILE_SIZE`: 1 MiB. */
  const MaxFileSize: nat := 1024 * 1024

  /** `ALLOWED_TYPES`. */
  const AllowedTypes: seq<string> := ["image/jpeg", "image/jpg", "image/png"]

  const TypeError := "Apenas arquivos JPG e PNG são permitidos."
  const SizeError := "O arquivo deve ter no máximo 1MB."
  const ProcessingError := "Erro ao processar o arquivo. Tente novamente."

  /** A file the component accepts. */
  predicate Acceptable(file: FileInfo) {
    file.mimeType in AllowedTypes && file.size <= MaxFileSize
  }

  /**
   * `validateFile`: `None` exactly for acceptable files; otherwise the type
   * message when the type is not allowed, whatever the size, and the size
   * message for an allowed type over 1 MiB.
   */
  function ValidateFile(file: FileInfo): (r: Option<string>)
    ensures r.None? <==> Acceptable(file)
    ensures file.mimeType !in AllowedTypes ==> r == Some(TypeError)
    ensures file.mimeType in AllowedTypes && file.size > MaxFileSize ==> r == Some(SizeError)
  {
    if file.mimeType !in AllowedTypes then Some(TypeError)
    else if file.size > MaxFileSize then Some(SizeError)
    else None
  }

  class ImageUploadState {
    /** The data URL shown, `None` for `null`. */
    var preview: Option<string>
    var error: Option<string>
    var isProcessing: bool
    /** Every value handed to `onImageSelect`, oldest first; `None` is `null`. */
    var selections: seq<Option<string>>

    /** The first render: the `value` prop as the preview (an empty one counts as none), no error. */
    constructor(value: Option<string>)
      ensures preview == (if value == Some("") then None else value)
      ensures error == None && !isProcessing && selections == []
    {
      preview := if value == Some("") then None else value;
      error := None;
      isProcessing := false;
      selections := [];
    }

    /**
     * `handleFileSelect` once it has finished: with no file nothing
     * changes; a file that fails validation leaves its message and neither
     * the preview nor `onImageSelect` sees it; a failed conversion leaves
     * the processing message; a converted file becomes the preview and is
     * handed to `onImageSelect`.  Processing is over in every case.
     */
    method HandleFileSelect(file: Option<FileInfo>, converted: Result<string>)
      modifies this
      ensures file.None? ==>
        preview == old(preview) && error == old(error) && isProcessing == old(isProcessing) && selections == old(selections)
      ensures file.Some? ==> !isProcessing
      ensures file.Some? && ValidateFile(file.value).Some? ==>
        error == ValidateFile(file.value) && preview == old(preview) && selections == old(selections)
      ensures file.Some? && ValidateFile(file.value).None? && converted.Failure? ==>
        error == Some(ProcessingError) && preview == old(preview) && selections == old(selections)
      ensures file.Some? && ValidateFile(file.value).None? && converted.Success? ==>
        error == None && preview == Some(converted.value) && selections == old(selections) + [Some(converted.value)]
    {
      if file.None? {
        return;
      }
      error := None;
      isProcessing := true;
      var validationError := ValidateFile(file.value);
      if validationError.Some? {
        error := validationError;
      } else if converted.Failure? {
        error := Some(ProcessingError);
      } else {
        preview := Some(converted.value);
        selections := selections + [Some(converted.value)];
      }
      isProcessing := false;
    }

    /** `handleRemove`: no preview, no error, and `null` handed to `onImageSelect`. */
    method HandleRemove()
      modifies this
      ensures preview == None && error == None && selections == old(selections) + [None]
      ensures isProcessing == old(isProcessing)
    {
      preview := None;
      error := None;
      selections := selections + [None];
    }
  }

  /* ---------------------------------- properties ---------------------------------- */

  /** The limit is inclusive: a 1 MiB image passes and one byte more does not. */
  lemma SizeLimitIsInclusive(mimeType: string)
    requires mimeType in AllowedTypes
    ensures ValidateFile(FileInfo(mimeType, MaxFileSize)).None?
    ensures ValidateFile(FileInfo(mimeType, MaxFileSize + 1)) == Some(SizeError)
  {
  }

  /** Only the three image types can pass, and each of them can. */
  lemma PassingTypes(file: FileInfo)
    ensures ValidateFile(file).None? ==>
      file.mimeType == "image/jpeg" || file.mimeType == "image/jpg" || file.mimeType == "image/png"
    ensures file.size <= MaxFileSize && (file.mimeType == "image/jpeg" || file.mimeType == "image/jpg" || file.mimeType == "image/png") ==>
      ValidateFile(file).None?
  {
  }
}
