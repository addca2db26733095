/**
 * The page of app/page.tsx: it owns the loaded file, its object URL, the
 * current tool and colour, and the error banner. Object URLs handed to
 * `URL.revokeObjectURL` are collected in `revoked`.
 */
module Home {
  import opened Types
  import opened JsString
  import Upload

  /** `10 * 1024 * 1024`, the largest size `handleFileUpload` lets through. */
  const MaxUploadBytes: nat := 10 * 1024 * 1024

  const TooLargeMessage := "File is too large. Maximum size is 10MB."
  const InvalidUrlMessage := "Failed to create a valid URL for the file."
  const UploadFailedMessage := "Failed to upload file. Please try again."
  const ExportFailedMessage := "Failed to export PDF. Please try again."
  const ExportPrefix := "annotated-"

  /** What `URL.createObjectURL` gave back: a URL, or an exception. */
  datatype UrlResult = Created(url: string) | Threw

  /** A URL the handler keeps: neither empty nor "about:blank". */
  predicate UsableUrl(url: string) {
    url != "" && url != "about:blank"
  }

  /** JavaScript truthiness of a `string | null`. */
  predicate Truthy(s: Option<string>) {
    s.Some? && s.value != ""
  }

  /** The download name of an export: the original name behind the prefix "annotated-". */
  function ExportName(file: File): (name: string)
    ensures StartsWith(name, ExportPrefix)
    ensures name[|ExportPrefix|..] == file.name
  {
    ExportPrefix + file.name
  }

  /** The drop zone and the upload handler enforce the same ceiling. */
  lemma CeilingsAgree()
    ensures Upload.DropzoneMaxSize == MaxUploadBytes
  {
  }

  class HomePage {
    var pdfFile: Option<File>
    var pdfUrl: Option<string>
    var currentTool: AnnotationType
    var currentColor: string
    var error: Option<string>
    /** Every URL passed to `URL.revokeObjectURL`, by the handler or by the effect cleanup. */
    var revoked: set<string>

    /** A file and its URL are loaded together, and the URL kept is a usable one. */
    ghost predicate Valid()
      reads this
    {
      && (pdfFile.Some? <==> pdfUrl.Some?)
      && (pdfUrl.Some? ==> UsableUrl(pdfUrl.value))
    }

    constructor ()
      ensures Valid()
      ensures pdfFile == None && pdfUrl == None && error == None && revoked == {}
      ensures currentTool == Highlight && currentColor == "#FFFF00"
      ensures ShowsUploadArea()
    {
      pdfFile := None;
      pdfUrl := None;
      currentTool := Highlight;
      currentColor := "#FFFF00";
      error := None;
      revoked := {};
    }

    /** `!pdfUrl`: the upload area is shown in place of the viewer. */
    predicate ShowsUploadArea(): (shown: bool)
      reads this
      ensures Valid() ==> (shown <==> pdfFile.None?)
    {
      !Truthy(pdfUrl)
    }

    /**
     * `handleFileUpload`. An oversized file changes nothing but the banner.
     * Otherwise the current URL is revoked first; only a usable new URL then
     * replaces the file and the URL, whose old value the effect cleanup
     * revokes once more.
     */
    method HandleFileUpload(file: File, created: UrlResult)
      requires Valid()
      modifies this
      ensures Valid()
      ensures currentTool == old(currentTool) && currentColor == old(currentColor)
      ensures file.Size() > MaxUploadBytes ==>
        && error == Some(TooLargeMessage)
        && pdfFile == old(pdfFile) && pdfUrl == old(pdfUrl) && revoked == old(revoked)
      ensures file.Size() <= MaxUploadBytes ==>
        revoked == old(revoked) + (if Truthy(old(pdfUrl)) then {old(pdfUrl).value} else {})
      ensures file.Size() <= MaxUploadBytes && created.Created? && UsableUrl(created.url) ==>
        && pdfFile == Some(file) && pdfUrl == Some(created.url) && error == None
        && (created.url !in old(revoked) && old(pdfUrl) != Some(created.url) ==> created.url !in revoked)
      ensures file.Size() <= MaxUploadBytes && created.Created? && !UsableUrl(created.url) ==>
        && error == Some(InvalidUrlMessage)
        && pdfFile == old(pdfFile) && pdfUrl == old(pdfUrl)
      ensures file.Size() <= MaxUploadBytes && created.Threw? ==>
        && error == Some(UploadFailedMessage)
        && pdfFile == old(pdfFile) && pdfUrl == old(pdfUrl)
    {
      error := None;

      if file.Size() > MaxUploadBytes {
        error := Some(TooLargeMessage);
        return;
      }

      if Truthy(pdfUrl) {
        revoked := revoked + {pdfUrl.value};
      }

      if created.Threw? {
        error := Some(UploadFailedMessage);
        return;
      }
      var fileUrl := created.url;

      if !UsableUrl(fileUrl) {
        error := Some(InvalidUrlMessage);
        return;
      }

      var previous := pdfUrl;
      pdfFile := Some(file);
      pdfUrl := Some(fileUrl);
      // The effect on [pdfUrl] runs the cleanup of the previous render.
      if Truthy(previous) {
        revoked := revoked + {previous.value};
      }
    }

    /**
     * `handleExport` up to the document round trip, whose success is
     * `roundTripOk`. Returns the download name, or None when nothing is
     * loaded (a no-op) or the round trip failed.
     */
    method HandleExport(roundTripOk: bool) returns (download: Option<string>)
      modifies this`error
      ensures pdfFile.None? ==> download == None && error == old(error)
      ensures pdfFile.Some? && roundTripOk ==> download == Some(ExportName(pdfFile.value)) && error == None
      ensures pdfFile.Some? && !roundTripOk ==> download == None && error == Some(ExportFailedMessage)
    {
      download := None;
      if pdfFile.None? {
        return;
      }
      error := None;
      if roundTripOk {
        download := Some(ExportName(pdfFile.value));
      } else {
        error := Some(ExportFailedMessage);
      }
    }

    /** The viewer's `onError` callback. */
    method ReportError(message: string)
      modifies this`error
      ensures error == Some(message)
    {
      error := Some(message);
    }
  }

  /** A file of exactly 10485760 bytes with a usable URL is loaded. */
  method CeilingIsInclusive(page: HomePage, file: File)
    requires page.Valid() && file.Size() == 10485760
    modifies page
    ensures page.Valid()
    ensures page.pdfFile == Some(file) && page.pdfUrl == Some("blob:x") && page.error == None
  {
    page.HandleFileUpload(file, Created("blob:x"));
  }
}
