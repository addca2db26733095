/**
 * The drop zone of components/upload-area.tsx: it routes the dropzone's
 * rejections to messages, reads the first bytes of the first accepted file
 * and hands the file on only when they carry the `%PDF-` header
 * (ISO 32000-1:2008, section 7.5.2, File Header).
 */
module Upload {
  import opened Types
  import opened JsString

  const InvalidTypeMessage := "Please upload a PDF file."
  const TooLargeMessage := "File is too large. Maximum size is 10MB."
  const UploadFailedPrefix := "Upload failed: "
  const NotPdfMessage := "The selected file is not a valid PDF."
  const ReadFailedMessage := "Failed to read the file. Please try again."

  /** The dropzone's `maxSize`. */
  const DropzoneMaxSize: nat := 10485760

  /** How many leading bytes are read and examined. */
  const HeaderLength: nat := 5

  /** The `%PDF-` header, and the string the component compares against. */
  const PdfMagic: seq<byte> := [0x25, 0x50, 0x44, 0x46, 0x2D]
  const PdfMagicHex: string := "255044462d"

  /** The lower-case hex digit of a value below 16. */
  function HexDigit(d: int): char
    requires 0 <= d < 16
  {
    if d < 10 then ('0' as int + d) as char else ('a' as int + d - 10) as char
  }

  /** The value of a lower-case hex digit; -1 for any other character. */
  function HexDigitValue(c: char): int {
    if '0' <= c <= '9' then c as int - '0' as int
    else if 'a' <= c <= 'f' then c as int - 'a' as int + 10
    else -1
  }

  /** `byte.toString(16)`: lower-case hexadecimal without a leading zero. */
  function ByteToHex(b: byte): (s: string)
    ensures |s| == if b < 16 then 1 else 2
  {
    if b < 16 then [HexDigit(b as int)]
    else [HexDigit((b / 16) as int), HexDigit((b % 16) as int)]
  }

  /** Reading `ByteToHex(b)` back as a hexadecimal numeral gives `b`. */
  lemma ByteToHexRoundTrip(b: byte)
    ensures var s := ByteToHex(b);
      && (forall k :: 0 <= k < |s| ==> 0 <= HexDigitValue(s[k]) < 16)
      && if b < 16 then HexDigitValue(s[0]) == b as int
         else HexDigitValue(s[0]) * 16 + HexDigitValue(s[1]) == b as int
  {
  }

  /** Two bytes of two hex digits each print differently. */
  lemma ByteToHexInjective(a: byte, b: byte)
    requires a >= 16 && b >= 16 && ByteToHex(a) == ByteToHex(b)
    ensures a == b
  {
    ByteToHexRoundTrip(a);
    ByteToHexRoundTrip(b);
  }

  /** `bytes.map(b => b.toString(16)).join("")`. */
  function HexJoin(bs: seq<byte>): (s: string)
    ensures |s| <= 2 * |bs|
    ensures |s| == 2 * |bs| <==> forall i :: 0 <= i < |bs| ==> bs[i] >= 16
  {
    if bs == [] then "" else ByteToHex(bs[0]) + HexJoin(bs[1..])
  }

  /** `Blob.slice(0, n)` and `Uint8Array.subarray(0, n)`: at most the first `n` bytes. */
  function Head(data: seq<byte>, n: nat): (h: seq<byte>)
    ensures |h| == Min(n, |data|) && h == data[..|h|]
  {
    data[..Min(n, |data|)]
  }

  /** The header string the reader's `onload` builds from the bytes it was given. */
  function HeaderHex(data: seq<byte>): string {
    HexJoin(Head(data, HeaderLength))
  }

  /** `header.startsWith("255044462d")`; it needs five bytes to print ten digits. */
  predicate HeaderAccepted(data: seq<byte>): (ok: bool)
    ensures ok ==> |data| >= 5
  {
    StartsWith(HeaderHex(data), PdfMagicHex)
  }

  /**
   * Comparing hex strings is comparing bytes, as long as every byte of the
   * expected sequence prints as two digits and the candidate is no longer.
   */
  lemma {:induction false} HexPrefixMatch(bs: seq<byte>, sig: seq<byte>)
    requires |bs| <= |sig|
    requires forall i :: 0 <= i < |sig| ==> sig[i] >= 16
    ensures StartsWith(HexJoin(bs), HexJoin(sig)) <==> bs == sig
  {
    if bs != [] {
      var h, r := ByteToHex(bs[0]), HexJoin(bs[1..]);
      var h', r' := ByteToHex(sig[0]), HexJoin(sig[1..]);
      assert HexJoin(bs) == h + r && HexJoin(sig) == h' + r';
      if bs[0] < 16 {
        assert |h + r| < |h' + r'|;
      } else {
        HexPrefixMatch(bs[1..], sig[1..]);
        if StartsWith(h + r, h' + r') {
          assert (h + r)[..2] == h && (h' + r')[..2] == h';
          ByteToHexInjective(bs[0], sig[0]);
          assert (h + r)[2..] == r && (h' + r')[2..] == r';
          assert r[..|r'|] == (h + r)[2..|h' + r'|];
          assert bs == [bs[0]] + bs[1..] && sig == [sig[0]] + sig[1..];
        }
        if bs == sig {
          assert StartsWith(h + r, h' + r');
        }
      }
    }
  }

  /**
   * The component's hex test accepts exactly the data that begins with the
   * five bytes 25 50 44 46 2D.
   */
  lemma HeaderCheckMatchesMagic(data: seq<byte>)
    ensures HeaderAccepted(data) <==> |data| >= 5 && data[..5] == PdfMagic
  {
    assert HexJoin(PdfMagic) == PdfMagicHex;
    HexPrefixMatch(Head(data, HeaderLength), PdfMagic);
  }

  /**
   * Because the hex digits are not padded, data shorter than five bytes or
   * with one of its first five bytes below 0x10 is always refused.
   */
  lemma ShortOrLowByteRejected(data: seq<byte>, k: nat)
    requires |data| < 5 || (k < 5 && k < |data| && data[k] < 0x10)
    ensures !HeaderAccepted(data)
  {
    HeaderCheckMatchesMagic(data);
  }

  /** One entry of a rejection's `errors`, as react-dropzone reports it. */
  datatype DropError = DropError(code: string, message: string)

  /** A file the dropzone turned away, with its reasons. */
  datatype Rejection = Rejection(file: File, errors: seq<DropError>)

  /** How the `FileReader` finished: `onload` or `onerror`. */
  datatype ReadEvent = Loaded | ReadFailed

  /** The message for a refused drop, chosen by the first error of the first rejection. */
  function RejectionMessage(r: Rejection): (msg: string)
    requires |r.errors| > 0
    ensures msg == InvalidTypeMessage <==> r.errors[0].code == "file-invalid-type"
    ensures msg == TooLargeMessage <==> r.errors[0].code == "file-too-large"
    ensures StartsWith(msg, UploadFailedPrefix) <==>
      r.errors[0].code != "file-invalid-type" && r.errors[0].code != "file-too-large"
  {
    var e := r.errors[0];
    // The three messages start with 'P', 'F' and 'U'.
    assert InvalidTypeMessage[0] == 'P' && TooLargeMessage[0] == 'F' && UploadFailedPrefix[0] == 'U';
    assert InvalidTypeMessage[..|UploadFailedPrefix|][0] == 'P' && TooLargeMessage[..|UploadFailedPrefix|][0] == 'F';
    if e.code == "file-invalid-type" then InvalidTypeMessage
    else if e.code == "file-too-large" then TooLargeMessage
    else
      var m := UploadFailedPrefix + e.message;
      assert m[0] == 'U' && m[..|UploadFailedPrefix|] == UploadFailedPrefix;
      m
  }

  /** What a drop ends with: the error shown, and the file handed to `onFileUpload` if any. */
  datatype DropOutcome = DropOutcome(error: Option<string>, handed: Option<File>)

  /**
   * The outcome of one drop together with the reader's completion. The reader
   * is given `file.slice(0, 5)` and looks at `subarray(0, 5)` of what it read.
   */
  function DropResult(accepted: seq<File>, rejected: seq<Rejection>, read: ReadEvent): (r: DropOutcome)
    requires |rejected| > 0 ==> |rejected[0].errors| > 0
    ensures r.handed.Some? ==> r.error.None? && |rejected| == 0 && |accepted| > 0 && r.handed.value == accepted[0]
    ensures |rejected| > 0 || read == ReadFailed ==> r.handed.None?
    ensures |accepted| == 0 && |rejected| == 0 ==> r == DropOutcome(None, None)
  {
    if |rejected| > 0 then DropOutcome(Some(RejectionMessage(rejected[0])), None)
    else if |accepted| == 0 then DropOutcome(None, None)
    else if read == ReadFailed then DropOutcome(Some(ReadFailedMessage), None)
    else if HeaderAccepted(Head(accepted[0].content, HeaderLength)) then DropOutcome(None, Some(accepted[0]))
    else DropOutcome(Some(NotPdfMessage), None)
  }

  /**
   * A drop hands a file on exactly when nothing was rejected, a file was
   * accepted, the read succeeded and that first file starts with `%PDF-`; the
   * file handed on is the first accepted one, and no error is left showing.
   */
  lemma DropHandsOnlyPdf(accepted: seq<File>, rejected: seq<Rejection>, read: ReadEvent)
    requires |rejected| > 0 ==> |rejected[0].errors| > 0
    ensures DropResult(accepted, rejected, read).handed.Some? <==>
      && |rejected| == 0 && |accepted| > 0 && read == Loaded
      && |accepted[0].content| >= 5 && accepted[0].content[..5] == PdfMagic
    ensures DropResult(accepted, rejected, read).handed.Some? ==>
      DropResult(accepted, rejected, read) == DropOutcome(None, Some(accepted[0]))
  {
    if |rejected| == 0 && |accepted| > 0 {
      var c := accepted[0].content;
      HeaderCheckMatchesMagic(Head(c, HeaderLength));
      if |c| >= 5 {
        assert Head(c, HeaderLength)[..5] == c[..5];
      }
    }
  }

  /**
   * Any rejection wins: nothing is handed on, and the message follows the
   * first error code of the first rejection.
   */
  lemma RejectionNeverUploads(accepted: seq<File>, rejected: seq<Rejection>, read: ReadEvent)
    requires |rejected| > 0 && |rejected[0].errors| > 0
    ensures DropResult(accepted, rejected, read).handed == None
    ensures var e := rejected[0].errors[0];
      DropResult(accepted, rejected, read).error ==
        Some(if e.code == "file-invalid-type" then "Please upload a PDF file."
             else if e.code == "file-too-large" then "File is too large. Maximum size is 10MB."
             else "Upload failed: " + e.message)
  {
  }

  /** Whenever no file is handed on after a file was accepted, an error is showing. */
  lemma FailedDropShowsError(accepted: seq<File>, rejected: seq<Rejection>, read: ReadEvent)
    requires |rejected| > 0 ==> |rejected[0].errors| > 0
    requires |accepted| > 0 || |rejected| > 0
    ensures DropResult(accepted, rejected, read).handed.None? <==> DropResult(accepted, rejected, read).error.Some?
  {
  }

  /** The drop zone's own state; `onFileUpload` calls are returned by `OnDrop`. */
  class UploadArea {
    var isDragging: bool
    var error: Option<string>

    constructor ()
      ensures !isDragging && error == None
    {
      isDragging := false;
      error := None;
    }

    /** `onDrop`; `handed` is the file passed to `onFileUpload`, at most one. */
    method OnDrop(accepted: seq<File>, rejected: seq<Rejection>, read: ReadEvent) returns (handed: Option<File>)
      requires |rejected| > 0 ==> |rejected[0].errors| > 0
      modifies this
      ensures !isDragging
      ensures DropOutcome(error, handed) == DropResult(accepted, rejected, read)
    {
      isDragging := false;
      error := None;
      handed := None;

      if |rejected| > 0 {
        var rejection := rejected[0];
        if rejection.errors[0].code == "file-invalid-type" {
          error := Some(InvalidTypeMessage);
        } else if rejection.errors[0].code == "file-too-large" {
          error := Some(TooLargeMessage);
        } else {
          error := Some(UploadFailedPrefix + rejection.errors[0].message);
        }
        return;
      }

      if |accepted| > 0 {
        var file := accepted[0];
        var slice := Head(file.content, HeaderLength);
        if read == Loaded {
          var header := HexJoin(Head(slice, HeaderLength));
          if StartsWith(header, PdfMagicHex) {
            handed := Some(file);
          } else {
            error := Some(NotPdfMessage);
          }
        } else {
          error := Some(ReadFailedMessage);
        }
      }
    }
  }
}
