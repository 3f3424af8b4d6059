/**
 * The local computations of DocumentService.uploadDocument in
 * src/lib/services/documentService.ts: the file extension, its content
 * type, the storage path, and the byte copy of the decoded file.
 */
module DocumentService {
  import opened Strings
  import opened Constants

  newtype byte = x: int | 0 <= x < 256

  const OctetStream: string := "application/octet-stream"

  /** The text after the last `sep`, or all of `s` when there is none: `s.split(sep).pop()`. */
  function LastSegment(s: string, sep: char): (r: string)
    ensures |r| <= |s|
    ensures r == s[|s| - |r|..]
    ensures sep !in r
    ensures |r| < |s| ==> s[|s| - |r| - 1] == sep
  {
    if s == [] then []
    else if s[|s| - 1] == sep then []
    else
      var init := s[..|s| - 1];
      var r := LastSegment(init, sep) + [s[|s| - 1]];
      assert init[|init| - |r| + 1..] + [s[|s| - 1]] == s[|s| - |r|..];
      r
  }

  /** The extension: the lower-cased text after the last '.'. */
  function FileExtension(filename: string): (ext: string)
    ensures |ext| <= |filename|
    ensures '.' !in ext
    ensures ext == ToLower(filename[|filename| - |ext|..])
    ensures |ext| < |filename| ==> filename[|filename| - |ext| - 1] == '.'
  {
    var segment := LastSegment(filename, '.');
    ToLowerKeepsAbsent(segment, '.');
    ToLower(segment)
  }

  /** A name without '.' is its own extension, lower-cased; a trailing '.' gives the empty extension. */
  lemma FileExtensionEdgeCases(filename: string)
    ensures '.' !in filename ==> FileExtension(filename) == ToLower(filename)
    ensures filename != [] && filename[|filename| - 1] == '.' ==> FileExtension(filename) == ""
  {
    if '.' !in filename {
      var seg := LastSegment(filename, '.');
      assert |seg| == |filename|;
    }
  }

  /** The MIME types `getContentType` knows. */
  const ContentTypes: map<string, string> := map[
    "pdf" := "application/pdf",
    "jpg" := "image/jpeg",
    "jpeg" := "image/jpeg",
    "png" := "image/png",
    "doc" := "application/msword",
    "docx" := "application/vnd.openxmlformats-officedocument.wordprocessingml.document",
    "txt" := "text/plain"
  ]

  /** `getContentType`: the known type, or "application/octet-stream". */
  function GetContentType(extension: string): (t: string)
    ensures extension in ContentTypes.Keys <==> t in AllowedFileTypes
    ensures extension !in ContentTypes.Keys <==> t == OctetStream
  {
    if extension in ContentTypes then ContentTypes[extension] else OctetStream
  }

  /** Every allowed upload type is what some known extension maps to. */
  lemma ContentTypesCoverAllowedTypes()
    ensures forall t | t in AllowedFileTypes :: exists e | e in ContentTypes.Keys :: ContentTypes[e] == t
  {
    assert ContentTypes["pdf"] == AllowedFileTypes[0];
    assert ContentTypes["jpg"] == AllowedFileTypes[1];
    assert ContentTypes["png"] == AllowedFileTypes[2];
    assert ContentTypes["doc"] == AllowedFileTypes[3];
    assert ContentTypes["docx"] == AllowedFileTypes[4];
    assert ContentTypes["txt"] == AllowedFileTypes[5];
  }

  /** Extensions are matched case-insensitively: "A.PDF" is a PDF. */
  lemma UpperCaseExtension()
    ensures GetContentType(FileExtension("A.PDF")) == "application/pdf"
  {
    var seg := LastSegment("A.PDF", '.');
    assert seg == "PDF" by {
      assert "A.PDF"[4] == 'F' && "A.PDF"[3] == 'D' && "A.PDF"[2] == 'P' && "A.PDF"[1] == '.';
      assert |seg| == 3;
    }
    assert ToLower("PDF") == "pdf";
  }

  /** The storage path `${caseId}/${Date.now()}_${filename}`; `now` stands for `Date.now()`. */
  function StoragePath(caseId: string, now: nat, filename: string): (path: string)
    ensures |path| >= |caseId| + |filename| + 3
    ensures IsPrefix(caseId + "/", path)
    ensures path[|path| - |filename| - 1..] == "_" + filename
  {
    caseId + "/" + DecimalString(now) + "_" + filename
  }

  /** The part between the case id and the filename reads back as the timestamp. */
  lemma StoragePathTimestamp(caseId: string, now: nat, filename: string)
    ensures var path := StoragePath(caseId, now, filename);
      var stamp := path[|caseId| + 1..|path| - |filename| - 1];
      && (forall i | 0 <= i < |stamp| :: '0' <= stamp[i] <= '9')
      && DecimalValue(stamp) == now
  {
    var path := StoragePath(caseId, now, filename);
    assert path[|caseId| + 1..|path| - |filename| - 1] == DecimalString(now);
    DecimalRoundTrip(now);
  }

  /**
   * `base64ToArrayBuffer` after `atob`: one byte per character of the decoded
   * string, each the character code truncated to 8 bits as a `Uint8Array`
   * store does.
   */
  method Base64ToArrayBuffer(binaryString: string) returns (bytes: array<byte>)
    ensures bytes.Length == |binaryString|
    ensures forall i | 0 <= i < |binaryString| :: bytes[i] as int == binaryString[i] as int % 256
  {
    bytes := new byte[|binaryString|];
    var i := 0;
    while i < |binaryString|
      invariant 0 <= i <= |binaryString|
      invariant forall k | 0 <= k < i :: bytes[k] as int == binaryString[k] as int % 256
    {
      bytes[i] := (binaryString[i] as int % 256) as byte;
      i := i + 1;
    }
  }
}
