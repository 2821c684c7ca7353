/** The pure parts of the upload service (src/services/fileUpload.ts): the
    base URL the service is built with, the checks a file must pass before
    it is uploaded, and the icon shown for a MIME type. */
module FileUpload {
  import opened ChatTypes
  import opened Strings

  const DefaultBaseUrl: string := "http://13.53.212.64"

  /** `raw.endsWith('/') ? raw : raw + '/'`. */
  function WithTrailingSlash(raw: string): (r: string)
    ensures EndsWith(r, "/")
    ensures r == raw || r == raw + "/"
    ensures EndsWith(raw, "/") ==> r == raw
    ensures !EndsWith(raw, "/") ==> r == raw + "/"
  {
    if EndsWith(raw, "/") then raw else raw + "/"
  }

  /** The base URL: the configured value, or the default when it is unset or
      empty, with one slash appended unless it already ends with one. */
  function BaseUrl(configured: Option<string>): (r: string)
    ensures TextTruthy(configured) ==> r == WithTrailingSlash(configured.value)
    ensures !TextTruthy(configured) ==> r == DefaultBaseUrl + "/"
  {
    WithTrailingSlash(if TextTruthy(configured) then configured.value else DefaultBaseUrl)
  }

  /** Normalising an already normalised URL changes nothing. */
  lemma WithTrailingSlashIdempotent(raw: string)
    ensures WithTrailingSlash(WithTrailingSlash(raw)) == WithTrailingSlash(raw)
  {
  }

  /** Normalising never removes or alters what was configured: the original
      string is a prefix of the result, and at most one character is added. */
  lemma WithTrailingSlashKeepsRaw(raw: string)
    ensures StartsWith(WithTrailingSlash(raw), raw)
    ensures |WithTrailingSlash(raw)| <= |raw| + 1
  {
    var r := WithTrailingSlash(raw);
    assert r[..|raw|] == raw;
  }

  // ---------------------------------------------------------------------------
  // validateFile

  /** 10 MiB. */
  const MaxSize: nat := 10 * 1024 * 1024

  const AllowedTypes: seq<string> := [
    "image/jpeg", "image/png", "image/gif", "image/webp",
    "video/mp4", "video/webm", "video/ogg",
    "audio/mpeg", "audio/wav", "audio/ogg", "audio/webm",
    "application/pdf",
    "application/msword",
    "application/vnd.openxmlformats-officedocument.wordprocessingml.document",
    "application/vnd.ms-excel",
    "application/vnd.openxmlformats-officedocument.spreadsheetml.sheet"
  ]

  const SizeError: string := "File size must be less than 10MB"
  const TypeError: string := "File type not supported"

  datatype Validation = Validation(valid: bool, error: Option<string>)

  /** validateFile for a file of `size` bytes and MIME type `mime`: the size
      is checked first, then the type. */
  function ValidateFile(size: nat, mime: string): (v: Validation)
    ensures v.valid <==> size <= MaxSize && mime in AllowedTypes
    ensures v.valid <==> v.error.None?
    ensures size > MaxSize ==> v.error == Some(SizeError)
    ensures size <= MaxSize && mime !in AllowedTypes ==> v.error == Some(TypeError)
  {
    if size > MaxSize then Validation(false, Some(SizeError))
    else if mime !in AllowedTypes then Validation(false, Some(TypeError))
    else Validation(true, None)
  }

  /** The list holds sixteen different types. */
  lemma AllowedTypesDistinct()
    ensures |AllowedTypes| == 16
    ensures forall i, j :: 0 <= i < j < |AllowedTypes| ==> AllowedTypes[i] != AllowedTypes[j]
  {
  }

  /** The bound is inclusive: exactly 10 MiB passes the size check, one byte
      more fails it, whatever the type. */
  lemma SizeBoundInclusive(mime: string)
    ensures ValidateFile(MaxSize, mime).error != Some(SizeError)
    ensures ValidateFile(MaxSize + 1, mime) == Validation(false, Some(SizeError))
  {
  }

  /** The size error wins over the type error. */
  lemma SizeCheckedFirst(size: nat, mime: string)
    requires size > MaxSize && mime !in AllowedTypes
    ensures ValidateFile(size, mime).error == Some(SizeError)
  {
  }

  // ---------------------------------------------------------------------------
  // getFileIcon

  const ImageIcon: string := "\U{1F5BC}\U{FE0F}"
  const VideoIcon: string := "\U{1F3A5}"
  const AudioIcon: string := "\U{1F3B5}"
  const PdfIcon: string := "\U{1F4C4}"
  const WordIcon: string := "\U{1F4DD}"
  const SheetIcon: string := "\U{1F4CA}"
  const OtherIcon: string := "\U{1F4CE}"

  /** getFileIcon: the first check that matches decides. */
  function FileIcon(mime: string): (icon: string)
    ensures StartsWith(mime, "image/") ==> icon == ImageIcon
    ensures !StartsWith(mime, "image/") && StartsWith(mime, "video/") ==> icon == VideoIcon
    ensures !StartsWith(mime, "image/") && !StartsWith(mime, "video/") && StartsWith(mime, "audio/") ==>
              icon == AudioIcon
    // no family prefix: the substring checks, in order
    ensures !StartsWith(mime, "image/") && !StartsWith(mime, "video/") && !StartsWith(mime, "audio/") ==>
              && (Contains(mime, "pdf") ==> icon == PdfIcon)
              && (!Contains(mime, "pdf") && Contains(mime, "word") ==> icon == WordIcon)
              && (!Contains(mime, "pdf") && !Contains(mime, "word") && Contains(mime, "excel") ==> icon == SheetIcon)
              && (!Contains(mime, "pdf") && !Contains(mime, "word") && Contains(mime, "spreadsheet") ==>
                    icon == SheetIcon)
    ensures icon == OtherIcon <==>
              !StartsWith(mime, "image/") && !StartsWith(mime, "video/") && !StartsWith(mime, "audio/")
              && !Contains(mime, "pdf") && !Contains(mime, "word")
              && !Contains(mime, "excel") && !Contains(mime, "spreadsheet")
  {
    if StartsWith(mime, "image/") then ImageIcon
    else if StartsWith(mime, "video/") then VideoIcon
    else if StartsWith(mime, "audio/") then AudioIcon
    else if Contains(mime, "pdf") then PdfIcon
    else if Contains(mime, "word") then WordIcon
    else if Contains(mime, "excel") || Contains(mime, "spreadsheet") then SheetIcon
    else OtherIcon
  }

  lemma PdfTypeHasIcon()
    ensures FileIcon("application/pdf") != OtherIcon
  {
    var t := "application/pdf";
    assert t[12] == 'p' && t[13] == 'd' && t[14] == 'f';
    assert t[12..15] == "pdf";
    assert OccursAt(t, "pdf", 12);
  }

  lemma MsWordTypeHasIcon()
    ensures FileIcon("application/msword") != OtherIcon
  {
    var t := "application/msword";
    assert t[14] == 'w' && t[15] == 'o' && t[16] == 'r' && t[17] == 'd';
    assert t[14..18] == "word";
    assert OccursAt(t, "word", 14);
  }

  lemma WordXmlTypeHasIcon()
    ensures FileIcon("application/vnd.openxmlformats-officedocument.wordprocessingml.document") != OtherIcon
  {
    var t := "application/vnd.openxmlformats-officedocument.wordprocessingml.document";
    assert t[46] == 'w' && t[47] == 'o' && t[48] == 'r' && t[49] == 'd';
    assert t[46..50] == "word";
    assert OccursAt(t, "word", 46);
  }

  lemma MsExcelTypeHasIcon()
    ensures FileIcon("application/vnd.ms-excel") != OtherIcon
  {
    var t := "application/vnd.ms-excel";
    assert t[19] == 'e' && t[20] == 'x' && t[21] == 'c' && t[22] == 'e' && t[23] == 'l';
    assert t[19..24] == "excel";
    assert OccursAt(t, "excel", 19);
  }

  lemma SheetXmlTypeHasIcon()
    ensures FileIcon("application/vnd.openxmlformats-officedocument.spreadsheetml.sheet") != OtherIcon
  {
    var t := "application/vnd.openxmlformats-officedocument.spreadsheetml.sheet";
    assert t[46] == 's' && t[47] == 'p' && t[48] == 'r' && t[49] == 'e' && t[50] == 'a' && t[51] == 'd';
    assert t[52] == 's' && t[53] == 'h' && t[54] == 'e' && t[55] == 'e' && t[56] == 't';
    assert t[46..57] == "spreadsheet";
    assert OccursAt(t, "spreadsheet", 46);
  }

  /** The first eleven allowed types are images, videos and audio. */
  lemma MediaTypesHaveFamilyPrefix(mime: string)
    requires mime in AllowedTypes[..11]
    ensures StartsWith(mime, "image/") || StartsWith(mime, "video/") || StartsWith(mime, "audio/")
  {
  }

  /** Every type that passes validation gets an icon of its own kind, never
      the generic paperclip; images, videos and audio get their family icon. */
  lemma AllowedTypesHaveIcons(mime: string)
    requires mime in AllowedTypes
    ensures FileIcon(mime) != OtherIcon
    ensures StartsWith(mime, "image/") ==> FileIcon(mime) == ImageIcon
    ensures StartsWith(mime, "video/") ==> FileIcon(mime) == VideoIcon
    ensures StartsWith(mime, "audio/") ==> FileIcon(mime) == AudioIcon
  {
    var i :| 0 <= i < |AllowedTypes| && AllowedTypes[i] == mime;
    if i < 11 {
      assert mime in AllowedTypes[..11];
      MediaTypesHaveFamilyPrefix(mime);
    } else if i == 11 {
      PdfTypeHasIcon();
    } else if i == 12 {
      MsWordTypeHasIcon();
    } else if i == 13 {
      WordXmlTypeHasIcon();
    } else if i == 14 {
      MsExcelTypeHasIcon();
    } else {
      SheetXmlTypeHasIcon();
    }
  }
}
