/**
 * Classification and decoding of uploaded files: image detection by
 * extension, the MIME table, the `data:` URI of an image (RFC 2397,
 * section 3, with a base 64 payload), the suffix-based dispatch of
 * `parse_file`, and text decoding with a Latin-1 fallback.
 */
module FileParser {
  import opened Wrappers
  import opened Bytes
  import Text
  import Base64
  import Utf8

  const ImageExtensions: seq<string> := [".jpg", ".jpeg", ".png", ".gif", ".webp"]

  const ImageMimeTypes: map<string, string> := map[
    ".jpg" := "image/jpeg",
    ".jpeg" := "image/jpeg",
    ".png" := "image/png",
    ".gif" := "image/gif",
    ".webp" := "image/webp"
  ]

  /** The MIME type used when the extension is not in the table. */
  const DefaultMimeType: string := "image/jpeg"

  /**
   * The extension both image helpers compute: `.` and the text after the
   * last `.` of the lower-cased name, or the empty string when the name
   * has no `.` at all.
   */
  function Extension(filename: string): string {
    if '.' in filename then "." + Text.LastPiece(Text.Lower(filename), '.') else ""
  }

  /** `is_image_file`. */
  predicate IsImageFile(filename: string) {
    Extension(filename) in ImageExtensions
  }

  /** `get_image_mime_type`: the table entry for the extension, else `image/jpeg`. */
  function GetImageMimeType(filename: string): string {
    var ext := Extension(filename);
    if ext in ImageMimeTypes then ImageMimeTypes[ext] else DefaultMimeType
  }

  /** `parse_image`: a `data:` URI with the MIME type and the base 64 of the bytes. */
  function ParseImage(content: seq<Byte>, filename: string): (r: string)
    ensures Text.StartsWith(r, "data:" + GetImageMimeType(filename) + ";base64,")
  {
    "data:" + GetImageMimeType(filename) + ";base64," + Base64.Encode(content)
  }

  /** `parse_txt`: the UTF-8 decoding when the bytes are valid UTF-8, else the Latin-1 decoding. */
  function ParseTxt(content: seq<Byte>): string {
    match Utf8.Decode(content)
    case Some(text) => text
    case None => Utf8.Latin1(content)
  }

  /** `parse_md`: markdown is read exactly as plain text. */
  function ParseMd(content: seq<Byte>): string {
    ParseTxt(content)
  }

  /** The four results `parse_file` can tag a file with. */
  datatype FileType = Image | Pdf | Txt | Md

  /** The tag string `parse_file` returns next to the content. */
  function Tag(t: FileType): string {
    match t
    case Image => "image"
    case Pdf => "pdf"
    case Txt => "txt"
    case Md => "md"
  }

  /** The branch `parse_file` takes: image first, then the `.pdf`, `.txt` and `.md`/`.mdx` suffixes. */
  function Classify(filename: string): Option<FileType> {
    var lower := Text.Lower(filename);
    if IsImageFile(filename) then Some(Image)
    else if Text.EndsWith(lower, ".pdf") then Some(Pdf)
    else if Text.EndsWith(lower, ".txt") then Some(Txt)
    else if Text.EndsWith(lower, ".md") || Text.EndsWith(lower, ".mdx") then Some(Md)
    else None
  }

  datatype Parsed = Parsed(content: string, fileType: string)

  /**
   * `parse_file`. The PDF-to-markdown conversion is a call into a PDF
   * library and is passed in as `pdfToMarkdown`; the error case is the
   * `ValueError` the source raises.
   */
  function ParseFile(filename: string, content: seq<Byte>, pdfToMarkdown: seq<Byte> -> string): (r: Result<Parsed, string>)
    ensures r.Err? <==> Classify(filename).None?
    ensures r.Err? ==> r.error == "Unsupported file type: " + filename
    ensures r.Ok? ==> r.value.fileType == Tag(Classify(filename).value)
  {
    match Classify(filename)
    case Some(Image) => Ok(Parsed(ParseImage(content, filename), "image"))
    case Some(Pdf) => Ok(Parsed(pdfToMarkdown(content), "pdf"))
    case Some(Txt) => Ok(Parsed(ParseTxt(content), "txt"))
    case Some(Md) => Ok(Parsed(ParseMd(content), "md"))
    case None => Err("Unsupported file type: " + filename)
  }

  /** `get_supported_extensions`. */
  function GetSupportedExtensions(): (r: seq<string>)
    ensures |r| == 9 && r[4..] == ImageExtensions
  {
    [".pdf", ".txt", ".md", ".mdx"] + ImageExtensions
  }

  /** A name without any `.` is never an image, and its MIME type is the default. */
  lemma NoDotNoImage(filename: string)
    requires '.' !in filename
    ensures !IsImageFile(filename)
    ensures GetImageMimeType(filename) == "image/jpeg"
  {
  }

  /** Whether `s` ends with one of `exts`. */
  predicate EndsWithOneOf(s: string, exts: seq<string>) {
    exists i :: 0 <= i < |exts| && Text.EndsWith(s, exts[i])
  }

  lemma EndsWithOneOfConcat(s: string, a: seq<string>, b: seq<string>)
    ensures EndsWithOneOf(s, a + b) <==> EndsWithOneOf(s, a) || EndsWithOneOf(s, b)
  {
    if EndsWithOneOf(s, a + b) {
      var i :| 0 <= i < |a + b| && Text.EndsWith(s, (a + b)[i]);
      if i < |a| { assert (a + b)[i] == a[i]; } else { assert (a + b)[i] == b[i - |a|]; }
    }
    if EndsWithOneOf(s, a) {
      var i :| 0 <= i < |a| && Text.EndsWith(s, a[i]);
      assert (a + b)[i] == a[i];
    }
    if EndsWithOneOf(s, b) {
      var i :| 0 <= i < |b| && Text.EndsWith(s, b[i]);
      assert (a + b)[i + |a|] == b[i];
    }
  }

  /**
   * With a `.` in the name, the extension is the lower-cased name's suffix
   * from its last `.`: it starts with `.`, holds no other `.`, and ends the
   * lower-cased name.
   */
  lemma ExtensionSpec(filename: string)
    requires '.' in filename
    ensures var ext := Extension(filename);
      && |ext| >= 1 && ext[0] == '.' && '.' !in ext[1..]
      && Text.EndsWith(Text.Lower(filename), ext)
  {
    var lower := Text.Lower(filename);
    var p := Text.LastPiece(lower, '.');
    Text.LowerKeeps(filename, '.');
    Text.LastPieceSpec(lower, '.');
    Text.EndsWithLastPiece(lower, '.');
    assert ("." + p)[1..] == p;
  }

  /** An extension of the form `.` and a `.`-free word: the shape of every image extension. */
  predicate SimpleExtension(e: string) {
    |e| >= 1 && e[0] == '.' && '.' !in e[1..]
  }

  lemma ImageExtensionsSimple()
    ensures forall i :: 0 <= i < |ImageExtensions| ==> SimpleExtension(ImageExtensions[i])
  {
  }

  /** A name whose lower-cased form ends with a simple extension has that extension. */
  lemma ExtensionOfSuffix(filename: string, e: string)
    requires SimpleExtension(e) && Text.EndsWith(Text.Lower(filename), e)
    ensures Extension(filename) == e
  {
    var lower := Text.Lower(filename);
    assert lower[|lower| - |e|] == '.';
    assert '.' in lower;
    Text.LowerKeeps(filename, '.');
    assert e == [('.')] + e[1..];
    Text.LastPieceOfSuffix(lower, '.', e[1..]);
  }

  /**
   * Image classification looks only at the end of the name, ignoring
   * case: a file is an image exactly when its lower-cased name ends with
   * one of .jpg, .jpeg, .png, .gif, .webp.
   */
  lemma IsImageFileIff(filename: string)
    ensures IsImageFile(filename) <==> EndsWithOneOf(Text.Lower(filename), ImageExtensions)
  {
    ImageExtensionsSimple();
    if IsImageFile(filename) {
      var ext := Extension(filename);
      var i :| 0 <= i < |ImageExtensions| && ImageExtensions[i] == ext;
      ExtensionSpec(filename);
    }
    if EndsWithOneOf(Text.Lower(filename), ImageExtensions) {
      var i :| 0 <= i < |ImageExtensions| && Text.EndsWith(Text.Lower(filename), ImageExtensions[i]);
      ExtensionOfSuffix(filename, ImageExtensions[i]);
    }
  }

  /** The MIME table has exactly the image extensions as keys. */
  lemma MimeTableKeys()
    ensures forall e :: e in ImageMimeTypes <==> e in ImageExtensions
  {
  }

  /**
   * An image gets its table type (both .jpg and .jpeg give image/jpeg);
   * anything else gets image/jpeg.
   */
  lemma MimeTypeSpec(filename: string)
    ensures IsImageFile(filename) ==> GetImageMimeType(filename) == ImageMimeTypes[Extension(filename)]
    ensures !IsImageFile(filename) ==> GetImageMimeType(filename) == "image/jpeg"
    ensures Extension(filename) in {".jpg", ".jpeg"} ==> GetImageMimeType(filename) == "image/jpeg"
  {
    MimeTableKeys();
  }

  /** A name ending, in any case, with an image extension gets that extension's table type. */
  lemma MimeTypeBySuffix(filename: string, e: string)
    requires e in ImageExtensions && Text.EndsWith(Text.Lower(filename), e)
    ensures GetImageMimeType(filename) == ImageMimeTypes[e]
  {
    ImageExtensionsSimple();
    var i :| 0 <= i < |ImageExtensions| && ImageExtensions[i] == e;
    ExtensionOfSuffix(filename, e);
  }

  /**
   * The data URI is `data:`, the MIME type, `;base64,` and a payload of
   * 4 * ceil(n / 3) characters that decodes back to the file's bytes.
   */
  lemma ParseImageRoundTrip(content: seq<Byte>, filename: string)
    ensures var prefix := "data:" + GetImageMimeType(filename) + ";base64,";
      var r := ParseImage(content, filename);
      && |r| == |prefix| + 4 * ((|content| + 2) / 3)
      && Base64.Decode(r[|prefix|..]) == Some(content)
  {
    var prefix := "data:" + GetImageMimeType(filename) + ";base64,";
    assert ParseImage(content, filename)[|prefix|..] == Base64.Encode(content);
    Base64.DecodeEncode(content);
  }

  /**
   * `parse_file` tries image, `.pdf`, `.txt` and `.md`/`.mdx` in that
   * order, on the lower-cased name; a later test only decides when all
   * earlier ones failed.
   */
  lemma ParseFileOrder(filename: string, content: seq<Byte>, pdfToMarkdown: seq<Byte> -> string)
    ensures var r := ParseFile(filename, content, pdfToMarkdown);
      var lower := Text.Lower(filename);
      && (IsImageFile(filename) ==> r == Ok(Parsed(ParseImage(content, filename), "image")))
      && (!IsImageFile(filename) && Text.EndsWith(lower, ".pdf") ==> r == Ok(Parsed(pdfToMarkdown(content), "pdf")))
      && (!IsImageFile(filename) && !Text.EndsWith(lower, ".pdf") && Text.EndsWith(lower, ".txt")
          ==> r == Ok(Parsed(ParseTxt(content), "txt")))
      && (!IsImageFile(filename) && !Text.EndsWith(lower, ".pdf") && !Text.EndsWith(lower, ".txt")
          && (Text.EndsWith(lower, ".md") || Text.EndsWith(lower, ".mdx"))
          ==> r == Ok(Parsed(ParseTxt(content), "md")))
  {
  }

  lemma EndsWithOneOfTextTypes(s: string)
    ensures EndsWithOneOf(s, [".pdf", ".txt", ".md", ".mdx"]) <==>
      Text.EndsWith(s, ".pdf") || Text.EndsWith(s, ".txt") || Text.EndsWith(s, ".md") || Text.EndsWith(s, ".mdx")
  {
    var exts := [".pdf", ".txt", ".md", ".mdx"];
    if Text.EndsWith(s, ".pdf") { assert Text.EndsWith(s, exts[0]); }
    if Text.EndsWith(s, ".txt") { assert Text.EndsWith(s, exts[1]); }
    if Text.EndsWith(s, ".md") { assert Text.EndsWith(s, exts[2]); }
    if Text.EndsWith(s, ".mdx") { assert Text.EndsWith(s, exts[3]); }
  }

  /**
   * A file is accepted exactly when its lower-cased name ends with one of
   * the extensions `get_supported_extensions` lists.
   */
  lemma SupportedIff(filename: string, content: seq<Byte>, pdfToMarkdown: seq<Byte> -> string)
    ensures ParseFile(filename, content, pdfToMarkdown).Ok? <==> EndsWithOneOf(Text.Lower(filename), GetSupportedExtensions())
  {
    var lower := Text.Lower(filename);
    IsImageFileIff(filename);
    EndsWithOneOfConcat(lower, [".pdf", ".txt", ".md", ".mdx"], ImageExtensions);
    EndsWithOneOfTextTypes(lower);
  }

  /** Text that is valid UTF-8 reads back as the text it encodes. */
  lemma ParseTxtUtf8(text: string)
    ensures ParseTxt(Utf8.Encode(text)) == text
  {
    Utf8.DecodeEncode(text);
  }

  /**
   * `parse_txt` never fails: on bytes that are not UTF-8 it gives one
   * character per byte, with the byte's number; on ASCII both readings agree.
   */
  lemma ParseTxtFallback(content: seq<Byte>)
    ensures Utf8.Decode(content).None? ==>
      |ParseTxt(content)| == |content| && forall i :: 0 <= i < |content| ==> ParseTxt(content)[i] as int == content[i]
    ensures IsAscii(content) ==> ParseTxt(content) == Utf8.Latin1(content)
  {
    if IsAscii(content) { Utf8.AsciiDecodes(content); }
  }

  /** Whatever `parse_txt` returns for valid UTF-8 is exactly the text those bytes encode. */
  lemma ParseTxtCanonical(content: seq<Byte>)
    requires Utf8.Decode(content).Some?
    ensures Utf8.Encode(ParseTxt(content)) == content
  {
    Utf8.EncodeDecode(content);
  }

  lemma ParseMdIsParseTxt(content: seq<Byte>)
    ensures ParseMd(content) == ParseTxt(content)
  {
  }

  lemma ImageExample()
    ensures IsImageFile("a.JPG") && GetImageMimeType("a.JPG") == "image/jpeg"
    ensures !IsImageFile("README") && GetImageMimeType("README") == "image/jpeg"
  {
    assert Text.Lower("a.JPG") == "a.jpg";
    assert Text.EndsWith("a.jpg", ".jpg");
    ImageExtensionsSimple();
    ExtensionOfSuffix("a.JPG", ".jpg");
    MimeTypeBySuffix("a.JPG", ".jpg");
  }

  lemma MarkdownExample()
    ensures Classify("a.MDX") == Some(Md)
  {
    var lower := Text.Lower("a.MDX");
    assert lower == "a.mdx";
    ImageExtensionsSimple();
    ExtensionOfSuffix("a.MDX", ".mdx");
    assert !Text.EndsWith(lower, ".pdf") && !Text.EndsWith(lower, ".txt") && Text.EndsWith(lower, ".mdx");
  }
}
