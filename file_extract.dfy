/** `extract_file_content` of compeqGPT.py: dispatch on the declared media
    type of an uploaded file to an image, a text excerpt of at most 1500
    characters, or "unsupported". The decoding libraries (PIL, PyMuPDF,
    python-docx, pandas, UTF-8 decoding) are given as the fields of a
    `Decoders` value, so the model keeps only what this file decides. */
module FileExtract {
  import opened Strings
  import opened Optional

  newtype uint8 = x: int | 0 <= x < 0x100
  type Bytes = seq<uint8>

  /** An uploaded file: its declared media type and its content. */
  datatype Upload = Upload(mediaType: string, data: Bytes)

  /** The libraries the extractor calls into, one function each. */
  datatype Decoders = Decoders(
    toPng: Bytes -> Bytes,                // Image.open(...).save(format="PNG")
    pdfPageTexts: Bytes -> seq<string>,   // page.get_text() for each page of fitz.open(...)
    utf8: Bytes -> string,                // file.read().decode("utf-8")
    docxParagraphs: Bytes -> seq<string>, // para.text for each paragraph of docx.Document(...)
    sheetText: Bytes -> string            // pd.read_excel(...).to_string(index=False)
  )

  /** What the page holds about the current upload: no file at all, or the
      result of `extract_file_content`. */
  datatype FileContent = NoFile | Image(png: Bytes) | Text(text: string) | Unsupported

  const ImagePrefix: string := "image/"
  const ApplicationPrefix: string := "application/"
  const PdfType: string := ApplicationPrefix + "pdf"
  const PlainType: string := "text/plain"
  const DocxType: string := ApplicationPrefix + "vnd.openxmlformats-officedocument.wordprocessingml.document"
  const XlsxType: string := ApplicationPrefix + "vnd.openxmlformats-officedocument.spreadsheetml.sheet"

  /** Every text excerpt is cut to this many characters (no ellipsis). */
  const ExcerptLimit: nat := 1500

  /** The four media types whose content is turned into text. */
  predicate IsTextType(t: string) {
    t == PdfType || t == PlainType || t == DocxType || t == XlsxType
  }

  /** No text type is mistaken for an image: the image test comes first in
      the source, so this is what lets each text type reach its own branch. */
  lemma TextTypesAreNotImages(t: string)
    ensures IsTextType(t) ==> !StartsWith(t, ImagePrefix)
  {
    if IsTextType(t) {
      assert ImagePrefix[0] == 'i';
      assert t[0] == 'a' || t[0] == 't';
    }
  }

  /** `extract_file_content(file)`: the branch is chosen by the declared
      media type alone; images are tested first, then the four text types
      (decoded by `DecodedText`), and anything else is unsupported. */
  function Extract(file: Upload, dec: Decoders): (r: FileContent)
    ensures r.Image? <==> StartsWith(file.mediaType, ImagePrefix)
    ensures r.Text? <==> IsTextType(file.mediaType)
    ensures r.Unsupported? <==> !StartsWith(file.mediaType, ImagePrefix) && !IsTextType(file.mediaType)
    ensures r.Text? ==> |r.text| <= ExcerptLimit
    ensures r.Image? ==> r.png == dec.toPng(file.data)
  {
    var t := file.mediaType;
    TextTypesAreNotImages(t);
    if StartsWith(t, ImagePrefix) then Image(dec.toPng(file.data))
    else if IsTextType(t) then Text(Cut(DecodedText(file, dec), ExcerptLimit))
    else Unsupported
  }

  /** The text a text-type upload is decoded to, before the cut to 1500
      characters, in the order the source tests the types: PDF and Word
      text is stripped, plain text and sheets are not. */
  function DecodedText(file: Upload, dec: Decoders): string
    requires IsTextType(file.mediaType)
  {
    var t := file.mediaType;
    if t == PdfType then Strip(Concat(dec.pdfPageTexts(file.data)))
    else if t == PlainType then dec.utf8(file.data)
    else if t == DocxType then Strip(Join(dec.docxParagraphs(file.data), "\n"))
    else dec.sheetText(file.data)
  }

  /** The excerpt of a text-type upload is the first 1500 characters of its
      decoded text: all of it when it is shorter, exactly 1500 otherwise. */
  lemma ExcerptIsPrefix(file: Upload, dec: Decoders)
    requires IsTextType(file.mediaType)
    ensures Extract(file, dec).Text?
    ensures Extract(file, dec).text <= DecodedText(file, dec)
    ensures |DecodedText(file, dec)| <= ExcerptLimit ==> Extract(file, dec).text == DecodedText(file, dec)
    ensures |DecodedText(file, dec)| > ExcerptLimit ==> |Extract(file, dec).text| == ExcerptLimit
  {
    TextTypesAreNotImages(file.mediaType);
  }

  /** `extract_file_content(uploaded_file) if uploaded_file else None`. */
  function ContentOf(upload: Option<Upload>, dec: Decoders): (r: FileContent)
    ensures r.NoFile? <==> upload.None?
    ensures upload.Some? ==> r == Extract(upload.value, dec)
  {
    match upload
    case None => NoFile
    case Some(file) => Extract(file, dec)
  }

  /** The extractor as the source runs it: the PDF branch collects the
      pages' text with `text += page.get_text()` in a loop. */
  method ExtractFileContent(file: Upload, dec: Decoders) returns (r: FileContent)
    ensures r == Extract(file, dec)
  {
    var fileType := file.mediaType;
    if StartsWith(fileType, ImagePrefix) {
      r := Image(dec.toPng(file.data));
    } else if fileType == PdfType {
      var pages := dec.pdfPageTexts(file.data);
      var text := "";
      var i := 0;
      while i < |pages|
        invariant 0 <= i <= |pages|
        invariant text == Concat(pages[..i])
      {
        assert pages[..i + 1][..i] == pages[..i];
        text := text + pages[i];
        i := i + 1;
      }
      assert pages[..i] == pages;
      r := Text(Cut(Strip(text), ExcerptLimit));
    } else if fileType == PlainType {
      r := Text(Cut(dec.utf8(file.data), ExcerptLimit));
    } else if fileType == DocxType {
      var text := Join(dec.docxParagraphs(file.data), "\n");
      r := Text(Cut(Strip(text), ExcerptLimit));
    } else if fileType == XlsxType {
      r := Text(Cut(dec.sheetText(file.data), ExcerptLimit));
    } else {
      r := Unsupported;
    }
  }
}
