/**
 * The export pipeline (src/utils/pdfGenerator.ts): find the two card faces,
 * rasterise each, lay them out as the two pages of a card-sized document and
 * save it under a sanitised file name.
 *
 * The rasteriser and the document library are foreign code. Here a captured
 * face is an abstract `Snapshot` of the face, a page is the list of images
 * drawn on it, and whether a library call throws is an input: `failAt` names
 * the first call that throws, if any.
 */
module PdfGenerator {
  import opened Types
  import opened IdCardPreview

  // ---------------------------------------------------------------------------
  // File name
  // ---------------------------------------------------------------------------

  /** `[a-z0-9]` under the `i` flag: ASCII letters of either case and ASCII digits. */
  predicate IsAsciiAlphanumeric(c: char) {
    'a' <= c <= 'z' || 'A' <= c <= 'Z' || '0' <= c <= '9'
  }

  /** What `[^a-z0-9]` (flag `gi`) does to one character. */
  function SafeChar(c: char): char {
    if IsAsciiAlphanumeric(c) then c else '_'
  }

  const DefaultName: string := "Farmer"
  const FileNamePrefix: string := "AgroStack_UHD_"
  const FileNameSuffix: string := ".pdf"

  /**
   * `(farmerName || 'Farmer').replace(/[^a-z0-9]/gi, '_')`: one `_` for every
   * character that is not an ASCII letter or digit; runs are not collapsed.
   */
  function SafeName(farmerName: string): (r: string)
    ensures forall i :: 0 <= i < |r| ==> IsAsciiAlphanumeric(r[i]) || r[i] == '_'
    ensures farmerName == "" ==> r == DefaultName
    ensures farmerName != "" ==> |r| == |farmerName|
    ensures farmerName != "" ==> forall i :: 0 <= i < |r| ==>
      if IsAsciiAlphanumeric(farmerName[i]) then r[i] == farmerName[i] else r[i] == '_'
  {
    var name := if farmerName == "" then DefaultName else farmerName;
    seq(|name|, i requires 0 <= i < |name| => SafeChar(name[i]))
  }

  /** Sanitising a sanitised name changes nothing. */
  lemma SafeNameIdempotent(farmerName: string)
    ensures SafeName(SafeName(farmerName)) == SafeName(farmerName)
  {
    var once := SafeName(farmerName);
    assert once != "" by {
      if farmerName == "" { assert once == DefaultName; }
    }
    var twice := SafeName(once);
    assert |twice| == |once|;
    forall i | 0 <= i < |once| ensures twice[i] == once[i] {
      if !IsAsciiAlphanumeric(once[i]) { assert once[i] == '_'; }
    }
  }

  /** Trailing punctuation becomes one `_` per character: "Rahul Kumar!!" gives "Rahul_Kumar__". */
  lemma SafeNameKeepsRuns()
    ensures SafeName("Rahul Kumar!!") == "Rahul_Kumar__"
  {
    var r := SafeName("Rahul Kumar!!");
    assert |r| == 13;
    assert r[5] == '_' && r[11] == '_' && r[12] == '_';
    assert forall i | 0 <= i < 13 && i != 5 && i != 11 && i != 12 :: r[i] == "Rahul Kumar!!"[i];
  }

  /** `AgroStack_UHD_${safeName}.pdf` */
  function FileName(farmerName: string): (r: string)
    ensures |r| == |FileNamePrefix| + |SafeName(farmerName)| + |FileNameSuffix|
    ensures r[..|FileNamePrefix|] == FileNamePrefix
    ensures r[|r| - |FileNameSuffix|..] == FileNameSuffix
    ensures r[|FileNamePrefix|..|r| - |FileNameSuffix|] == SafeName(farmerName)
  {
    FileNamePrefix + SafeName(farmerName) + FileNameSuffix
  }

  // ---------------------------------------------------------------------------
  // Document
  // ---------------------------------------------------------------------------

  /** A page size in tenths of a millimetre: the ID-1 card, 85.6 mm by 54 mm, landscape. */
  datatype PageFormat = PageFormat(widthTenthMm: nat, heightTenthMm: nat, landscape: bool)

  const CardFormat: PageFormat := PageFormat(856, 540, true)

  /** A face rasterised and encoded as a JPEG. */
  datatype Image = Snapshot(face: Surface)

  /** A page and the images drawn on it, each covering the full page. */
  datatype Page = Page(format: PageFormat, images: seq<Image>)

  datatype Document = Document(fileName: string, pages: seq<Page>)

  /** The foreign calls the pipeline makes, in order; any of them may throw. */
  datatype Step = CaptureFront | CaptureBack | CreateDocument | DrawFront | AddBackPage | DrawBack | Save

  const Pipeline: seq<Step> := [CaptureFront, CaptureBack, CreateDocument, DrawFront, AddBackPage, DrawBack, Save]

  function Position(s: Step): (k: nat)
    ensures k < |Pipeline| && Pipeline[k] == s
  {
    match s
    case CaptureFront => 0
    case CaptureBack => 1
    case CreateDocument => 2
    case DrawFront => 3
    case AddBackPage => 4
    case DrawBack => 5
    case Save => 6
  }

  /** `addImage`: draw on the current (last) page. */
  function DrawOnLastPage(pages: seq<Page>, image: Image): (r: seq<Page>)
    requires |pages| >= 1
    ensures |r| == |pages| && r[..|pages| - 1] == pages[..|pages| - 1]
    ensures r[|r| - 1] == pages[|pages| - 1].(images := pages[|pages| - 1].images + [image])
  {
    pages[..|pages| - 1] + [pages[|pages| - 1].(images := pages[|pages| - 1].images + [image])]
  }

  /** The document a successful export saves: front on page 1, back on page 2, one format. */
  function CardDocument(farmerName: string, front: Surface, back: Surface): Document {
    Document(FileName(farmerName), [Page(CardFormat, [Snapshot(front)]), Page(CardFormat, [Snapshot(back)])])
  }

  /**
   * `generatePDF(element, farmerName)`. Returns the boolean result, the
   * document handed to the browser for download (if any) and the foreign
   * calls made, in order.
   */
  method GeneratePdf(element: CardElement, farmerName: string, failAt: Option<Step>)
    returns (ok: bool, saved: Option<Document>, calls: seq<Step>)
    ensures element.front.None? || element.back.None? ==> !ok && saved.None? && calls == []
    ensures element.front.Some? && element.back.Some? ==>
      && (ok <==> failAt.None?)
      && calls == (if failAt.None? then Pipeline else Pipeline[..Position(failAt.value) + 1])
    ensures ok ==> saved == Some(CardDocument(farmerName, element.front.value, element.back.value))
    ensures !ok ==> saved.None?
    ensures ok ==> |saved.value.pages| == 2 && forall p :: p in saved.value.pages ==> p.format == CardFormat
  {
    if element.front.None? || element.back.None? {
      return false, None, [];
    }
    var front, back := element.front.value, element.back.value;
    ok, saved, calls := false, None, [];

    calls := calls + [CaptureFront];
    assert calls == Pipeline[..1];
    if failAt == Some(CaptureFront) { return; }
    var frontImage := Snapshot(front);

    calls := calls + [CaptureBack];
    assert calls == Pipeline[..2];
    if failAt == Some(CaptureBack) { return; }
    var backImage := Snapshot(back);

    calls := calls + [CreateDocument];
    assert calls == Pipeline[..3];
    if failAt == Some(CreateDocument) { return; }
    var pages := [Page(CardFormat, [])];

    calls := calls + [DrawFront];
    assert calls == Pipeline[..4];
    if failAt == Some(DrawFront) { return; }
    pages := DrawOnLastPage(pages, frontImage);
    assert [] + [frontImage] == [frontImage];
    assert pages == [Page(CardFormat, [frontImage])];

    calls := calls + [AddBackPage];
    assert calls == Pipeline[..5];
    if failAt == Some(AddBackPage) { return; }
    pages := pages + [Page(CardFormat, [])];
    assert pages[..1] == [Page(CardFormat, [frontImage])];

    calls := calls + [DrawBack];
    assert calls == Pipeline[..6];
    if failAt == Some(DrawBack) { return; }
    pages := DrawOnLastPage(pages, backImage);
    assert [] + [backImage] == [backImage];
    assert pages == [Page(CardFormat, [frontImage]), Page(CardFormat, [backImage])];

    var doc := Document(FileName(farmerName), pages);
    calls := calls + [Save];
    assert calls == Pipeline[..7];
    if failAt == Some(Save) { return; }
    ok, saved := true, Some(doc);
  }
}
