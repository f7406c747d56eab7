/**
 * What the card preview shows (src/components/IDCardPreview.tsx), as a view
 * model: the text of every data-driven slot on the two faces, the QR payload
 * and the land table. Layout, styling and artwork are not part of it.
 */
module IdCardPreview {
  import opened Types

  const NamePlaceholder: string := "RAHUL KUMAR PATIL"
  const MarathiNamePlaceholder: string := "राहुल कुमार पाटील"
  const FrontAddressPlaceholder: string := "Address Village, Taluka, District..."
  const MobilePlaceholder: string := "9876543210"
  const AadhaarPlaceholder: string := "1234 5678 9012"
  const BackAddressPlaceholder: string := "Village Name, Taluka, District, State - Pincode"
  const EmptyCell: string := "-"
  const PhotoPlaceholderText: string := "Photo"

  /** The slot shows `value`, or `placeholder` when `value` is empty. */
  ghost predicate ShowsOr(shown: string, value: string, placeholder: string) {
    (value != "" ==> shown == value) && (value == "" ==> shown == placeholder)
  }

  /** `value || placeholder` */
  function OrPlaceholder(value: string, placeholder: string): string {
    if value != "" then value else placeholder
  }

  datatype PhotoSlot = Picture(src: string) | PhotoPlaceholder(caption: string)

  /** `data.photo ? <img src={data.photo}/> : 'Photo'`: a null or empty photo shows the caption "Photo". */
  function PhotoSlotOf(photo: Option<string>): (r: PhotoSlot)
    ensures r.Picture? <==> photo.Some? && photo.value != ""
    ensures r.Picture? ==> r.src == photo.value
    ensures r.PhotoPlaceholder? ==> r.caption == PhotoPlaceholderText
  {
    if photo.Some? && photo.value != "" then Picture(photo.value) else PhotoPlaceholder(PhotoPlaceholderText)
  }

  /** The payload encoded in the front face's QR code. */
  function QrPayload(farmerId: string, aadhaar: string): string {
    "FARMER:" + farmerId + "|AADHAR:" + aadhaar
  }

  /** Position of the first `|` in `s`, or `|s|` when there is none. */
  function FirstBar(s: string): (k: nat)
    ensures k <= |s|
    ensures forall i :: 0 <= i < k ==> s[i] != '|'
    ensures k < |s| ==> s[k] == '|'
  {
    if s == [] || s[0] == '|' then 0 else 1 + FirstBar(s[1..])
  }

  /** What a scanner reads back from a payload: the farmer ID and the Aadhaar number. */
  function ParseQrPayload(payload: string): Option<(string, string)> {
    if |payload| < 7 || payload[..7] != "FARMER:" then None
    else
      var rest := payload[7..];
      var k := FirstBar(rest);
      if |rest| - k < 8 || rest[k..k + 8] != "|AADHAR:" then None
      else Some((rest[..k], rest[k + 8..]))
  }

  /** A farmer ID without `|` (every filtered or generated ID) is recovered with its Aadhaar number. */
  lemma QrPayloadRoundTrip(farmerId: string, aadhaar: string)
    requires forall i :: 0 <= i < |farmerId| ==> farmerId[i] != '|'
    ensures ParseQrPayload(QrPayload(farmerId, aadhaar)) == Some((farmerId, aadhaar))
  {
    var payload := QrPayload(farmerId, aadhaar);
    assert payload[..7] == "FARMER:";
    var rest := payload[7..];
    assert rest == farmerId + "|AADHAR:" + aadhaar;
    var k := FirstBar(rest);
    assert rest[|farmerId|] == '|';
    assert k == |farmerId|;
    assert rest[k..k + 8] == "|AADHAR:";
    assert rest[..k] == farmerId;
    assert rest[k + 8..] == aadhaar;
  }

  datatype FrontView = FrontView(
    farmerIdBadge: string,
    photo: PhotoSlot,
    nameEnglish: string,
    nameMarathi: string,
    address: string,
    mobile: string,
    aadhaar: string,
    qrPayload: string,
    farmerIdFooter: string)

  /** One row of the back face's land table. */
  datatype TableRow = TableRow(district: string, taluka: string, village: string, surveyNumber: string)

  datatype BackView = BackView(
    farmerIdHeader: string,
    address: string,
    recordCount: nat,
    rows: seq<TableRow>)

  function RowOf(r: LandRecord): (row: TableRow)
    ensures ShowsOr(row.district, r.district, EmptyCell) && ShowsOr(row.taluka, r.taluka, EmptyCell)
    ensures ShowsOr(row.village, r.village, EmptyCell) && ShowsOr(row.surveyNumber, r.surveyNumber, EmptyCell)
  {
    TableRow(OrPlaceholder(r.district, EmptyCell), OrPlaceholder(r.taluka, EmptyCell),
             OrPlaceholder(r.village, EmptyCell), OrPlaceholder(r.surveyNumber, EmptyCell))
  }

  function Min(a: int, b: int): int {
    if a <= b then a else b
  }

  /** `landRecords.slice(0, 3).map(...)`: the first three records, in order. */
  function TableRows(records: seq<LandRecord>): (rows: seq<TableRow>)
    ensures |rows| == Min(3, |records|) <= 3
    ensures forall i :: 0 <= i < |rows| ==> rows[i] == RowOf(records[i])
  {
    var shown := records[..Min(3, |records|)];
    seq(|shown|, i requires 0 <= i < |shown| => RowOf(shown[i]))
  }

  /** Records past the third change the badge but never the table. */
  lemma TableIgnoresLaterRecords(records: seq<LandRecord>, more: seq<LandRecord>)
    requires |records| >= 3
    ensures TableRows(records + more) == TableRows(records)
  {
    var a, b := TableRows(records + more), TableRows(records);
    assert |a| == |b| == 3;
    forall i | 0 <= i < 3 ensures a[i] == b[i] {
      assert (records + more)[i] == records[i];
    }
  }

  function FrontOf(d: FarmerData): (v: FrontView)
    ensures v.farmerIdBadge == d.farmerId && v.farmerIdFooter == d.farmerId
    ensures v.photo == PhotoSlotOf(d.photo)
    ensures ShowsOr(v.nameEnglish, d.fullNameEnglish, NamePlaceholder)
    ensures ShowsOr(v.nameMarathi, d.fullNameMarathi, MarathiNamePlaceholder)
    ensures ShowsOr(v.address, d.address, FrontAddressPlaceholder)
    ensures ShowsOr(v.mobile, d.whatsapp, MobilePlaceholder)
    ensures ShowsOr(v.aadhaar, d.aadhaar, AadhaarPlaceholder)
    ensures v.nameEnglish != "" && v.nameMarathi != "" && v.address != "" && v.mobile != "" && v.aadhaar != ""
    ensures v.qrPayload == QrPayload(d.farmerId, d.aadhaar)
  {
    FrontView(
      d.farmerId,
      PhotoSlotOf(d.photo),
      OrPlaceholder(d.fullNameEnglish, NamePlaceholder),
      OrPlaceholder(d.fullNameMarathi, MarathiNamePlaceholder),
      OrPlaceholder(d.address, FrontAddressPlaceholder),
      OrPlaceholder(d.whatsapp, MobilePlaceholder),
      OrPlaceholder(d.aadhaar, AadhaarPlaceholder),
      QrPayload(d.farmerId, d.aadhaar),
      d.farmerId)
  }

  function BackOf(d: FarmerData): (v: BackView)
    ensures v.farmerIdHeader == d.farmerId
    ensures ShowsOr(v.address, d.address, BackAddressPlaceholder) && v.address != ""
    ensures v.recordCount == |d.landRecords|
    ensures |v.rows| == Min(3, |d.landRecords|)
    ensures forall i :: 0 <= i < |v.rows| ==> v.rows[i] == RowOf(d.landRecords[i])
  {
    BackView(d.farmerId, OrPlaceholder(d.address, BackAddressPlaceholder), |d.landRecords|, TableRows(d.landRecords))
  }

  /** A rendered card face, the thing the exporter rasterises. */
  datatype Surface = FrontSurface(front: FrontView) | BackSurface(back: BackView)

  /**
   * The preview's root element as the exporter sees it: the elements it finds
   * by `#id-card-front` and `#id-card-back`, when present.
   */
  datatype CardElement = CardElement(front: Option<Surface>, back: Option<Surface>)

  /** The preview always renders both faces. */
  function Render(d: FarmerData): (e: CardElement)
    ensures e.front == Some(FrontSurface(FrontOf(d)))
    ensures e.back == Some(BackSurface(BackOf(d)))
  {
    CardElement(Some(FrontSurface(FrontOf(d))), Some(BackSurface(BackOf(d))))
  }
}
