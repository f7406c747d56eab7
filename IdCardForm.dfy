/**
 * The form's record logic (src/components/IDCardForm.tsx). The form owns no
 * state: each handler builds a partial update from the current record and
 * hands it to the session. A handler that does not call `onChange` yields
 * `None`.
 */
module IdCardForm {
  import opened Types

  // ---------------------------------------------------------------------------
  // Land-record collection
  // ---------------------------------------------------------------------------

  /** "ADD MORE": the old records, then one blank record. */
  function AddLandRecord(records: seq<LandRecord>): (r: seq<LandRecord>)
    ensures |r| == |records| + 1
    ensures r[..|records|] == records
    ensures forall f :: LandFieldOf(r[|records|], f) == ""
  {
    records + [BlankLandRecord]
  }

  /**
   * `filter((_, i) => i !== index)`: walks the list, numbering its elements
   * from `from`, and keeps every element whose number is not `index`.
   */
  function KeepOtherPositions<T>(s: seq<T>, index: int, from: int): seq<T>
    decreases |s|
  {
    if s == [] then []
    else (if from == index then [] else [s[0]]) + KeepOtherPositions(s[1..], index, from + 1)
  }

  /** What the position filter keeps: everything but the element numbered `index`, if any. */
  lemma {:induction false} KeepOtherPositionsIsSplice<T>(s: seq<T>, index: int, from: int)
    ensures KeepOtherPositions(s, index, from)
         == if from <= index < from + |s| then s[..index - from] + s[index - from + 1..] else s
  {
    if s != [] {
      KeepOtherPositionsIsSplice(s[1..], index, from + 1);
      if from == index {
      } else if from < index < from + |s| {
        assert s[1..][..index - from - 1] == s[1..index - from];
        assert [s[0]] + s[1..index - from] == s[..index - from];
        assert s[1..][index - from..] == s[index - from + 1..];
      } else {
        assert [s[0]] + s[1..] == s;
      }
    }
  }

  /**
   * The trash button of record `index`: refused (no `onChange`) while only
   * one record is left, otherwise the list without position `index`.
   */
  function RemoveLandRecord(records: seq<LandRecord>, index: int): (r: Option<seq<LandRecord>>)
    ensures r.Some? <==> |records| > 1
    ensures r.Some? ==> |r.value| >= 1
    ensures r.Some? && 0 <= index < |records| ==>
      && |r.value| == |records| - 1
      && (forall j :: 0 <= j < index ==> r.value[j] == records[j])
      && (forall j :: index <= j < |r.value| ==> r.value[j] == records[j + 1])
    ensures r.Some? && !(0 <= index < |records|) ==> r.value == records
  {
    if |records| > 1 then
      KeepOtherPositionsIsSplice(records, index, 0);
      Some(KeepOtherPositions(records, index, 0))
    else
      None
  }

  /** The trash button is rendered only for a list of more than one record. */
  predicate ShowRemoveControl(records: seq<LandRecord>) {
    |records| > 1
  }

  /** Every offered trash button removes exactly one record and leaves at least one. */
  lemma RemoveControlMeansRemoval(records: seq<LandRecord>, index: int)
    requires 0 <= index < |records|
    ensures ShowRemoveControl(records) <==> RemoveLandRecord(records, index).Some?
    ensures ShowRemoveControl(records) ==>
      |RemoveLandRecord(records, index).value| == |records| - 1 >= 1
  {
  }

  /** `{ ...record, [field]: value }` */
  function WithLandField(record: LandRecord, field: LandField, value: string): (r: LandRecord)
    ensures LandFieldOf(r, field) == value
    ensures forall g :: g != field ==> LandFieldOf(r, g) == LandFieldOf(record, g)
  {
    match field
    case District => record.(district := value)
    case Taluka => record.(taluka := value)
    case Village => record.(village := value)
    case SurveyNumber => record.(surveyNumber := value)
  }

  /** `map((record, i) => i === index ? { ...record, [field]: value } : record)` */
  function UpdateLandRecord(records: seq<LandRecord>, index: int, field: LandField, value: string)
    : (r: seq<LandRecord>)
    ensures |r| == |records|
    ensures forall j :: 0 <= j < |r| && j != index ==> r[j] == records[j]
    ensures 0 <= index < |records| ==>
      && LandFieldOf(r[index], field) == value
      && forall g :: g != field ==> LandFieldOf(r[index], g) == LandFieldOf(records[index], g)
    ensures !(0 <= index < |records|) ==> r == records
  {
    seq(|records|, j requires 0 <= j < |records| =>
      if j == index then WithLandField(records[j], field, value) else records[j])
  }

  // ---------------------------------------------------------------------------
  // Digit-only inputs (WhatsApp, Aadhaar, Farmer ID)
  // ---------------------------------------------------------------------------

  /** `\d` without the unicode flag: the ten ASCII decimal digits. */
  predicate IsDigit(c: char) {
    '0' <= c <= '9'
  }

  predicate AllDigits(s: string) {
    forall i :: 0 <= i < |s| ==> IsDigit(s[i])
  }

  /** `s.replace(/\D/g, '')` */
  function DigitsOnly(s: string): (r: string)
    ensures AllDigits(r)
    ensures |r| <= |s|
  {
    if s == [] then []
    else (if IsDigit(s[0]) then [s[0]] else []) + DigitsOnly(s[1..])
  }

  /** The filter works character by character: it distributes over concatenation. */
  lemma {:induction false} DigitsOnlyConcat(a: string, b: string)
    ensures DigitsOnly(a + b) == DigitsOnly(a) + DigitsOnly(b)
  {
    if a == [] {
      assert a + b == b;
    } else {
      assert (a + b)[1..] == a[1..] + b;
      DigitsOnlyConcat(a[1..], b);
    }
  }

  /** A string of digits passes through unchanged. */
  lemma {:induction false} DigitsOnlyKeepsDigits(s: string)
    requires AllDigits(s)
    ensures DigitsOnly(s) == s
  {
    if s != [] {
      DigitsOnlyKeepsDigits(s[1..]);
    }
  }

  /** Filtering twice is filtering once. */
  lemma DigitsOnlyIdempotent(s: string)
    ensures DigitsOnly(DigitsOnly(s)) == DigitsOnly(s)
  {
    DigitsOnlyKeepsDigits(DigitsOnly(s));
  }

  /**
   * Exactly the digits are kept: each digit as often as it occurs in `s`,
   * every other character never. Together with DigitsOnlyConcat (order) this
   * pins the filter down.
   */
  lemma {:induction false} DigitsOnlyCounts(s: string)
    ensures forall c :: multiset(DigitsOnly(s))[c] == if IsDigit(c) then multiset(s)[c] else 0
  {
    if s != [] {
      DigitsOnlyCounts(s[1..]);
      assert s == [s[0]] + s[1..];
      assert multiset(s) == multiset{s[0]} + multiset(s[1..]);
    }
  }

  // ---------------------------------------------------------------------------
  // Form events and the partial updates they produce
  // ---------------------------------------------------------------------------

  /**
   * Every user action on the form that reaches `onChange`. A finished file
   * read reports its data URL; a failed one reports a null result.
   */
  datatype FormEvent =
    | PhotoLoaded(dataUrl: string)
    | PhotoReadFailed
    | NameEnglishInput(text: string)
    | NameMarathiInput(text: string)
    | DobInput(text: string)
    | GenderSelect(text: string)
    | WhatsappInput(text: string)
    | AadhaarInput(text: string)
    | AddressInput(text: string)
    | AddLand
    | RemoveLand(index: int)
    | UpdateLand(index: int, field: LandField, text: string)
    | FarmerIdInput(text: string)

  /** The key of `FarmerData` an event writes. */
  function FieldOf(e: FormEvent): Field {
    match e
    case PhotoLoaded(_) => Photo
    case PhotoReadFailed => Photo
    case NameEnglishInput(_) => FullNameEnglish
    case NameMarathiInput(_) => FullNameMarathi
    case DobInput(_) => Dob
    case GenderSelect(_) => Gender
    case WhatsappInput(_) => Whatsapp
    case AadhaarInput(_) => Aadhaar
    case AddressInput(_) => Address
    case AddLand => LandRecords
    case RemoveLand(_) => LandRecords
    case UpdateLand(_, _, _) => LandRecords
    case FarmerIdInput(_) => FarmerId
  }

  /** The partial update a form event passes to `onChange`, or `None` when it passes none. */
  function OnFormEvent(data: FarmerData, e: FormEvent): (r: Option<Patch>)
    ensures r.None? <==> e.RemoveLand? && |data.landRecords| <= 1
    ensures r.Some? ==> forall f :: Entry(r.value, f).Some? <==> f == FieldOf(e)
    ensures r.Some? && FieldOf(e) in {Whatsapp, Aadhaar, FarmerId} ==>
      Entry(r.value, FieldOf(e)) == Some(Text(DigitsOnly(e.text)))
    ensures e.NameEnglishInput? || e.NameMarathiInput? || e.DobInput? || e.GenderSelect? || e.AddressInput? ==>
      r.Some? && Entry(r.value, FieldOf(e)) == Some(Text(e.text))
    ensures e.PhotoLoaded? ==> r.Some? && r.value.photo == Some(Some(e.dataUrl))
    ensures e.PhotoReadFailed? ==> r.Some? && r.value.photo == Some(None)
    ensures e.AddLand? ==> r.Some? && r.value.landRecords == Some(AddLandRecord(data.landRecords))
    ensures e.RemoveLand? && r.Some? ==> r.value.landRecords == RemoveLandRecord(data.landRecords, e.index)
    ensures e.UpdateLand? ==>
      r.Some? && r.value.landRecords == Some(UpdateLandRecord(data.landRecords, e.index, e.field, e.text))
    ensures r.Some? && FieldOf(e) == LandRecords && |data.landRecords| >= 1 ==>
      r.value.landRecords.Some? && |r.value.landRecords.value| >= 1
  {
    match e
    case PhotoLoaded(url) => Some(EmptyPatch.(photo := Some(Some(url))))
    case PhotoReadFailed => Some(EmptyPatch.(photo := Some(None)))
    case NameEnglishInput(t) => Some(EmptyPatch.(fullNameEnglish := Some(t)))
    case NameMarathiInput(t) => Some(EmptyPatch.(fullNameMarathi := Some(t)))
    case DobInput(t) => Some(EmptyPatch.(dob := Some(t)))
    case GenderSelect(t) => Some(EmptyPatch.(gender := Some(t)))
    case WhatsappInput(t) => Some(EmptyPatch.(whatsapp := Some(DigitsOnly(t))))
    case AadhaarInput(t) => Some(EmptyPatch.(aadhaar := Some(DigitsOnly(t))))
    case AddressInput(t) => Some(EmptyPatch.(address := Some(t)))
    case AddLand => Some(EmptyPatch.(landRecords := Some(AddLandRecord(data.landRecords))))
    case RemoveLand(i) =>
      var kept := RemoveLandRecord(data.landRecords, i);
      if kept.Some? then Some(EmptyPatch.(landRecords := kept)) else None
    case UpdateLand(i, f, t) =>
      Some(EmptyPatch.(landRecords := Some(UpdateLandRecord(data.landRecords, i, f, t))))
    case FarmerIdInput(t) => Some(EmptyPatch.(farmerId := Some(DigitsOnly(t))))
  }
}
