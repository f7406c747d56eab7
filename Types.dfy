/**
 * The record shapes shared by the form, the preview, the exporter and the
 * session controller (src/types.ts), plus `Partial<FarmerData>`, the partial
 * update that the form hands to the session.
 *
 * A JavaScript string is modelled as `string` (`seq<char>`); a `null` photo is
 * `None`.
 */
module Types {

  datatype Option<T> = None | Some(value: T)

  /** One district/taluka/village/survey-number tuple. */
  datatype LandRecord = LandRecord(district: string, taluka: string, village: string, surveyNumber: string)

  /** The four keys of a land record (`keyof LandRecord`). */
  datatype LandField = District | Taluka | Village | SurveyNumber

  function LandFieldOf(r: LandRecord, f: LandField): string {
    match f
    case District => r.district
    case Taluka => r.taluka
    case Village => r.village
    case SurveyNumber => r.surveyNumber
  }

  /** The record with every field empty, as appended by "ADD MORE". */
  const BlankLandRecord: LandRecord := LandRecord("", "", "", "")

  datatype FarmerData = FarmerData(
    fullNameEnglish: string,
    fullNameMarathi: string,
    dob: string,
    gender: string,
    whatsapp: string,
    aadhaar: string,
    farmerId: string,
    address: string,
    photo: Option<string>,
    landRecords: seq<LandRecord>)

  /** The payment gate's four named states; a session only ever enters Idle and Success. */
  datatype PaymentStatus = Idle | Processing | Success | Failed

  /** The keys of `FarmerData`. */
  datatype Field =
    | FullNameEnglish | FullNameMarathi | Dob | Gender | Whatsapp
    | Aadhaar | FarmerId | Address | Photo | LandRecords

  /** A field's value, whatever its type. */
  datatype Value = Text(text: string) | PhotoValue(photo: Option<string>) | Records(records: seq<LandRecord>)

  function Get(d: FarmerData, f: Field): Value {
    match f
    case FullNameEnglish => Text(d.fullNameEnglish)
    case FullNameMarathi => Text(d.fullNameMarathi)
    case Dob => Text(d.dob)
    case Gender => Text(d.gender)
    case Whatsapp => Text(d.whatsapp)
    case Aadhaar => Text(d.aadhaar)
    case FarmerId => Text(d.farmerId)
    case Address => Text(d.address)
    case Photo => PhotoValue(d.photo)
    case LandRecords => Records(d.landRecords)
  }

  /** Two records that agree on every field are the same record. */
  lemma {:induction false} SameFields(d: FarmerData, e: FarmerData)
    requires forall f :: Get(d, f) == Get(e, f)
    ensures d == e
  {
    assert Get(d, FullNameEnglish) == Get(e, FullNameEnglish);
    assert Get(d, FullNameMarathi) == Get(e, FullNameMarathi);
    assert Get(d, Dob) == Get(e, Dob);
    assert Get(d, Gender) == Get(e, Gender);
    assert Get(d, Whatsapp) == Get(e, Whatsapp);
    assert Get(d, Aadhaar) == Get(e, Aadhaar);
    assert Get(d, FarmerId) == Get(e, FarmerId);
    assert Get(d, Address) == Get(e, Address);
    assert Get(d, Photo) == Get(e, Photo);
    assert Get(d, LandRecords) == Get(e, LandRecords);
  }

  /**
   * `Partial<FarmerData>`: every key may be absent (`None`). The photo key,
   * when present, holds a photo that may itself be `null`.
   */
  datatype Patch = Patch(
    fullNameEnglish: Option<string>,
    fullNameMarathi: Option<string>,
    dob: Option<string>,
    gender: Option<string>,
    whatsapp: Option<string>,
    aadhaar: Option<string>,
    farmerId: Option<string>,
    address: Option<string>,
    photo: Option<Option<string>>,
    landRecords: Option<seq<LandRecord>>)

  const EmptyPatch: Patch := Patch(None, None, None, None, None, None, None, None, None, None)

  function TextEntry(o: Option<string>): Option<Value> {
    match o
    case None => None
    case Some(s) => Some(Text(s))
  }

  /** The value a patch carries for a key, if the key is present. */
  function Entry(p: Patch, f: Field): Option<Value> {
    match f
    case FullNameEnglish => TextEntry(p.fullNameEnglish)
    case FullNameMarathi => TextEntry(p.fullNameMarathi)
    case Dob => TextEntry(p.dob)
    case Gender => TextEntry(p.gender)
    case Whatsapp => TextEntry(p.whatsapp)
    case Aadhaar => TextEntry(p.aadhaar)
    case FarmerId => TextEntry(p.farmerId)
    case Address => TextEntry(p.address)
    case Photo => if p.photo.Some? then Some(PhotoValue(p.photo.value)) else None
    case LandRecords => if p.landRecords.Some? then Some(Records(p.landRecords.value)) else None
  }
}
