/**
 * The top-level coordinator (src/App.tsx): it owns the farmer record and the
 * payment gate, merges the form's partial updates, issues farmer IDs, gates
 * the payment dialog and brackets the export with the `isGenerating` flag.
 *
 * `Math.random()` is the parameter `u` (a real in [0, 1)); `confirm()` is the
 * parameter `confirmed`; whether the preview is mounted (`cardRef.current`)
 * is the parameter `mounted`.
 */
module App {
  import opened Types
  import opened IdCardForm
  import opened IdCardPreview
  import opened PdfGenerator

  /** The record a session starts from and is reset to. */
  const InitialData: FarmerData :=
    FarmerData("", "", "", "Male", "", "", "", "", None, [BlankLandRecord])

  lemma InitialDataShape()
    ensures |InitialData.landRecords| == 1
    ensures forall f :: LandFieldOf(InitialData.landRecords[0], f) == ""
    ensures InitialData.photo.None? && InitialData.gender == "Male"
  {
    assert InitialData.landRecords[0] == BlankLandRecord;
  }

  // ---------------------------------------------------------------------------
  // Partial-update merge
  // ---------------------------------------------------------------------------

  function Pick<T>(o: Option<T>, current: T): T {
    if o.Some? then o.value else current
  }

  /** `{ ...prev, ...newData }` */
  function Merge(d: FarmerData, p: Patch): FarmerData {
    FarmerData(
      Pick(p.fullNameEnglish, d.fullNameEnglish),
      Pick(p.fullNameMarathi, d.fullNameMarathi),
      Pick(p.dob, d.dob),
      Pick(p.gender, d.gender),
      Pick(p.whatsapp, d.whatsapp),
      Pick(p.aadhaar, d.aadhaar),
      Pick(p.farmerId, d.farmerId),
      Pick(p.address, d.address),
      Pick(p.photo, d.photo),
      Pick(p.landRecords, d.landRecords))
  }

  /** Every key present in the patch takes the patch's value; every other key keeps its value. */
  lemma {:induction false} MergeFields(d: FarmerData, p: Patch)
    ensures forall f :: Get(Merge(d, p), f) == if Entry(p, f).Some? then Entry(p, f).value else Get(d, f)
  {
    forall f ensures Get(Merge(d, p), f) == if Entry(p, f).Some? then Entry(p, f).value else Get(d, f) {
      match f
      case FullNameEnglish =>
      case FullNameMarathi =>
      case Dob =>
      case Gender =>
      case Whatsapp =>
      case Aadhaar =>
      case FarmerId =>
      case Address =>
      case Photo =>
      case LandRecords =>
    }
  }

  /** An empty partial update changes nothing. */
  lemma MergeEmpty(d: FarmerData)
    ensures Merge(d, EmptyPatch) == d
  {
    MergeFields(d, EmptyPatch);
    SameFields(Merge(d, EmptyPatch), d);
  }

  /** Applying the same partial update twice is applying it once. */
  lemma MergeIdempotent(d: FarmerData, p: Patch)
    ensures Merge(Merge(d, p), p) == Merge(d, p)
  {
    MergeFields(d, p);
    MergeFields(Merge(d, p), p);
    SameFields(Merge(Merge(d, p), p), Merge(d, p));
  }

  function Over<T>(q: Option<T>, p: Option<T>): Option<T> {
    if q.Some? then q else p
  }

  /** The partial update `q` laid over `p`: `{ ...p, ...q }`. */
  function Then(p: Patch, q: Patch): Patch {
    Patch(
      Over(q.fullNameEnglish, p.fullNameEnglish),
      Over(q.fullNameMarathi, p.fullNameMarathi),
      Over(q.dob, p.dob),
      Over(q.gender, p.gender),
      Over(q.whatsapp, p.whatsapp),
      Over(q.aadhaar, p.aadhaar),
      Over(q.farmerId, p.farmerId),
      Over(q.address, p.address),
      Over(q.photo, p.photo),
      Over(q.landRecords, p.landRecords))
  }

  /** A key of the combined update comes from `q` when `q` has it, and from `p` otherwise. */
  lemma {:induction false} ThenEntries(p: Patch, q: Patch)
    ensures forall f :: Entry(Then(p, q), f) == if Entry(q, f).Some? then Entry(q, f) else Entry(p, f)
  {
    forall f ensures Entry(Then(p, q), f) == if Entry(q, f).Some? then Entry(q, f) else Entry(p, f) {
      match f
      case FullNameEnglish =>
      case FullNameMarathi =>
      case Dob =>
      case Gender =>
      case Whatsapp =>
      case Aadhaar =>
      case FarmerId =>
      case Address =>
      case Photo =>
      case LandRecords =>
    }
  }

  /** Two successive merges are one merge of the combined update: later keys win. */
  lemma MergeThen(d: FarmerData, p: Patch, q: Patch)
    ensures Merge(Merge(d, p), q) == Merge(d, Then(p, q))
  {
    MergeFields(d, p);
    MergeFields(Merge(d, p), q);
    MergeFields(d, Then(p, q));
    ThenEntries(p, q);
    SameFields(Merge(Merge(d, p), q), Merge(d, Then(p, q)));
  }

  // ---------------------------------------------------------------------------
  // The never-empty land-record list under form events
  // ---------------------------------------------------------------------------

  /** The record after the form has handled one event. */
  function AfterFormEvent(d: FarmerData, e: FormEvent): FarmerData {
    var p := OnFormEvent(d, e);
    if p.Some? then Merge(d, p.value) else d
  }

  function AfterFormEvents(d: FarmerData, events: seq<FormEvent>): FarmerData
    decreases |events|
  {
    if events == [] then d else AfterFormEvents(AfterFormEvent(d, events[0]), events[1..])
  }

  /** One form event never empties the land-record list. */
  lemma FormEventKeepsLandRecords(d: FarmerData, e: FormEvent)
    requires |d.landRecords| >= 1
    ensures |AfterFormEvent(d, e).landRecords| >= 1
  {
    var p := OnFormEvent(d, e);
    if p.Some? {
      MergeFields(d, p.value);
      assert Get(Merge(d, p.value), LandRecords) == Records(Merge(d, p.value).landRecords);
    }
  }

  /** No sequence of form events empties the land-record list. */
  lemma {:induction false} FormEventsKeepLandRecords(d: FarmerData, events: seq<FormEvent>)
    requires |d.landRecords| >= 1
    ensures |AfterFormEvents(d, events).landRecords| >= 1
    decreases |events|
  {
    if events != [] {
      FormEventKeepsLandRecords(d, events[0]);
      FormEventsKeepLandRecords(AfterFormEvent(d, events[0]), events[1..]);
    }
  }

  // ---------------------------------------------------------------------------
  // Farmer IDs
  // ---------------------------------------------------------------------------

  /** `Math.floor(Math.random() * 9000000 + 1000000)` */
  function RandomSuffix(u: real): (n: int)
    requires 0.0 <= u < 1.0
    ensures 1000000 <= n <= 9999999
  {
    (u * 9000000.0 + 1000000.0).Floor
  }

  function DigitChar(k: nat): (c: char)
    requires k < 10
    ensures IsDigit(c)
  {
    ('0' as int + k) as char
  }

  function DigitValue(c: char): (k: nat)
    requires IsDigit(c)
    ensures k < 10 && DigitChar(k) == c
  {
    c as int - '0' as int
  }

  /** `String(n)` for a non-negative integer: its decimal digits, no leading zero. */
  function DecimalString(n: nat): (s: string)
    ensures |s| >= 1 && AllDigits(s)
  {
    if n < 10 then [DigitChar(n)] else DecimalString(n / 10) + [DigitChar(n % 10)]
  }

  function ParseDecimal(s: string): nat
    requires AllDigits(s)
  {
    if s == [] then 0 else 10 * ParseDecimal(s[..|s| - 1]) + DigitValue(s[|s| - 1])
  }

  /** Reading the digits back gives the number: DecimalString is one-to-one. */
  lemma {:induction false} ParseDecimalString(n: nat)
    ensures ParseDecimal(DecimalString(n)) == n
  {
    var s := DecimalString(n);
    if n >= 10 {
      ParseDecimalString(n / 10);
      assert s[..|s| - 1] == DecimalString(n / 10);
    }
  }

  function Pow10(k: nat): (p: nat)
    ensures p >= 1
  {
    if k == 0 then 1 else 10 * Pow10(k - 1)
  }

  /** A number of exactly `k` digits is written with `k` characters. */
  lemma {:induction false} DecimalStringLength(n: nat, k: nat)
    requires k >= 1 && n < Pow10(k) && (k == 1 || Pow10(k - 1) <= n)
    ensures |DecimalString(n)| == k
  {
    if k > 1 {
      if k == 2 {
        assert Pow10(1) == 10;
      } else {
        assert Pow10(k - 1) == 10 * Pow10(k - 2);
        assert Pow10(k - 2) <= n / 10;
      }
      DecimalStringLength(n / 10, k - 1);
    }
  }

  const IdPrefix: string := "300"

  /** `'300' + n` */
  function FarmerIdFor(n: nat): string {
    IdPrefix + DecimalString(n)
  }

  /** The ID `generateNewId` issues for the random draw `u`. */
  function NewFarmerId(u: real): string
    requires 0.0 <= u < 1.0
  {
    FarmerIdFor(RandomSuffix(u))
  }

  predicate IsFarmerIdFormat(id: string) {
    |id| == 10 && id[..3] == IdPrefix && AllDigits(id)
  }

  /**
   * Every issued ID is "300" and seven digits; it survives the form's digit
   * filter unchanged, and it contains no `|`, so the QR payload carrying it
   * reads back.
   */
  lemma NewFarmerIdFormat(u: real)
    requires 0.0 <= u < 1.0
    ensures IsFarmerIdFormat(NewFarmerId(u))
    ensures DigitsOnly(NewFarmerId(u)) == NewFarmerId(u)
    ensures forall aadhaar :: ParseQrPayload(QrPayload(NewFarmerId(u), aadhaar)) == Some((NewFarmerId(u), aadhaar))
  {
    var n := RandomSuffix(u);
    assert Pow10(7) == 10000000 && Pow10(6) == 1000000;
    DecimalStringLength(n, 7);
    var id := NewFarmerId(u);
    assert AllDigits(id) by {
      forall i | 0 <= i < |id| ensures IsDigit(id[i]) {
        if i >= 3 { assert id[i] == DecimalString(n)[i - 3]; }
      }
    }
    DigitsOnlyKeepsDigits(id);
    forall aadhaar ensures ParseQrPayload(QrPayload(id, aadhaar)) == Some((id, aadhaar)) {
      QrPayloadRoundTrip(id, aadhaar);
    }
  }

  /** Different random numbers give different IDs. */
  lemma FarmerIdInjective(n: nat, m: nat)
    requires FarmerIdFor(n) == FarmerIdFor(m)
    ensures n == m
  {
    assert DecimalString(n) == FarmerIdFor(n)[3..];
    assert DecimalString(m) == FarmerIdFor(m)[3..];
    ParseDecimalString(n);
    ParseDecimalString(m);
  }

  // ---------------------------------------------------------------------------
  // Payment gate and the controls it shows
  // ---------------------------------------------------------------------------

  /** The photo is present when it is neither null nor the empty string. */
  predicate HasPhoto(photo: Option<string>) {
    photo.Some? && photo.value != ""
  }

  /** The required-field check before the payment dialog opens. */
  predicate ReadyForPayment(d: FarmerData) {
    d.fullNameEnglish != "" && d.aadhaar != "" && d.whatsapp != "" && HasPhoto(d.photo)
  }

  /** A fresh or reset record never passes the gate: it has no name and no photo. */
  lemma InitialDataNotReady(id: string)
    ensures !ReadyForPayment(InitialData.(farmerId := id))
  {
  }

  datatype Controls = Controls(
    payButton: bool,          // "Pay ₹20 & Get UHD Card"
    downloadButton: bool,     // "Download PDF" / "Generating..."
    downloadEnabled: bool,
    saveLink: bool,           // "Save UHD PDF" next to the preview title
    previewLocked: bool,      // blur and lock overlay
    paymentDialog: bool)

  function ControlsFor(status: PaymentStatus, showPayment: bool, isGenerating: bool): (c: Controls)
    ensures c.payButton <==> status != Success
    ensures c.downloadButton <==> status == Success
    ensures c.downloadEnabled || c.saveLink ==> status == Success && !isGenerating
    ensures status == Success && !isGenerating ==> c.downloadEnabled && c.saveLink
    ensures c.previewLocked <==> status != Success
    ensures c.paymentDialog <==> showPayment
  {
    Controls(
      status != Success,
      status == Success,
      status == Success && !isGenerating,
      status == Success && !isGenerating,
      status != Success,
      showPayment)
  }

  // ---------------------------------------------------------------------------
  // The session
  // ---------------------------------------------------------------------------

  class Session {
    var data: FarmerData
    var paymentStatus: PaymentStatus
    var showPayment: bool
    var isGenerating: bool

    /** The land-record list is never empty, and the gate is only ever Idle or Success. */
    ghost predicate Valid()
      reads this
    {
      |data.landRecords| >= 1 && paymentStatus in {Idle, Success}
    }

    /** Mounting: the initial state, then the mount effect issues an ID. */
    constructor (u: real)
      requires 0.0 <= u < 1.0
      ensures Valid()
      ensures data == InitialData.(farmerId := NewFarmerId(u))
      ensures paymentStatus == Idle && !showPayment && !isGenerating
    {
      data := InitialData;
      paymentStatus := Idle;
      showPayment := false;
      isGenerating := false;
      new;
      GenerateNewId(u);
    }

    /** `generateNewId`: only the farmer ID changes. */
    method GenerateNewId(u: real)
      requires 0.0 <= u < 1.0
      modifies this
      ensures data == old(data).(farmerId := NewFarmerId(u))
      ensures IsFarmerIdFormat(data.farmerId)
      ensures old(Valid()) ==> Valid()
      ensures paymentStatus == old(paymentStatus) && showPayment == old(showPayment)
      ensures isGenerating == old(isGenerating)
    {
      NewFarmerIdFormat(u);
      data := data.(farmerId := NewFarmerId(u));
    }

    /** `handleDataChange` */
    method HandleDataChange(p: Patch)
      modifies this
      ensures data == Merge(old(data), p)
      ensures forall f :: Entry(p, f).None? ==> Get(data, f) == Get(old(data), f)
      ensures paymentStatus == old(paymentStatus) && showPayment == old(showPayment)
      ensures isGenerating == old(isGenerating)
    {
      MergeFields(data, p);
      data := Merge(data, p);
    }

    /** A form event: the form computes its partial update, if any, and the session merges it. */
    method HandleFormEvent(e: FormEvent)
      requires Valid()
      modifies this
      ensures Valid()
      ensures data == AfterFormEvent(old(data), e)
      ensures paymentStatus == old(paymentStatus) && showPayment == old(showPayment)
      ensures isGenerating == old(isGenerating)
    {
      FormEventKeepsLandRecords(data, e);
      var p := OnFormEvent(data, e);
      if p.Some? {
        HandleDataChange(p.value);
      }
    }

    /** `handleReset`: when confirmed, the initial record with a new ID and an idle gate. */
    method HandleReset(confirmed: bool, u: real)
      requires 0.0 <= u < 1.0
      modifies this
      ensures confirmed ==> Valid() && data == InitialData.(farmerId := NewFarmerId(u)) && paymentStatus == Idle
      ensures !confirmed ==> data == old(data) && paymentStatus == old(paymentStatus)
      ensures old(Valid()) ==> Valid()
      ensures showPayment == old(showPayment) && isGenerating == old(isGenerating)
    {
      if confirmed {
        data := InitialData;
        paymentStatus := Idle;
        GenerateNewId(u);
      }
    }

    /**
     * `handleInitiatePayment`: opens the payment dialog, or shows an alert
     * (`alerted`) and changes nothing when a required field is missing.
     */
    method HandleInitiatePayment() returns (alerted: bool)
      modifies this
      ensures alerted <==> !ReadyForPayment(old(data))
      ensures old(Valid()) ==> Valid()
      ensures alerted ==> showPayment == old(showPayment)
      ensures !alerted ==> showPayment
      ensures data == old(data) && paymentStatus == old(paymentStatus) && isGenerating == old(isGenerating)
    {
      if !ReadyForPayment(data) {
        return true;
      }
      showPayment := true;
      return false;
    }

    /** The dialog's cancel: `setShowPayment(false)`. */
    method HandlePaymentCancel()
      modifies this
      ensures old(Valid()) ==> Valid()
      ensures !showPayment
      ensures data == old(data) && paymentStatus == old(paymentStatus) && isGenerating == old(isGenerating)
    {
      showPayment := false;
    }

    /** `handlePaymentComplete`: the gate opens and the dialog closes. */
    method HandlePaymentComplete()
      modifies this
      ensures paymentStatus == Success && !showPayment
      ensures old(Valid()) ==> Valid()
      ensures ControlsFor(paymentStatus, showPayment, isGenerating).downloadButton
      ensures data == old(data) && isGenerating == old(isGenerating)
    {
      paymentStatus := Success;
      showPayment := false;
    }

    /** The part of `startDownload` before the export is awaited. */
    method BeginDownload(mounted: bool) returns (started: bool)
      modifies this
      ensures started == mounted
      ensures old(Valid()) ==> Valid()
      ensures isGenerating == (mounted || old(isGenerating))
      ensures mounted ==> !ControlsFor(paymentStatus, showPayment, isGenerating).downloadEnabled
      ensures mounted ==> !ControlsFor(paymentStatus, showPayment, isGenerating).saveLink
      ensures data == old(data) && paymentStatus == old(paymentStatus) && showPayment == old(showPayment)
    {
      if !mounted {
        return false;
      }
      isGenerating := true;
      return true;
    }

    /** The `finally` of `startDownload`. */
    method EndDownload()
      modifies this
      ensures old(Valid()) ==> Valid()
      ensures !isGenerating
      ensures data == old(data) && paymentStatus == old(paymentStatus) && showPayment == old(showPayment)
    {
      isGenerating := false;
    }

    /**
     * `startDownload`: nothing when the preview is not mounted; otherwise the
     * flag is raised, the rendered preview is exported under the English
     * name, and the flag is lowered whatever the export's outcome.
     */
    method StartDownload(mounted: bool, failAt: Option<Step>) returns (ok: bool, saved: Option<Document>)
      modifies this
      ensures !mounted ==> !ok && saved.None? && isGenerating == old(isGenerating)
      ensures mounted ==> !isGenerating
      ensures old(Valid()) ==> Valid()
      ensures mounted ==> (ok <==> failAt.None?)
      ensures ok ==> saved == Some(CardDocument(data.fullNameEnglish,
                                                FrontSurface(FrontOf(data)), BackSurface(BackOf(data))))
      ensures !ok ==> saved.None?
      ensures data == old(data) && paymentStatus == old(paymentStatus) && showPayment == old(showPayment)
    {
      var started := BeginDownload(mounted);
      if !started {
        return false, None;
      }
      var calls;
      ok, saved, calls := GeneratePdf(Render(data), data.fullNameEnglish, failAt);
      EndDownload();
    }
  }
}
