/**
 * The fuel-entry form: date, vehicle, quantity and signature are collected,
 * checked, and appended to the remote ledger as one record. The fuel type is
 * fixed to HVO.
 */
module Entry {
  import opened Common

  /** The form's fields, as the inputs hold them. */
  datatype FormData = FormData(
    date: string,
    fuelType: string,
    vehicle: string,
    quantity: string,
    signature: Option<string>)

  /** The record the form appends to the ledger. */
  datatype SurveyRecord = SurveyRecord(
    date: string,
    fuelType: string,
    vehicle: string,
    quantity: real,
    signature: string)

  /** The form as first shown and after a successful submission on `today`. */
  function Defaults(today: string): (f: FormData)
    ensures f.date == today && f.fuelType == "HVO"
    ensures !Truthy(f.vehicle) && !Truthy(f.quantity) && f.signature.None?
  {
    FormData(today, "HVO", "", "", None)
  }

  /** What the submit handler does with the form. */
  datatype SubmitDecision = Blocked | Append(record: SurveyRecord)

  /**
   * The check and the record of the submit handler: an empty vehicle, an
   * empty quantity or a missing signature blocks it; otherwise the record
   * carries the form's fields and the parsed quantity. `parseFloat` stands
   * for JavaScript's number parser.
   */
  function DecideSubmit(f: FormData, parseFloat: string -> real): (d: SubmitDecision)
    ensures d.Blocked? <==> f.vehicle == "" || f.quantity == "" || !SignaturePresent(f.signature)
    ensures d.Append? ==> (
      d.record.date == f.date && d.record.fuelType == f.fuelType
      && d.record.vehicle == f.vehicle && d.record.quantity == parseFloat(f.quantity)
      && Some(d.record.signature) == f.signature)
  {
    if !Truthy(f.vehicle) || !Truthy(f.quantity) || !SignaturePresent(f.signature) then Blocked
    else Append(SurveyRecord(f.date, f.fuelType, f.vehicle, parseFloat(f.quantity), f.signature.value))
  }

  /** A freshly reset form cannot be submitted until it is filled in again. */
  lemma DefaultsBlocked(today: string, parseFloat: string -> real)
    ensures DecideSubmit(Defaults(today), parseFloat).Blocked?
  {
  }

  /**
   * The entry form's state. `appended` lists every record sent to the ledger,
   * oldest first; `parseFloat` stands for JavaScript's number parser.
   */
  class SurveyForm {
    var formData: FormData
    var isSubmitting: bool
    var showSuccess: bool
    var appended: seq<SurveyRecord>
    const parseFloat: string -> real

    /**
     * The fuel type is always HVO, the vehicle is empty or on the roster, an
     * append is outstanding only after one was sent, and every record sent
     * was complete.
     */
    ghost predicate Valid()
      reads this
    {
      formData.fuelType == "HVO"
      && (formData.vehicle == "" || formData.vehicle in Vehicles)
      && (isSubmitting ==> |appended| > 0)
      && forall i :: 0 <= i < |appended| ==>
           appended[i].fuelType == "HVO" && appended[i].vehicle in Vehicles && Truthy(appended[i].signature)
    }

    /** The submit button is disabled exactly while an append is outstanding, which only follows a send. */
    predicate SubmitDisabled(): (b: bool)
      reads this
      ensures b <==> isSubmitting
      ensures Valid() && b ==> |appended| > 0
    {
      isSubmitting
    }

    /**
     * The signature pad's key: it takes one value per success state, so every
     * flip of that state remounts an empty pad. The form's stored signature
     * does not follow the remount.
     */
    function PadKey(): (r: string)
      reads this
      ensures r == "reset" <==> showSuccess
      ensures r == "active" <==> !showSuccess
    {
      if showSuccess then "reset" else "active"
    }

    constructor(today: string, parseFloat: string -> real)
      ensures Valid()
      ensures formData == Defaults(today) && !isSubmitting && !showSuccess && appended == []
      ensures this.parseFloat == parseFloat
    {
      formData := Defaults(today);
      isSubmitting, showSuccess := false, false;
      appended := [];
      this.parseFloat := parseFloat;
    }

    method SetDate(date: string)
      requires Valid()
      modifies this`formData
      ensures Valid()
      ensures formData == old(formData).(date := date)
    {
      formData := formData.(date := date);
    }

    /** The vehicle picker offers the roster only. */
    method SetVehicle(vehicle: string)
      requires Valid() && vehicle in Vehicles
      modifies this`formData
      ensures Valid()
      ensures formData == old(formData).(vehicle := vehicle)
    {
      formData := formData.(vehicle := vehicle);
    }

    method SetQuantity(quantity: string)
      requires Valid()
      modifies this`formData
      ensures Valid()
      ensures formData == old(formData).(quantity := quantity)
    {
      formData := formData.(quantity := quantity);
    }

    /** The signature pad's change callback. */
    method SetSignature(signature: Option<string>)
      requires Valid()
      modifies this`formData
      ensures Valid()
      ensures formData == old(formData).(signature := signature)
    {
      formData := formData.(signature := signature);
    }

    /**
     * Submitting (the button is disabled while an append is outstanding). An
     * incomplete form changes nothing; a complete one sends its record and
     * the form waits for the answer.
     */
    method HandleSubmit() returns (sent: bool)
      requires Valid() && !isSubmitting
      modifies this`isSubmitting, this`appended
      ensures Valid()
      ensures sent == DecideSubmit(formData, parseFloat).Append?
      ensures sent ==> isSubmitting && appended == old(appended) + [DecideSubmit(formData, parseFloat).record]
      ensures !sent ==> !isSubmitting && appended == old(appended)
    {
      var decision := DecideSubmit(formData, parseFloat);
      if decision.Blocked? {
        sent := false;
        return;
      }
      isSubmitting := true;
      appended := appended + [decision.record];
      sent := true;
    }

    /**
     * The outstanding append settles. On failure the form is kept as it is;
     * on success it is reset for `today` and the success state shows. Either
     * way the form stops waiting.
     */
    method AppendSettled(ok: bool, today: string)
      requires Valid() && isSubmitting
      modifies this`isSubmitting, this`formData, this`showSuccess
      ensures Valid() && !isSubmitting && !SubmitDisabled()
      ensures ok ==> formData == Defaults(today) && showSuccess
      ensures ok ==> (PadKey() != old(PadKey()) <==> !old(showSuccess))
      ensures !ok ==> formData == old(formData) && showSuccess == old(showSuccess)
    {
      if !ok {
        isSubmitting := false;
        return;
      }
      showSuccess := true;
      formData := Defaults(today);
      isSubmitting := false;
    }

    /**
     * The success state's timer runs out. If the state was on, the pad is
     * remounted empty while `formData.signature` keeps whatever was drawn
     * during the success state.
     */
    method SuccessTimerFired()
      modifies this`showSuccess
      ensures !showSuccess
      ensures PadKey() != old(PadKey()) <==> old(showSuccess)
    {
      showSuccess := false;
    }
  }
}
