/**
 * The billing workflow of the water-meter screen, src/scenes/donghonuoc/DongHoNuoc.jsx:
 * choosing a customer and one of the customer's apartments, the consumption
 * preview, saving a new meter reading, creating an invoice from the meter and
 * advancing the old reading, and paying an invoice.
 *
 * The server is a parameter: each fetch passes in the data the server returns,
 * and each request passes in the server's answer. A request the server accepts
 * is stored as sent, so the refetch that follows it reads back what was sent.
 */
module MeterScreen {
  import opened Js
  import opened Formatters
  import opened Validators
  import opened DongHoNuoc
  import HoaDon
  import CanHo
  import KhachHang
  import opened MeterController

  /** The server's answer to an invoice creation: the new invoice's id, or a failure. */
  datatype InvoiceReply = Stored(id: int) | Refused(message: string)

  /** What submitting the meter-reading form led to. */
  datatype SubmitOutcome = FormRejected(message: string) | Saved | SaveFailed

  /** What the create-invoice button led to. */
  datatype BillOutcome = NoSelection | NothingToBill | InvoiceFailed | Billed(advanced: bool)

  /** A range of meter readings that an invoice from this screen charged for. */
  datatype Period = Period(lo: real, hi: real)

  const ReadingRequired: string := "Chỉ số mới không được để trống"
  const ReadingNotAbove: string := "Chỉ số mới phải lớn hơn chỉ số cũ"

  /** The invoice object the screen sends for meter `m` and customer `k` at time `now`. */
  function InvoiceRequest(m: Meter, k: KhachHang.KhachHang, now: int): (d: HoaDon.HoaDonData)
    ensures d.tongsotien == Some(CalculateWaterAmount(TieuThu(m)))
    ensures d.khachhangId == k.id && d.donghonuocId == m.id
    ensures d.trangthai == Some(HoaDon.Unpaid) && d.ngaylap == Some(now)
    ensures d.id.None? && d.hopdongId.None?
  {
    HoaDon.HoaDonData(None, Some(now), Some(CalculateWaterAmount(m.chisomoi - m.chisocu)), k.id, None, m.id, Some(HoaDon.Unpaid))
  }

  /** The stored invoice as the invoice list reads it back. */
  function StoredInvoice(d: HoaDon.HoaDonData, id: int, now: int): HoaDon.HoaDon {
    HoaDon.FromData(d.(id := Some(id)), now)
  }

  /** The meter an accepted update leaves on the server, as the screen reads it back. */
  function StoredMeter(id: Option<int>, data: MeterPayload): Meter {
    DongHoNuoc.FromData(MeterData(id, Some(data.chisocu), Some(data.chisomoi), data.canhoId))
  }

  /** The pay button appears, in the list and in the detail dialog, only for unpaid invoices. */
  predicate PayOffered(inv: HoaDon.HoaDon) {
    inv.trangthai == HoaDon.Unpaid
  }

  /** The create-invoice button is enabled unless the new reading is at most the old one. */
  predicate CreateEnabled(m: Meter) {
    !(m.chisomoi <= m.chisocu)
  }

  /** The consumption shown beside the meter, never negative. */
  function DisplayedConsumption(m: Meter): (c: real)
    ensures c >= 0.0
    ensures c == 0.0 || c == TieuThu(m)
  {
    MaxReal(0.0, m.chisomoi - m.chisocu)
  }

  /** The preview consumption for a typed reading. */
  function PreviewConsumption(m: Meter, typed: real): (c: real)
    ensures c >= 0.0
  {
    MaxReal(0.0, typed - m.chisocu)
  }

  /**
   * The button is enabled exactly when the handler would bill, and then the
   * consumption shown is the consumption billed.
   */
  lemma {:induction false} ButtonMatchesHandler(m: Meter)
    ensures CreateEnabled(m) <==> TieuThu(m) > 0.0
    ensures CreateEnabled(m) ==> DisplayedConsumption(m) == TieuThu(m)
    ensures !CreateEnabled(m) ==> DisplayedConsumption(m) == 0.0
  {
  }

  /**
   * Once a typed reading has been saved, the invoice charges the consumption and
   * amount the preview showed for it.
   */
  lemma PreviewMatchesInvoice(m: Meter, typed: real, canhoId: Option<int>)
    requires IsValidMeterReading(typed, m.chisocu)
    ensures TieuThu(StoredMeter(m.id, MeterPayload(m.chisocu, typed, canhoId))) == PreviewConsumption(m, typed)
    ensures InvoiceRequest(StoredMeter(m.id, MeterPayload(m.chisocu, typed, canhoId)), KhachHang.FromData(KhachHang.EmptyData), 0).tongsotien
      == Some(CalculateWaterAmount(PreviewConsumption(m, typed)))
  {
  }

  /** An invoice stored without a status is unpaid and offers payment; a paid one does not. */
  lemma NewInvoiceOffersPayment(d: HoaDon.HoaDonData, now: int)
    ensures !TruthyStr(d.trangthai) ==> PayOffered(HoaDon.FromData(d, now))
    ensures d.trangthai == Some(HoaDon.Paid) ==> !PayOffered(HoaDon.FromData(d, now))
  {
  }

  /** Ranges that are non-empty and follow one another without overlapping. */
  ghost predicate Disjoint(ps: seq<Period>) {
    (forall i :: 0 <= i < |ps| ==> ps[i].lo < ps[i].hi)
    && (forall i, j :: 0 <= i < j < |ps| ==> ps[i].hi <= ps[j].lo)
  }

  class DongHoNuocScreen {
    var customer: Option<KhachHang.KhachHang>
    var apartment: Option<CanHo.CanHo>
    /** The meter fetched for the selected apartment. */
    var meter: Option<Meter>
    /** The invoices fetched for the selected customer. */
    var invoices: seq<HoaDon.HoaDon>
    /** The consumption preview of the meter dialog. */
    var consumption: real
    var amount: int
    const meterHook: UpdateDongHoNuocHook

    /** The reading ranges invoiced from this screen for the selected meter. */
    ghost var billed: seq<Period>
    /** Whether every reading advance since the apartment was selected was accepted. */
    ghost var advancesKept: bool

    ghost predicate Valid()
      reads this, meterHook
    {
      (meter.Some? ==> apartment.Some?) && (apartment.Some? ==> customer.Some?)
      // The constructor maps id 0 to null, so the screen never asks for a creation.
      && (meter.Some? ==> meter.value.id != Some(0))
      && !meterHook.isLoading
      // The preview amount is always the tariff of the preview consumption.
      && consumption >= 0.0 && amount == CalculateWaterAmount(consumption)
      // No reading range is invoiced twice while every advance was accepted.
      && (advancesKept ==> (Disjoint(billed)
            && (meter.Some? ==> forall i :: 0 <= i < |billed| ==> billed[i].hi <= meter.value.chisocu)))
    }

    constructor()
      ensures Valid() && fresh(meterHook)
      ensures customer.None? && apartment.None? && meter.None? && invoices == []
      ensures consumption == 0.0 && amount == 0
      ensures meterHook.sent == []
      ensures billed == [] && advancesKept
    {
      customer, apartment, meter, invoices := None, None, None, [];
      consumption, amount := 0.0, 0;
      meterHook := new UpdateDongHoNuocHook();
      billed, advancesKept := [], true;
      AmountAtZero(DefaultRates);
    }

    /**
     * `handleKhachHangChange`: selects a customer and clears the apartment. The
     * invoice query runs only for a truthy customer id; `fetched` is its result.
     */
    method SelectKhachHang(k: KhachHang.KhachHang, fetched: seq<HoaDon.HoaDon>)
      requires Valid()
      modifies this
      ensures Valid()
      ensures customer == Some(k) && apartment.None? && meter.None?
      ensures invoices == (if TruthyInt(k.id) then fetched else [])
      ensures consumption == old(consumption) && amount == old(amount)
      // A new selection starts a fresh record of billed ranges.
      ensures billed == [] && advancesKept
    {
      customer := Some(k);
      apartment := None;
      meter := None;
      invoices := if TruthyInt(k.id) then fetched else [];
      billed, advancesKept := [], true;
    }

    /**
     * `handleCanHoChange`: selects one of the customer's apartments. The meter
     * query runs only for a truthy apartment id; `fetched` is the data the
     * server returns, if any, and becomes a meter through its constructor.
     */
    method SelectCanHo(a: CanHo.CanHo, fetched: Option<MeterData>)
      requires Valid() && customer.Some? && a in customer.value.canho
      modifies this
      ensures Valid()
      ensures apartment == Some(a)
      ensures meter == (if TruthyInt(a.id) && fetched.Some? then Some(DongHoNuoc.FromData(fetched.value)) else None)
      ensures customer == old(customer) && invoices == old(invoices)
      ensures consumption == old(consumption) && amount == old(amount)
      // A new selection starts a fresh record of billed ranges.
      ensures billed == [] && advancesKept
    {
      apartment := Some(a);
      meter := if TruthyInt(a.id) && fetched.Some? then Some(DongHoNuoc.FromData(fetched.value)) else None;
      billed, advancesKept := [], true;
    }

    /**
     * The preview effect, run as a reading is typed. `typed` is the text in the
     * field: `None` when it is empty, else the number it reads as. Any non-empty
     * text is truthy, "0" included, so the preview is recomputed for it.
     */
    method PreviewReading(typed: Option<real>)
      requires Valid()
      modifies this
      ensures Valid()
      ensures meter.Some? && typed.Some? ==>
        consumption == PreviewConsumption(meter.value, typed.value) && amount == CalculateWaterAmount(consumption)
      ensures !(meter.Some? && typed.Some?) ==> consumption == old(consumption) && amount == old(amount)
      ensures meter == old(meter) && invoices == old(invoices) && apartment == old(apartment)
      ensures customer == old(customer)
      ensures billed == old(billed) && advancesKept == old(advancesKept)
    {
      if meter.Some? && typed.Some? {
        consumption := MaxReal(0.0, typed.value - meter.value.chisocu);
        amount := CalculateWaterAmount(consumption);
      }
    }

    /** `handleCloseMeterDialog`: clears the preview. */
    method CloseMeterDialog()
      requires Valid()
      modifies this
      ensures Valid()
      ensures consumption == 0.0 && amount == 0
      ensures meter == old(meter) && invoices == old(invoices) && apartment == old(apartment)
      ensures customer == old(customer)
      ensures billed == old(billed) && advancesKept == old(advancesKept)
    {
      consumption, amount := 0.0, 0;
      AmountAtZero(DefaultRates);
    }

    /**
     * The meter form's validation followed by `onSubmitMeterReading`. The old
     * reading is a read-only field filled from the meter, so only the new
     * reading is typed; `reply` is the server's answer to the update.
     */
    method SubmitReading(typed: Option<real>, reply: Reply) returns (outcome: SubmitOutcome)
      requires Valid()
      modifies this, meterHook
      ensures Valid()
      ensures typed.None? ==> outcome == FormRejected(ReadingRequired)
      // The form lets through exactly the readings above the old one.
      ensures outcome.FormRejected? <==>
        typed.None? || old(meter).None? || !IsValidMeterReading(typed.value, old(meter).value.chisocu)
      ensures typed.Some? && (old(meter).None? || !IsValidMeterReading(typed.value, old(meter).value.chisocu))
        ==> outcome == FormRejected(ReadingNotAbove)
      ensures outcome.FormRejected? ==> meterHook.sent == old(meterHook.sent) && meter == old(meter)
      ensures !outcome.FormRejected? ==> (meterHook.sent == old(meterHook.sent)
        + [UpdateMeter(old(meter).value.id, MeterPayload(old(meter).value.chisocu, typed.value, old(apartment).value.id))])
      ensures outcome == Saved <==> !outcome.FormRejected? && reply.Accepted?
      ensures outcome == Saved ==> meter == Some(StoredMeter(old(meter).value.id,
        MeterPayload(old(meter).value.chisocu, typed.value, old(apartment).value.id)))
      ensures outcome == Saved ==> consumption == 0.0 && amount == 0
      ensures outcome != Saved ==> consumption == old(consumption) && amount == old(amount)
      ensures outcome == SaveFailed ==> meter == old(meter) && meterHook.error == Some(reply.message)
      // Saving a reading never moves the old reading.
      ensures meter.Some? ==> old(meter).Some? && meter.value.chisocu == old(meter).value.chisocu
      ensures customer == old(customer) && apartment == old(apartment) && invoices == old(invoices)
      ensures billed == old(billed) && advancesKept == old(advancesKept)
      ensures outcome == Saved ==> meterHook.error == None
      ensures outcome.FormRejected? ==> meterHook.error == old(meterHook.error)
    {
      if typed.None? {
        return FormRejected(ReadingRequired);
      }
      if meter.None? || !IsValidMeterReading(typed.value, meter.value.chisocu) {
        return FormRejected(ReadingNotAbove);
      }
      var m := meter.value;
      var data := MeterPayload(m.chisocu, typed.value, apartment.value.id);
      var ok, _ := meterHook.UpdateDongHoNuoc(m.id, data, reply, true);
      if ok {
        meter := Some(StoredMeter(m.id, data));
        consumption, amount := 0.0, 0;
        AmountAtZero(DefaultRates);
        outcome := Saved;
      } else {
        outcome := SaveFailed;
      }
    }

    /**
     * `handleCreateInvoice`: bills the consumption since the old reading, then
     * from the success callback refetches the invoices and asks to advance the
     * old reading to the new one. The advance's result is not looked at.
     */
    method CreateInvoice(now: int, invoiceReply: InvoiceReply, advanceReply: Reply) returns (outcome: BillOutcome)
      requires Valid()
      modifies this, meterHook
      ensures Valid()
      ensures old(meter).None? || old(customer).None? ==> outcome == NoSelection
      ensures old(meter).Some? && old(customer).Some? && TieuThu(old(meter).value) <= 0.0 ==> outcome == NothingToBill
      ensures !outcome.Billed? ==> meter == old(meter) && invoices == old(invoices) && meterHook.sent == old(meterHook.sent)
      ensures outcome.Billed? <==>
        old(meter).Some? && old(customer).Some? && TieuThu(old(meter).value) > 0.0 && invoiceReply.Stored?
      // The new invoice charges the tariff of the consumption, unpaid.
      ensures outcome.Billed? ==> (invoices == old(invoices)
        + [StoredInvoice(InvoiceRequest(old(meter).value, old(customer).value, now), invoiceReply.id, now)])
      ensures outcome.Billed? ==> (meterHook.sent == old(meterHook.sent)
        + [UpdateMeter(old(meter).value.id, MeterPayload(old(meter).value.chisomoi, old(meter).value.chisomoi, old(apartment).value.id))])
      ensures old(meter).Some? && old(customer).Some? && TieuThu(old(meter).value) > 0.0 && invoiceReply.Refused?
        ==> outcome == InvoiceFailed
      ensures outcome.Billed? ==> (outcome.advanced <==> advanceReply.Accepted?)
      ensures outcome == Billed(true) ==> meterHook.error == None
      ensures outcome == Billed(false) ==> meterHook.error == Some(advanceReply.message)
      // After an accepted advance nothing is left to bill.
      ensures outcome == Billed(true) ==> meter.Some? && meter.value.chisocu == old(meter).value.chisomoi && TieuThu(meter.value) == 0.0
      ensures outcome == Billed(true) ==> meter == Some(StoredMeter(old(meter).value.id,
        MeterPayload(old(meter).value.chisomoi, old(meter).value.chisomoi, old(apartment).value.id)))
      // The meter read back is the same meter of the same apartment.
      ensures outcome == Billed(true) ==> (meter.value.id == old(meter).value.id
        && meter.value.canhoId == (if old(apartment).value.id == Some(0) then None else old(apartment).value.id))
      // After a refused advance the same consumption can be billed again.
      ensures outcome == Billed(false) ==> meter == old(meter)
      ensures customer == old(customer) && apartment == old(apartment)
      ensures consumption == old(consumption) && amount == old(amount)
      // Each stored invoice records the range it charged; a refused advance ends the guarantee.
      ensures outcome.Billed? ==> billed == old(billed) + [Period(old(meter).value.chisocu, old(meter).value.chisomoi)]
      ensures !outcome.Billed? ==> billed == old(billed)
      ensures advancesKept == (old(advancesKept) && outcome != Billed(false))
      ensures !outcome.Billed? ==> meterHook.error == old(meterHook.error)
    {
      if meter.None? || customer.None? {
        return NoSelection;
      }
      var m := meter.value;
      var newConsumption := m.chisomoi - m.chisocu;
      if newConsumption <= 0.0 {
        return NothingToBill;
      }
      var invoiceAmount := CalculateWaterAmount(newConsumption);
      var hoaDonData := HoaDon.HoaDonData(None, Some(now), Some(invoiceAmount), customer.value.id, None, m.id, Some(HoaDon.Unpaid));
      assert hoaDonData == InvoiceRequest(m, customer.value, now);
      if invoiceReply.Refused? {
        return InvoiceFailed;
      }
      invoices := invoices + [StoredInvoice(hoaDonData, invoiceReply.id, now)];
      var advance := MeterPayload(m.chisomoi, m.chisomoi, apartment.value.id);
      UnchangedReadingPasses(m.id, m.chisomoi, apartment.value.id);
      var advanced, _ := meterHook.UpdateDongHoNuoc(m.id, advance, advanceReply, true);
      billed := billed + [Period(m.chisocu, m.chisomoi)];
      if advanced {
        meter := Some(StoredMeter(m.id, advance));
      } else {
        advancesKept := false;
      }
      outcome := Billed(advanced);
    }

    /**
     * `handlePayInvoice` on row `i`: asks to mark the invoice paid and, once
     * accepted, refetches the list. The invoice's current status is not checked.
     */
    method PayInvoice(i: nat, reply: Reply) returns (ok: bool)
      requires Valid() && i < |invoices|
      modifies this
      ensures Valid()
      ensures ok <==> reply.Accepted?
      ensures ok ==> invoices == old(invoices)[i := old(invoices)[i].(trangthai := HoaDon.Paid)]
      ensures ok ==> !PayOffered(invoices[i])
      ensures !ok ==> invoices == old(invoices)
      ensures meter == old(meter) && customer == old(customer) && apartment == old(apartment)
      ensures consumption == old(consumption) && amount == old(amount)
      ensures billed == old(billed) && advancesKept == old(advancesKept)
    {
      ok := reply.Accepted?;
      if ok {
        invoices := invoices[i := invoices[i].(trangthai := HoaDon.Paid)];
      }
    }
  }

  /**
   * Two invoice creations in a row, each stored: when the first advance is
   * accepted the second creation finds nothing to bill; when it is refused the
   * second bills the same consumption again, for the same amount.
   */
  method BillTwice(k: KhachHang.KhachHang, a: CanHo.CanHo, d: MeterData, firstAdvance: Reply, now: int)
    returns (first: BillOutcome, second: BillOutcome, charged: seq<int>)
    requires a in k.canho && TruthyInt(a.id)
    requires TieuThu(DongHoNuoc.FromData(d)) > 0.0
    ensures first == Billed(firstAdvance.Accepted?)
    ensures firstAdvance.Accepted? ==> second == NothingToBill && |charged| == 1
    ensures firstAdvance.Rejected? ==> second == Billed(true) && |charged| == 2 && charged[0] == charged[1]
    ensures forall i :: 0 <= i < |charged| ==> charged[i] == CalculateWaterAmount(TieuThu(DongHoNuoc.FromData(d)))
  {
    var screen := new DongHoNuocScreen();
    screen.SelectKhachHang(k, []);
    screen.SelectCanHo(a, Some(d));
    first := screen.CreateInvoice(now, Stored(1), firstAdvance);
    second := screen.CreateInvoice(now, Stored(2), Accepted);
    charged := seq(|screen.invoices|, i requires 0 <= i < |screen.invoices| reads screen => screen.invoices[i].tongsotien);
  }
}
