/**
 * The water-meter record of src/models/DongHoNuocModel.js: a constructor that
 * defaults each field once, and the consumption `getTieuThu()`.
 */
module DongHoNuoc {
  import opened Js

  /** The plain object handed to `new DongHoNuocModel(data)`. */
  datatype MeterData = MeterData(id: Option<int>, chisocu: Option<real>, chisomoi: Option<real>, canho_id: Option<int>)

  const EmptyData: MeterData := MeterData(None, None, None, None)

  /** A meter: old reading `chisocu`, new reading `chisomoi`, owning apartment. */
  datatype Meter = Meter(id: Option<int>, chisocu: real, chisomoi: real, canhoId: Option<int>)

  /** `new DongHoNuocModel(data)`. */
  function FromData(d: MeterData): (m: Meter)
    // For readings `x || 0` coincides with `x ?? 0`: a falsy reading is already 0.
    ensures m.chisocu == d.chisocu.GetOr(0.0) && m.chisomoi == d.chisomoi.GetOr(0.0)
    // Only an absent or zero id becomes null; any other id is kept.
    ensures m.id == (if d.id == Some(0) then None else d.id)
    ensures m.canhoId == (if d.canho_id == Some(0) then None else d.canho_id)
  {
    Meter(IdOrNull(d.id), RealOrZero(d.chisocu), RealOrZero(d.chisomoi), IdOrNull(d.canho_id))
  }

  /** The plain object a stored meter is sent and read back as. */
  function DataOf(m: Meter): MeterData {
    MeterData(m.id, Some(m.chisocu), Some(m.chisomoi), m.canhoId)
  }

  /** `getTieuThu()`: the consumption since the last billed reading, not clamped at 0. */
  function TieuThu(m: Meter): (c: real)
    ensures m.chisocu + c == m.chisomoi
    ensures c < 0.0 <==> m.chisomoi < m.chisocu
    ensures c == 0.0 <==> m.chisomoi == m.chisocu
  {
    m.chisomoi - m.chisocu
  }

  /** A meter built from no data reads 0 and 0 and has consumed nothing. */
  lemma EmptyMeter()
    ensures FromData(EmptyData) == Meter(None, 0.0, 0.0, None)
    ensures TieuThu(FromData(EmptyData)) == 0.0
  {
  }

  /** Re-reading a constructed meter through the constructor changes nothing. */
  lemma FromDataRoundTrip(d: MeterData)
    ensures FromData(DataOf(FromData(d))) == FromData(d)
  {
  }
}
