/**
 * The invoice record of src/models/HoaDonModel.js: a constructor that defaults
 * each falsy field, in particular the status to unpaid.
 */
module HoaDon {
  import opened Js

  /** The status of an invoice that has not been paid. */
  const Unpaid: string := "Chưa thanh toán"

  /** The status of a paid invoice. */
  const Paid: string := "Đã thanh toán"

  /**
   * The plain object handed to `new HoaDonModel(data)`. The issue date is an
   * instant in milliseconds; a date string or `Date` object is truthy whatever
   * instant it denotes, so `None` stands for a missing or empty date.
   */
  datatype HoaDonData = HoaDonData(
    id: Option<int>, ngaylap: Option<int>, tongsotien: Option<int>,
    khachhangId: Option<int>, hopdongId: Option<int>, donghonuocId: Option<int>,
    trangthai: Option<string>)

  const EmptyData: HoaDonData := HoaDonData(None, None, None, None, None, None, None)

  datatype HoaDon = HoaDon(
    id: Option<int>, ngaylap: int, tongsotien: int,
    khachhangId: Option<int>, hopdongId: Option<int>, donghonuocId: Option<int>,
    trangthai: string)

  /** `new HoaDonModel(data)` at clock reading `now` (the `new Date()` default). */
  function FromData(d: HoaDonData, now: int): (h: HoaDon)
    ensures h.trangthai != ""
    ensures TruthyStr(d.trangthai) ==> h.trangthai == d.trangthai.value
    ensures !TruthyStr(d.trangthai) ==> h.trangthai == Unpaid
    // For the total `x || 0` coincides with `x ?? 0`.
    ensures h.tongsotien == d.tongsotien.GetOr(0)
    ensures h.ngaylap == d.ngaylap.GetOr(now)
    // A missing or zero id becomes null; any other id is kept.
    ensures h.id == (if d.id == Some(0) then None else d.id)
    ensures h.khachhangId == (if d.khachhangId == Some(0) then None else d.khachhangId)
    ensures h.hopdongId == (if d.hopdongId == Some(0) then None else d.hopdongId)
    ensures h.donghonuocId == (if d.donghonuocId == Some(0) then None else d.donghonuocId)
  {
    HoaDon(
      IdOrNull(d.id), d.ngaylap.GetOr(now), IntOrZero(d.tongsotien),
      IdOrNull(d.khachhangId), IdOrNull(d.hopdongId), IdOrNull(d.donghonuocId),
      StrOr(d.trangthai, Unpaid))
  }

  /** The plain object an invoice is stored as. */
  function DataOf(h: HoaDon): HoaDonData {
    HoaDonData(h.id, Some(h.ngaylap), Some(h.tongsotien),
               h.khachhangId, h.hopdongId, h.donghonuocId, Some(h.trangthai))
  }

  /** An invoice built from no data is an unpaid invoice of 0 dated `now`. */
  lemma EmptyInvoice(now: int)
    ensures FromData(EmptyData, now) == HoaDon(None, now, 0, None, None, None, Unpaid)
  {
  }

  /** A paid status survives construction. */
  lemma PaidStatusKept(d: HoaDonData, now: int)
    requires d.trangthai == Some(Paid)
    ensures FromData(d, now).trangthai == Paid
  {
  }

  /** Re-reading a constructed invoice through the constructor changes nothing. */
  lemma FromDataRoundTrip(d: HoaDonData, now: int, later: int)
    ensures FromData(DataOf(FromData(d, now)), later) == FromData(d, now)
  {
  }
}
