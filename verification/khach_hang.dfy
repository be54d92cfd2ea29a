/**
 * The customer record of src/models/KhachHangModel.js: the constructor's
 * defaults, `validate()` built on the input validators, and `toJSON()`, which
 * leaves out an empty apartment list.
 */
module KhachHang {
  import opened Js
  import opened Validators
  import CanHo

  /** The plain object handed to `new KhachHangModel(data)`. */
  datatype KhachHangData = KhachHangData(
    id: Option<int>, hoten: Option<string>, sodienthoai: Option<string>,
    email: Option<string>, diachi: Option<string>, quoctich: Option<string>,
    cccd: Option<string>, ngaytao: Option<string>, canho: Option<seq<CanHo.CanHo>>)

  const EmptyData: KhachHangData := KhachHangData(None, None, None, None, None, None, None, None, None)

  /** A customer and the apartments the customer owns. */
  datatype KhachHang = KhachHang(
    id: Option<int>, hoten: string, sodienthoai: string, email: string,
    diachi: string, quoctich: string, cccd: string, ngaytao: Option<string>,
    canho: seq<CanHo.CanHo>)

  /** The nationality a customer gets when none is given. */
  const DefaultQuoctich: string := "Việt Nam"

  /** `new KhachHangModel(data)`. */
  function FromData(d: KhachHangData): (k: KhachHang)
    // Every text field defaults to "" and `x || ""` coincides with `x ?? ""`.
    ensures k.hoten == d.hoten.GetOr("") && k.sodienthoai == d.sodienthoai.GetOr("")
    ensures k.email == d.email.GetOr("") && k.diachi == d.diachi.GetOr("")
    ensures k.cccd == d.cccd.GetOr("")
    // An empty nationality is replaced as well as a missing one.
    ensures k.quoctich != ""
    ensures TruthyStr(d.quoctich) ==> k.quoctich == d.quoctich.value
    ensures !TruthyStr(d.quoctich) ==> k.quoctich == DefaultQuoctich
    ensures k.id == (if d.id == Some(0) then None else d.id)
    ensures k.ngaytao == (if d.ngaytao == Some("") then None else d.ngaytao)
    // An array is truthy even when empty, so only a missing list is replaced.
    ensures k.canho == d.canho.GetOr([])
  {
    KhachHang(
      IdOrNull(d.id), StrOr(d.hoten, ""), StrOr(d.sodienthoai, ""), StrOr(d.email, ""),
      StrOr(d.diachi, ""), StrOr(d.quoctich, DefaultQuoctich), StrOr(d.cccd, ""),
      StrOrNull(d.ngaytao), d.canho.GetOr([]))
  }

  const HotenRequired: string := "Họ tên không được để trống"
  const PhoneRequired: string := "Số điện thoại không được để trống"
  const PhoneInvalid: string := "Số điện thoại không hợp lệ (yêu cầu 10-11 số)"
  const EmailRequired: string := "Email không được để trống"
  const EmailInvalid: string := "Email không hợp lệ"
  const CccdInvalid: string := "Số CCCD không hợp lệ"

  /** A citizen-id number, when given, is 9 to 12 digits. */
  predicate CccdAcceptable(cccd: string) {
    cccd == "" || DigitRun(cccd, 9, 12)
  }

  /**
   * `validate()`: fills the error map field by field; for the phone number and
   * the e-mail address a missing value is reported before a malformed one.
   */
  method Validate(k: KhachHang) returns (isValid: bool, errors: map<string, string>)
    ensures "hoten" in errors <==> k.hoten == ""
    ensures "hoten" in errors ==> errors["hoten"] == HotenRequired
    ensures "sodienthoai" in errors <==> !IsValidPhone(k.sodienthoai)
    ensures "sodienthoai" in errors ==> (errors["sodienthoai"] ==
      if k.sodienthoai == "" then PhoneRequired else PhoneInvalid)
    ensures "email" in errors <==> !IsValidEmail(k.email)
    ensures "email" in errors ==> (errors["email"] ==
      if k.email == "" then EmailRequired else EmailInvalid)
    ensures "cccd" in errors <==> !CccdAcceptable(k.cccd)
    ensures "cccd" in errors ==> errors["cccd"] == CccdInvalid
    ensures errors.Keys <= {"hoten", "sodienthoai", "email", "cccd"}
    ensures isValid <==> errors == map[]
  {
    errors := map[];
    if !IsRequired(Some(k.hoten)) {
      errors := errors["hoten" := HotenRequired];
    }
    if !IsRequired(Some(k.sodienthoai)) {
      errors := errors["sodienthoai" := PhoneRequired];
    } else if !IsValidPhone(k.sodienthoai) {
      errors := errors["sodienthoai" := PhoneInvalid];
    }
    if !IsRequired(Some(k.email)) {
      errors := errors["email" := EmailRequired];
    } else if !IsValidEmail(k.email) {
      errors := errors["email" := EmailInvalid];
    }
    if k.cccd != "" && !DigitRun(k.cccd, 9, 12) {
      errors := errors["cccd" := CccdInvalid];
    }
    isValid := |errors| == 0;
  }

  /** The empty e-mail address is rejected by the pattern too, so the required check only picks the message. */
  lemma EmptyEmailInvalid()
    ensures !IsValidEmail("") && !IsValidPhone("")
  {
  }

  /** The object `toJSON()` returns; `canho` is `None` when the key is left out. */
  datatype KhachHangJson = KhachHangJson(
    id: Option<int>, hoten: string, sodienthoai: string, email: string,
    diachi: string, quoctich: string, cccd: string, ngaytao: Option<string>,
    canho: Option<seq<CanHo.CanHo>>)

  /** `toJSON()`. */
  function ToJson(k: KhachHang): (j: KhachHangJson)
    ensures j.canho.Some? <==> |k.canho| > 0
    ensures j.canho.Some? ==> j.canho.value == k.canho
    ensures j.id == k.id && j.hoten == k.hoten && j.sodienthoai == k.sodienthoai
    ensures j.email == k.email && j.diachi == k.diachi && j.quoctich == k.quoctich
    ensures j.cccd == k.cccd && j.ngaytao == k.ngaytao
  {
    KhachHangJson(k.id, k.hoten, k.sodienthoai, k.email, k.diachi, k.quoctich, k.cccd, k.ngaytao,
                  if |k.canho| > 0 then Some(k.canho) else None)
  }

  /** The JSON object read back as constructor data. */
  function DataOfJson(j: KhachHangJson): KhachHangData {
    KhachHangData(j.id, Some(j.hoten), Some(j.sodienthoai), Some(j.email), Some(j.diachi),
                  Some(j.quoctich), Some(j.cccd), j.ngaytao, j.canho)
  }

  /** Leaving out an empty apartment list loses nothing: the customer read back is the same. */
  lemma ToJsonRoundTrip(d: KhachHangData)
    ensures FromData(DataOfJson(ToJson(FromData(d)))) == FromData(d)
  {
  }

  /** A customer built from no data: empty fields, the default nationality, no apartments. */
  lemma EmptyCustomer()
    ensures FromData(EmptyData) == KhachHang(None, "", "", "", "", DefaultQuoctich, "", None, [])
  {
  }
}
