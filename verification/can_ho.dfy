/**
 * The apartment record of src/models/CanHoModel.js: the constructor (with its
 * choice of customer id), `validate()`, `toJSON()` and `getFullName()`.
 */
module CanHo {
  import opened Js

  /**
   * The apartment number as a JavaScript number: an integer or NaN. Numbers
   * arriving as strings are not modelled.
   */
  datatype Num = Finite(n: int) | NaN

  /** A customer object as nested in apartment data: only its id matters. */
  datatype CustomerRef = CustomerRef(id: Option<int>)

  /** The plain object handed to `new CanHoModel(data)`. */
  datatype CanHoData = CanHoData(
    id: Option<int>, socanho: Option<Num>, toanha: Option<string>,
    khachhang: Option<CustomerRef>, khachhang_id: Option<int>)

  /**
   * An apartment. `khachhang` is set only when the data carried a customer
   * object with a truthy id; otherwise the property stays undefined.
   */
  datatype CanHo = CanHo(
    id: Option<int>, socanho: Option<Num>, toanha: string,
    khachhangId: Option<int>, khachhang: Option<CustomerRef>)

  /** NaN and 0 are the falsy numbers. */
  predicate TruthyNum(o: Option<Num>) {
    o.Some? && o.value.Finite? && o.value.n != 0
  }

  /** `data.khachhang && data.khachhang.id`. */
  predicate HasCustomerObject(d: CanHoData) {
    d.khachhang.Some? && TruthyInt(d.khachhang.value.id)
  }

  /** `new CanHoModel(data)`. */
  function FromData(d: CanHoData): (c: CanHo)
    // 0 and NaN apartment numbers become null; any other number is kept.
    ensures c.socanho == (if TruthyNum(d.socanho) then d.socanho else None)
    // A customer object's truthy id wins over `khachhang_id`.
    ensures HasCustomerObject(d) ==> c.khachhangId == d.khachhang.value.id && c.khachhang == d.khachhang
    ensures !HasCustomerObject(d) ==> c.khachhangId == (if d.khachhang_id == Some(0) then None else d.khachhang_id)
    ensures !HasCustomerObject(d) ==> c.khachhang.None?
    ensures c.toanha == d.toanha.GetOr("")
    ensures c.id == (if d.id == Some(0) then None else d.id)
  {
    var socanho := if TruthyNum(d.socanho) then d.socanho else None;
    if HasCustomerObject(d) then
      CanHo(IdOrNull(d.id), socanho, StrOr(d.toanha, ""), d.khachhang.value.id, d.khachhang)
    else
      CanHo(IdOrNull(d.id), socanho, StrOr(d.toanha, ""), IdOrNull(d.khachhang_id), None)
  }

  const SocanhoRequired: string := "Số căn hộ không được để trống"
  const SocanhoNotPositive: string := "Số căn hộ phải là số dương lớn hơn 0"
  const ToanhaRequired: string := "Tòa nhà không được để trống"
  const KhachhangIdRequired: string := "ID khách hàng không được để trống"

  /** A positive apartment number is the only kind `validate()` accepts. */
  predicate PositiveNumber(o: Option<Num>) {
    o.Some? && o.value.Finite? && o.value.n >= 1
  }

  /**
   * `validate()`: fills the error map field by field. An absent or NaN number
   * is reported as missing, a present 0 or negative number as not positive.
   */
  method Validate(c: CanHo) returns (isValid: bool, errors: map<string, string>)
    ensures "socanho" in errors <==> !PositiveNumber(c.socanho)
    ensures "socanho" in errors ==> (errors["socanho"] ==
      if c.socanho.None? || c.socanho.value.NaN? then SocanhoRequired else SocanhoNotPositive)
    ensures "toanha" in errors <==> IsBlank(c.toanha)
    ensures "toanha" in errors ==> errors["toanha"] == ToanhaRequired
    ensures "khachhang_id" in errors <==> !TruthyInt(c.khachhangId)
    ensures "khachhang_id" in errors ==> errors["khachhang_id"] == KhachhangIdRequired
    ensures errors.Keys <= {"socanho", "toanha", "khachhang_id"}
    ensures isValid <==> errors == map[]
  {
    errors := map[];
    var number := c.socanho;
    var missing := number.None? || number.value.NaN?;
    if !TruthyNum(number) && number != Some(Finite(0)) {
      assert missing;
      errors := errors["socanho" := SocanhoRequired];
    } else if number.value.NaN? || number.value.n < 1 {
      assert !missing && !PositiveNumber(number);
      errors := errors["socanho" := SocanhoNotPositive];
    } else {
      assert PositiveNumber(number);
    }
    assert "socanho" in errors <==> !PositiveNumber(number);
    if c.toanha == "" || TrimIsEmpty(c.toanha) {
      errors := errors["toanha" := ToanhaRequired];
    }
    if !TruthyInt(c.khachhangId) {
      errors := errors["khachhang_id" := KhachhangIdRequired];
    }
    isValid := |errors| == 0;
  }

  /** An apartment number of 0 in the data is nulled by the constructor, hence reported missing. */
  lemma ZeroNumberBecomesMissing(d: CanHoData)
    requires d.socanho == Some(Finite(0))
    ensures FromData(d).socanho == None
    ensures !PositiveNumber(FromData(d).socanho)
  {
  }

  /** The object `toJSON()` returns. */
  datatype CanHoJson = CanHoJson(id: Option<int>, socanho: Option<Num>, toanha: string, khachhang: Option<CustomerRef>)

  /** `toJSON()`: the customer becomes `{id}` when the id is truthy, `null` otherwise. */
  function ToJson(c: CanHo): (j: CanHoJson)
    ensures j.khachhang.Some? <==> TruthyInt(c.khachhangId)
    ensures j.khachhang.Some? ==> j.khachhang.value == CustomerRef(c.khachhangId)
    ensures j.id == c.id && j.socanho == c.socanho && j.toanha == c.toanha
  {
    CanHoJson(c.id, c.socanho, c.toanha,
              if TruthyInt(c.khachhangId) then Some(CustomerRef(c.khachhangId)) else None)
  }

  /** The JSON object read back as constructor data. */
  function DataOfJson(j: CanHoJson): CanHoData {
    CanHoData(j.id, j.socanho, Some(j.toanha), j.khachhang, None)
  }

  /** Serialising a constructed apartment and constructing it again yields the same JSON. */
  lemma ToJsonRoundTrip(d: CanHoData)
    ensures ToJson(FromData(DataOfJson(ToJson(FromData(d))))) == ToJson(FromData(d))
  {
  }

  // ----- getFullName -----

  function DigitChar(d: nat): char
    requires d < 10
  {
    ['0', '1', '2', '3', '4', '5', '6', '7', '8', '9'][d]
  }

  /** The decimal digits of a natural number, as `String(n)` writes them. */
  function NatText(n: nat): (s: string)
    ensures |s| > 0 && forall k :: 0 <= k < |s| ==> '0' <= s[k] <= '9'
  {
    if n < 10 then [DigitChar(n)] else NatText(n / 10) + [DigitChar(n % 10)]
  }

  /** `String(n)` for an integer. */
  function IntText(n: int): string {
    if n < 0 then "-" + NatText(-n) else NatText(n)
  }

  /** The template-literal text of an apartment number. */
  function NumText(o: Option<Num>): string {
    match o
    case None => "null"
    case Some(NaN) => "NaN"
    case Some(Finite(n)) => IntText(n)
  }

  const NameSeparator: string := " - Căn hộ "

  /** `getFullName()`. */
  function FullName(c: CanHo): string {
    c.toanha + NameSeparator + NumText(c.socanho)
  }

  /** The value of a string of decimal digits. */
  function DecimalValue(s: string): int {
    if s == [] then 0 else DecimalValue(s[..|s| - 1]) * 10 + (s[|s| - 1] as int - '0' as int)
  }

  /** Reading a possibly signed decimal integer. */
  function ParseInt(s: string): int {
    if |s| > 0 && s[0] == '-' then -DecimalValue(s[1..]) else DecimalValue(s)
  }

  lemma {:induction false} NatTextValue(n: nat)
    ensures DecimalValue(NatText(n)) == n
  {
    var s := NatText(n);
    if n >= 10 {
      assert s[..|s| - 1] == NatText(n / 10);
      NatTextValue(n / 10);
    }
  }

  lemma NegativeTextValue(t: string)
    ensures ParseInt("-" + t) == -DecimalValue(t)
  {
    var s := "-" + t;
    assert s[0] == '-' && s[1..] == t;
  }

  lemma {:induction false} IntTextValue(n: int)
    ensures ParseInt(IntText(n)) == n
  {
    var t := NatText(Abs(n));
    NatTextValue(Abs(n));
    if n < 0 {
      assert IntText(n) == "-" + t;
      NegativeTextValue(t);
    } else {
      assert IntText(n) == t && t[0] != '-';
    }
  }

  /**
   * The full name is the building, the separator and the apartment number, and
   * the number can be read back from it.
   */
  lemma FullNameParts(c: CanHo, n: int)
    requires c.socanho == Some(Finite(n))
    ensures FullName(c)[..|c.toanha|] == c.toanha
    ensures FullName(c)[|c.toanha|..|c.toanha| + |NameSeparator|] == NameSeparator
    ensures ParseInt(FullName(c)[|c.toanha| + |NameSeparator|..]) == n
  {
    assert FullName(c)[|c.toanha| + |NameSeparator|..] == IntText(n);
    IntTextValue(n);
  }
}
