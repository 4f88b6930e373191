/**
 The read direction of the offer handlers (`getDealData`): how the CRM's deal
 and contact properties become the offer record shown to the customer.
 */
module OfferReader {
  import opened JsValues
  import opened JsText
  import opened Crm

  /** Weekly rate used when the deal has none, or none that parses, or zero. */
  const FallbackRate: real := 0.0288

  /** Name shown when the deal has no contact or the contact has no name. */
  const FallbackName := "Cliente"

  /** The JSON body of a successful read. */
  datatype DealData = DealData(
    nombre: string,
    monto: real,
    periodos: int,
    pago: real,
    tasa: real,
    dealName: CrmValue,
    yaProcesado: bool)

  /** Whether the stored processed flag marks the offer as already handled:
      only the text "true" or the boolean true do; the comparison is strict. */
  function DecodeProcessed(v: CrmValue): (processed: bool)
    ensures processed <==> v == Text("true") || v == Flag(true)
  {
    match v
    case Text(s) => s == "true"
    case Flag(b) => b
    case Missing => false
  }

  /** The weekly rate: the fallback when the stored value does not parse or
      is zero, and a value above 1 is read as a percentage and divided by
      100. */
  function NormalizeRate(p: Parsed<real>): (rate: real)
    ensures rate != 0.0
    ensures p.NaN? || p.value == 0.0 ==> rate == FallbackRate
    ensures p.Num? && p.value > 1.0 ==> rate * 100.0 == p.value
    ensures p.Num? && p.value != 0.0 && p.value <= 1.0 ==> rate == p.value
    ensures rate <= 1.0 <==> !(p.Num? && p.value > 100.0)
  {
    var r := FloatOr(p, FallbackRate);
    if r > 1.0 then r / 100.0 else r
  }

  /** First and last name joined by one space with the outer white space
      removed, or the fallback name when nothing visible is left. */
  function DisplayName(first: string, last: string): (name: string)
    ensures name != ""
    ensures AllSpace(first) && AllSpace(last) ==> name == FallbackName
    ensures !(AllSpace(first) && AllSpace(last)) ==> Trimmed(first + " " + last, name)
  {
    var full := first + " " + last;
    var t := Trim(full);
    TrimmedEmptyIffAllSpace(full, t);
    AllSpaceJoin(first, " ");
    AllSpaceJoin(first + " ", last);
    if t == "" then FallbackName else t
  }

  /** With visible characters in both parts, the display name is both parts
      joined by one space: white space inside is kept, white space at the
      two outer ends is removed. */
  lemma DisplayNameBothParts(first: string, last: string)
    requires !AllSpace(first) && !AllSpace(last)
    ensures DisplayName(first, last) == TrimStart(first) + " " + TrimEnd(last)
  {
    var i, j := SkipForward(first, 0), SkipBackward(last, 0, |last|);
    var pre, a, b, post := first[..i], first[i..], last[..j], last[j..];
    SpacePrefix(first, i);
    SpaceSuffix(last, j);
    var mid := a + " " + b;
    assert mid[0] == first[i] && mid[|mid| - 1] == last[j - 1];
    JoinRegroup(first, last, i, j);
    PaddedIsTrimmed(pre, mid, post);
    TrimmedUnique(first + " " + last, DisplayName(first, last), mid);
  }

  /** With a blank last name the display name is the trimmed first name. */
  lemma DisplayNameFirstOnly(first: string, last: string)
    requires !AllSpace(first) && AllSpace(last)
    ensures DisplayName(first, last) == Trim(first)
  {
    var t := Trim(first);
    var i, j :| TrimmedAt(first, t, i, j);
    TrimmedEmptyIffAllSpace(first, t);
    SpacePrefix(first, i);
    SpaceSuffix(first, j);
    AllSpaceJoin(first[j..], " ");
    AllSpaceJoin(first[j..] + " ", last);
    FirstRegroup(first, last, i, j);
    PaddedIsTrimmed(first[..i], t, first[j..] + " " + last);
    TrimmedUnique(first + " " + last, DisplayName(first, last), t);
  }

  /** With a blank first name the display name is the trimmed last name. */
  lemma DisplayNameLastOnly(first: string, last: string)
    requires AllSpace(first) && !AllSpace(last)
    ensures DisplayName(first, last) == Trim(last)
  {
    var t := Trim(last);
    var i, j :| TrimmedAt(last, t, i, j);
    TrimmedEmptyIffAllSpace(last, t);
    SpacePrefix(last, i);
    SpaceSuffix(last, j);
    AllSpaceJoin(first, " ");
    AllSpaceJoin(first + " ", last[..i]);
    LastRegroup(first, last, i, j);
    PaddedIsTrimmed(first + " " + last[..i], t, last[j..]);
    TrimmedUnique(first + " " + last, DisplayName(first, last), t);
  }

  /** The `nombre` of the response: the fallback when the deal has no
      associated contact (no contact is fetched then), otherwise the contact's
      first and last name with absent parts read as empty text. */
  function ContactName(contact: Option<ContactRecord>): (name: string)
    ensures name != ""
    ensures contact.None? ==> name == FallbackName
    ensures contact.Some? ==>
              name == DisplayName(TextOr(contact.value.firstname, ""), TextOr(contact.value.lastname, ""))
    ensures contact.Some? ==>
              AllSpace(TextOr(contact.value.firstname, "")) && AllSpace(TextOr(contact.value.lastname, "")) ==>
              name == FallbackName
  {
    match contact
    case None => FallbackName
    case Some(c) => DisplayName(TextOr(c.firstname, ""), TextOr(c.lastname, ""))
  }

  /** A contact with a first name and no last name is shown by the trimmed
      first name: the missing part reads as empty text. */
  lemma ContactNameWithoutLastName(c: ContactRecord, first: string)
    requires c.firstname == Text(first) && !AllSpace(first)
    requires !c.lastname.Truthy()
    ensures ContactName(Some(c)) == Trim(first)
  {
    assert TextOr(c.lastname, "") == "";
    DisplayNameFirstOnly(first, "");
  }

  /** A contact with a last name and no first name is shown by the trimmed
      last name. */
  lemma ContactNameWithoutFirstName(c: ContactRecord, last: string)
    requires !c.firstname.Truthy()
    requires c.lastname == Text(last) && !AllSpace(last)
    ensures ContactName(Some(c)) == Trim(last)
  {
    assert TextOr(c.firstname, "") == "";
    DisplayNameLastOnly("", last);
  }

  /** A contact with visible text in both name properties is shown by both
      joined by one space, trimmed only at the two outer ends. */
  lemma ContactNameBothParts(c: ContactRecord, first: string, last: string)
    requires c.firstname == Text(first) && !AllSpace(first)
    requires c.lastname == Text(last) && !AllSpace(last)
    ensures ContactName(Some(c)) == TrimStart(first) + " " + TrimEnd(last)
  {
    assert TextOr(c.firstname, "") == first && TextOr(c.lastname, "") == last;
    DisplayNameBothParts(first, last);
  }

  /** The offer record built from a deal snapshot and, when the deal has an
      associated contact, that contact's snapshot. */
  function NormalizeDeal(deal: DealRecord, contact: Option<ContactRecord>, parse: NumberParsers): (d: DealData)
    ensures d.nombre == ContactName(contact)
    ensures d.nombre != ""
    ensures contact.None? ==> d.nombre == FallbackName
    ensures d.yaProcesado <==> deal.ajustePantalla == Text("true") || deal.ajustePantalla == Flag(true)
    ensures d.tasa == NormalizeRate(ParseFloat(deal.tasaDeInteresSemanal, parse))
    ensures d.tasa != 0.0
    ensures ParseFloat(deal.amount, parse).NaN? ==> d.monto == 0.0
    ensures ParseFloat(deal.amount, parse).Num? ==> d.monto == ParseFloat(deal.amount, parse).value
    ensures ParseInt(deal.periodos, parse).NaN? ==> d.periodos == 0
    ensures ParseInt(deal.periodos, parse).Num? ==> d.periodos == ParseInt(deal.periodos, parse).value
    ensures ParseFloat(deal.pagoPorPeriodo, parse).NaN? ==> d.pago == 0.0
    ensures ParseFloat(deal.pagoPorPeriodo, parse).Num? ==> d.pago == ParseFloat(deal.pagoPorPeriodo, parse).value
    ensures deal.dealname.Truthy() ==> d.dealName == deal.dealname
    ensures !deal.dealname.Truthy() ==> d.dealName == Text("")
  {
    DealData(
      nombre := ContactName(contact),
      monto := FloatOr(ParseFloat(deal.amount, parse), 0.0),
      periodos := IntOr(ParseInt(deal.periodos, parse), 0),
      pago := FloatOr(ParseFloat(deal.pagoPorPeriodo, parse), 0.0),
      tasa := NormalizeRate(ParseFloat(deal.tasaDeInteresSemanal, parse)),
      dealName := ValueOr(deal.dealname, Text("")),
      yaProcesado := DecodeProcessed(deal.ajustePantalla))
  }

  /** Properties the CRM did not return read as zero, the fallback rate and
      an empty deal name, whatever the parsers do with text. */
  lemma MissingPropertiesFallBack(deal: DealRecord, contact: Option<ContactRecord>, parse: NumberParsers)
    requires deal.amount == Missing && deal.periodos == Missing && deal.pagoPorPeriodo == Missing
    requires deal.tasaDeInteresSemanal == Missing && deal.dealname == Missing && deal.ajustePantalla == Missing
    ensures NormalizeDeal(deal, contact, parse).monto == 0.0
    ensures NormalizeDeal(deal, contact, parse).periodos == 0
    ensures NormalizeDeal(deal, contact, parse).pago == 0.0
    ensures NormalizeDeal(deal, contact, parse).tasa == FallbackRate
    ensures NormalizeDeal(deal, contact, parse).dealName == Text("")
    ensures !NormalizeDeal(deal, contact, parse).yaProcesado
  {
  }

  /** A stored rate of "2.5" (per cent) reads as 0.025; "0.03" stays. */
  lemma RateExamples(parse: NumberParsers)
    ensures NormalizeRate(Num(2.5)) == 0.025
    ensures NormalizeRate(Num(0.03)) == 0.03
    ensures NormalizeRate(Num(1.0)) == 1.0
    ensures NormalizeRate(NaN) == 0.0288
    ensures parse.float("2.5") == Num(2.5) ==>
              NormalizeRate(ParseFloat(Text("2.5"), parse)) == 0.025
  {
  }
}
