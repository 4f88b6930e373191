# Offer normalisation and mutation, modelled in Dafny

This project models the data shaping inside the four HTTP handlers of the
offer-negotiation functions (`functions/index.js`). The handlers are:

- `getDealData` reads a deal and its contact from the CRM (HubSpot).
- `aceptarOferta`, `ajustarOferta` and `rechazarOferta` patch the deal.

Each handler is modelled as a pure function. It takes the request and the
abstract answers of the CRM calls. It returns the status, the ordered list
of CRM calls it issued and the JSON body.

| file | module | what it holds |
|---|---|---|
| `js_values.dfy` | `JsValues` | JavaScript request values, truthiness, destructuring, `parseFloat`/`parseInt` results, `x \|\| d` on numbers |
| `js_text.dfy` | `JsText` | `String.prototype.trim` over the ECMAScript white-space set; a declarative `Trimmed` with uniqueness |
| `crm.dfy` | `Crm` | CRM property values, deal and contact snapshots, text parsers as parameters, call replies |
| `offer_reader.dfy` | `OfferReader` | processed flag, weekly rate, display name, the offer record |
| `offer_patches.dfy` | `OfferPatches` | the accept, adjust and reject property maps |
| `handlers.dfy` | `Handlers` | dispatch for the four handlers: 204, 405, 400, remote calls, then 200 or 500 |

Where the code behaves differently from what the endpoints are documented to do, the model follows the code:

- `getDealData` has no method check. Every method except OPTIONS reads the deal.
- The mutators destructure `req.body` inside their `try`. A body that is
  `undefined` or `null` throws there. The handler then answers 500 with no CRM
  call, not 400.
- The weekly rate falls back to 0.0288 when the stored value is absent or does
  not parse. Because the code uses `||`, it also falls back when the stored
  value is zero.
- The adjust handler writes the requested periods to the property
  `plazos_solcitados` (sic). The model keeps that spelling.
- The percentage rule divides only values strictly above 1. A stored 1 stays 1.

## Model

| member | source | states |
|---|---|---|
| `JsText.Trim` | functions/index.js:79 | `trim` gives a slice of its input with only white space outside it and no white space at either end |
| `JsText.TrimmedUnique` | functions/index.js:79 | a string has only one trimming, so the trimmed name is fully determined |
| `JsText.TrimmedEmptyIffAllSpace` | functions/index.js:79 | the trimmed text is empty exactly when the whole input is white space |
| `JsText.TrimRemovesPadding` | functions/index.js:79 | white space added before and after an already trimmed string is removed again |
| `OfferReader.DecodeProcessed` | functions/index.js:56 | `yaProcesado` is true iff `ajuste_pantalla` is the text "true" or the boolean true; "false", false and a missing value all give false |
| `OfferReader.NormalizeRate` | functions/index.js:83-88 | the rate is never zero; it is 0.0288 when the stored value is NaN or zero; a value above 1 is read as a percentage, so the result times 100 is the stored value; other values are kept; the result is at most 1 unless the stored value exceeds 100 |
| `OfferReader.DisplayName` | functions/index.js:79 | the name is never empty; it is "Cliente" when both parts are blank (a visible name can also be the text "Cliente"); otherwise it is the trimming of first + " " + last |
| `OfferReader.DisplayNameBothParts` | functions/index.js:79 | with visible text in both parts, the name is both parts joined by one space, with white space removed only at the outer ends |
| `OfferReader.DisplayNameFirstOnly` | functions/index.js:79 | with a blank last name, the name is the trimmed first name |
| `OfferReader.DisplayNameLastOnly` | functions/index.js:79 | with a blank first name, the name is the trimmed last name |
| `Crm.TextOr` | functions/index.js:77-78 | a missing or empty property reads as the default text; a non-empty text property reads as itself |
| `OfferReader.ContactName` | functions/index.js:59-80 | the name is never empty; it is "Cliente" when no contact is associated; for a contact it is the display name of first and last, each read as "" when missing or empty, so it is "Cliente" when both are blank |
| `OfferReader.ContactNameWithoutLastName` | functions/index.js:77-79 | a contact with a first name and a missing or empty last name is shown by the trimmed first name |
| `OfferReader.ContactNameWithoutFirstName` | functions/index.js:77-79 | a contact with a last name and a missing or empty first name is shown by the trimmed last name |
| `OfferReader.ContactNameBothParts` | functions/index.js:77-79 | a contact with visible text in both names is shown by both joined by one space, trimmed only at the outer ends |
| `OfferReader.NormalizeDeal` | functions/index.js:53-98 | `monto` and `pago` are 0 when their decimal parse is NaN and the parsed number otherwise; `periodos` works the same way with the integer parse; `tasa` is the normalised weekly rate of the stored value, never 0; `dealName` is "" when falsy; `nombre` is the contact's name, never empty |
| `OfferReader.MissingPropertiesFallBack` | functions/index.js:83-96 | a deal with no properties reads as amount 0, periods 0, payment 0, rate 0.0288, empty deal name and not processed, whatever the parsers do |
| `OfferReader.RateExamples` | functions/index.js:83-88 | a stored "2.5" reads as 0.025, 0.03 stays 0.03, exactly 1 stays 1, and NaN reads as 0.0288 |
| `OfferPatches.AcceptPatch` | functions/index.js:140-152 | the accept patch always holds `dealstage` = "34528397"; it holds `ajuste_pantalla` = "true" iff `marcar_procesado` is truthy; it holds `utm_source`, copied verbatim, iff `utm_source` is truthy; it holds no other key |
| `OfferPatches.AdjustPatch` | functions/index.js:215-232 | the adjust patch always holds the stage and the five terms copied verbatim, `undefined` included, under their destination names; the flag and origin follow the accept rules; it holds no other key |
| `OfferPatches.RejectPatch` | functions/index.js:286-291 | the reject patch's keys are a subset of {`utm_source`}; it is empty iff `utm_source` is falsy |
| `OfferPatches.ProcessedFlagOnlySet` | functions/index.js:144-147 | no mutator writes `ajuste_pantalla` with any value other than "true"; a mutator writes it iff it is not a rejection and `marcar_procesado` is truthy |
| `OfferPatches.StageOnlyOnDecision` | functions/index.js:140-142 | accept and adjust always set the decided stage; reject never touches `dealstage` |
| `OfferPatches.AdjustExtendsAccept` | functions/index.js:215-232 | the adjust patch equals the accept patch for the same body plus the five adjusted terms |
| `OfferPatches.RejectKeepsOnlyOrigin` | functions/index.js:286-291 | the reject patch equals the accept patch restricted to the origin tag; it is empty when `utm_source` is falsy |
| `OfferPatches.AcceptMarkedExample` | functions/index.js:140-152 | accepting with `marcar_procesado: true` sends exactly the stage and the flag |
| `OfferPatches.AdjustPartialExample` | functions/index.js:215-222 | adjusting with only `monto_aprobado` and `pago_final` sends those two, the stage, and the other three terms as `undefined` |
| `Handlers.GetDealData` | functions/index.js:25-107 | OPTIONS gives 204 and nothing else does. A falsy `deal_id` gives 400 with no call. Otherwise the deal is fetched first. The contact is fetched second, and only when the deal fetch succeeded and a contact is associated; there are never more than two calls. The result is 200 iff every call issued succeeded, with the normalised record and a non-empty name. A failure gives 500 |
| `Handlers.MutateOffer` | functions/index.js:123-174 | OPTIONS gives 204. Any other non-POST method gives 405 with no call, before `deal_id` is read. An undefined or null body gives 500 with no call. A falsy `deal_id` gives 400 with no call. Otherwise exactly one patch with the mutator's property map is sent, and the result is 200 iff it succeeds, 500 otherwise. The adjust (lines 189-254) and reject (lines 269-312) handlers have the same shape |
| `Handlers.NoContactNoFetch` | functions/index.js:59-80 | without an associated contact no contact fetch is issued, the answer a contact fetch would have had is irrelevant, the read cannot fail on it, and the name is "Cliente" |
| `Handlers.FailureIsNeverSuccess` | functions/index.js:102-107 | once an issued CRM call fails, the read and the mutators answer 500, never 200 |
| `Handlers.WrittenFlagReadsProcessed` | functions/index.js:224-227 | every patch any mutator sends carries `ajuste_pantalla` only as a value that, once stored by the CRM and read back, the reader decodes as processed |
| `Handlers.ReadExample` | functions/index.js:83-98 | reading a deal with the stored rate "2.5" and no contact answers 200 with rate 0.025, "Cliente", zeros and an empty deal name |

## Left out

- The Firebase `onRequest` wrappers, the `cors` middleware and the response headers: these are framework plumbing.
- The CRM calls themselves: the axios GET and PATCH, URLs, the bearer token read from the environment, and the content of error payloads. A call is a `Call` value and its answer a `Reply` parameter. The details of a failure are passed through as an opaque `Fault`.
- The textual behaviour of `parseFloat` and `parseInt`: prefix parsing and exponents. The text parsers are parameters (`NumberParsers`). Non-text CRM values parse to NaN.
- `Infinity` as a parse result: a parsed number is NaN or a real.
- NormalizeRate: uses exact real arithmetic for 0.0288 and the division by 100, not IEEE-754 doubles, because floating point is out of scope.
- JSON serialisation, which drops `undefined` properties on the wire: the patch keeps `Undefined` as an explicit value, and what the CRM does with it is not modelled.
- A CRM response without a `properties` object, which would make the read throw and answer 500: snapshots always carry their properties.
- CRM property values that are numbers: the CRM returns text, `null`, or (for the flag) a boolean.
- How the CRM stores numbers, arrays and objects written by a patch (`Crm.StoredValue` gives no stored form for them): the only read-back the model relies on is that of the processed flag, which is always written as text.
- `console.error` logging.
