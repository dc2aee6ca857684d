/** The library's data types: lookup parameters, configuration, per-call options,
    decoded JSON values and the error record. */
module Types {
  import opened Wrappers

  /** The eight languages geolocation names can be requested in. */
  datatype LocaleCode = De | En | Es | Fr | Ja | PtBr | Ru | ZhCn {

    /** The tag sent on the wire. */
    function Tag(): string {
      match this
      case De => "de"
      case En => "en"
      case Es => "es"
      case Fr => "fr"
      case Ja => "ja"
      case PtBr => "pt-br"
      case Ru => "ru"
      case ZhCn => "zh-cn"
    }
  }

  /** The locale a wire tag names, if any. */
  function LocaleOfTag(tag: string): (l: Option<LocaleCode>)
    ensures l.Some? ==> l.value.Tag() == tag
  {
    if tag == "de" then Some(De)
    else if tag == "en" then Some(En)
    else if tag == "es" then Some(Es)
    else if tag == "fr" then Some(Fr)
    else if tag == "ja" then Some(Ja)
    else if tag == "pt-br" then Some(PtBr)
    else if tag == "ru" then Some(Ru)
    else if tag == "zh-cn" then Some(ZhCn)
    else None
  }

  /** Every locale's tag names that locale and no other. */
  lemma TagRoundTrip(l: LocaleCode)
    ensures LocaleOfTag(l.Tag()) == Some(l)
  {
  }

  /** One optional key of a JavaScript object: no own property, an own property
      holding `undefined`, or a defined value. */
  datatype Member<+T> = Absent | Undefined | Present(value: T)

  /** Query parameters: a comma-separated field list and a locale. */
  datatype LookupParams = LookupParams(fields: Member<string>, localeCode: Member<LocaleCode>)

  /** The object `{}`. */
  const NoParams := LookupParams(Absent, Absent)

  /** The `fields` key of an optional record, as spreading it contributes it. */
  function FieldsOf(p: Option<LookupParams>): Member<string> {
    if p.Some? then p.value.fields else Absent
  }

  /** The `locale_code` key of an optional record, as spreading it contributes it. */
  function LocaleOf(p: Option<LookupParams>): Member<LocaleCode> {
    if p.Some? then p.value.localeCode else Absent
  }

  /** Construction-time configuration, every entry optional. */
  datatype IPSonarConfig = IPSonarConfig(
    apiKey: Option<string>,
    baseUrl: Option<string>,
    defaultParams: Option<LookupParams>,
    timeout: Option<int>)

  /** Per-call overrides. */
  datatype RequestOptions = RequestOptions(params: Option<LookupParams>, timeout: Option<int>)

  /** A decoded JSON value (numbers restricted to integers). */
  datatype Json =
    | JNull
    | JBool(b: bool)
    | JNumber(n: int)
    | JString(str: string)
    | JArray(elems: seq<Json>)
    | JObject(members: map<string, Json>)

  /** The error every failed request rejects with: an `Error` whose `message` is
      `message`, with an optional HTTP status, the body (`None` is `undefined`) and
      the message the API supplied. */
  datatype APIError = APIError(
    message: string,
    status: Option<nat>,
    body: Option<Json>,
    apiMessage: Option<string>)
}
