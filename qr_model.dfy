/**
 * The parser's result types: the eight content types, the three URL
 * warnings, the typed payload of each structured type and the parsed
 * content record (icons, colours and label resources are not modelled).
 */
module QrModel {
  import opened KotlinStd

  datatype ContentType = URL | TEXT | WIFI | EMAIL | PHONE | SMS | CONTACT | GEO

  datatype SecurityWarning = INSECURE_HTTP | SUSPICIOUS_URL | SHORT_URL

  /** The typed payload of a structured content type. Geo coordinates are the
      decimal literals the parser converted to numbers ("0.0" is the default
      for a missing or unreadable coordinate). */
  datatype ParsedQrData =
    | WifiData(ssid: string, password: Option<string>, securityType: string)
    | EmailData(address: string, subject: Option<string>, body: Option<string>)
    | PhoneData(number: string)
    | SmsData(number: string, message: Option<string>)
    | GeoData(latitude: string, longitude: string, place: Option<string>)
    | ContactData(name: Option<string>, phone: Option<string>,
                  email: Option<string>, organization: Option<string>)

  /** One parsed payload. The creation timestamp is not modelled. */
  datatype QrContent = QrContent(
    id: int,
    rawValue: string,
    contentType: ContentType,
    displayValue: string,
    isFavorite: bool,
    securityWarning: Option<SecurityWarning>,
    parsedData: Option<ParsedQrData>)

  /** A content record with the defaults of the constructor: id 0, not a
      favourite. */
  function NewContent(raw: string, t: ContentType, display: string,
                      warning: Option<SecurityWarning>,
                      data: Option<ParsedQrData>): (c: QrContent)
    ensures c.id == 0 && !c.isFavorite
  {
    QrContent(0, raw, t, display, false, warning, data)
  }

  /** The payload variant agrees with the type tag, and only URLs carry a
      security warning. */
  predicate Consistent(c: QrContent) {
    && (c.securityWarning.Some? ==> c.contentType == URL)
    && match c.contentType
       case URL => c.parsedData.None?
       case TEXT => c.parsedData.None?
       case WIFI => c.parsedData.Some? && c.parsedData.value.WifiData?
       case EMAIL => c.parsedData.Some? && c.parsedData.value.EmailData?
       case PHONE => c.parsedData.Some? && c.parsedData.value.PhoneData?
       case SMS => c.parsedData.Some? && c.parsedData.value.SmsData?
       case CONTACT => c.parsedData.Some? && c.parsedData.value.ContactData?
       case GEO => c.parsedData.Some? && c.parsedData.value.GeoData?
  }
}
