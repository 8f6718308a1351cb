/**
 * The create screen: the selected code type, one text field per form input,
 * the colours, the generated payload and the rendered image. Generating
 * dispatches on the selected type to the payload generators, passing empty
 * optional fields as absent. The rendered image is recorded by what it was
 * rendered from; the coordinate text that Kotlin prints for the parsed
 * `Double` of a coordinate field is a parameter.
 */
module CreateViewModel {
  import opened KotlinStd
  import opened QrModel
  import opened QrParser
  import G = QrGenerator
  import RT = RoundTrip

  /** The size in pixels of the rendered code. */
  const QrSize: nat := 512

  /** Colours as their ARGB words. */
  const Black: int := 0xFF00_0000
  const White: int := 0xFFFF_FFFF

  /** A rendered code: the payload, the size and the two colours it was
      drawn with. */
  datatype QrImage = QrImage(content: string, size: nat, foreground: int, background: int)

  /** `generateQrCode`: the image drawn from a payload, or none when the
      encoder rejects the payload (every exception yields null). Whether the
      encoder accepts a payload, which depends on its length and on what the
      QR format can hold, is the parameter `renders`. */
  function Rendered(content: string, size: nat, foreground: int, background: int,
                    renders: string -> bool): (r: Option<QrImage>)
    ensures r.Some? <==> renders(content)
    ensures r.Some? ==> r.value.content == content && r.value.size == size
                        && r.value.foreground == foreground && r.value.background == background
  {
    if renders(content) then Some(QrImage(content, size, foreground, background)) else None
  }

  /** The form fields of every code type. */
  datatype Form = Form(
    textInput: string,
    urlInput: string,
    wifiSsid: string,
    wifiPassword: string,
    wifiSecurity: G.WifiSecurityType,
    emailAddress: string,
    emailSubject: string,
    emailBody: string,
    phoneNumber: string,
    smsNumber: string,
    smsMessage: string,
    contactName: string,
    contactPhone: string,
    contactEmail: string,
    contactCompany: string,
    geoLatitude: string,
    geoLongitude: string,
    geoLabel: string)

  /** The whole state of the view model. */
  datatype CreateScreen = CreateScreen(
    selectedType: G.QrType,
    qrBitmap: Option<QrImage>,
    qrContent: string,
    foreground: int,
    background: int,
    isLoading: bool,
    saveSuccess: Option<bool>,
    form: Form)

  function EmptyForm(): (f: Form)
    ensures f.wifiSecurity == G.WPA
  {
    Form("", "", "", "", G.WPA, "", "", "", "", "", "", "", "", "", "", "", "", "")
  }

  /** The state of a fresh view model: a text code, nothing generated, black
      on white. */
  function InitialScreen(): (s: CreateScreen)
    ensures s.selectedType == G.TEXT && s.qrContent == "" && s.qrBitmap.None?
    ensures s.foreground == Black && s.background == White
    ensures !s.isLoading && s.saveSuccess.None? && s.form == EmptyForm()
  {
    CreateScreen(G.TEXT, None, "", Black, White, false, None, EmptyForm())
  }

  /** `ifEmpty { null }`. */
  function NullIfEmpty(s: string): (r: Option<string>)
    ensures r.None? <==> s == ""
    ensures r.Some? ==> r.value == s
  {
    if s == "" then None else Some(s)
  }

  /** The field a type's validity and label are read from (the geo label for
      LOCATION, nothing for EVENT). */
  function PrimaryField(t: G.QrType, f: Form): string {
    match t
    case TEXT => f.textInput
    case URL => f.urlInput
    case WIFI => f.wifiSsid
    case EMAIL => f.emailAddress
    case PHONE => f.phoneNumber
    case SMS => f.smsNumber
    case CONTACT => f.contactName
    case LOCATION => f.geoLabel
    case EVENT => ""
  }

  /** `isFormValid`: an event is never valid, a location needs both
      coordinates, every other type its primary field, each not blank. */
  function FormValid(t: G.QrType, f: Form): (r: bool)
    ensures t == G.EVENT ==> !r
    ensures t == G.LOCATION ==> (r <==> !IsBlank(f.geoLatitude) && !IsBlank(f.geoLongitude))
    ensures t != G.LOCATION && t != G.EVENT ==> (r <==> !IsBlank(PrimaryField(t, f)))
  {
    match t
    case TEXT => !IsBlank(f.textInput)
    case URL => !IsBlank(f.urlInput)
    case WIFI => !IsBlank(f.wifiSsid)
    case EMAIL => !IsBlank(f.emailAddress)
    case PHONE => !IsBlank(f.phoneNumber)
    case SMS => !IsBlank(f.smsNumber)
    case CONTACT => !IsBlank(f.contactName)
    case LOCATION => !IsBlank(f.geoLatitude) && !IsBlank(f.geoLongitude)
    case EVENT => false
  }

  /** `getQrLabel`, the name a saved code is listed under. */
  function Label(t: G.QrType, f: Form): (r: string)
    ensures (t == G.TEXT || t == G.URL) ==>
              |r| <= 30 && StartsWith(PrimaryField(t, f), r)
              && (|PrimaryField(t, f)| <= 30 ==> r == PrimaryField(t, f))
              && (|PrimaryField(t, f)| > 30 ==> |r| == 30)
    ensures t == G.LOCATION ==> r != "" && (f.geoLabel != "" ==> r == f.geoLabel)
    ensures t == G.LOCATION && f.geoLabel == "" ==> r == "Konum"
    ensures t == G.EVENT ==> r == "Etkinlik"
    ensures t != G.TEXT && t != G.URL && t != G.LOCATION && t != G.EVENT ==> r == PrimaryField(t, f)
  {
    match t
    case TEXT => Take(f.textInput, 30)
    case URL => Take(f.urlInput, 30)
    case WIFI => f.wifiSsid
    case EMAIL => f.emailAddress
    case PHONE => f.phoneNumber
    case SMS => f.smsNumber
    case CONTACT => f.contactName
    case LOCATION => if f.geoLabel == "" then "Konum" else f.geoLabel
    case EVENT => "Etkinlik"
  }

  /** The payload `generateQr` computes for a type and form; `printed` gives
      the text printed for a coordinate field's number (0.0 when it does not
      parse). */
  function GeneratedContent(t: G.QrType, f: Form, printed: string -> string): (c: string)
    ensures t == G.EVENT ==> c == ""
    ensures t == G.TEXT ==> c == f.textInput
  {
    match t
    case TEXT => G.GenerateText(f.textInput)
    case URL => G.GenerateUrl(f.urlInput)
    case WIFI => G.GenerateWifi(f.wifiSsid, Some(f.wifiPassword), f.wifiSecurity)
    case EMAIL => G.GenerateEmail(f.emailAddress, NullIfEmpty(f.emailSubject), NullIfEmpty(f.emailBody))
    case PHONE => G.GeneratePhone(f.phoneNumber)
    case SMS => G.GenerateSms(f.smsNumber, NullIfEmpty(f.smsMessage))
    case CONTACT => G.GenerateVCard(f.contactName, NullIfEmpty(f.contactPhone),
                                    NullIfEmpty(f.contactEmail), NullIfEmpty(f.contactCompany),
                                    None, None, None, None)
    case LOCATION => G.GenerateGeo(printed(f.geoLatitude), printed(f.geoLongitude),
                                   NullIfEmpty(f.geoLabel))
    case EVENT => ""
  }

  /** The state after `generateQr` has run: the payload is stored, the image
      is redrawn only for a non-empty payload (and is null when the encoder
      rejects it), and loading is over. */
  function Generated(s: CreateScreen, printed: string -> string, renders: string -> bool): (t: CreateScreen)
    ensures t.qrContent == GeneratedContent(s.selectedType, s.form, printed)
    ensures t.qrContent != "" && renders(t.qrContent) ==>
              t.qrBitmap == Some(QrImage(t.qrContent, QrSize, s.foreground, s.background))
    ensures t.qrContent != "" && !renders(t.qrContent) ==> t.qrBitmap.None?
    ensures t.qrContent == "" ==> t.qrBitmap == s.qrBitmap
    ensures !t.isLoading
    ensures t == s.(qrContent := t.qrContent, qrBitmap := t.qrBitmap, isLoading := false)
  {
    var content := GeneratedContent(s.selectedType, s.form, printed);
    s.(qrContent := content,
       qrBitmap := if content != "" then Rendered(content, QrSize, s.foreground, s.background, renders)
                   else s.qrBitmap,
       isLoading := false)
  }

  /** `regenerateQrIfNeeded`: only a screen that shows a payload is
      generated again. */
  function Regenerated(s: CreateScreen, printed: string -> string, renders: string -> bool): (t: CreateScreen)
    ensures s.qrContent == "" ==> t == s
  {
    if s.qrContent != "" then Generated(s, printed, renders) else s
  }

  /** `selectType`: the payload and the image are cleared. */
  function TypeSelected(s: CreateScreen, t: G.QrType): (r: CreateScreen)
    ensures r.selectedType == t && r.qrContent == "" && r.qrBitmap.None?
    ensures r.form == s.form && r.foreground == s.foreground && r.background == s.background
    ensures r.isLoading == s.isLoading && r.saveSuccess == s.saveSuccess
  {
    s.(selectedType := t, qrBitmap := None, qrContent := "")
  }

  /** The payload a marker-prefixed text parses to starts with the marker. */
  lemma MarkedPayload(c: string, p: string)
    requires StartsWith(c, p) && |p| > 0 && !IsWhitespace(p[0]) && !IsWhitespace(p[|p| - 1])
    ensures Parsed(Some(c)).Some? && StartsWith(Parsed(Some(c)).value.rawValue, p)
  {
    var rest := c[|p|..];
    assert c == p + rest;
    RT.TrimmedPayload(p, rest);
  }

  /** The content type the scanner gives a created code of each type; a
      text code is read by its content and an event is never generated. */
  function ScannedType(t: G.QrType): (r: Option<ContentType>)
    ensures r.None? <==> (t == G.TEXT || t == G.EVENT)
  {
    match t
    case TEXT => None
    case URL => Some(URL)
    case WIFI => Some(WIFI)
    case EMAIL => Some(EMAIL)
    case PHONE => Some(PHONE)
    case SMS => Some(SMS)
    case CONTACT => Some(CONTACT)
    case LOCATION => Some(GEO)
    case EVENT => None
  }

  /** A payload that starts with a scheme marker is accepted and gets the
      marker's type. */
  lemma ScansAs(c: string, p: string)
    requires StartsWith(c, p) && |p| > 0 && !IsWhitespace(p[0]) && !IsWhitespace(p[|p| - 1])
    ensures Parsed(Some(c)).Some?
    ensures p == "WIFI:" ==> Parsed(Some(c)).value.contentType == WIFI
    ensures p == "mailto:" ==> Parsed(Some(c)).value.contentType == EMAIL
    ensures p == "tel:" ==> Parsed(Some(c)).value.contentType == PHONE
    ensures p == "smsto:" ==> Parsed(Some(c)).value.contentType == SMS
    ensures p == "geo:" ==> Parsed(Some(c)).value.contentType == GEO
    ensures p == "BEGIN:VCARD" ==> Parsed(Some(c)).value.contentType == CONTACT
  {
    MarkedPayload(c, p);
    RT.ClassifyByPrefix(Parsed(Some(c)).value.rawValue, p);
  }

  /** Each generator writes its scheme marker first. */
  lemma WifiMarked(ssid: string, password: Option<string>, security: G.WifiSecurityType)
    ensures StartsWith(G.GenerateWifi(ssid, password, security), "WIFI:")
  {
    assert G.GenerateWifi(ssid, password, security)[..5] == "WIFI:";
  }

  lemma EmailMarked(email: string, subject: Option<string>, body: Option<string>)
    ensures StartsWith(G.GenerateEmail(email, subject, body), "mailto:")
  {
    assert G.GenerateEmail(email, subject, body)[..7] == "mailto:";
  }

  lemma PhoneMarked(number: string)
    ensures StartsWith(G.GeneratePhone(number), "tel:")
  {
    assert G.GeneratePhone(number)[..4] == "tel:";
  }

  lemma SmsMarked(number: string, message: Option<string>)
    ensures StartsWith(G.GenerateSms(number, message), "smsto:")
  {
    assert G.GenerateSms(number, message)[..6] == "smsto:";
  }

  lemma CardMarked(name: string, phone: Option<string>, email: Option<string>, company: Option<string>)
    ensures StartsWith(G.GenerateVCard(name, phone, email, company, None, None, None, None), "BEGIN:VCARD")
  {
    TerminatedStartsWith(G.VCardLines(name, phone, email, company, None, None, None, None));
  }

  lemma GeoMarked(latitude: string, longitude: string, place: Option<string>)
    ensures StartsWith(G.GenerateGeo(latitude, longitude, place), "geo:")
  {
    assert G.GenerateGeo(latitude, longitude, place)[..4] == "geo:";
  }

  lemma WifiScanned(f: Form, printed: string -> string)
    ensures var c := GeneratedContent(G.WIFI, f, printed);
            Parsed(Some(c)).Some? && Parsed(Some(c)).value.contentType == WIFI
  {
    WifiMarked(f.wifiSsid, Some(f.wifiPassword), f.wifiSecurity);
    ScansAs(GeneratedContent(G.WIFI, f, printed), "WIFI:");
  }

  lemma EmailScanned(f: Form, printed: string -> string)
    ensures var c := GeneratedContent(G.EMAIL, f, printed);
            Parsed(Some(c)).Some? && Parsed(Some(c)).value.contentType == EMAIL
  {
    EmailMarked(f.emailAddress, NullIfEmpty(f.emailSubject), NullIfEmpty(f.emailBody));
    ScansAs(GeneratedContent(G.EMAIL, f, printed), "mailto:");
  }

  lemma PhoneScanned(f: Form, printed: string -> string)
    ensures var c := GeneratedContent(G.PHONE, f, printed);
            Parsed(Some(c)).Some? && Parsed(Some(c)).value.contentType == PHONE
  {
    PhoneMarked(f.phoneNumber);
    ScansAs(GeneratedContent(G.PHONE, f, printed), "tel:");
  }

  lemma SmsScanned(f: Form, printed: string -> string)
    ensures var c := GeneratedContent(G.SMS, f, printed);
            Parsed(Some(c)).Some? && Parsed(Some(c)).value.contentType == SMS
  {
    SmsMarked(f.smsNumber, NullIfEmpty(f.smsMessage));
    ScansAs(GeneratedContent(G.SMS, f, printed), "smsto:");
  }

  lemma ContactScanned(f: Form, printed: string -> string)
    ensures var c := GeneratedContent(G.CONTACT, f, printed);
            Parsed(Some(c)).Some? && Parsed(Some(c)).value.contentType == CONTACT
  {
    ContactMarked(f, printed);
    CardScanned(GeneratedContent(G.CONTACT, f, printed));
  }

  /** The contact payload starts with its vCard marker. */
  lemma ContactMarked(f: Form, printed: string -> string)
    ensures StartsWith(GeneratedContent(G.CONTACT, f, printed), "BEGIN:VCARD")
  {
    CardMarked(f.contactName, NullIfEmpty(f.contactPhone), NullIfEmpty(f.contactEmail),
               NullIfEmpty(f.contactCompany));
  }

  /** A payload that starts with "BEGIN:VCARD" scans as a contact. */
  lemma CardScanned(c: string)
    requires StartsWith(c, "BEGIN:VCARD")
    ensures Parsed(Some(c)).Some? && Parsed(Some(c)).value.contentType == CONTACT
  {
    ScansAs(c, "BEGIN:VCARD");
  }

  lemma LocationScanned(f: Form, printed: string -> string)
    ensures var c := GeneratedContent(G.LOCATION, f, printed);
            Parsed(Some(c)).Some? && Parsed(Some(c)).value.contentType == GEO
  {
    GeoMarked(printed(f.geoLatitude), printed(f.geoLongitude), NullIfEmpty(f.geoLabel));
    ScansAs(GeneratedContent(G.LOCATION, f, printed), "geo:");
  }

  /** Every generated payload except a text one scans back as the type it
      was created as, whatever the form holds. */
  lemma CreatedCodeScansAs(t: G.QrType, f: Form, printed: string -> string)
    requires ScannedType(t).Some?
    ensures var c := GeneratedContent(t, f, printed);
            Parsed(Some(c)).Some? && Parsed(Some(c)).value.contentType == ScannedType(t).value
  {
    match t
    case URL => RT.UrlRoundTrip(f.urlInput);
    case WIFI => WifiScanned(f, printed);
    case EMAIL => EmailScanned(f, printed);
    case PHONE => PhoneScanned(f, printed);
    case SMS => SmsScanned(f, printed);
    case CONTACT => ContactScanned(f, printed);
    case LOCATION => LocationScanned(f, printed);
  }

  /** The payload is empty exactly for an event or an empty text; a valid
      form always gives a payload the scanner accepts. */
  lemma ValidFormScans(t: G.QrType, f: Form, printed: string -> string)
    ensures GeneratedContent(t, f, printed) == "" <==> (t == G.EVENT || (t == G.TEXT && f.textInput == ""))
    ensures FormValid(t, f) ==> Parsed(Some(GeneratedContent(t, f, printed))).Some?
  {
    if ScannedType(t).Some? {
      CreatedCodeScansAs(t, f, printed);
    }
  }

  /** A valid form is always saved under a non-empty label. */
  lemma ValidFormHasLabel(t: G.QrType, f: Form)
    requires FormValid(t, f)
    ensures Label(t, f) != ""
  {
    if t == G.TEXT || t == G.URL {
      var v := PrimaryField(t, f);
      assert v != "";
      assert Take(v, 30)[0] == v[0];
    }
  }

  /** A created phone code scans back as the cleaned number. */
  lemma CreatedPhoneScansBack(f: Form, printed: string -> string)
    ensures var c := GeneratedContent(G.PHONE, f, printed);
            var n := G.CleanNumber(f.phoneNumber);
            Parsed(Some(c)) == Some(NewContent(c, PHONE, n, None, Some(PhoneData(n))))
  {
    RT.PhoneRoundTrip(f.phoneNumber);
  }

  /** A created contact whose fields hold no line break scans back with its
      name; its phone, e-mail and company come back, empty ones as absent. */
  lemma CreatedContactScansBack(f: Form, printed: string -> string)
    requires NoLineBreak(f.contactName) && NoLineBreak(f.contactPhone)
    requires NoLineBreak(f.contactEmail) && NoLineBreak(f.contactCompany)
    ensures var c := GeneratedContent(G.CONTACT, f, printed);
            && Parsed(Some(c)).Some?
            && Parsed(Some(c)).value.displayValue == f.contactName
            && Parsed(Some(c)).value.parsedData
               == Some(ContactData(Some(f.contactName), NullIfEmpty(f.contactPhone),
                                   NullIfEmpty(f.contactEmail), NullIfEmpty(f.contactCompany)))
  {
    var phone, email, company := NullIfEmpty(f.contactPhone), NullIfEmpty(f.contactEmail),
                                 NullIfEmpty(f.contactCompany);
    assert RT.BreakFree(phone) && RT.BreakFree(email) && RT.BreakFree(company);
    assert RT.BreakFree(None);
    var c := G.GenerateVCard(f.contactName, phone, email, company, None, None, None, None);
    assert GeneratedContent(G.CONTACT, f, printed) == c;
    RT.VCardRoundTrip(f.contactName, phone, email, company, None, None, None, None);
  }

  /** Generating again without an edit in between changes nothing. */
  lemma GenerateTwice(s: CreateScreen, printed: string -> string, renders: string -> bool)
    ensures Generated(Generated(s, printed, renders), printed, renders) == Generated(s, printed, renders)
  {
  }

  /** A colour change redraws a shown code in the new colour when the
      encoder accepts the payload, shows no image when it rejects it, and
      leaves a screen without a payload as it is apart from the colour. */
  lemma RecolourRedraws(s: CreateScreen, colour: int, printed: string -> string, renders: string -> bool)
    ensures var t := Regenerated(s.(foreground := colour), printed, renders);
            && (s.qrContent == "" ==> t == s.(foreground := colour))
            && (s.qrContent != "" && t.qrContent != "" && renders(t.qrContent) ==>
                  t.qrBitmap == Some(QrImage(t.qrContent, QrSize, colour, s.background)))
            && (s.qrContent != "" && t.qrContent != "" && !renders(t.qrContent) ==> t.qrBitmap.None?)
  {
  }

  /** Right after a type is selected a colour change draws nothing. */
  lemma SelectedTypeNotRedrawn(s: CreateScreen, t: G.QrType, colour: int, printed: string -> string,
                               renders: string -> bool)
    ensures Regenerated(TypeSelected(s, t).(background := colour), printed, renders).qrBitmap.None?
  {
  }

  /** The view model: each StateFlow is a field, updated in place; the
      eighteen form inputs are kept together as one `Form` value. */
  class CreateViewModel {
    var selectedType: G.QrType
    var qrBitmap: Option<QrImage>
    var qrContent: string
    var foregroundColor: int
    var backgroundColor: int
    var isLoading: bool
    var saveSuccess: Option<bool>
    var form: Form

    /** All fields as one value. */
    function Screen(): CreateScreen
      reads this
    {
      CreateScreen(selectedType, qrBitmap, qrContent, foregroundColor, backgroundColor,
                   isLoading, saveSuccess, form)
    }

    constructor ()
      ensures Screen() == InitialScreen()
    {
      selectedType := G.TEXT;
      qrBitmap := None;
      qrContent := "";
      foregroundColor := Black;
      backgroundColor := White;
      isLoading := false;
      saveSuccess := None;
      form := EmptyForm();
    }

    method SelectType(t: G.QrType)
      modifies this
      ensures Screen() == TypeSelected(old(Screen()), t)
    {
      selectedType := t;
      qrBitmap := None;
      qrContent := "";
    }

    method UpdateTextInput(value: string)
      modifies this
      ensures Screen() == old(Screen()).(form := old(form).(textInput := value))
    {
      form := form.(textInput := value);
    }

    method UpdateUrlInput(value: string)
      modifies this
      ensures Screen() == old(Screen()).(form := old(form).(urlInput := value))
    {
      form := form.(urlInput := value);
    }

    method UpdateWifiSsid(value: string)
      modifies this
      ensures Screen() == old(Screen()).(form := old(form).(wifiSsid := value))
    {
      form := form.(wifiSsid := value);
    }

    method UpdateWifiPassword(value: string)
      modifies this
      ensures Screen() == old(Screen()).(form := old(form).(wifiPassword := value))
    {
      form := form.(wifiPassword := value);
    }

    method UpdateWifiSecurity(value: G.WifiSecurityType)
      modifies this
      ensures Screen() == old(Screen()).(form := old(form).(wifiSecurity := value))
    {
      form := form.(wifiSecurity := value);
    }

    method UpdateEmailAddress(value: string)
      modifies this
      ensures Screen() == old(Screen()).(form := old(form).(emailAddress := value))
    {
      form := form.(emailAddress := value);
    }

    method UpdateEmailSubject(value: string)
      modifies this
      ensures Screen() == old(Screen()).(form := old(form).(emailSubject := value))
    {
      form := form.(emailSubject := value);
    }

    method UpdateEmailBody(value: string)
      modifies this
      ensures Screen() == old(Screen()).(form := old(form).(emailBody := value))
    {
      form := form.(emailBody := value);
    }

    method UpdatePhoneNumber(value: string)
      modifies this
      ensures Screen() == old(Screen()).(form := old(form).(phoneNumber := value))
    {
      form := form.(phoneNumber := value);
    }

    method UpdateSmsNumber(value: string)
      modifies this
      ensures Screen() == old(Screen()).(form := old(form).(smsNumber := value))
    {
      form := form.(smsNumber := value);
    }

    method UpdateSmsMessage(value: string)
      modifies this
      ensures Screen() == old(Screen()).(form := old(form).(smsMessage := value))
    {
      form := form.(smsMessage := value);
    }

    method UpdateContactName(value: string)
      modifies this
      ensures Screen() == old(Screen()).(form := old(form).(contactName := value))
    {
      form := form.(contactName := value);
    }

    method UpdateContactPhone(value: string)
      modifies this
      ensures Screen() == old(Screen()).(form := old(form).(contactPhone := value))
    {
      form := form.(contactPhone := value);
    }

    method UpdateContactEmail(value: string)
      modifies this
      ensures Screen() == old(Screen()).(form := old(form).(contactEmail := value))
    {
      form := form.(contactEmail := value);
    }

    method UpdateContactCompany(value: string)
      modifies this
      ensures Screen() == old(Screen()).(form := old(form).(contactCompany := value))
    {
      form := form.(contactCompany := value);
    }

    method UpdateGeoLatitude(value: string)
      modifies this
      ensures Screen() == old(Screen()).(form := old(form).(geoLatitude := value))
    {
      form := form.(geoLatitude := value);
    }

    method UpdateGeoLongitude(value: string)
      modifies this
      ensures Screen() == old(Screen()).(form := old(form).(geoLongitude := value))
    {
      form := form.(geoLongitude := value);
    }

    method UpdateGeoLabel(value: string)
      modifies this
      ensures Screen() == old(Screen()).(form := old(form).(geoLabel := value))
    {
      form := form.(geoLabel := value);
    }

    /** `generateQr`, run to completion. */
    method GenerateQr(printed: string -> string, renders: string -> bool)
      modifies this
      ensures Screen() == Generated(old(Screen()), printed, renders)
    {
      isLoading := true;
      var content := GeneratedContent(selectedType, form, printed);
      qrContent := content;
      if content != "" {
        var bitmap := Rendered(content, QrSize, foregroundColor, backgroundColor, renders);
        qrBitmap := bitmap;
      }
      isLoading := false;
    }

    method RegenerateQrIfNeeded(printed: string -> string, renders: string -> bool)
      modifies this
      ensures Screen() == Regenerated(old(Screen()), printed, renders)
    {
      if qrContent != "" {
        GenerateQr(printed, renders);
      }
    }

    method UpdateForegroundColor(color: int, printed: string -> string, renders: string -> bool)
      modifies this
      ensures Screen() == Regenerated(old(Screen()).(foreground := color), printed, renders)
    {
      foregroundColor := color;
      RegenerateQrIfNeeded(printed, renders);
    }

    method UpdateBackgroundColor(color: int, printed: string -> string, renders: string -> bool)
      modifies this
      ensures Screen() == Regenerated(old(Screen()).(background := color), printed, renders)
    {
      backgroundColor := color;
      RegenerateQrIfNeeded(printed, renders);
    }

    method ClearSaveStatus()
      modifies this
      ensures Screen() == old(Screen()).(saveSuccess := None)
    {
      saveSuccess := None;
    }
  }
}
