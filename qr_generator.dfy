/**
 * The payload generator: the inverse direction of the parser. Each
 * generator is a concatenation of fixed markers and (escaped, encoded or
 * filtered) user input. Coordinates are taken as the decimal text Kotlin
 * prints for the `Double` values.
 */
module QrGenerator {
  import opened KotlinStd
  import FormEncoding

  /** The kinds of code the create screen offers. */
  datatype QrType = TEXT | URL | WIFI | EMAIL | PHONE | SMS | CONTACT | LOCATION | EVENT

  datatype WifiSecurityType = WPA | WEP | NONE

  /** The T: value written for a security type. */
  function SecurityName(t: WifiSecurityType): (r: string)
    ensures r == "WPA" || r == "WEP" || r == "nopass"
    ensures '\\' !in r && ';' !in r
  {
    match t
    case WPA => "WPA"
    case WEP => "WEP"
    case NONE => "nopass"
  }

  function GenerateText(text: string): (r: string)
    ensures r == text
  {
    text
  }

  /** A URL keeps an explicit (case-sensitive) http or https scheme and
      otherwise gets "https://". */
  function GenerateUrl(url: string): (r: string)
    ensures StartsWith(r, "http://") || StartsWith(r, "https://")
    ensures StartsWith(url, "http://") || StartsWith(url, "https://") ==> r == url
    ensures !(StartsWith(url, "http://") || StartsWith(url, "https://")) ==> r == "https://" + url
  {
    if StartsWith(url, "http://") || StartsWith(url, "https://") then url
    else
      assert ("https://" + url)[..8] == "https://";
      "https://" + url
  }

  // ---------------------------------------------------------------------
  // Wi-Fi escaping

  /** Kotlin's `replace(old, new)` for a one-character old value: every
      occurrence of c is replaced by rep. */
  function ReplaceAll(s: string, c: char, rep: string): string
    decreases |s|
  {
    if |s| == 0 then ""
    else (if s[0] == c then rep else [s[0]]) + ReplaceAll(s[1..], c, rep)
  }

  /** The characters the Wi-Fi encoding escapes with a backslash. */
  predicate IsWifiSpecial(c: char) {
    c == '\\' || c == ';' || c == ',' || c == '"' || c == ':'
  }

  /** `escapeWifiString`: five replacements in a row, the backslash first. */
  function EscapeWifi(s: string): string {
    var s1 := ReplaceAll(s, '\\', "\\\\");
    var s2 := ReplaceAll(s1, ';', "\\;");
    var s3 := ReplaceAll(s2, ',', "\\,");
    var s4 := ReplaceAll(s3, '"', "\\\"");
    ReplaceAll(s4, ':', "\\:")
  }

  /** The per-character reading of the escape: a backslash before each
      special character, the rest unchanged. */
  function EscapeWifiChars(s: string): string
    decreases |s|
  {
    if |s| == 0 then ""
    else (if IsWifiSpecial(s[0]) then ['\\', s[0]] else [s[0]]) + EscapeWifiChars(s[1..])
  }

  function CountWifiSpecial(s: string): nat
    decreases |s|
  {
    if |s| == 0 then 0 else (if IsWifiSpecial(s[0]) then 1 else 0) + CountWifiSpecial(s[1..])
  }

  lemma {:induction false} ReplaceAllAppend(a: string, b: string, c: char, rep: string)
    ensures ReplaceAll(a + b, c, rep) == ReplaceAll(a, c, rep) + ReplaceAll(b, c, rep)
    decreases |a|
  {
    if |a| == 0 {
      assert a + b == b;
    } else {
      assert (a + b)[0] == a[0];
      assert (a + b)[1..] == a[1..] + b;
      ReplaceAllAppend(a[1..], b, c, rep);
    }
  }

  lemma EscapeWifiAppend(a: string, b: string)
    ensures EscapeWifi(a + b) == EscapeWifi(a) + EscapeWifi(b)
  {
    var a1, b1 := ReplaceAll(a, '\\', "\\\\"), ReplaceAll(b, '\\', "\\\\");
    ReplaceAllAppend(a, b, '\\', "\\\\");
    var a2, b2 := ReplaceAll(a1, ';', "\\;"), ReplaceAll(b1, ';', "\\;");
    ReplaceAllAppend(a1, b1, ';', "\\;");
    var a3, b3 := ReplaceAll(a2, ',', "\\,"), ReplaceAll(b2, ',', "\\,");
    ReplaceAllAppend(a2, b2, ',', "\\,");
    var a4, b4 := ReplaceAll(a3, '"', "\\\""), ReplaceAll(b3, '"', "\\\"");
    ReplaceAllAppend(a3, b3, '"', "\\\"");
    ReplaceAllAppend(a4, b4, ':', "\\:");
  }

  lemma ReplaceAllOne(x: char, c: char, rep: string)
    ensures ReplaceAll([x], c, rep) == if x == c then rep else [x]
  {
    assert [x][1..] == [];
  }

  /** Replacing c in a backslash followed by x, where x is not c. */
  lemma ReplaceAllEscaped(x: char, c: char, rep: string)
    requires x != c && c != '\\'
    ensures ReplaceAll(['\\', x], c, rep) == ['\\', x]
  {
    assert ['\\', x] == ['\\'] + [x];
    ReplaceAllAppend(['\\'], [x], c, rep);
    ReplaceAllOne('\\', c, rep);
    ReplaceAllOne(x, c, rep);
  }

  /** The replacement chain escapes one character as the per-character
      map does: no later replacement re-escapes an inserted backslash. */
  lemma EscapeWifiOne(c: char)
    ensures EscapeWifi([c]) == if IsWifiSpecial(c) then ['\\', c] else [c]
  {
    ReplaceAllOne(c, '\\', "\\\\");
    var s1 := ReplaceAll([c], '\\', "\\\\");
    ReplaceAllOne(c, ';', "\\;");
    var s2 := ReplaceAll(s1, ';', "\\;");
    ReplaceAllOne(c, ',', "\\,");
    var s3 := ReplaceAll(s2, ',', "\\,");
    ReplaceAllOne(c, '"', "\\\"");
    var s4 := ReplaceAll(s3, '"', "\\\"");
    ReplaceAllOne(c, ':', "\\:");
    if c == '\\' {
      assert s1 == ['\\', c];
      ReplaceAllEscaped(c, ';', "\\;");
      ReplaceAllEscaped(c, ',', "\\,");
      ReplaceAllEscaped(c, '"', "\\\"");
      ReplaceAllEscaped(c, ':', "\\:");
    } else if c == ';' {
      assert s2 == ['\\', c];
      ReplaceAllEscaped(c, ',', "\\,");
      ReplaceAllEscaped(c, '"', "\\\"");
      ReplaceAllEscaped(c, ':', "\\:");
    } else if c == ',' {
      assert s3 == ['\\', c];
      ReplaceAllEscaped(c, '"', "\\\"");
      ReplaceAllEscaped(c, ':', "\\:");
    } else if c == '"' {
      assert s4 == ['\\', c];
      ReplaceAllEscaped(c, ':', "\\:");
    }
  }

  /** `escapeWifiString` equals the per-character escape. */
  lemma {:induction false} EscapeWifiIsPerChar(s: string)
    ensures EscapeWifi(s) == EscapeWifiChars(s)
    decreases |s|
  {
    if |s| == 0 {
    } else {
      assert s == [s[0]] + s[1..];
      EscapeWifiAppend([s[0]], s[1..]);
      EscapeWifiOne(s[0]);
      EscapeWifiIsPerChar(s[1..]);
    }
  }

  /** The escape adds exactly one character per special character. */
  lemma {:induction false} EscapeWifiLength(s: string)
    ensures |EscapeWifi(s)| == |s| + CountWifiSpecial(s)
    decreases |s|
  {
    EscapeWifiIsPerChar(s);
    if |s| > 0 {
      EscapeWifiIsPerChar(s[1..]);
      EscapeWifiLength(s[1..]);
    }
  }

  /** A string without special characters is its own escape. */
  lemma {:induction false} EscapeWifiPlain(s: string)
    requires forall j :: 0 <= j < |s| ==> !IsWifiSpecial(s[j])
    ensures EscapeWifi(s) == s
    decreases |s|
  {
    EscapeWifiIsPerChar(s);
    if |s| > 0 {
      EscapeWifiIsPerChar(s[1..]);
      EscapeWifiPlain(s[1..]);
    }
  }

  /** The escape inserts backslashes only: a character other than the
      backslash occurs in the escape exactly when it occurs in the input. */
  lemma {:induction false} EscapeWifiKeepsChars(s: string, c: char)
    requires c != '\\'
    ensures c in EscapeWifi(s) <==> c in s
    decreases |s|
  {
    EscapeWifiIsPerChar(s);
    if |s| > 0 {
      EscapeWifiIsPerChar(s[1..]);
      EscapeWifiKeepsChars(s[1..], c);
      assert s == [s[0]] + s[1..];
    }
  }

  /** `generateWifiQrContent`: "WIFI:T:<type>;S:<ssid>;", then
      "P:<password>;" for a non-empty password on a secured network, then
      ";". */
  function GenerateWifi(ssid: string, password: Option<string>, security: WifiSecurityType): string {
    "WIFI:" + "T:" + SecurityName(security) + ";" + "S:" + EscapeWifi(ssid) + ";"
      + (if password.Some? && password.value != "" && security != NONE
         then "P:" + EscapeWifi(password.value) + ";" else "")
      + ";"
  }

  // ---------------------------------------------------------------------
  // E-mail, phone, SMS

  /** The mailto parameters for the given subject and body, each encoded. */
  function EmailParams(subject: Option<string>, body: Option<string>): (r: seq<string>)
    ensures |r| == (if subject.Some? then 1 else 0) + (if body.Some? then 1 else 0)
  {
    (if subject.Some? then ["subject=" + FormEncoding.Encode(subject.value)] else [])
      + (if body.Some? then ["body=" + FormEncoding.Encode(body.value)] else [])
  }

  /** `generateEmailQrContent`: "mailto:<email>", then "?" and the
      "&"-joined parameters when there is at least one. */
  function GenerateEmail(email: string, subject: Option<string>, body: Option<string>): string {
    var params := EmailParams(subject, body);
    "mailto:" + email + (if |params| > 0 then "?" + Join(params, "&") else "")
  }

  predicate IsAsciiDigit(c: char) { '0' <= c <= '9' }

  predicate IsDialChar(c: char) { c == '+' || IsAsciiDigit(c) }

  /** `replace(Regex("[^+\\d]"), "")`: every character other than "+" and a
      digit is dropped. */
  function CleanNumber(s: string): (r: string)
    ensures |r| <= |s|
    ensures forall j :: 0 <= j < |r| ==> IsDialChar(r[j])
    decreases |s|
  {
    if |s| == 0 then ""
    else (if IsDialChar(s[0]) then [s[0]] else []) + CleanNumber(s[1..])
  }

  /** Cleaning keeps a number made only of "+" and digits. */
  lemma {:induction false} CleanNumberKeepsDialChars(s: string)
    requires forall j :: 0 <= j < |s| ==> IsDialChar(s[j])
    ensures CleanNumber(s) == s
    decreases |s|
  {
    if |s| > 0 {
      CleanNumberKeepsDialChars(s[1..]);
    }
  }

  /** Cleaning is idempotent. */
  lemma CleanNumberIdempotent(s: string)
    ensures CleanNumber(CleanNumber(s)) == CleanNumber(s)
  {
    CleanNumberKeepsDialChars(CleanNumber(s));
  }

  /** Cleaning distributes over concatenation. */
  lemma {:induction false} CleanNumberAppend(a: string, b: string)
    ensures CleanNumber(a + b) == CleanNumber(a) + CleanNumber(b)
    decreases |a|
  {
    if |a| == 0 {
      assert a + b == b;
    } else {
      assert (a + b)[0] == a[0];
      assert (a + b)[1..] == a[1..] + b;
      CleanNumberAppend(a[1..], b);
    }
  }

  /** `generatePhoneQrContent`. */
  function GeneratePhone(phoneNumber: string): string {
    "tel:" + CleanNumber(phoneNumber)
  }

  /** `generateSmsQrContent`: ":<message>" only for a non-empty message. */
  function GenerateSms(phoneNumber: string, message: Option<string>): string {
    if message.None? || message.value == "" then "smsto:" + CleanNumber(phoneNumber)
    else "smsto:" + CleanNumber(phoneNumber) + ":" + message.value
  }

  // ---------------------------------------------------------------------
  // vCard, geo, event

  /** One line for an optional vCard property. */
  function OptionalLine(prefix: string, value: Option<string>, suffix: string): seq<string> {
    if value.Some? then [prefix + value.value + suffix] else []
  }

  /** The N: line: the trimmed name split once at the first space into the
      first name and the rest, written "N:<rest>;<first>;;;". */
  function NameLine(name: string): string {
    var parts := SplitOnce(Trim(name), ' ');
    "N:" + parts.1.GetOr("") + ";" + parts.0 + ";;;"
  }

  /** The lines of `generateVCardQrContent`, in order. */
  function VCardLines(name: string, phone: Option<string>, email: Option<string>,
                      company: Option<string>, title: Option<string>,
                      address: Option<string>, website: Option<string>,
                      note: Option<string>): (r: seq<string>)
    ensures |r| >= 5 && r[0] == "BEGIN:VCARD" && r[|r| - 1] == "END:VCARD"
  {
    ["BEGIN:VCARD", "VERSION:3.0", NameLine(name), "FN:" + name]
      + OptionalLine("TEL:", phone, "")
      + OptionalLine("EMAIL:", email, "")
      + OptionalLine("ORG:", company, "")
      + OptionalLine("TITLE:", title, "")
      + OptionalLine("ADR:;;", address, ";;;;")
      + OptionalLine("URL:", website, "")
      + OptionalLine("NOTE:", note, "")
      + ["END:VCARD"]
  }

  /** `generateVCardQrContent`: every line followed by a newline. */
  function GenerateVCard(name: string, phone: Option<string>, email: Option<string>,
                         company: Option<string>, title: Option<string>,
                         address: Option<string>, website: Option<string>,
                         note: Option<string>): string {
    Terminated(VCardLines(name, phone, email, company, title, address, website, note))
  }

  /** `generateGeoQrContent`, on the printed coordinates: the "?q=" part,
      repeating the coordinates and the encoded label in parentheses, only
      for a non-empty label. */
  function GenerateGeo(latitude: string, longitude: string, place: Option<string>): string {
    if place.None? || place.value == "" then "geo:" + latitude + "," + longitude
    else
      "geo:" + latitude + "," + longitude + "?q=" + latitude + "," + longitude
        + "(" + FormEncoding.Encode(place.value) + ")"
  }

  /** The lines of `generateEventQrContent`, in order. */
  function EventLines(title: string, location: Option<string>, startDateTime: string,
                      endDateTime: Option<string>, description: Option<string>): (r: seq<string>)
    ensures |r| >= 4 && r[0] == "BEGIN:VEVENT" && r[|r| - 1] == "END:VEVENT"
  {
    ["BEGIN:VEVENT", "SUMMARY:" + title, "DTSTART:" + startDateTime]
      + OptionalLine("DTEND:", endDateTime, "")
      + OptionalLine("LOCATION:", location, "")
      + OptionalLine("DESCRIPTION:", description, "")
      + ["END:VEVENT"]
  }

  function GenerateEvent(title: string, location: Option<string>, startDateTime: string,
                         endDateTime: Option<string>, description: Option<string>): string {
    Terminated(EventLines(title, location, startDateTime, endDateTime, description))
  }
}
