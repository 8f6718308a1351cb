/**
 * The QR payload classifier and field extractor. The functions (`Parsed`,
 * `ParsedWifi`, `ParsedEmail`, `ParsedVCard`, `UrlWarning`, ...) state what a
 * payload means; the methods (`Parse`, `ParseWifi`, `ParseEmail`,
 * `ParseVCard`, `AnalyzeUrlSecurity`, `ParseUrl`) follow the parser's
 * statements and loops and are proved to compute those functions.
 */
module QrParser {
  import opened KotlinStd
  import opened QrModel

  const ShortUrlDomains: seq<string> :=
    ["bit.ly", "tinyurl.com", "t.co", "goo.gl", "ow.ly",
     "is.gd", "buff.ly", "short.link", "rb.gy", "cutt.ly"]

  const SuspiciousPatterns: seq<string> :=
    ["login", "signin", "account", "password", "verify",
     "secure", "update", "confirm", "banking"]

  const SafeDomains: seq<string> :=
    ["google.com", "microsoft.com", "apple.com", "amazon.com",
     "facebook.com", "twitter.com", "instagram.com", "linkedin.com",
     "github.com", "stackoverflow.com", "wikipedia.org"]

  /** Display value of a Wi-Fi payload without an SSID ("Wi-Fi Ağı"). */
  const WifiPlaceholder: string := "Wi-Fi A\U{11F}\U{131}"

  /** Display value of a contact without a name ("Kişi"). */
  const ContactPlaceholder: string := "Ki\U{15F}i"

  /** The number a coordinate defaults to, as Kotlin prints the Double 0.0. */
  const DefaultCoordinate: string := "0.0"

  // ---------------------------------------------------------------------
  // Classification

  predicate IsWifi(v: string) { StartsWithIgnoreCase(v, "WIFI:") }
  predicate IsEmail(v: string) { StartsWithIgnoreCase(v, "mailto:") }
  predicate IsPhone(v: string) { StartsWithIgnoreCase(v, "tel:") }
  predicate IsSms(v: string) {
    StartsWithIgnoreCase(v, "smsto:") || StartsWithIgnoreCase(v, "sms:")
  }
  predicate IsGeo(v: string) { StartsWithIgnoreCase(v, "geo:") }
  predicate IsVCard(v: string) { StartsWithIgnoreCase(v, "BEGIN:VCARD") }

  /** `isUrl`. Its third disjunct, the URL regular expression, begins with
      `^(https?://)` and is case-insensitive, so it can only hold when one of
      the two prefix tests already does; it is therefore not modelled. */
  predicate IsUrl(v: string) {
    StartsWithIgnoreCase(v, "http://") || StartsWithIgnoreCase(v, "https://")
  }

  /** The type the first matching test selects; TEXT when none matches. */
  function Classify(t: string): ContentType {
    if IsWifi(t) then WIFI
    else if IsEmail(t) then EMAIL
    else if IsPhone(t) then PHONE
    else if IsSms(t) then SMS
    else if IsGeo(t) then GEO
    else if IsVCard(t) then CONTACT
    else if IsUrl(t) then URL
    else TEXT
  }

  /** What `parse` returns: nothing for an absent or blank payload, otherwise
      the extraction for the type of the trimmed payload. */
  function Parsed(raw: Option<string>): (r: Option<QrContent>)
    ensures r.None? <==> (raw.None? || IsBlank(raw.value))
    ensures r.Some? ==> (&& r.value.rawValue == Trim(raw.value)
                         && r.value.rawValue != ""
                         && r.value.contentType == Classify(r.value.rawValue)
                         && r.value.id == 0 && !r.value.isFavorite
                         && Consistent(r.value))
    ensures r.Some? && r.value.contentType == TEXT ==> r.value.displayValue == Trim(raw.value)
  {
    if raw.None? || IsBlank(raw.value) then None
    else
      var t := Trim(raw.value);
      BlankIffTrimEmpty(raw.value);
      Some(match Classify(t)
        case WIFI => ParsedWifi(t)
        case EMAIL => ParsedEmail(t)
        case PHONE => ParsePhone(t)
        case SMS => ParseSms(t)
        case GEO => ParseGeo(t)
        case CONTACT => ParsedVCard(t)
        case URL => ParsedUrl(t)
        case TEXT => NewContent(t, TEXT, t, None, None))
  }

  /** `parse`: trims the payload and dispatches on the first matching test. */
  method Parse(raw: Option<string>) returns (c: Option<QrContent>)
    ensures c == Parsed(raw)
  {
    if raw.None? || IsBlank(raw.value) {
      return None;
    }
    var t := Trim(raw.value);
    var content := Dispatch(t);
    c := Some(content);
  }

  /** The chain of type tests of `parse` on a trimmed payload. */
  method Dispatch(t: string) returns (content: QrContent)
    ensures Classify(t) == WIFI ==> content == ParsedWifi(t)
    ensures Classify(t) == EMAIL ==> content == ParsedEmail(t)
    ensures Classify(t) == PHONE ==> content == ParsePhone(t)
    ensures Classify(t) == SMS ==> content == ParseSms(t)
    ensures Classify(t) == GEO ==> content == ParseGeo(t)
    ensures Classify(t) == CONTACT ==> content == ParsedVCard(t)
    ensures Classify(t) == URL ==> content == ParsedUrl(t)
    ensures Classify(t) == TEXT ==> content == NewContent(t, TEXT, t, None, None)
  {
    if IsWifi(t) {
      content := ParseWifi(t);
    } else if IsEmail(t) {
      content := ParseEmail(t);
    } else if IsPhone(t) {
      content := ParsePhone(t);
    } else if IsSms(t) {
      content := ParseSms(t);
    } else if IsGeo(t) {
      content := ParseGeo(t);
    } else if IsVCard(t) {
      content := ParseVCard(t);
    } else if IsUrl(t) {
      content := ParseUrl(t);
    } else {
      content := NewContent(t, TEXT, t, None, None);
    }
  }

  // ---------------------------------------------------------------------
  // Keyed pieces: "the last segment that starts with S:" and the like

  /** The last piece that starts with key. */
  function LastWithPrefix(pieces: seq<string>, key: string): (r: Option<string>)
    ensures r.Some? ==> StartsWith(r.value, key) && r.value in pieces
    ensures r.None? <==> forall i :: 0 <= i < |pieces| ==> !StartsWith(pieces[i], key)
    decreases |pieces|
  {
    if |pieces| == 0 then None
    else if StartsWith(pieces[|pieces| - 1], key) then Some(pieces[|pieces| - 1])
    else LastWithPrefix(pieces[..|pieces| - 1], key)
  }

  /** The first piece that starts with key. */
  function FirstWithPrefix(pieces: seq<string>, key: string): (r: Option<string>)
    ensures r.Some? ==> StartsWith(r.value, key) && r.value in pieces
    ensures r.None? <==> forall i :: 0 <= i < |pieces| ==> !StartsWith(pieces[i], key)
    decreases |pieces|
  {
    if |pieces| == 0 then None
    else if StartsWith(pieces[0], key) then Some(pieces[0])
    else FirstWithPrefix(pieces[1..], key)
  }

  /** The piece LastWithPrefix finds is the one at the last index holding
      the key. */
  lemma {:induction false} LastWithPrefixIsLast(pieces: seq<string>, key: string, i: nat)
    requires i < |pieces| && StartsWith(pieces[i], key)
    requires forall j :: i < j < |pieces| ==> !StartsWith(pieces[j], key)
    ensures LastWithPrefix(pieces, key) == Some(pieces[i])
    decreases |pieces|
  {
    if i < |pieces| - 1 {
      var init := pieces[..|pieces| - 1];
      assert !StartsWith(pieces[|pieces| - 1], key);
      assert forall j :: i < j < |init| ==> init[j] == pieces[j];
      LastWithPrefixIsLast(init, key, i);
    }
  }

  /** The piece FirstWithPrefix finds is the one at the first index holding
      the key. */
  lemma {:induction false} FirstWithPrefixIsFirst(pieces: seq<string>, key: string, i: nat)
    requires i < |pieces| && StartsWith(pieces[i], key)
    requires forall j :: 0 <= j < i ==> !StartsWith(pieces[j], key)
    ensures FirstWithPrefix(pieces, key) == Some(pieces[i])
    decreases |pieces|
  {
    if 0 < i {
      assert !StartsWith(pieces[0], key);
      var tail := pieces[1..];
      assert forall j :: 0 <= j < i - 1 ==> tail[j] == pieces[j + 1];
      FirstWithPrefixIsFirst(tail, key, i - 1);
    }
  }

  lemma LastWithPrefixSnoc(pieces: seq<string>, x: string, key: string)
    ensures LastWithPrefix(pieces + [x], key)
         == if StartsWith(x, key) then Some(x) else LastWithPrefix(pieces, key)
  {
    assert (pieces + [x])[..|pieces|] == pieces;
  }

  lemma {:induction false} FirstWithPrefixSnoc(pieces: seq<string>, x: string, key: string)
    ensures FirstWithPrefix(pieces + [x], key)
         == if FirstWithPrefix(pieces, key).Some? then FirstWithPrefix(pieces, key)
            else if StartsWith(x, key) then Some(x) else None
    decreases |pieces|
  {
    if |pieces| > 0 {
      assert (pieces + [x])[0] == pieces[0];
      assert (pieces + [x])[1..] == pieces[1..] + [x];
      FirstWithPrefixSnoc(pieces[1..], x, key);
    }
  }

  /** An optional piece with its key removed. */
  function Strip(piece: Option<string>, key: string): Option<string> {
    match piece
    case None => None
    case Some(p) => Some(RemovePrefix(p, key))
  }

  // ---------------------------------------------------------------------
  // Wi-Fi

  /** The segments of a Wi-Fi payload: a case-sensitive "WIFI:" and one
      trailing ";" removed, then split at every ";" (escapes are not
      honoured). */
  function WifiSegments(value: string): seq<string> {
    Split(RemoveSuffix(RemovePrefix(value, "WIFI:"), ";"), ';')
  }

  /** A Wi-Fi payload: the last S:, P: and T: segments give the SSID
      (default empty), the password (default none) and the security type
      (default "WPA"); nothing is unescaped. */
  function ParsedWifi(value: string): (c: QrContent)
    ensures c.rawValue == value && c.contentType == WIFI && Consistent(c)
    ensures var d := c.parsedData.value;
            && (d.ssid != "" ==> c.displayValue == d.ssid)
            && (d.ssid == "" ==> c.displayValue == WifiPlaceholder)
  {
    var parts := WifiSegments(value);
    var ssid := Strip(LastWithPrefix(parts, "S:"), "S:").GetOr("");
    var password := Strip(LastWithPrefix(parts, "P:"), "P:");
    var security := Strip(LastWithPrefix(parts, "T:"), "T:").GetOr("WPA");
    NewContent(value, WIFI, if ssid == "" then WifiPlaceholder else ssid, None,
               Some(WifiData(ssid, password, security)))
  }

  /** What one more segment does to the S:, P: and T: values. */
  lemma WifiSegmentStep(parts: seq<string>, i: nat)
    requires i < |parts|
    ensures var pre, part, post := parts[..i], parts[i], parts[..i + 1];
      && LastWithPrefix(post, "S:") == (if StartsWith(part, "S:") then Some(part) else LastWithPrefix(pre, "S:"))
      && LastWithPrefix(post, "P:") == (if StartsWith(part, "P:") then Some(part) else LastWithPrefix(pre, "P:"))
      && LastWithPrefix(post, "T:") == (if StartsWith(part, "T:") then Some(part) else LastWithPrefix(pre, "T:"))
  {
    var pre, part := parts[..i], parts[i];
    assert parts[..i + 1] == pre + [part];
    LastWithPrefixSnoc(pre, part, "S:");
    LastWithPrefixSnoc(pre, part, "P:");
    LastWithPrefixSnoc(pre, part, "T:");
  }

  /** `parseWifi`: one pass over the segments, later segments overwriting
      earlier ones. */
  method ParseWifi(value: string) returns (c: QrContent)
    ensures c == ParsedWifi(value)
  {
    var parts := WifiSegments(value);
    var ssid := "";
    var password: Option<string> := None;
    var security := "WPA";
    for i := 0 to |parts|
      invariant ssid == Strip(LastWithPrefix(parts[..i], "S:"), "S:").GetOr("")
      invariant password == Strip(LastWithPrefix(parts[..i], "P:"), "P:")
      invariant security == Strip(LastWithPrefix(parts[..i], "T:"), "T:").GetOr("WPA")
    {
      var part := parts[i];
      WifiSegmentStep(parts, i);
      if StartsWith(part, "S:") {
        ssid := RemovePrefix(part, "S:");
      } else if StartsWith(part, "P:") {
        password := Some(RemovePrefix(part, "P:"));
      } else if StartsWith(part, "T:") {
        security := RemovePrefix(part, "T:");
      }
    }
    assert parts[..|parts|] == parts;
    c := NewContent(value, WIFI, if ssid == "" then WifiPlaceholder else ssid, None,
                    Some(WifiData(ssid, password, security)));
  }

  // ---------------------------------------------------------------------
  // E-mail

  /** The "&"-separated parameters between the first and second "?" of a
      mailto payload (none when there is no "?"). */
  function EmailParams(value: string): seq<string> {
    var parts := Split(RemovePrefix(value, "mailto:"), '?');
    if |parts| > 1 then Split(parts[1], '&') else []
  }

  /** A mailto payload: the address is the text before the first "?"; the
      last subject= and body= parameters give subject and body, still
      encoded. */
  function ParsedEmail(value: string): (c: QrContent)
    ensures c.rawValue == value && c.contentType == EMAIL && Consistent(c)
    ensures '?' !in c.parsedData.value.address && c.displayValue == c.parsedData.value.address
    ensures '?' !in RemovePrefix(value, "mailto:") ==>
      c.parsedData == Some(EmailData(RemovePrefix(value, "mailto:"), None, None))
  {
    var address := Split(RemovePrefix(value, "mailto:"), '?')[0];
    var params := EmailParams(value);
    var subject := Strip(LastWithPrefix(params, "subject="), "subject=");
    var body := Strip(LastWithPrefix(params, "body="), "body=");
    NewContent(value, EMAIL, address, None, Some(EmailData(address, subject, body)))
  }

  /** `parseEmail`. */
  method ParseEmail(value: string) returns (c: QrContent)
    ensures c == ParsedEmail(value)
  {
    var withoutPrefix := RemovePrefix(value, "mailto:");
    var parts := Split(withoutPrefix, '?');
    var address := parts[0];
    var subject: Option<string> := None;
    var body: Option<string> := None;
    if |parts| > 1 {
      var params := Split(parts[1], '&');
      for i := 0 to |params|
        invariant subject == Strip(LastWithPrefix(params[..i], "subject="), "subject=")
        invariant body == Strip(LastWithPrefix(params[..i], "body="), "body=")
      {
        var param := params[i];
        assert params[..i + 1] == params[..i] + [param];
        StartsWithHead(param, "subject=");
        StartsWithHead(param, "body=");
        LastWithPrefixSnoc(params[..i], param, "subject=");
        LastWithPrefixSnoc(params[..i], param, "body=");
        if StartsWith(param, "subject=") {
          subject := Some(RemovePrefix(param, "subject="));
        } else if StartsWith(param, "body=") {
          body := Some(RemovePrefix(param, "body="));
        }
      }
      assert params[..|params|] == params;
    }
    c := NewContent(value, EMAIL, address, None, Some(EmailData(address, subject, body)));
  }

  // ---------------------------------------------------------------------
  // Phone and SMS

  /** `parsePhone`: the number is the text after a case-sensitive "tel:". */
  function ParsePhone(value: string): (c: QrContent)
    ensures c.rawValue == value && c.contentType == PHONE && Consistent(c)
    ensures StartsWith(value, "tel:") ==> c.parsedData == Some(PhoneData(value[4..]))
    ensures !StartsWith(value, "tel:") ==> c.parsedData == Some(PhoneData(value))
  {
    var number := RemovePrefix(value, "tel:");
    NewContent(value, PHONE, number, None, Some(PhoneData(number)))
  }

  /** `parseSms`: "smsto:" and then "sms:" are removed; the rest is split
      once at the first ":" into number and message. */
  function ParseSms(value: string): (c: QrContent)
    ensures c.rawValue == value && c.contentType == SMS && Consistent(c)
    ensures var rest := RemovePrefix(RemovePrefix(value, "smsto:"), "sms:");
            var data := c.parsedData.value;
            && ':' !in data.number
            && c.displayValue == data.number
            && (data.message.None? <==> ':' !in rest)
            && (data.message.None? ==> data.number == rest)
            && (data.message.Some? ==> data.number + ":" + data.message.value == rest)
  {
    var withoutPrefix := RemovePrefix(RemovePrefix(value, "smsto:"), "sms:");
    var parts := SplitOnce(withoutPrefix, ':');
    NewContent(value, SMS, parts.0, None, Some(SmsData(parts.0, parts.1)))
  }

  // ---------------------------------------------------------------------
  // Geo: a scanner for ^geo:([\-\d.]+),([\-\d.]+)(?:\?.*q=([^&]+))?

  predicate IsGeoNumberChar(c: char) {
    c == '-' || c == '.' || ('0' <= c <= '9')
  }

  /** A non-empty run of [\-\d.]. */
  predicate IsGeoNumber(s: string) {
    |s| > 0 && forall j :: 0 <= j < |s| ==> IsGeoNumberChar(s[j])
  }

  /** The length of the longest run of [\-\d.] at the start of s. */
  function NumberRun(s: string): (n: nat)
    ensures n <= |s|
    ensures forall j :: 0 <= j < n ==> IsGeoNumberChar(s[j])
    ensures n < |s| ==> !IsGeoNumberChar(s[n])
  {
    if |s| > 0 && IsGeoNumberChar(s[0]) then 1 + NumberRun(s[1..]) else 0
  }

  lemma NumberRunIsNumber(s: string)
    requires NumberRun(s) > 0
    ensures IsGeoNumber(s[..NumberRun(s)])
  {
    var n := NumberRun(s);
    forall j | 0 <= j < n ensures IsGeoNumberChar(s[..n][j]) {
      assert s[..n][j] == s[j];
    }
  }

  lemma NumbersPrefix(s1: string, n1: nat, n2: nat)
    requires n1 < |s1| && s1[n1] == ',' && n1 + 1 + n2 <= |s1|
    ensures StartsWith(s1, s1[..n1] + "," + s1[n1 + 1..][..n2])
  {
    assert s1[..n1 + 1 + n2] == s1[..n1] + "," + s1[n1 + 1..][..n2];
  }

  /** The characters `.` does not match (Java's line terminators). */
  predicate IsRegexLineTerminator(c: char) {
    c == '\n' || c == '\r' || c == '\U{85}' || c == '\U{2028}' || c == '\U{2029}'
  }

  /** How far `.*` can reach: the index of the first line terminator. */
  function LineLength(s: string): (n: nat)
    ensures n <= |s|
    ensures forall j :: 0 <= j < n ==> !IsRegexLineTerminator(s[j])
    ensures n < |s| ==> IsRegexLineTerminator(s[n])
  {
    if |s| > 0 && !IsRegexLineTerminator(s[0]) then 1 + LineLength(s[1..]) else 0
  }

  /** The length of the longest run of [^&] at the start of s. */
  function NonAmpersandRun(s: string): (n: nat)
    ensures n <= |s|
    ensures forall j :: 0 <= j < n ==> s[j] != '&'
    ensures n < |s| ==> s[n] == '&'
  {
    if |s| > 0 && s[0] != '&' then 1 + NonAmpersandRun(s[1..]) else 0
  }

  /** `.*` can stop at k (on one line) and `q=([^&]+)` matches at k. */
  predicate IsLabelStart(rest: string, k: nat) {
    && k <= LineLength(rest)
    && k + 2 < |rest|
    && (rest[k] == 'q' || rest[k] == 'Q')
    && rest[k + 1] == '='
    && rest[k + 2] != '&'
  }

  /** The greedy `.*`: the largest label start below n. */
  function LastLabelStart(rest: string, n: nat): (r: Option<nat>)
    ensures r.Some? ==> (r.value < n && IsLabelStart(rest, r.value)
                         && forall k :: r.value < k < n ==> !IsLabelStart(rest, k))
    ensures r.None? ==> forall k :: 0 <= k < n ==> !IsLabelStart(rest, k)
  {
    if n == 0 then None
    else if IsLabelStart(rest, n - 1) then Some(n - 1)
    else LastLabelStart(rest, n - 1)
  }

  /** What group 3 captures in the text after "?"; "" when it does not take
      part in the match (Kotlin's `groupValues` for an unmatched group). */
  function LabelGroup(rest: string): (r: string)
    ensures '&' !in r
  {
    match LastLabelStart(rest, |rest|)
    case None => ""
    case Some(k) => rest[k + 2..][..NonAmpersandRun(rest[k + 2..])]
  }

  /** The three groups of a successful match. */
  datatype GeoMatch = GeoMatch(latitude: string, longitude: string, place: string)

  /** `GEO_REGEX.find(value)`: the pattern is anchored at the start; both
      number groups are maximal runs of [\-\d.]. */
  function MatchGeo(value: string): (r: Option<GeoMatch>)
    ensures r.Some? ==> (&& IsGeo(value)
                         && IsGeoNumber(r.value.latitude) && IsGeoNumber(r.value.longitude)
                         && StartsWith(value[4..], r.value.latitude + "," + r.value.longitude)
                         && '&' !in r.value.place)
    ensures !IsGeo(value) ==> r.None?
  {
    if !StartsWithIgnoreCase(value, "geo:") then None
    else
      var s1 := value[4..];
      var n1 := NumberRun(s1);
      if n1 == 0 || n1 == |s1| || s1[n1] != ',' then None
      else
        var s2 := s1[n1 + 1..];
        var n2 := NumberRun(s2);
        if n2 == 0 then None
        else
          var tail := s2[n2..];
          var place := if |tail| > 0 && tail[0] == '?' then LabelGroup(tail[1..]) else "";
          NumberRunIsNumber(s1);
          NumberRunIsNumber(s2);
          NumbersPrefix(s1, n1, n2);
          Some(GeoMatch(s1[..n1], s2[..n2], place))
  }

  predicate IsDigit(c: char) { '0' <= c <= '9' }

  function DigitRun(s: string): (n: nat)
    ensures n <= |s|
    ensures forall j :: 0 <= j < n ==> IsDigit(s[j])
    ensures n < |s| ==> !IsDigit(s[n])
  {
    if |s| > 0 && IsDigit(s[0]) then 1 + DigitRun(s[1..]) else 0
  }

  /** The texts over [\-\d.] that Kotlin's `toDoubleOrNull` accepts: an
      optional sign, then digits with an optional fraction, or a fraction
      alone. */
  predicate IsDecimalLiteral(s: string) {
    var u := if |s| > 0 && (s[0] == '-' || s[0] == '+') then s[1..] else s;
    var d := DigitRun(u);
    if d == |u| then d > 0
    else u[d] == '.' && DigitRun(u[d + 1..]) == |u| - d - 1 && (d > 0 || d + 1 < |u|)
  }

  /** The default coordinate is itself a number, and the display of two
      defaults is "0.0, 0.0". */
  lemma DefaultCoordinateFacts()
    ensures IsDecimalLiteral(DefaultCoordinate)
    ensures DefaultCoordinate + ", " + DefaultCoordinate == "0.0, 0.0"
  {
    assert DigitRun("0.0") == 1;
  }

  /** `toDoubleOrNull() ?: 0.0` on a captured number. */
  function Coordinate(text: string): (r: string)
    ensures IsDecimalLiteral(r)
    ensures r == text || r == DefaultCoordinate
  {
    DefaultCoordinateFacts();
    if IsDecimalLiteral(text) then text else DefaultCoordinate
  }

  /** `parseGeo`. Without a match both coordinates are 0.0, the label is
      null and the display is "0.0, 0.0"; with a match the label is group 3,
      which is "" when the payload has no q= part. */
  function ParseGeo(value: string): (c: QrContent)
    ensures c.rawValue == value && c.contentType == GEO && Consistent(c)
    ensures var data := c.parsedData.value;
            && IsDecimalLiteral(data.latitude) && IsDecimalLiteral(data.longitude)
            && (MatchGeo(value).None? ==>
                  data == GeoData(DefaultCoordinate, DefaultCoordinate, None)
                  && c.displayValue == "0.0, 0.0")
            && (MatchGeo(value).Some? ==>
                  data.place == Some(MatchGeo(value).value.place)
                  && c.displayValue == MatchGeo(value).value.place)
  {
    DefaultCoordinateFacts();
    var m := MatchGeo(value);
    var lat := if m.Some? then Coordinate(m.value.latitude) else DefaultCoordinate;
    var lng := if m.Some? then Coordinate(m.value.longitude) else DefaultCoordinate;
    var place := if m.Some? then Some(m.value.place) else None;
    NewContent(value, GEO, place.GetOr(lat + ", " + lng), None, Some(GeoData(lat, lng, place)))
  }

  // ---------------------------------------------------------------------
  // vCard

  /** The name an "N:" line gives: "given family", trimmed, from fields 1
      and 0 of its ";"-separated value. */
  function NameFromN(line: string): string {
    var parts := Split(RemovePrefix(line, "N:"), ';');
    var given := if |parts| > 1 then parts[1] else "";
    Trim(given + " " + parts[0])
  }

  /** The name of a card: the last FN: line if there is one, otherwise the
      first N: line. */
  function VCardName(lines: seq<string>): Option<string> {
    match LastWithPrefix(lines, "FN:")
    case Some(l) => Some(RemovePrefix(l, "FN:"))
    case None =>
      match FirstWithPrefix(lines, "N:")
      case Some(l) => Some(NameFromN(l))
      case None => None
  }

  lemma VCardNameSnoc(lines: seq<string>, line: string)
    ensures VCardName(lines + [line])
         == if StartsWith(line, "FN:") then Some(RemovePrefix(line, "FN:"))
            else if StartsWith(line, "N:") && VCardName(lines).None? then Some(NameFromN(line))
            else VCardName(lines)
  {
    LastWithPrefixSnoc(lines, line, "FN:");
    FirstWithPrefixSnoc(lines, line, "N:");
  }

  /** What one more line does to the fields of a card; the keys of the
      later tests cannot match a line an earlier test took. */
  lemma VCardLineStep(lines: seq<string>, i: nat)
    requires i < |lines|
    ensures var pre, line, post := lines[..i], lines[i], lines[..i + 1];
      && VCardName(post)
         == (if StartsWith(line, "FN:") then Some(RemovePrefix(line, "FN:"))
             else if StartsWith(line, "N:") && VCardName(pre).None? then Some(NameFromN(line))
             else VCardName(pre))
      && ValueAfterColon(LastWithPrefix(post, "TEL"))
         == (if StartsWith(line, "TEL") then Some(SubstringAfter(line, ':'))
             else ValueAfterColon(LastWithPrefix(pre, "TEL")))
      && ValueAfterColon(LastWithPrefix(post, "EMAIL"))
         == (if StartsWith(line, "EMAIL") then Some(SubstringAfter(line, ':'))
             else ValueAfterColon(LastWithPrefix(pre, "EMAIL")))
      && Strip(LastWithPrefix(post, "ORG:"), "ORG:")
         == (if StartsWith(line, "ORG:") then Some(RemovePrefix(line, "ORG:"))
             else Strip(LastWithPrefix(pre, "ORG:"), "ORG:"))
    ensures var line := lines[i];
      && (StartsWith(line, "FN:") || StartsWith(line, "N:") ==>
            !StartsWith(line, "TEL") && !StartsWith(line, "EMAIL") && !StartsWith(line, "ORG:"))
      && (StartsWith(line, "TEL") ==> !StartsWith(line, "EMAIL") && !StartsWith(line, "ORG:"))
      && (StartsWith(line, "EMAIL") ==> !StartsWith(line, "ORG:"))
  {
    var pre, line := lines[..i], lines[i];
    assert lines[..i + 1] == pre + [line];
    StartsWithHead(line, "FN:");
    StartsWithHead(line, "N:");
    StartsWithHead(line, "TEL");
    StartsWithHead(line, "EMAIL");
    StartsWithHead(line, "ORG:");
    VCardNameSnoc(pre, line);
    LastWithPrefixSnoc(pre, line, "TEL");
    LastWithPrefixSnoc(pre, line, "EMAIL");
    LastWithPrefixSnoc(pre, line, "ORG:");
  }

  /** The text after the first ":" of an optional line. */
  function ValueAfterColon(line: Option<string>): Option<string> {
    match line
    case None => None
    case Some(l) => Some(SubstringAfter(l, ':'))
  }

  /** A vCard payload: name as above; phone and e-mail from the last line
      starting with TEL or EMAIL; organization from the last ORG: line. */
  function ParsedVCard(value: string): (c: QrContent)
    ensures c.rawValue == value && c.contentType == CONTACT && Consistent(c)
    ensures var d := c.parsedData.value;
            && (d.name.Some? ==> c.displayValue == d.name.value)
            && (d.name.None? ==> c.displayValue == ContactPlaceholder)
  {
    var lines := Lines(value);
    var name := VCardName(lines);
    var phone := ValueAfterColon(LastWithPrefix(lines, "TEL"));
    var email := ValueAfterColon(LastWithPrefix(lines, "EMAIL"));
    var org := Strip(LastWithPrefix(lines, "ORG:"), "ORG:");
    NewContent(value, CONTACT, name.GetOr(ContactPlaceholder), None,
               Some(ContactData(name, phone, email, org)))
  }

  /** `parseVCard`: one pass over the lines; FN: always sets the name, N:
      only while there is none. */
  method ParseVCard(value: string) returns (c: QrContent)
    ensures c == ParsedVCard(value)
  {
    var lines := Lines(value);
    var name: Option<string> := None;
    var phone: Option<string> := None;
    var email: Option<string> := None;
    var org: Option<string> := None;
    for i := 0 to |lines|
      invariant name == VCardName(lines[..i])
      invariant phone == ValueAfterColon(LastWithPrefix(lines[..i], "TEL"))
      invariant email == ValueAfterColon(LastWithPrefix(lines[..i], "EMAIL"))
      invariant org == Strip(LastWithPrefix(lines[..i], "ORG:"), "ORG:")
    {
      var line := lines[i];
      VCardLineStep(lines, i);
      if StartsWith(line, "FN:") {
        name := Some(RemovePrefix(line, "FN:"));
      } else if StartsWith(line, "N:") && name.None? {
        name := Some(NameFromN(line));
      } else if StartsWith(line, "TEL") {
        phone := Some(SubstringAfter(line, ':'));
      } else if StartsWith(line, "EMAIL") {
        email := Some(SubstringAfter(line, ':'));
      } else if StartsWith(line, "ORG:") {
        org := Some(RemovePrefix(line, "ORG:"));
      }
    }
    assert lines[..|lines|] == lines;
    c := NewContent(value, CONTACT, name.GetOr(ContactPlaceholder), None,
                    Some(ContactData(name, phone, email, org)));
  }

  // ---------------------------------------------------------------------
  // URL

  /** `extractDomain`: a case-sensitive scheme strip, then the text before
      the first "/", then before the first ":". It never yields null. */
  function ExtractDomain(url: string): (r: Option<string>)
    ensures r.Some? && '/' !in r.value && ':' !in r.value
  {
    var withoutProtocol := RemovePrefix(RemovePrefix(url, "https://"), "http://");
    Some(Split(Split(withoutProtocol, '/')[0], ':')[0])
  }

  /** The domain is the scheme-stripped URL up to its first "/" or ":",
      whichever comes first. */
  lemma DomainIsHost(url: string)
    ensures var s := RemovePrefix(RemovePrefix(url, "https://"), "http://");
            var d := ExtractDomain(url).value;
            StartsWith(s, d) && (|d| == |s| || s[|d|] == '/' || s[|d|] == ':')
  {
    var s := RemovePrefix(RemovePrefix(url, "https://"), "http://");
    var p := Split(s, '/')[0];
    var d := Split(p, ':')[0];
    assert s[..|p|] == p;
    assert p[..|d|] == d;
    assert s[..|d|] == d;
    if |d| < |p| {
      assert s[|d|] == p[|d|];
    }
  }

  /** `isKnownSafeDomain`: the domain ends with an allow-listed domain. */
  predicate IsKnownSafeDomain(domain: string) {
    exists i :: 0 <= i < |SafeDomains| && EndsWith(domain, SafeDomains[i])
  }

  predicate ContainsAny(s: string, needles: seq<string>) {
    exists i :: 0 <= i < |needles| && Contains(s, needles[i])
  }

  predicate MentionsMajorPlatform(lowerUrl: string) {
    Contains(lowerUrl, "google.com") || Contains(lowerUrl, "microsoft.com")
      || Contains(lowerUrl, "apple.com")
  }

  /** The warning chain on the lower-cased URL: plain http, then a
      shortener anywhere, then a phishing keyword on a URL that names none of
      the three major platforms and whose domain is not allow-listed. */
  function UrlWarning(url: string): Option<SecurityWarning> {
    var lowerUrl := Lowercase(url);
    if StartsWith(lowerUrl, "http://") then Some(INSECURE_HTTP)
    else if ContainsAny(lowerUrl, ShortUrlDomains) then Some(SHORT_URL)
    else if ContainsAny(lowerUrl, SuspiciousPatterns) && !MentionsMajorPlatform(lowerUrl)
            && ExtractDomain(url).Some? && !IsKnownSafeDomain(ExtractDomain(url).value)
    then Some(SUSPICIOUS_URL)
    else None
  }

  /** `analyzeUrlSecurity`: two list walks with early returns. */
  method AnalyzeUrlSecurity(url: string) returns (w: Option<SecurityWarning>)
    ensures w == UrlWarning(url)
  {
    var lowerUrl := Lowercase(url);
    if StartsWith(lowerUrl, "http://") {
      return Some(INSECURE_HTTP);
    }
    for i := 0 to |ShortUrlDomains|
      invariant forall j :: 0 <= j < i ==> !Contains(lowerUrl, ShortUrlDomains[j])
    {
      if Contains(lowerUrl, ShortUrlDomains[i]) {
        return Some(SHORT_URL);
      }
    }
    for i := 0 to |SuspiciousPatterns|
      invariant forall j :: 0 <= j < i ==>
        !(Contains(lowerUrl, SuspiciousPatterns[j]) && !MentionsMajorPlatform(lowerUrl)
          && !IsKnownSafeDomain(ExtractDomain(url).value))
    {
      var pattern := SuspiciousPatterns[i];
      if Contains(lowerUrl, pattern) && !Contains(lowerUrl, "google.com")
         && !Contains(lowerUrl, "microsoft.com") && !Contains(lowerUrl, "apple.com")
      {
        var domain := ExtractDomain(url);
        if domain.Some? && !IsKnownSafeDomain(domain.value) {
          return Some(SUSPICIOUS_URL);
        }
      }
    }
    return None;
  }

  /** The URL display value: one leading "https://" removed, then one
      leading "http://", case-sensitively, and cut to 50 characters. So
      "https://http://a.b" displays "a.b". */
  function UrlDisplay(value: string): string {
    Take(RemovePrefix(RemovePrefix(value, "https://"), "http://"), 50)
  }

  function ParsedUrl(value: string): (c: QrContent)
    ensures c.rawValue == value && c.contentType == URL && Consistent(c)
    ensures c.securityWarning == UrlWarning(value)
    ensures |c.displayValue| <= 50
    ensures var s := RemovePrefix(RemovePrefix(value, "https://"), "http://");
            && StartsWith(s, c.displayValue)
            && |c.displayValue| == if |s| <= 50 then |s| else 50
  {
    NewContent(value, URL, UrlDisplay(value), UrlWarning(value), None)
  }

  /** `parseUrl`. */
  method ParseUrl(value: string) returns (c: QrContent)
    ensures c == ParsedUrl(value)
  {
    var warning := AnalyzeUrlSecurity(value);
    c := NewContent(value, URL, UrlDisplay(value), warning, None);
  }
}
