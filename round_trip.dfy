/**
 * Generator and parser together: what `parse` returns for each generated
 * payload, including the cases where the round trip loses information
 * (Wi-Fi escapes are not undone, e-mail and geo values stay encoded,
 * trailing whitespace is trimmed away, empty labels come back as "").
 */
module RoundTrip {
  import opened KotlinStd
  import opened QrModel
  import opened QrParser
  import opened ParserProperties
  import G = QrGenerator
  import FormEncoding

  /** The whole parse of a payload that is already trimmed and whose type
      is known. */
  lemma ParsedTrimmed(c: string, t: ContentType)
    requires c != "" && Trim(c) == c && Classify(c) == t
    ensures Parsed(Some(c)).Some?
    ensures Parsed(Some(c)).value == match t
      case WIFI => ParsedWifi(c)
      case EMAIL => ParsedEmail(c)
      case PHONE => ParsePhone(c)
      case SMS => ParseSms(c)
      case GEO => ParseGeo(c)
      case CONTACT => ParsedVCard(c)
      case URL => ParsedUrl(c)
      case TEXT => NewContent(c, TEXT, c, None, None)
  {
    BlankIffTrimEmpty(c);
  }

  /** The same for any non-blank payload: it parses as its trimmed form. */
  lemma ParsedAsTrimmed(raw: string)
    requires !IsBlank(raw)
    ensures Parsed(Some(raw)) == Parsed(Some(Trim(raw)))
  {
    ReparseRawValue(raw);
  }

  /** A payload made of a prefix that starts and ends with non-whitespace
      and any rest: trimming only cuts the end of the rest, and the payload is
      not blank. */
  lemma TrimmedPayload(p: string, s: string)
    requires |p| > 0 && !IsWhitespace(p[0]) && !IsWhitespace(p[|p| - 1])
    ensures Trim(p + s) == p + TrimEnd(s)
    ensures !IsBlank(p + s)
    ensures StartsWith(Trim(p + s), p)
  {
    TrimAfterPrefix(p, s);
    BlankIffTrimEmpty(p + s);
    StartsWithAppend(p, TrimEnd(s));
  }

  /** A string whose last character is not whitespace loses nothing at
      its end. */
  lemma TrimEndNoop(s: string)
    requires s == [] || !IsWhitespace(s[|s| - 1])
    ensures TrimEnd(s) == s
  {
  }

  /** Case-sensitive prefixes classify as their tests say. */
  lemma ClassifyByPrefix(c: string, p: string)
    requires StartsWith(c, p)
    ensures p == "WIFI:" ==> Classify(c) == WIFI
    ensures p == "mailto:" ==> Classify(c) == EMAIL
    ensures p == "tel:" ==> Classify(c) == PHONE
    ensures p == "smsto:" ==> Classify(c) == SMS
    ensures p == "geo:" ==> Classify(c) == GEO
    ensures p == "BEGIN:VCARD" ==> Classify(c) == CONTACT
    ensures p == "http://" || p == "https://" ==> Classify(c) == URL
  {
    StartsWithIsIgnoreCase(c, p);
    ClassifyExact(c);
  }

  lemma StartsWithAppend(p: string, s: string)
    ensures StartsWith(p + s, p)
  {
    assert (p + s)[..|p|] == p;
  }

  // ---------------------------------------------------------------------
  // URL and text

  /** URL generation is idempotent. */
  lemma UrlIdempotent(url: string)
    ensures G.GenerateUrl(G.GenerateUrl(url)) == G.GenerateUrl(url)
  {
  }

  /** A generated URL always parses as a URL. */
  lemma UrlRoundTrip(url: string)
    ensures Parsed(Some(G.GenerateUrl(url))).Some?
    ensures Parsed(Some(G.GenerateUrl(url))).value.contentType == URL
  {
    var c := G.GenerateUrl(url);
    var p := if StartsWith(c, "https://") then "https://" else "http://";
    assert StartsWith(c, p);
    var rest := c[|p|..];
    assert c == p + rest;
    TrimmedPayload(p, rest);
    ClassifyByPrefix(Trim(c), p);
  }

  /** After lower-casing, a payload that starts with "https://" does not
      start with "http://". */
  lemma HttpsIsNotHttp(rest: string)
    ensures !StartsWith(Lowercase("https://" + rest), "http://")
  {
    HttpsLower();
    LoweredPrefix("https://", rest);
    HttpsPrefixed(Lowercase(rest));
  }

  /** "https://" is already lower case. */
  lemma HttpsLower()
    ensures Lowercase("https://") == "https://"
  {
    var s := "https://";
    assert IsLowercaseStable(s[0]) && IsLowercaseStable(s[1]) && IsLowercaseStable(s[2]) && IsLowercaseStable(s[3]);
    assert IsLowercaseStable(s[4]) && IsLowercaseStable(s[5]) && IsLowercaseStable(s[6]) && IsLowercaseStable(s[7]);
    LowercaseStable(s);
  }

  /** Lower-casing keeps a prefix that lower-casing leaves alone. */
  lemma LoweredPrefix(p: string, rest: string)
    requires Lowercase(p) == p
    ensures Lowercase(p + rest) == p + Lowercase(rest)
  {
    LowercaseAppend(p, rest);
  }

  /** "https://" followed by anything does not start with "http://": the
      two differ at index 4. */
  lemma HttpsPrefixed(rest: string)
    ensures !StartsWith("https://" + rest, "http://")
  {
    NotStartsWithAt("https://" + rest, "http://", 4);
  }

  lemma NotHttpNotInsecure(u: string)
    requires !StartsWith(Lowercase(u), "http://")
    ensures UrlWarning(u) != Some(INSECURE_HTTP)
  {
    WarningChain(u);
  }

  /** A URL that gets the "https://" scheme added is never flagged as plain
      http. */
  lemma AddedSchemeIsSecure(url: string)
    requires !(StartsWith(url, "http://") || StartsWith(url, "https://"))
    ensures Parsed(Some(G.GenerateUrl(url))).Some?
    ensures Parsed(Some(G.GenerateUrl(url))).value.securityWarning != Some(INSECURE_HTTP)
  {
    TrimmedPayload("https://", url);
    var t := "https://" + TrimEnd(url);
    ClassifyByPrefix(t, "https://");
    ParsedAsTrimmed("https://" + url);
    TrimIdempotent("https://" + url);
    ParsedTrimmed(t, URL);
    HttpsIsNotHttp(TrimEnd(url));
    NotHttpNotInsecure(t);
  }

  /** Text is stored as given and parses back trimmed. */
  lemma TextRoundTrip(text: string)
    requires !IsBlank(text)
    ensures Parsed(Some(G.GenerateText(text))).value.rawValue == Trim(text)
  {
  }

  // ---------------------------------------------------------------------
  // Phone and SMS

  /** A cleaned number has no whitespace and no ":". */
  lemma DialText(s: string)
    requires forall j :: 0 <= j < |s| ==> G.IsDialChar(s[j])
    ensures TrimEnd(s) == s
    ensures ':' !in s
    ensures s == [] || !IsWhitespace(s[|s| - 1])
  {
  }

  /** A generated phone payload parses as the cleaned number. */
  lemma PhoneRoundTrip(phoneNumber: string)
    ensures var c := G.GeneratePhone(phoneNumber);
            var n := G.CleanNumber(phoneNumber);
            Parsed(Some(c)) == Some(NewContent(c, PHONE, n, None, Some(PhoneData(n))))
  {
    var n := G.CleanNumber(phoneNumber);
    var c := G.GeneratePhone(phoneNumber);
    DialText(n);
    TrimmedPayload("tel:", n);
    ClassifyByPrefix(c, "tel:");
    ParsedTrimmed(c, PHONE);
  }

  /** The parse of "smsto:" + rest when rest does not start with "sms:". */
  lemma ParsedSmsOf(rest: string, n: string, m: Option<string>)
    requires ':' !in n
    requires m.None? ==> rest == n
    requires m.Some? ==> rest == n + ":" + m.value
    requires |rest| > 0 ==> rest[0] != 's'
    requires Trim("smsto:" + rest) == "smsto:" + rest
    ensures Parsed(Some("smsto:" + rest))
         == Some(NewContent("smsto:" + rest, SMS, n, None, Some(SmsData(n, m))))
  {
    var c := "smsto:" + rest;
    StartsWithAppend("smsto:", rest);
    ClassifyByPrefix(c, "smsto:");
    ParsedTrimmed(c, SMS);
    assert c[6..] == rest;
    if |rest| > 0 {
      NotStartsWithAt(rest, "sms:", 0);
    }
    if m.Some? {
      SplitOnceAfterPiece(n, ':', m.value);
    }
  }

  /** A generated SMS payload without a message parses as the cleaned
      number and a null message. */
  lemma SmsWithoutMessage(phoneNumber: string, message: Option<string>)
    requires message.None? || message.value == ""
    ensures var c := G.GenerateSms(phoneNumber, message);
            var n := G.CleanNumber(phoneNumber);
            Parsed(Some(c)) == Some(NewContent(c, SMS, n, None, Some(SmsData(n, None))))
  {
    var n := G.CleanNumber(phoneNumber);
    DialText(n);
    TrimmedPayload("smsto:", n);
    ParsedSmsOf(n, n, None);
  }

  /** The trimmed form of a payload "<scheme><number>:<message>". */
  lemma SmsPayloadTrim(scheme: string, n: string, message: string)
    requires |scheme| > 0 && !IsWhitespace(scheme[0])
    ensures var c := scheme + n + ":" + message;
            && !IsBlank(c)
            && Trim(c) == scheme + (n + ":" + TrimEnd(message))
            && Trim(Trim(c)) == Trim(c)
  {
    var p := scheme + n + ":";
    assert p[0] == scheme[0];
    assert p[|p| - 1] == ':';
    TrimmedPayload(p, message);
    TrimIdempotent(p + message);
    var m := TrimEnd(message);
    AppendAssoc(scheme, n, ":");
    AppendAssoc(scheme, n + ":", m);
  }

  /** A generated SMS payload with a message parses as the cleaned number
      and the message less its trailing whitespace. */
  lemma SmsRoundTrip(phoneNumber: string, message: string)
    requires message != ""
    ensures var n := G.CleanNumber(phoneNumber);
            var m := TrimEnd(message);
            Parsed(Some(G.GenerateSms(phoneNumber, Some(message))))
              == Some(NewContent("smsto:" + (n + ":" + m), SMS, n, None, Some(SmsData(n, Some(m)))))
  {
    var n := G.CleanNumber(phoneNumber);
    var m := TrimEnd(message);
    var c := "smsto:" + n + ":" + message;
    var rest := n + ":" + m;
    DialText(n);
    SmsPayloadTrim("smsto:", n, message);
    ParsedAsTrimmed(c);
    NumberHead(n, m);
    ParsedSmsOf(rest, n, Some(m));
  }

  /** A cleaned number, a ":" and a message: the text does not start with
      "s", since neither a dial character nor ":" is one. */
  lemma NumberHead(n: string, m: string)
    requires forall j :: 0 <= j < |n| ==> G.IsDialChar(n[j])
    ensures var rest := n + ":" + m;
            |rest| > 0 && rest[0] != 's'
  {
    var rest := n + ":" + m;
    if |n| > 0 { assert rest[0] == n[0]; } else { assert rest[0] == ':'; }
  }

  // ---------------------------------------------------------------------
  // E-mail

  /** An optional value, URL-encoded. */
  function Encoded(v: Option<string>): (r: Option<string>)
    ensures r.Some? <==> v.Some?
  {
    match v
    case None => None
    case Some(s) => Some(FormEncoding.Encode(s))
  }

  /** Text made of encoded characters, "=" and "&": it has no whitespace and
      no "?". */
  predicate IsQueryText(s: string) {
    forall j :: 0 <= j < |s| ==> FormEncoding.IsEncodedChar(s[j]) || s[j] == '=' || s[j] == '&'
  }

  lemma QueryTextEnd(s: string)
    requires s != [] && IsQueryText(s)
    ensures !IsWhitespace(s[|s| - 1])
  {
    assert FormEncoding.IsEncodedChar(s[|s| - 1]) || s[|s| - 1] == '=' || s[|s| - 1] == '&';
  }

  /** One "key=<encoded value>" entry: query text without "&". */
  lemma QueryEntry(key: string, v: string)
    requires IsQueryText(key) && '&' !in key
    ensures IsQueryText(key + FormEncoding.Encode(v))
    ensures '&' !in key + FormEncoding.Encode(v)
  {
    FormEncoding.EncodedAlphabet(v);
    FormEncoding.EncodedLacks(v, '&');
  }

  /** Removing the key from "key" + value leaves the value. */
  lemma StripKey(key: string, v: string)
    ensures Strip(Some(key + v), key) == Some(v)
  {
    StartsWithAppend(key, v);
  }

  /** Two entries a and b with keys ka and kb, each entry found only under
      its own key: joined with "&" they split back, and the last entry with
      each key is that entry. */
  lemma QueryPair(a: string, b: string, ka: string, kb: string)
    requires IsQueryText(a) && IsQueryText(b) && '&' !in a && '&' !in b
    requires StartsWith(a, ka) && !StartsWith(a, kb)
    requires StartsWith(b, kb) && !StartsWith(b, ka)
    ensures Join([a, b], "&") == a + "&" + b
    ensures IsQueryText(a + "&" + b)
    ensures Split(a + "&" + b, '&') == [a, b]
    ensures LastWithPrefix([a, b], ka) == Some(a)
    ensures LastWithPrefix([a, b], kb) == Some(b)
  {
    var joined := a + "&" + b;
    assert Join([a, b][1..], "&") == b;
    SplitAfterPiece(a, '&', b);
    SplitNoDelimiter(b, '&');
    forall j | 0 <= j < |joined|
      ensures FormEncoding.IsEncodedChar(joined[j]) || joined[j] == '=' || joined[j] == '&'
    {
      if j < |a| {
        assert joined[j] == a[j];
      } else if j > |a| {
        assert joined[j] == b[j - |a| - 1];
      }
    }
    LastWithPrefixSnoc([a], b, ka);
    LastWithPrefixSnoc([a], b, kb);
    assert [a] + [b] == [a, b];
  }

  /** One entry a with key ka and not key kb. */
  lemma QuerySingle(a: string, ka: string, kb: string)
    requires '&' !in a && StartsWith(a, ka) && !StartsWith(a, kb)
    ensures Join([a], "&") == a
    ensures Split(a, '&') == [a]
    ensures LastWithPrefix([a], ka) == Some(a)
    ensures LastWithPrefix([a], kb) == None
  {
    SplitNoDelimiter(a, '&');
  }

  /** What a generated query must give back: it is query text ending in a
      non-whitespace character, it splits back into the entries, and the
      last subject= and body= entries are the encoded subject and body. */
  predicate QueryGivesBack(params: seq<string>, subject: Option<string>, body: Option<string>) {
    var joined := Join(params, "&");
    && joined != [] && IsQueryText(joined) && !IsWhitespace(joined[|joined| - 1])
    && Split(joined, '&') == params
    && Strip(LastWithPrefix(params, "subject="), "subject=") == Encoded(subject)
    && Strip(LastWithPrefix(params, "body="), "body=") == Encoded(body)
  }

  /** A "key=<encoded value>" entry starts with its key and not with the
      other key. */
  lemma KeyedEntry(key: string, other: string, v: string)
    requires key == "subject=" || key == "body="
    requires other == "subject=" || other == "body="
    requires key != other
    ensures IsQueryText(key + FormEncoding.Encode(v)) && '&' !in key + FormEncoding.Encode(v)
    ensures StartsWith(key + FormEncoding.Encode(v), key)
    ensures !StartsWith(key + FormEncoding.Encode(v), other)
    ensures Strip(Some(key + FormEncoding.Encode(v)), key) == Some(FormEncoding.Encode(v))
  {
    QueryEntry(key, v);
    StripKey(key, FormEncoding.Encode(v));
    StartsWithAppend(key, FormEncoding.Encode(v));
    NotStartsWithAt(key + FormEncoding.Encode(v), other, 0);
  }

  lemma EmailQueryBoth(subject: string, body: string)
    ensures QueryGivesBack(G.EmailParams(Some(subject), Some(body)), Some(subject), Some(body))
  {
    var sp := "subject=" + FormEncoding.Encode(subject);
    var bp := "body=" + FormEncoding.Encode(body);
    KeyedEntry("subject=", "body=", subject);
    KeyedEntry("body=", "subject=", body);
    assert G.EmailParams(Some(subject), Some(body)) == [sp, bp];
    QueryPair(sp, bp, "subject=", "body=");
    assert (sp + "&" + bp)[|sp + "&" + bp| - 1] == bp[|bp| - 1];
    QueryTextEnd(bp);
  }

  lemma EmailQuerySubject(subject: string)
    ensures QueryGivesBack(G.EmailParams(Some(subject), None), Some(subject), None)
  {
    var sp := "subject=" + FormEncoding.Encode(subject);
    KeyedEntry("subject=", "body=", subject);
    assert G.EmailParams(Some(subject), None) == [sp];
    QuerySingle(sp, "subject=", "body=");
    QueryTextEnd(sp);
  }

  lemma EmailQueryBody(body: string)
    ensures QueryGivesBack(G.EmailParams(None, Some(body)), None, Some(body))
  {
    var bp := "body=" + FormEncoding.Encode(body);
    KeyedEntry("body=", "subject=", body);
    assert G.EmailParams(None, Some(body)) == [bp];
    QuerySingle(bp, "body=", "subject=");
    QueryTextEnd(bp);
  }

  /** A mailto payload "mailto:<email>?<query>" is its own trimmed form, is
      an e-mail, and splits into the address and the query. */
  lemma EmailPayload(scheme: string, email: string, query: string)
    requires scheme == "mailto:"
    requires '?' !in email
    requires query != [] && IsQueryText(query) && !IsWhitespace(query[|query| - 1])
    ensures var c := scheme + email + "?" + query;
            && Trim(c) == c && c != ""
            && Classify(c) == EMAIL
            && Split(RemovePrefix(c, "mailto:"), '?') == [email, query]
  {
    var c := scheme + email + "?" + query;
    var rest := email + "?" + query;
    AppendAssoc(scheme, email, "?");
    AppendAssoc(scheme, email + "?", query);
    assert c[|c| - 1] == query[|query| - 1];
    TrimNoop(c);
    StartsWithAppend(scheme, rest);
    ClassifyByPrefix(c, "mailto:");
    assert c[|scheme|..] == rest;
    QueryTextUnquestioned(query);
    SplitAfterPiece(email, '?', query);
    SplitNoDelimiter(query, '?');
  }

  /** Form-encoded text holds no "?". */
  lemma QueryTextUnquestioned(query: string)
    requires IsQueryText(query)
    ensures '?' !in query
  {
    forall j | 0 <= j < |query| ensures query[j] != '?' {
      assert FormEncoding.IsEncodedChar(query[j]) || query[j] == '=' || query[j] == '&';
    }
  }

  /** The extraction from a mailto payload whose address and query are
      known. */
  lemma ParsedEmailOf(c: string, email: string, params: seq<string>)
    requires Split(RemovePrefix(c, "mailto:"), '?') == [email, Join(params, "&")]
    requires Split(Join(params, "&"), '&') == params
    ensures ParsedEmail(c)
         == NewContent(c, EMAIL, email, None,
                       Some(EmailData(email, Strip(LastWithPrefix(params, "subject="), "subject="),
                                      Strip(LastWithPrefix(params, "body="), "body="))))
  {
  }

  /** A mailto payload with a subject and/or a body parses back to the
      address and the still-encoded subject and body. */
  lemma EmailRoundTrip(email: string, subject: Option<string>, body: Option<string>)
    requires '?' !in email
    requires subject.Some? || body.Some?
    ensures var c := G.GenerateEmail(email, subject, body);
            Parsed(Some(c))
              == Some(NewContent(c, EMAIL, email, None,
                                 Some(EmailData(email, Encoded(subject), Encoded(body)))))
  {
    var params := G.EmailParams(subject, body);
    var joined := Join(params, "&");
    if subject.Some? && body.Some? {
      EmailQueryBoth(subject.value, body.value);
    } else if subject.Some? {
      EmailQuerySubject(subject.value);
    } else {
      EmailQueryBody(body.value);
    }
    assert QueryGivesBack(params, subject, body);
    var c := "mailto:" + email + "?" + joined;
    QueryMailto(email, subject, body);
    EmailPayload("mailto:", email, joined);
    ParsedTrimmed(c, EMAIL);
    ParsedEmailOf(c, email, params);
  }

  /** With a subject or a body the address is followed by "?" and the
      joined parameters. */
  lemma QueryMailto(email: string, subject: Option<string>, body: Option<string>)
    requires subject.Some? || body.Some?
    ensures G.GenerateEmail(email, subject, body)
         == "mailto:" + email + "?" + Join(G.EmailParams(subject, body), "&")
  {
  }

  /** The trimmed form of a payload "<scheme><rest>". */
  lemma SchemePayloadTrim(scheme: string, rest: string)
    requires |scheme| > 0 && !IsWhitespace(scheme[0]) && !IsWhitespace(scheme[|scheme| - 1])
    ensures !IsBlank(scheme + rest)
    ensures Trim(scheme + rest) == scheme + TrimEnd(rest)
    ensures Trim(Trim(scheme + rest)) == Trim(scheme + rest)
  {
    TrimmedPayload(scheme, rest);
    TrimIdempotent(scheme + rest);
  }

  /** A `mailto:` payload parses as the e-mail of its trimmed form. */
  lemma MailtoParsed(email: string)
    ensures var t := "mailto:" + TrimEnd(email);
            && Parsed(Some("mailto:" + email)) == Some(ParsedEmail(t))
            && RemovePrefix(t, "mailto:") == TrimEnd(email)
  {
    var address := TrimEnd(email);
    var c := "mailto:" + email;
    var t := "mailto:" + address;
    SchemePayloadTrim("mailto:", email);
    ParsedAsTrimmed(c);
    StartsWithAppend("mailto:", address);
    ClassifyByPrefix(t, "mailto:");
    assert Trim(t) == t && t != "";
    ParsedTrimmed(t, EMAIL);
  }

  /** Without subject and body the address comes back less its trailing
      whitespace. */
  lemma EmailAddressOnly(email: string)
    requires '?' !in email
    ensures var address := TrimEnd(email);
            Parsed(Some(G.GenerateEmail(email, None, None)))
              == Some(NewContent("mailto:" + address, EMAIL, address, None,
                                 Some(EmailData(address, None, None))))
  {
    var address := TrimEnd(email);
    BareMailto(email);
    MailtoParsed(email);
    TrimEndLacks(email, '?');
    AddressOnlyOf("mailto:" + address, address);
  }

  /** With neither subject nor body the payload is "mailto:" and the
      address. */
  lemma BareMailto(email: string)
    ensures G.GenerateEmail(email, None, None) == "mailto:" + email
  {
    assert G.EmailParams(None, None) == [];
    assert "mailto:" + email + "" == "mailto:" + email;
  }

  /** Trimming the end adds no character. */
  lemma TrimEndLacks(s: string, c: char)
    requires c !in s
    ensures c !in TrimEnd(s)
  {
    assert TrimEnd(s) == s[..|TrimEnd(s)|];
  }

  lemma AddressOnlyOf(t: string, address: string)
    requires RemovePrefix(t, "mailto:") == address && '?' !in address
    ensures ParsedEmail(t) == NewContent(t, EMAIL, address, None, Some(EmailData(address, None, None)))
  {
  }

  // ---------------------------------------------------------------------
  // Geo

  /** The printed form of a coordinate: a run of [\-\d.] that is a decimal
      literal ("12.5", "-0.25"). */
  predicate IsCoordinateText(s: string) {
    IsGeoNumber(s) && IsDecimalLiteral(s)
  }

  /** A geo payload "geo:<lat>,<lng><tail>" with a tail that is empty or
      ends in a non-whitespace character is its own trimmed form and is a
      geo payload. */
  lemma GeoPayload(latitude: string, longitude: string, tail: string)
    requires IsGeoNumber(latitude) && IsGeoNumber(longitude)
    requires tail == [] || !IsWhitespace(tail[|tail| - 1])
    ensures var c := "geo:" + latitude + "," + longitude + tail;
            Trim(c) == c && c != "" && Classify(c) == GEO
  {
    var c := "geo:" + latitude + "," + longitude + tail;
    var body := latitude + "," + longitude + tail;
    assert c == "geo:" + body;
    assert c[|c| - 1] == if tail == [] then longitude[|longitude| - 1] else tail[|tail| - 1];
    TrimNoop(c);
    StartsWithAppend("geo:", body);
    ClassifyByPrefix(c, "geo:");
  }

  /** A generated geo payload without a label parses to its coordinates
      with the empty label "" (not null). */
  lemma GeoRoundTripUnlabelled(latitude: string, longitude: string, place: Option<string>)
    requires IsCoordinateText(latitude) && IsCoordinateText(longitude)
    requires place.None? || place.value == ""
    ensures var c := G.GenerateGeo(latitude, longitude, place);
            Parsed(Some(c))
              == Some(NewContent(c, GEO, "", None, Some(GeoData(latitude, longitude, Some("")))))
  {
    var c := "geo:" + latitude + "," + longitude;
    GeoPayload(latitude, longitude, []);
    assert c + [] == c;
    ParsedTrimmed(c, GEO);
    MatchGeoOf(latitude, longitude, []);
  }

  /** The generated labelled payload, regrouped as coordinates followed by
      "?q=" and the label text. */
  lemma GeoLabelledShape(latitude: string, longitude: string, enc: string)
    ensures "geo:" + latitude + "," + longitude + "?q=" + latitude + "," + longitude + "(" + enc + ")"
         == "geo:" + latitude + "," + longitude + ("?q=" + (latitude + "," + longitude + "(" + enc + ")"))
  {
  }

  /** A coordinate number holds no "=" and no "&". */
  lemma NumberLacks(s: string)
    requires IsGeoNumber(s)
    ensures '=' !in s && '&' !in s
  {
    forall j | 0 <= j < |s| ensures s[j] != '=' && s[j] != '&' {
      assert IsGeoNumberChar(s[j]);
    }
  }

  /** The label text holds no "=" and no "&": the coordinates cannot, and
      the encoded label holds neither. */
  lemma GeoLabelChars(latitude: string, longitude: string, place: string)
    requires IsGeoNumber(latitude) && IsGeoNumber(longitude)
    ensures var text := latitude + "," + longitude + "(" + FormEncoding.Encode(place) + ")";
            '=' !in text && '&' !in text
  {
    NumberLacks(latitude);
    NumberLacks(longitude);
    FormEncoding.EncodedLacks(place, '=');
    FormEncoding.EncodedLacks(place, '&');
  }

  /** A generated geo payload with a label parses to its coordinates and
      the text after "q=": the coordinates again and the encoded label in
      parentheses. */
  lemma GeoRoundTripLabelled(latitude: string, longitude: string, place: string)
    requires IsCoordinateText(latitude) && IsCoordinateText(longitude)
    requires place != ""
    ensures var c := G.GenerateGeo(latitude, longitude, Some(place));
            var text := latitude + "," + longitude + "(" + FormEncoding.Encode(place) + ")";
            Parsed(Some(c))
              == Some(NewContent(c, GEO, text, None, Some(GeoData(latitude, longitude, Some(text)))))
  {
    var enc := FormEncoding.Encode(place);
    var text := latitude + "," + longitude + "(" + enc + ")";
    var tail := "?q=" + text;
    var c := "geo:" + latitude + "," + longitude + tail;
    GeoLabelledShape(latitude, longitude, enc);
    assert G.GenerateGeo(latitude, longitude, Some(place)) == c;
    assert tail[|tail| - 1] == ')';
    GeoPayload(latitude, longitude, tail);
    ParsedTrimmed(c, GEO);
    GeoLabelChars(latitude, longitude, place);
    MatchGeoQuery(latitude, longitude, text);
  }

  /** The number run after "geo:1.0" stops at the "E", which is not the
      comma the pattern needs. */
  lemma ExponentUnmatched(c: string)
    requires c == "geo:1.0E-4,2.0"
    ensures MatchGeo(c).None?
  {
    var s1 := c[4..];
    assert s1 == "1.0E-4,2.0";
    assert IsGeoNumberChar(s1[0]) && IsGeoNumberChar(s1[1]) && IsGeoNumberChar(s1[2]);
    assert !IsGeoNumberChar(s1[3]);
  }

  /** A geo payload outside the geo pattern scans back as 0.0, 0.0 with no
      label. */
  lemma UnmatchedGeoScansAsOrigin(c: string)
    requires c != "" && Trim(c) == c && Classify(c) == GEO && MatchGeo(c).None?
    ensures Parsed(Some(c))
              == Some(NewContent(c, GEO, "0.0, 0.0", None,
                                 Some(GeoData(DefaultCoordinate, DefaultCoordinate, None))))
  {
    ParsedTrimmed(c, GEO);
  }

  /** A coordinate printed in exponent form, as `Double.toString` prints
      1.0E-4, is outside the geo pattern: the payload is still a geo code,
      but it scans back as 0.0, 0.0 with no label. */
  lemma ExponentCoordinateScansAsOrigin()
    ensures var c := G.GenerateGeo("1.0E-4", "2.0", None);
            MatchGeo(c).None?
            && Parsed(Some(c))
                 == Some(NewContent(c, GEO, "0.0, 0.0", None,
                                    Some(GeoData(DefaultCoordinate, DefaultCoordinate, None))))
  {
    var c := G.GenerateGeo("1.0E-4", "2.0", None);
    ExponentPayload(c);
    UnmatchedGeoScansAsOrigin(c);
  }

  /** The exponent-form payload is its own trimmed form, a geo code, and
      outside the geo pattern. */
  lemma ExponentPayload(c: string)
    requires c == G.GenerateGeo("1.0E-4", "2.0", None)
    ensures c != "" && Trim(c) == c && Classify(c) == GEO && MatchGeo(c).None?
  {
    assert c == "geo:" + "1.0E-4,2.0";
    ExponentUnmatched(c);
    TrimNoop(c);
    StartsWithAppend("geo:", "1.0E-4,2.0");
    ClassifyByPrefix(c, "geo:");
  }

  // ---------------------------------------------------------------------
  // Event

  /** A payload that starts like "BEGIN:VEVENT" passes no test: only the
      vCard test shares its first letter, and it fails at "E" against "C". */
  lemma EventHeaderIsText(t: string)
    requires |t| > 7 && t[0] == 'B' && t[7] == 'E'
    ensures Classify(t) == TEXT
  {
    FirstLetters(t);
    ClassifyExact(t);
  }

  /** Newline-terminated lines whose text starts and ends with
      non-whitespace: trimming removes only the final newline, and the text
      starts with the first line. */
  lemma TerminatedPayload(init: seq<string>, last: string)
    requires |init| > 0 && |init[0]| > 0 && !IsWhitespace(init[0][0])
    requires |last| > 0 && !IsWhitespace(last[|last| - 1])
    ensures Trim(Terminated(init + [last])) == Terminated(init) + last
    ensures !IsBlank(Terminated(init + [last]))
    ensures StartsWith(Terminated(init) + last, init[0])
  {
    TerminatedSnoc(init, last);
    TerminatedStartsWith(init);
    var p := Terminated(init) + last;
    assert Terminated(init)[..|init[0]|] == init[0];
    assert p[0] == Terminated(init)[..|init[0]|][0];
    assert p[|p| - 1] == last[|last| - 1];
    TrimmedPayload(p, "\n");
    assert TrimEnd("\n") == "";
    assert p + "" == p;
    assert p[..|init[0]|] == Terminated(init)[..|init[0]|];
  }

  /** The same for an event: its text starts with "B" and has "E" at
      index 7. */
  lemma EventPayload(init: seq<string>, last: string)
    requires |init| > 0 && init[0] == "BEGIN:VEVENT" && last == "END:VEVENT"
    ensures var p := Terminated(init) + last;
            && Trim(Terminated(init + [last])) == p
            && !IsBlank(Terminated(init + [last]))
            && |p| > 7 && p[0] == 'B' && p[7] == 'E'
  {
    EventTexts();
    TerminatedPayload(init, last);
    PrefixChars(Terminated(init) + last, init[0]);
  }

  /** The characters of the event's first and last lines that the payload
      facts need. */
  lemma EventTexts()
    ensures var b, e := "BEGIN:VEVENT", "END:VEVENT";
            && |b| > 7 && b[0] == 'B' && b[7] == 'E' && !IsWhitespace(b[0])
            && |e| > 0 && !IsWhitespace(e[|e| - 1])
  {
  }

  /** A text shares its first and eighth characters with a long enough
      prefix. */
  lemma PrefixChars(p: string, q: string)
    requires StartsWith(p, q) && |q| > 7
    ensures |p| > 7 && p[0] == q[0] && p[7] == q[7]
  {
    assert p[0] == p[..|q|][0];
    assert p[7] == p[..|q|][7];
  }

  /** No test recognises BEGIN:VEVENT: a generated event parses as text,
      its trailing newline trimmed away. */
  lemma EventIsText(title: string, location: Option<string>, startDateTime: string,
                    endDateTime: Option<string>, description: Option<string>)
    ensures var c := G.GenerateEvent(title, location, startDateTime, endDateTime, description);
            && Trim(c) + "\n" == c
            && Parsed(Some(c)) == Some(NewContent(Trim(c), TEXT, Trim(c), None, None))
  {
    var ls := G.EventLines(title, location, startDateTime, endDateTime, description);
    var init := ls[..|ls| - 1];
    assert ls == init + ["END:VEVENT"];
    EventPayload(init, "END:VEVENT");
    TerminatedSnoc(init, "END:VEVENT");
    var c := Terminated(ls);
    EventHeaderIsText(Trim(c));
    TextFallback(c);
  }

  // ---------------------------------------------------------------------
  // Wi-Fi

  /** The password a generated Wi-Fi payload carries: a non-empty password
      on a secured network. */
  function SentPassword(password: Option<string>, security: G.WifiSecurityType): (r: Option<string>)
    ensures r.Some? ==> password == r && r.value != "" && security != G.NONE
    ensures r.None? ==> password.None? || password.value == "" || security == G.NONE
  {
    if password.Some? && password.value != "" && security != G.NONE then password else None
  }

  /** The segment text between "WIFI:" and the final ";". */
  function WifiBody(t: string, s: string, p: Option<string>): string {
    t + ";" + s + ";" + (if p.Some? then p.value + ";" else "")
  }

  lemma SplitPieces2(a: string, b: string, tail: string)
    requires ';' !in a && ';' !in b
    ensures Split(a + ";" + b + ";" + tail, ';') == [a, b] + Split(tail, ';')
  {
    assert a + ";" + b + ";" + tail == a + [';'] + (b + [';'] + tail);
    SplitAfterPiece(a, ';', b + [';'] + tail);
    SplitAfterPiece(b, ';', tail);
  }

  /** Three or four segments split back at ";". */
  lemma WifiBodySplit(t: string, s: string, p: Option<string>)
    requires ';' !in t && ';' !in s && (p.Some? ==> ';' !in p.value)
    ensures Split(WifiBody(t, s, p), ';')
         == [t, s] + (if p.Some? then [p.value] else []) + [""]
  {
    var tail := if p.Some? then p.value + ";" else "";
    SplitPieces2(t, s, tail);
    EmptySplit();
    if p.Some? {
      LastPiece(p.value);
    }
  }

  /** The empty text splits into one empty piece. */
  lemma EmptySplit()
    ensures Split("", ';') == [""]
  {
    assert IndexOf("", ';') == None;
  }

  /** A piece closed by ";" splits into the piece and an empty one. */
  lemma LastPiece(a: string)
    requires ';' !in a
    ensures Split(a + ";", ';') == [a, ""]
  {
    assert a + ";" == a + [';'] + "";
    SplitAfterPiece(a, ';', "");
    EmptySplit();
  }

  /** "WIFI:" + body + ";" has the segments of body. */
  lemma WifiFrame(body: string)
    ensures WifiSegments("WIFI:" + body + ";") == Split(body, ';')
  {
    var v := "WIFI:" + body + ";";
    StartsWithAppend("WIFI:", body + ";");
    assert v == "WIFI:" + (body + ";");
    assert RemovePrefix(v, "WIFI:") == body + ";";
    assert (body + ";")[|body|..] == ";";
    assert (body + ";")[..|body|] == body;
  }

  /** The last segment with each key, when the type, SSID and password
      segments start with different keys and the list ends in "". */
  lemma WifiKeys(t: string, s: string, p: Option<string>)
    requires StartsWith(t, "T:") && StartsWith(s, "S:") && (p.Some? ==> StartsWith(p.value, "P:"))
    ensures var parts := [t, s] + (if p.Some? then [p.value] else []) + [""];
            && LastWithPrefix(parts, "T:") == Some(t)
            && LastWithPrefix(parts, "S:") == Some(s)
            && LastWithPrefix(parts, "P:") == p
  {
    var front := [t, s] + (if p.Some? then [p.value] else []);
    var parts := front + [""];
    StartsWithHead(t, "T:");
    StartsWithHead(s, "S:");
    NotStartsWithAt(t, "S:", 0);
    NotStartsWithAt(t, "P:", 0);
    NotStartsWithAt(s, "T:", 0);
    NotStartsWithAt(s, "P:", 0);
    LastWithPrefixSnoc(front, "", "T:");
    LastWithPrefixSnoc(front, "", "S:");
    LastWithPrefixSnoc(front, "", "P:");
    LastWithPrefixSnoc([t], s, "T:");
    LastWithPrefixSnoc([t], s, "S:");
    LastWithPrefixSnoc([t], s, "P:");
    assert [t] + [s] == [t, s];
    if p.Some? {
      StartsWithHead(p.value, "P:");
      NotStartsWithAt(p.value, "T:", 0);
      NotStartsWithAt(p.value, "S:", 0);
      LastWithPrefixSnoc([t, s], p.value, "T:");
      LastWithPrefixSnoc([t, s], p.value, "S:");
      LastWithPrefixSnoc([t, s], p.value, "P:");
    } else {
      assert front == [t, s];
    }
  }

  /** What the parser reads back as the password: the sent password,
      escaped. */
  function EscapedPassword(sent: Option<string>): Option<string> {
    match sent
    case None => None
    case Some(p) => Some(G.EscapeWifi(p))
  }

  /** The generated payload, regrouped as "WIFI:" + segments + ";". */
  lemma WifiLayout(ssid: string, password: Option<string>, security: G.WifiSecurityType)
    ensures var sent := SentPassword(password, security);
            var p := if sent.Some? then Some("P:" + G.EscapeWifi(sent.value)) else None;
            G.GenerateWifi(ssid, password, security)
              == "WIFI:" + WifiBody("T:" + G.SecurityName(security), "S:" + G.EscapeWifi(ssid), p) + ";"
  {
    var sent := SentPassword(password, security);
    var x := if sent.Some? then "P:" + G.EscapeWifi(sent.value) + ";" else "";
    var p := if sent.Some? then Some("P:" + G.EscapeWifi(sent.value)) else None;
    assert (if p.Some? then p.value + ";" else "") == x;
    WifiRegroup("WIFI:", "T:", G.SecurityName(security), "S:", G.EscapeWifi(ssid), x);
  }

  /** The regrouping behind `WifiLayout`, on any pieces. */
  lemma WifiRegroup(w: string, t: string, a: string, s: string, b: string, x: string)
    ensures w + t + a + ";" + s + b + ";" + x + ";" == w + ((t + a) + ";" + (s + b) + ";" + x) + ";"
  {
  }

  /** "WIFI:" + body + ";" is its own trimmed form and a Wi-Fi payload. */
  lemma WifiFrameTrim(body: string)
    ensures var c := "WIFI:" + body + ";";
            Trim(c) == c && c != "" && Classify(c) == WIFI
  {
    var c := "WIFI:" + body + ";";
    assert c == "WIFI:" + (body + ";");
    assert c[|c| - 1] == ';';
    TrimNoop(c);
    StartsWithAppend("WIFI:", body + ";");
    ClassifyByPrefix(c, "WIFI:");
  }

  /** The extraction from a Wi-Fi payload built from a type, an SSID and an
      optional password segment. */
  lemma WifiRead(t: string, s: string, p: Option<string>)
    requires ';' !in t && ';' !in s && (p.Some? ==> ';' !in p.value)
    requires StartsWith(t, "T:") && StartsWith(s, "S:") && (p.Some? ==> StartsWith(p.value, "P:"))
    ensures var c := "WIFI:" + WifiBody(t, s, p) + ";";
            var ssid := RemovePrefix(s, "S:");
            ParsedWifi(c)
              == NewContent(c, WIFI, if ssid == "" then WifiPlaceholder else ssid, None,
                            Some(WifiData(ssid, Strip(p, "P:"), RemovePrefix(t, "T:"))))
  {
    WifiBodySplit(t, s, p);
    WifiFrame(WifiBody(t, s, p));
    WifiKeys(t, s, p);
  }

  /** A generated Wi-Fi payload whose SSID and sent password hold no ";"
      parses back to the escaped SSID, the escaped password when one was
      sent (otherwise none) and the security name; escapes are not undone. */
  lemma WifiRoundTrip(ssid: string, password: Option<string>, security: G.WifiSecurityType)
    requires ';' !in ssid
    requires SentPassword(password, security).Some? ==> ';' !in password.value
    ensures var c := G.GenerateWifi(ssid, password, security);
            var e := G.EscapeWifi(ssid);
            Parsed(Some(c))
              == Some(NewContent(c, WIFI, if e == "" then WifiPlaceholder else e, None,
                                 Some(WifiData(e, EscapedPassword(SentPassword(password, security)),
                                               G.SecurityName(security)))))
  {
    var sent := SentPassword(password, security);
    var e := G.EscapeWifi(ssid);
    var sec := G.SecurityName(security);
    var pe := if sent.Some? then Some("P:" + G.EscapeWifi(sent.value)) else None;
    G.EscapeWifiKeepsChars(ssid, ';');
    PasswordSegment(sent);
    KeySegment("T:", sec);
    KeySegment("S:", e);
    WifiLayout(ssid, password, security);
    WifiSegmentsRead("T:" + sec, "S:" + e, pe);
  }

  /** The password segment that is written, if any: it holds no ";",
      starts with "P:" and carries the escaped password. */
  lemma PasswordSegment(sent: Option<string>)
    requires sent.Some? ==> ';' !in sent.value
    ensures var pe := if sent.Some? then Some("P:" + G.EscapeWifi(sent.value)) else None;
            && (pe.Some? ==> ';' !in pe.value && StartsWith(pe.value, "P:"))
            && Strip(pe, "P:") == EscapedPassword(sent)
  {
    if sent.Some? {
      G.EscapeWifiKeepsChars(sent.value, ';');
      KeySegment("P:", G.EscapeWifi(sent.value));
      StripKey("P:", G.EscapeWifi(sent.value));
    }
  }

  /** A segment made of a key and a value, neither holding ";". */
  lemma KeySegment(key: string, v: string)
    requires ';' !in key && ';' !in v
    ensures ';' !in key + v && StartsWith(key + v, key) && RemovePrefix(key + v, key) == v
  {
    StartsWithAppend(key, v);
    assert (key + v)[|key|..] == v;
  }

  /** A frame of a type, an SSID and an optional password segment parses
      as the Wi-Fi content read from them. */
  lemma WifiSegmentsRead(t: string, s: string, p: Option<string>)
    requires ';' !in t && ';' !in s && (p.Some? ==> ';' !in p.value)
    requires StartsWith(t, "T:") && StartsWith(s, "S:") && (p.Some? ==> StartsWith(p.value, "P:"))
    ensures var c := "WIFI:" + WifiBody(t, s, p) + ";";
            var ssid := RemovePrefix(s, "S:");
            Parsed(Some(c))
              == Some(NewContent(c, WIFI, if ssid == "" then WifiPlaceholder else ssid, None,
                                 Some(WifiData(ssid, Strip(p, "P:"), RemovePrefix(t, "T:")))))
  {
    WifiFrameTrim(WifiBody(t, s, p));
    ParsedTrimmed("WIFI:" + WifiBody(t, s, p) + ";", WIFI);
    WifiRead(t, s, p);
  }

  /** With an SSID and a non-empty password free of the five special
      characters, a secured network comes back exactly. */
  lemma WifiPlainRoundTrip(ssid: string, password: string, security: G.WifiSecurityType)
    requires forall j :: 0 <= j < |ssid| ==> !G.IsWifiSpecial(ssid[j])
    requires forall j :: 0 <= j < |password| ==> !G.IsWifiSpecial(password[j])
    requires password != "" && security != G.NONE
    ensures var r := Parsed(Some(G.GenerateWifi(ssid, Some(password), security)));
            && r.Some?
            && r.value.parsedData
               == Some(WifiData(ssid, Some(password), if security == G.WPA then "WPA" else "WEP"))
  {
    G.EscapeWifiPlain(ssid);
    G.EscapeWifiPlain(password);
    WifiRoundTrip(ssid, Some(password), security);
  }

  /** An open network never carries a password: the parse gives none and
      the security name "nopass", whatever password was entered. */
  lemma WifiOpenNetwork(ssid: string, password: Option<string>)
    requires ';' !in ssid
    ensures var r := Parsed(Some(G.GenerateWifi(ssid, password, G.NONE)));
            r.Some? && r.value.parsedData == Some(WifiData(G.EscapeWifi(ssid), None, "nopass"))
  {
    var e := G.EscapeWifi(ssid);
    assert SentPassword(password, G.NONE) == None;
    WifiRoundTrip(ssid, password, G.NONE);
    ParsedDataOf(G.GenerateWifi(ssid, password, G.NONE), WIFI,
                 if e == "" then WifiPlaceholder else e, WifiData(e, None, "nopass"));
  }

  /** The parsed data of a payload known to parse to a content. */
  lemma ParsedDataOf(c: string, t: ContentType, display: string, d: ParsedQrData)
    requires Parsed(Some(c)) == Some(NewContent(c, t, display, None, Some(d)))
    ensures Parsed(Some(c)).Some? && Parsed(Some(c)).value.parsedData == Some(d)
  {
  }

  /** The lossy case: the SSID comes back escaped, one backslash longer for
      each special character, and differs from the input whenever it has
      one. */
  lemma WifiEscapesKept(ssid: string, password: Option<string>, security: G.WifiSecurityType)
    requires ';' !in ssid
    requires SentPassword(password, security).Some? ==> ';' !in password.value
    ensures var r := Parsed(Some(G.GenerateWifi(ssid, password, security)));
            && r.Some? && r.value.parsedData.Some? && r.value.parsedData.value.WifiData?
            && |r.value.parsedData.value.ssid| == |ssid| + G.CountWifiSpecial(ssid)
            && (G.CountWifiSpecial(ssid) > 0 ==> r.value.parsedData.value.ssid != ssid)
  {
    WifiRoundTrip(ssid, password, security);
    G.EscapeWifiLength(ssid);
  }

  // ---------------------------------------------------------------------
  // vCard

  /** The first available of two answers. */
  function OrElse(a: Option<string>, b: Option<string>): (r: Option<string>)
    ensures r.Some? <==> a.Some? || b.Some?
  {
    if a.Some? then a else b
  }

  /** The last keyed line of two blocks: from the second block if it has
      one, otherwise from the first. */
  lemma {:induction false} LastWithPrefixAppend(a: seq<string>, b: seq<string>, key: string)
    ensures LastWithPrefix(a + b, key) == OrElse(LastWithPrefix(b, key), LastWithPrefix(a, key))
    decreases |b|
  {
    if |b| == 0 {
      assert a + b == a;
    } else {
      var init := b[..|b| - 1];
      var x := b[|b| - 1];
      assert b == init + [x];
      assert a + b == (a + init) + [x];
      LastWithPrefixSnoc(a + init, x, key);
      LastWithPrefixSnoc(init, x, key);
      LastWithPrefixAppend(a, init, key);
    }
  }

  /** An optional line whose fixed prefix differs from the key at index j
      never starts with the key. */
  lemma OptionalUnkeyed(prefix: string, v: Option<string>, suffix: string, key: string, j: nat)
    requires j < |prefix| && j < |key| && prefix[j] != key[j]
    ensures LastWithPrefix(G.OptionalLine(prefix, v, suffix), key) == None
  {
    if v.Some? {
      var l := prefix + v.value + suffix;
      assert l[j] == prefix[j];
      NotStartsWithAt(l, key, j);
      assert G.OptionalLine(prefix, v, suffix) == [l];
    }
  }

  /** An optional line whose fixed prefix starts with the key. */
  lemma OptionalKeyed(prefix: string, v: Option<string>, suffix: string, key: string)
    requires StartsWith(prefix, key)
    ensures LastWithPrefix(G.OptionalLine(prefix, v, suffix), key)
         == if v.Some? then Some(prefix + v.value + suffix) else None
  {
    if v.Some? {
      var l := prefix + v.value + suffix;
      assert l[..|key|] == prefix[..|key|];
      assert G.OptionalLine(prefix, v, suffix) == [l];
    }
  }

  /** The four fixed lines that open every generated card. */
  function VCardHeader(name: string): seq<string> {
    ["BEGIN:VCARD", "VERSION:3.0", G.NameLine(name), "FN:" + name]
  }

  /** The last line with a key, read off the blocks of a generated card,
      last block first. */
  function LastOfBlocks(key: string, name: string, phone: Option<string>, email: Option<string>,
                        company: Option<string>, title: Option<string>,
                        address: Option<string>, website: Option<string>,
                        note: Option<string>): Option<string>
  {
    OrElse(LastWithPrefix(["END:VCARD"], key),
    OrElse(LastWithPrefix(G.OptionalLine("NOTE:", note, ""), key),
    OrElse(LastWithPrefix(G.OptionalLine("URL:", website, ""), key),
    OrElse(LastWithPrefix(G.OptionalLine("ADR:;;", address, ";;;;"), key),
    OrElse(LastWithPrefix(G.OptionalLine("TITLE:", title, ""), key),
    OrElse(LastWithPrefix(G.OptionalLine("ORG:", company, ""), key),
    OrElse(LastWithPrefix(G.OptionalLine("EMAIL:", email, ""), key),
    OrElse(LastWithPrefix(G.OptionalLine("TEL:", phone, ""), key),
           LastWithPrefix(VCardHeader(name), key)))))))))
  }

  lemma VCardBlocks(key: string, name: string, phone: Option<string>, email: Option<string>,
                    company: Option<string>, title: Option<string>,
                    address: Option<string>, website: Option<string>,
                    note: Option<string>)
    ensures LastWithPrefix(G.VCardLines(name, phone, email, company, title, address, website, note), key)
         == LastOfBlocks(key, name, phone, email, company, title, address, website, note)
  {
    var b0 := VCardHeader(name);
    var b1 := b0 + G.OptionalLine("TEL:", phone, "");
    var b2 := b1 + G.OptionalLine("EMAIL:", email, "");
    var b3 := b2 + G.OptionalLine("ORG:", company, "");
    var b4 := b3 + G.OptionalLine("TITLE:", title, "");
    var b5 := b4 + G.OptionalLine("ADR:;;", address, ";;;;");
    var b6 := b5 + G.OptionalLine("URL:", website, "");
    var b7 := b6 + G.OptionalLine("NOTE:", note, "");
    assert G.VCardLines(name, phone, email, company, title, address, website, note) == b7 + ["END:VCARD"];
    LastWithPrefixAppend(b7, ["END:VCARD"], key);
    LastWithPrefixAppend(b6, G.OptionalLine("NOTE:", note, ""), key);
    LastWithPrefixAppend(b5, G.OptionalLine("URL:", website, ""), key);
    LastWithPrefixAppend(b4, G.OptionalLine("ADR:;;", address, ";;;;"), key);
    LastWithPrefixAppend(b3, G.OptionalLine("TITLE:", title, ""), key);
    LastWithPrefixAppend(b2, G.OptionalLine("ORG:", company, ""), key);
    LastWithPrefixAppend(b1, G.OptionalLine("EMAIL:", email, ""), key);
    LastWithPrefixAppend(b0, G.OptionalLine("TEL:", phone, ""), key);
  }

  /** The N: line starts with N. */
  lemma NameLineHead(name: string)
    ensures |G.NameLine(name)| > 0 && G.NameLine(name)[0] == 'N'
  {
  }

  /** Four lines none of which starts with a key. */
  lemma FourUnkeyed(a: string, b: string, c: string, d: string, key: string)
    requires !StartsWith(a, key) && !StartsWith(b, key) && !StartsWith(c, key) && !StartsWith(d, key)
    ensures LastWithPrefix([a, b, c, d], key) == None
  {
  }

  /** No header line starts with a key whose first letter is none of B, V,
      N and F. */
  lemma HeaderUnkeyed(name: string, key: string)
    requires |key| > 0 && key[0] != 'B' && key[0] != 'V' && key[0] != 'N' && key[0] != 'F'
    ensures LastWithPrefix(VCardHeader(name), key) == None
  {
    var n, f := G.NameLine(name), "FN:" + name;
    NotStartsWithAt("BEGIN:VCARD", key, 0);
    NotStartsWithAt("VERSION:3.0", key, 0);
    NameLineHead(name);
    NotStartsWithAt(n, key, 0);
    assert f[0] == 'F';
    NotStartsWithAt(f, key, 0);
    FourUnkeyed("BEGIN:VCARD", "VERSION:3.0", n, f, key);
  }

  /** TITLE and TEL share their first letter only. */
  lemma TitleIsNotTel(title: Option<string>)
    ensures LastWithPrefix(G.OptionalLine("TITLE:", title, ""), "TEL") == None
  {
    OptionalUnkeyed("TITLE:", title, "", "TEL", 1);
  }

  /** END and EMAIL share their first letter only. */
  lemma EndIsNotEmail()
    ensures LastWithPrefix(["END:VCARD"], "EMAIL") == None
  {
    NotStartsWithAt("END:VCARD", "EMAIL", 1);
  }

  lemma TelLine(phone: Option<string>)
    ensures LastWithPrefix(G.OptionalLine("TEL:", phone, ""), "TEL")
         == if phone.Some? then Some("TEL:" + phone.value + "") else None
  {
    assert "TEL:"[..3] == "TEL";
    OptionalKeyed("TEL:", phone, "", "TEL");
  }

  lemma EmailLine(email: Option<string>)
    ensures LastWithPrefix(G.OptionalLine("EMAIL:", email, ""), "EMAIL")
         == if email.Some? then Some("EMAIL:" + email.value + "") else None
  {
    assert "EMAIL:"[..5] == "EMAIL";
    OptionalKeyed("EMAIL:", email, "", "EMAIL");
  }

  lemma OrgLine(company: Option<string>)
    ensures LastWithPrefix(G.OptionalLine("ORG:", company, ""), "ORG:")
         == if company.Some? then Some("ORG:" + company.value + "") else None
  {
    assert "ORG:"[..4] == "ORG:";
    OptionalKeyed("ORG:", company, "", "ORG:");
  }

  lemma VCardFn(name: string, phone: Option<string>, email: Option<string>,
                company: Option<string>, title: Option<string>,
                address: Option<string>, website: Option<string>, note: Option<string>)
    ensures LastWithPrefix(G.VCardLines(name, phone, email, company, title, address, website, note), "FN:")
         == Some("FN:" + name)
  {
    VCardBlocks("FN:", name, phone, email, company, title, address, website, note);
    NotStartsWithAt("END:VCARD", "FN:", 0);
    OptionalUnkeyed("NOTE:", note, "", "FN:", 0);
    OptionalUnkeyed("URL:", website, "", "FN:", 0);
    OptionalUnkeyed("ADR:;;", address, ";;;;", "FN:", 0);
    OptionalUnkeyed("TITLE:", title, "", "FN:", 0);
    OptionalUnkeyed("ORG:", company, "", "FN:", 0);
    OptionalUnkeyed("EMAIL:", email, "", "FN:", 0);
    OptionalUnkeyed("TEL:", phone, "", "FN:", 0);
    StartsWithAppend("FN:", name);
  }

  lemma VCardTel(name: string, phone: Option<string>, email: Option<string>,
                 company: Option<string>, title: Option<string>,
                 address: Option<string>, website: Option<string>, note: Option<string>)
    ensures LastWithPrefix(G.VCardLines(name, phone, email, company, title, address, website, note), "TEL")
         == if phone.Some? then Some("TEL:" + phone.value + "") else None
  {
    VCardBlocks("TEL", name, phone, email, company, title, address, website, note);
    NotStartsWithAt("END:VCARD", "TEL", 0);
    OptionalUnkeyed("NOTE:", note, "", "TEL", 0);
    OptionalUnkeyed("URL:", website, "", "TEL", 0);
    OptionalUnkeyed("ADR:;;", address, ";;;;", "TEL", 0);
    TitleIsNotTel(title);
    OptionalUnkeyed("ORG:", company, "", "TEL", 0);
    OptionalUnkeyed("EMAIL:", email, "", "TEL", 0);
    TelLine(phone);
    HeaderUnkeyed(name, "TEL");
  }

  lemma VCardEmail(name: string, phone: Option<string>, email: Option<string>,
                   company: Option<string>, title: Option<string>,
                   address: Option<string>, website: Option<string>, note: Option<string>)
    ensures LastWithPrefix(G.VCardLines(name, phone, email, company, title, address, website, note), "EMAIL")
         == if email.Some? then Some("EMAIL:" + email.value + "") else None
  {
    VCardBlocks("EMAIL", name, phone, email, company, title, address, website, note);
    EndIsNotEmail();
    OptionalUnkeyed("NOTE:", note, "", "EMAIL", 0);
    OptionalUnkeyed("URL:", website, "", "EMAIL", 0);
    OptionalUnkeyed("ADR:;;", address, ";;;;", "EMAIL", 0);
    OptionalUnkeyed("TITLE:", title, "", "EMAIL", 0);
    OptionalUnkeyed("ORG:", company, "", "EMAIL", 0);
    EmailLine(email);
    OptionalUnkeyed("TEL:", phone, "", "EMAIL", 0);
    HeaderUnkeyed(name, "EMAIL");
  }

  lemma VCardOrg(name: string, phone: Option<string>, email: Option<string>,
                 company: Option<string>, title: Option<string>,
                 address: Option<string>, website: Option<string>, note: Option<string>)
    ensures LastWithPrefix(G.VCardLines(name, phone, email, company, title, address, website, note), "ORG:")
         == if company.Some? then Some("ORG:" + company.value + "") else None
  {
    VCardBlocks("ORG:", name, phone, email, company, title, address, website, note);
    NotStartsWithAt("END:VCARD", "ORG:", 0);
    OptionalUnkeyed("NOTE:", note, "", "ORG:", 0);
    OptionalUnkeyed("URL:", website, "", "ORG:", 0);
    OptionalUnkeyed("ADR:;;", address, ";;;;", "ORG:", 0);
    OptionalUnkeyed("TITLE:", title, "", "ORG:", 0);
    OrgLine(company);
    OptionalUnkeyed("EMAIL:", email, "", "ORG:", 0);
    OptionalUnkeyed("TEL:", phone, "", "ORG:", 0);
    HeaderUnkeyed(name, "ORG:");
  }

  /** The value after the first ":" of a keyed line. */
  lemma AfterColon(key: string, v: string)
    requires ':' !in key
    ensures SubstringAfter(key + ":" + v, ':') == v
  {
    IndexOfAfterPiece(key, ':', v);
    assert (key + ":" + v)[|key| + 1..] == v;
  }

  /** A generated `TEL:` or `EMAIL:` line reads back as its value. */
  lemma KeyedValue(key: string, v: string)
    requires key == "TEL:" || key == "EMAIL:"
    ensures ValueAfterColon(Some(key + v + "")) == Some(v)
  {
    var name := key[..|key| - 1];
    assert key + v + "" == name + ":" + v;
    AfterColon(name, v);
  }

  lemma OrgValue(company: string)
    ensures Strip(Some("ORG:" + company + ""), "ORG:") == Some(company)
  {
    assert "ORG:" + company + "" == "ORG:" + company;
    StripKey("ORG:", company);
  }

  lemma FnValue(name: string)
    ensures RemovePrefix("FN:" + name, "FN:") == name
  {
    StartsWithAppend("FN:", name);
  }

  /** The four fields the parser reads from a generated card. */
  lemma VCardFields(name: string, phone: Option<string>, email: Option<string>,
                    company: Option<string>, title: Option<string>,
                    address: Option<string>, website: Option<string>, note: Option<string>)
    ensures var ls := G.VCardLines(name, phone, email, company, title, address, website, note);
            && VCardName(ls) == Some(name)
            && ValueAfterColon(LastWithPrefix(ls, "TEL")) == phone
            && ValueAfterColon(LastWithPrefix(ls, "EMAIL")) == email
            && Strip(LastWithPrefix(ls, "ORG:"), "ORG:") == company
  {
    VCardFn(name, phone, email, company, title, address, website, note);
    FnValue(name);
    VCardTel(name, phone, email, company, title, address, website, note);
    if phone.Some? { KeyedValue("TEL:", phone.value); }
    VCardEmail(name, phone, email, company, title, address, website, note);
    if email.Some? { KeyedValue("EMAIL:", email.value); }
    VCardOrg(name, phone, email, company, title, address, website, note);
    if company.Some? { OrgValue(company.value); }
  }

  /** A text is free of line breaks exactly when it holds neither "\n" nor
      "\r". */
  lemma NoLineBreakIff(s: string)
    ensures NoLineBreak(s) <==> '\n' !in s && '\r' !in s
  {
    if '\n' in s {
      var j :| 0 <= j < |s| && s[j] == '\n';
      assert IsLineBreak(s[j]);
    }
    if '\r' in s {
      var j :| 0 <= j < |s| && s[j] == '\r';
      assert IsLineBreak(s[j]);
    }
  }

  /** Every character of the trimmed text occurs in the text. */
  lemma TrimChars(s: string, c: char)
    requires c in Trim(s)
    ensures c in s
  {
    var a := TrimStart(s);
    var b := TrimEnd(a);
    assert a == s[|s| - |a|..];
    assert b == a[..|b|];
    var j :| 0 <= j < |b| && b[j] == c;
    assert s[|s| - |a| + j] == c;
  }

  /** The pieces of splitting once hold no line break when the text holds
      none. */
  lemma SplitOnceBreakFree(t: string, d: char)
    requires '\n' !in t && '\r' !in t
    ensures var parts := SplitOnce(t, d);
            && '\n' !in parts.0 && '\r' !in parts.0
            && '\n' !in parts.1.GetOr("") && '\r' !in parts.1.GetOr("")
  {
    var parts := SplitOnce(t, d);
    if parts.1.Some? {
      assert parts.0 + [d] + parts.1.value == t;
    } else {
      assert parts.0 == t;
    }
  }

  /** The N: line has no line break when the name has none. */
  lemma NameLineBreakFree(name: string)
    requires NoLineBreak(name)
    ensures NoLineBreak(G.NameLine(name))
  {
    NoLineBreakIff(name);
    var t := Trim(name);
    if '\n' in t { TrimChars(name, '\n'); }
    if '\r' in t { TrimChars(name, '\r'); }
    SplitOnceBreakFree(t, ' ');
    var parts := SplitOnce(t, ' ');
    NameLineOf(parts.1.GetOr(""), parts.0);
  }

  lemma NameLineOf(rest: string, first: string)
    requires '\n' !in rest && '\r' !in rest && '\n' !in first && '\r' !in first
    ensures NoLineBreak("N:" + rest + ";" + first + ";;;")
  {
    NoLineBreakIff("N:" + rest + ";" + first + ";;;");
  }

  /** An optional line has no line break when its value has none. */
  lemma OptionalLineBreakFree(prefix: string, v: Option<string>, suffix: string)
    requires NoLineBreak(prefix) && NoLineBreak(suffix)
    requires v.Some? ==> NoLineBreak(v.value)
    ensures forall k :: 0 <= k < |G.OptionalLine(prefix, v, suffix)| ==>
      NoLineBreak(G.OptionalLine(prefix, v, suffix)[k])
  {
    if v.Some? {
      var l := prefix + v.value + suffix;
      NoLineBreakIff(prefix);
      NoLineBreakIff(suffix);
      NoLineBreakIff(v.value);
      NoLineBreakIff(l);
      assert G.OptionalLine(prefix, v, suffix) == [l];
    }
  }

  /** Line-break freedom of a block list is kept by concatenation. */
  lemma LinesFreeAppend(a: seq<string>, b: seq<string>)
    requires forall k :: 0 <= k < |a| ==> NoLineBreak(a[k])
    requires forall k :: 0 <= k < |b| ==> NoLineBreak(b[k])
    ensures forall k :: 0 <= k < |a + b| ==> NoLineBreak((a + b)[k])
  {
    forall k | 0 <= k < |a + b| ensures NoLineBreak((a + b)[k]) {
      if k < |a| { assert (a + b)[k] == a[k]; } else { assert (a + b)[k] == b[k - |a|]; }
    }
  }

  /** No argument holds a line break. */
  predicate BreakFree(v: Option<string>) {
    v.Some? ==> NoLineBreak(v.value)
  }

  lemma HeaderBreakFree(name: string)
    requires NoLineBreak(name)
    ensures forall k :: 0 <= k < |VCardHeader(name)| ==> NoLineBreak(VCardHeader(name)[k])
  {
    NameLineBreakFree(name);
    KeyedFree("FN:", name);
    HeaderTextsFree();
    FourFree("BEGIN:VCARD", "VERSION:3.0", G.NameLine(name), "FN:" + name);
  }

  /** The fixed header lines hold no line break. */
  lemma HeaderTextsFree()
    ensures NoLineBreak("BEGIN:VCARD") && NoLineBreak("VERSION:3.0")
  {
  }

  /** A break-free key before a break-free value gives a break-free line. */
  lemma KeyedFree(key: string, v: string)
    requires NoLineBreak(key) && NoLineBreak(v)
    ensures NoLineBreak(key + v)
  {
    forall j | 0 <= j < |key + v| ensures !IsLineBreak((key + v)[j]) {
      if j < |key| { assert (key + v)[j] == key[j]; } else { assert (key + v)[j] == v[j - |key|]; }
    }
  }

  /** Four break-free lines. */
  lemma FourFree(a: string, b: string, c: string, d: string)
    requires NoLineBreak(a) && NoLineBreak(b) && NoLineBreak(c) && NoLineBreak(d)
    ensures LinesFree([a, b, c, d])
  {
  }

  /** Every line is free of line breaks. */
  predicate LinesFree(ls: seq<string>) {
    forall k :: 0 <= k < |ls| ==> NoLineBreak(ls[k])
  }

  lemma AppendOptionalFree(ls: seq<string>, prefix: string, v: Option<string>, suffix: string)
    requires LinesFree(ls) && NoLineBreak(prefix) && NoLineBreak(suffix) && BreakFree(v)
    ensures LinesFree(ls + G.OptionalLine(prefix, v, suffix))
  {
    OptionalLineBreakFree(prefix, v, suffix);
    LinesFreeAppend(ls, G.OptionalLine(prefix, v, suffix));
  }

  /** The fixed texts of a card hold no line break. */
  lemma FixedTextsBreakFree()
    ensures NoLineBreak("") && NoLineBreak(";;;;") && NoLineBreak("TEL:") && NoLineBreak("EMAIL:")
    ensures NoLineBreak("ORG:") && NoLineBreak("TITLE:") && NoLineBreak("ADR:;;")
    ensures NoLineBreak("URL:") && NoLineBreak("NOTE:") && NoLineBreak("END:VCARD")
  {
  }

  /** Every line of a generated card is free of line breaks when every
      argument is. */
  lemma VCardLinesBreakFree(name: string, phone: Option<string>, email: Option<string>,
                            company: Option<string>, title: Option<string>,
                            address: Option<string>, website: Option<string>, note: Option<string>)
    requires NoLineBreak(name) && BreakFree(phone) && BreakFree(email) && BreakFree(company)
    requires BreakFree(title) && BreakFree(address) && BreakFree(website) && BreakFree(note)
    ensures LinesFree(G.VCardLines(name, phone, email, company, title, address, website, note))
  {
    var b0 := VCardHeader(name);
    HeaderBreakFree(name);
    FixedTextsBreakFree();
    var b1 := b0 + G.OptionalLine("TEL:", phone, "");
    AppendOptionalFree(b0, "TEL:", phone, "");
    var b2 := b1 + G.OptionalLine("EMAIL:", email, "");
    AppendOptionalFree(b1, "EMAIL:", email, "");
    var b3 := b2 + G.OptionalLine("ORG:", company, "");
    AppendOptionalFree(b2, "ORG:", company, "");
    var b4 := b3 + G.OptionalLine("TITLE:", title, "");
    AppendOptionalFree(b3, "TITLE:", title, "");
    var b5 := b4 + G.OptionalLine("ADR:;;", address, ";;;;");
    AppendOptionalFree(b4, "ADR:;;", address, ";;;;");
    var b6 := b5 + G.OptionalLine("URL:", website, "");
    AppendOptionalFree(b5, "URL:", website, "");
    var b7 := b6 + G.OptionalLine("NOTE:", note, "");
    AppendOptionalFree(b6, "NOTE:", note, "");
    LinesFreeAppend(b7, ["END:VCARD"]);
    assert G.VCardLines(name, phone, email, company, title, address, website, note) == b7 + ["END:VCARD"];
  }

  /** A non-empty sequence is its front followed by its last element. */
  lemma SplitLast<T>(s: seq<T>)
    requires |s| > 0
    ensures s == s[..|s| - 1] + [s[|s| - 1]]
  {
  }

  /** The text of newline-terminated lines from BEGIN:VCARD to END:VCARD:
      trimming drops the last newline and leaves a contact payload. */
  lemma VCardTextShape(init: seq<string>)
    requires |init| >= 1 && init[0] == "BEGIN:VCARD"
    ensures var c := Terminated(init + ["END:VCARD"]);
            && Trim(c) == Terminated(init) + "END:VCARD"
            && Trim(c) + "\n" == c
            && !IsBlank(c)
            && Classify(Trim(c)) == CONTACT
  {
    TerminatedPayload(init, "END:VCARD");
    TerminatedSnoc(init, "END:VCARD");
    ClassifyByPrefix(Terminated(init) + "END:VCARD", "BEGIN:VCARD");
  }

  /** Any text whose trimmed form is a contact payload parses as that. */
  lemma ParsedContact(c: string)
    requires !IsBlank(c) && Classify(Trim(c)) == CONTACT
    ensures Parsed(Some(c)) == Some(ParsedVCard(Trim(c)))
  {
    ParsedAsTrimmed(c);
    TrimIdempotent(c);
    BlankIffTrimEmpty(c);
    ParsedTrimmed(Trim(c), CONTACT);
  }

  /** Break-free lines from BEGIN:VCARD to END:VCARD, each followed by a
      newline: the text parses as the contact read from exactly those lines. */
  lemma VCardText(ls: seq<string>)
    requires |ls| >= 2 && ls[0] == "BEGIN:VCARD" && ls[|ls| - 1] == "END:VCARD"
    requires LinesFree(ls)
    ensures var c := Terminated(ls);
            && Trim(c) + "\n" == c
            && Lines(Trim(c)) == ls
            && Parsed(Some(c)) == Some(ParsedVCard(Trim(c)))
  {
    var init := ls[..|ls| - 1];
    SplitLast(ls);
    InitFree(ls);
    assert init[0] == ls[0];
    VCardTextOf(init);
  }

  /** The lines before the last of break-free lines are break-free. */
  lemma InitFree(ls: seq<string>)
    requires |ls| > 0 && LinesFree(ls)
    ensures LinesFree(ls[..|ls| - 1]) && NoLineBreak(ls[|ls| - 1])
  {
    var init := ls[..|ls| - 1];
    forall k | 0 <= k < |init| ensures NoLineBreak(init[k]) {
      assert init[k] == ls[k];
    }
  }

  /** `VCardText` for the lines before END:VCARD. */
  lemma VCardTextOf(init: seq<string>)
    requires |init| >= 1 && init[0] == "BEGIN:VCARD" && LinesFree(init)
    ensures var c := Terminated(init + ["END:VCARD"]);
            && Trim(c) + "\n" == c
            && Lines(Trim(c)) == init + ["END:VCARD"]
            && Parsed(Some(c)) == Some(ParsedVCard(Trim(c)))
  {
    VCardTextShape(init);
    FixedTextsBreakFree();
    LinesOfTerminated(init, "END:VCARD");
    ParsedContact(Terminated(init + ["END:VCARD"]));
  }

  /** A generated card whose arguments hold no line break parses as a
      contact with the given name, phone, e-mail and organization. */
  lemma VCardRoundTrip(name: string, phone: Option<string>, email: Option<string>,
                       company: Option<string>, title: Option<string>,
                       address: Option<string>, website: Option<string>, note: Option<string>)
    requires NoLineBreak(name) && BreakFree(phone) && BreakFree(email) && BreakFree(company)
    requires BreakFree(title) && BreakFree(address) && BreakFree(website) && BreakFree(note)
    ensures var c := G.GenerateVCard(name, phone, email, company, title, address, website, note);
            && Trim(c) + "\n" == c
            && Parsed(Some(c))
               == Some(NewContent(Trim(c), CONTACT, name, None,
                                  Some(ContactData(Some(name), phone, email, company))))
  {
    var ls := G.VCardLines(name, phone, email, company, title, address, website, note);
    VCardLinesBreakFree(name, phone, email, company, title, address, website, note);
    VCardText(ls);
    VCardFields(name, phone, email, company, title, address, website, note);
  }
}
