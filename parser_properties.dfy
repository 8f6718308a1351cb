/**
 * Properties of the parser: re-parsing, the classification order, the URL
 * warning chain and the geo pattern, with worked examples.
 */
module ParserProperties {
  import opened KotlinStd
  import opened QrModel
  import opened QrParser

  // ---------------------------------------------------------------------
  // parse

  /** Parsing the stored raw value again gives the same content: the raw
      value is already trimmed. */
  lemma ReparseRawValue(raw: string)
    requires !IsBlank(raw)
    ensures Parsed(Some(raw)).Some?
    ensures Parsed(Some(Parsed(Some(raw)).value.rawValue)) == Parsed(Some(raw))
  {
    TrimIdempotent(raw);
    BlankIffTrimEmpty(raw);
    BlankIffTrimEmpty(Trim(raw));
    ParsedDependsOnTrim(Trim(raw), raw);
  }

  /** Two payloads with the same trimmed text parse alike. */
  lemma ParsedDependsOnTrim(a: string, b: string)
    requires !IsBlank(a) && !IsBlank(b) && Trim(a) == Trim(b)
    ensures Parsed(Some(a)) == Parsed(Some(b))
  {
  }

  /** The seven prefix tests are mutually exclusive (their first letters
      W, M, T, S, G, B and H differ, also under case folding), so the first
      matching test is the only matching one. */
  lemma ClassifyExact(t: string)
    ensures Classify(t) == WIFI <==> IsWifi(t)
    ensures Classify(t) == EMAIL <==> IsEmail(t)
    ensures Classify(t) == PHONE <==> IsPhone(t)
    ensures Classify(t) == SMS <==> IsSms(t)
    ensures Classify(t) == GEO <==> IsGeo(t)
    ensures Classify(t) == CONTACT <==> IsVCard(t)
    ensures Classify(t) == URL <==> IsUrl(t)
    ensures Classify(t) == TEXT <==>
      !(IsWifi(t) || IsEmail(t) || IsPhone(t) || IsSms(t) || IsGeo(t) || IsVCard(t) || IsUrl(t))
  {
    if |t| > 0 {
      FirstLetters(t);
    }
  }

  /** What each prefix test demands of the first character. */
  lemma FirstLetters(t: string)
    requires |t| > 0
    ensures IsWifi(t) ==> MatchesIgnoreCase(t[0], 'W')
    ensures IsEmail(t) ==> MatchesIgnoreCase(t[0], 'm')
    ensures IsPhone(t) ==> MatchesIgnoreCase(t[0], 't')
    ensures IsSms(t) ==> MatchesIgnoreCase(t[0], 's')
    ensures IsGeo(t) ==> MatchesIgnoreCase(t[0], 'g')
    ensures IsVCard(t) ==> MatchesIgnoreCase(t[0], 'B') && (|t| > 7 ==> MatchesIgnoreCase(t[7], 'C'))
    ensures IsUrl(t) ==> MatchesIgnoreCase(t[0], 'h')
  {
    if IsWifi(t) { HeadIs(t, "WIFI:", 'W'); }
    if IsEmail(t) { HeadIs(t, "mailto:", 'm'); }
    if IsPhone(t) { HeadIs(t, "tel:", 't'); }
    if StartsWithIgnoreCase(t, "smsto:") { HeadIs(t, "smsto:", 's'); }
    if StartsWithIgnoreCase(t, "sms:") { HeadIs(t, "sms:", 's'); }
    if IsGeo(t) { HeadIs(t, "geo:", 'g'); }
    if IsVCard(t) { VCardHead(t); }
    if StartsWithIgnoreCase(t, "http://") { HeadIs(t, "http://", 'h'); }
    if StartsWithIgnoreCase(t, "https://") { HeadIs(t, "https://", 'h'); }
  }

  /** A case-insensitive prefix fixes the payload's first letter. */
  lemma HeadIs(t: string, p: string, c: char)
    requires StartsWithIgnoreCase(t, p) && |p| > 0 && p[0] == c
    ensures |t| > 0 && MatchesIgnoreCase(t[0], c)
  {
  }

  /** A vCard payload's first letter is a "B" and its eighth a "C", in
      either case. */
  lemma VCardHead(t: string)
    requires IsVCard(t)
    ensures MatchesIgnoreCase(t[0], 'B') && MatchesIgnoreCase(t[7], 'C')
  {
  }

  /** A vCard that contains a URL is still a contact. */
  lemma VCardBeatsUrl(rest: string)
    ensures Classify("BEGIN:VCARD" + rest) == CONTACT
  {
    var t := "BEGIN:VCARD" + rest;
    assert t[..11] == "BEGIN:VCARD";
    StartsWithIsIgnoreCase(t, "BEGIN:VCARD");
    ClassifyExact(t);
  }

  /** A payload that passes none of the tests is text, displayed as the
      trimmed payload. */
  lemma TextFallback(raw: string)
    requires !IsBlank(raw) && Classify(Trim(raw)) == TEXT
    ensures Parsed(Some(raw)) == Some(NewContent(Trim(raw), TEXT, Trim(raw), None, None))
  {
  }

  // ---------------------------------------------------------------------
  // Wi-Fi

  /** A Wi-Fi payload without S:, P: and T: segments gets the defaults: an
      empty SSID shown as the placeholder, no password and "WPA". */
  lemma WifiDefaults(value: string)
    requires forall i :: 0 <= i < |WifiSegments(value)| ==>
               && !StartsWith(WifiSegments(value)[i], "S:")
               && !StartsWith(WifiSegments(value)[i], "P:")
               && !StartsWith(WifiSegments(value)[i], "T:")
    ensures ParsedWifi(value).parsedData == Some(WifiData("", None, "WPA"))
    ensures ParsedWifi(value).displayValue == WifiPlaceholder
  {
    var parts := WifiSegments(value);
    assert LastWithPrefix(parts, "S:").None?;
    assert LastWithPrefix(parts, "P:").None?;
    assert LastWithPrefix(parts, "T:").None?;
  }

  // ---------------------------------------------------------------------
  // The URL warning chain

  /** A plain-http URL, in any letter case, is INSECURE_HTTP whatever else
      it contains. */
  lemma InsecureHttpFirst(url: string)
    requires StartsWithIgnoreCase(url, "http://")
    ensures UrlWarning(url) == Some(INSECURE_HTTP)
  {
    LowercaseStartsWith(url, "http://");
  }

  /** Every shortener domain contains a ".", so a URL without one is never
      SHORT_URL. */
  lemma NoDotNoShortUrl(url: string)
    requires '.' !in url
    ensures UrlWarning(url) != Some(SHORT_URL)
  {
    var lowerUrl := Lowercase(url);
    LowercaseKeepsAbsent(url, '.');
    ShortUrlDomainsHaveDot();
    forall i | 0 <= i < |ShortUrlDomains|
      ensures !Contains(lowerUrl, ShortUrlDomains[i])
    {
      if Contains(lowerUrl, ShortUrlDomains[i]) {
        ContainsChar(lowerUrl, ShortUrlDomains[i], '.');
      }
    }
  }

  /** The chain, step by step, on the lower-cased URL. */
  lemma WarningChain(url: string)
    ensures var lowerUrl := Lowercase(url);
      && (StartsWith(lowerUrl, "http://") ==> UrlWarning(url) == Some(INSECURE_HTTP))
      && (!StartsWith(lowerUrl, "http://") && ContainsAny(lowerUrl, ShortUrlDomains)
          ==> UrlWarning(url) == Some(SHORT_URL))
      && (!StartsWith(lowerUrl, "http://") && !ContainsAny(lowerUrl, ShortUrlDomains)
          && ContainsAny(lowerUrl, SuspiciousPatterns) && !MentionsMajorPlatform(lowerUrl)
          && !IsKnownSafeDomain(ExtractDomain(url).value)
          ==> UrlWarning(url) == Some(SUSPICIOUS_URL))
      && (UrlWarning(url).None? <==>
          !StartsWith(lowerUrl, "http://") && !ContainsAny(lowerUrl, ShortUrlDomains)
          && (!ContainsAny(lowerUrl, SuspiciousPatterns) || MentionsMajorPlatform(lowerUrl)
              || IsKnownSafeDomain(ExtractDomain(url).value)))
  {
  }

  /** Substring matching makes every URL that mentions microsoft.com a
      SHORT_URL (it contains "t.co"), unless it is plain http: the
      microsoft.com exemption of the keyword step never takes effect. */
  lemma MicrosoftIsShortUrl(url: string)
    requires Contains(Lowercase(url), "microsoft.com")
    ensures UrlWarning(url) == Some(SHORT_URL) || UrlWarning(url) == Some(INSECURE_HTTP)
  {
    var lowerUrl := Lowercase(url);
    ContainsAt("microsoft.com", "t.co", 8);
    ContainsTransitive(lowerUrl, "microsoft.com", "t.co");
    assert Contains(lowerUrl, ShortUrlDomains[2]);
  }

  /** A URL without a "." that is not plain http and carries a phishing
      keyword (an intranet login page, say) is SUSPICIOUS_URL: neither a
      shortener, a major platform nor an allow-listed domain can occur. */
  lemma DotlessKeywordIsSuspicious(url: string)
    requires '.' !in url
    requires !StartsWith(Lowercase(url), "http://")
    requires ContainsAny(Lowercase(url), SuspiciousPatterns)
    ensures UrlWarning(url) == Some(SUSPICIOUS_URL)
  {
    var lowerUrl := Lowercase(url);
    LowercaseKeepsAbsent(url, '.');
    assert !ContainsAny(lowerUrl, ShortUrlDomains) by {
      ShortUrlDomainsHaveDot();
      forall i | 0 <= i < |ShortUrlDomains| ensures !Contains(lowerUrl, ShortUrlDomains[i]) {
        if Contains(lowerUrl, ShortUrlDomains[i]) {
          ContainsChar(lowerUrl, ShortUrlDomains[i], '.');
        }
      }
    }
    assert !MentionsMajorPlatform(lowerUrl) by {
      if Contains(lowerUrl, "google.com") { ContainsChar(lowerUrl, "google.com", '.'); }
      if Contains(lowerUrl, "microsoft.com") { ContainsChar(lowerUrl, "microsoft.com", '.'); }
      if Contains(lowerUrl, "apple.com") { ContainsChar(lowerUrl, "apple.com", '.'); }
    }
    DomainChars(url);
    DotlessDomainNotSafe(ExtractDomain(url).value);
  }

  lemma SafeDomainsHaveDot()
    ensures forall i :: 0 <= i < |SafeDomains| ==> '.' in SafeDomains[i]
  {
    assert SafeDomains[0][6] == '.' && SafeDomains[1][9] == '.' && SafeDomains[2][5] == '.';
    assert SafeDomains[3][6] == '.' && SafeDomains[4][8] == '.' && SafeDomains[5][7] == '.';
    assert SafeDomains[6][9] == '.' && SafeDomains[7][8] == '.' && SafeDomains[8][6] == '.';
    assert SafeDomains[9][13] == '.' && SafeDomains[10][9] == '.';
  }

  lemma ShortUrlDomainsHaveDot()
    ensures forall i :: 0 <= i < |ShortUrlDomains| ==> '.' in ShortUrlDomains[i]
  {
    assert ShortUrlDomains[0][3] == '.' && ShortUrlDomains[1][7] == '.' && ShortUrlDomains[2][1] == '.';
    assert ShortUrlDomains[3][3] == '.' && ShortUrlDomains[4][2] == '.' && ShortUrlDomains[5][2] == '.';
    assert ShortUrlDomains[6][4] == '.' && ShortUrlDomains[7][5] == '.' && ShortUrlDomains[8][2] == '.';
    assert ShortUrlDomains[9][4] == '.';
  }

  /** Every allow-listed domain contains a ".". */
  lemma DotlessDomainNotSafe(domain: string)
    requires '.' !in domain
    ensures !IsKnownSafeDomain(domain)
  {
    SafeDomainsHaveDot();
    assert forall i :: 0 <= i < |SafeDomains| ==> !EndsWith(domain, SafeDomains[i]);
  }

  /** The domain is made of characters of the URL. */
  lemma DomainChars(url: string)
    ensures forall c :: c in ExtractDomain(url).value ==> c in url
  {
    var w := RemovePrefix(RemovePrefix(url, "https://"), "http://");
    var host := Split(w, '/')[0];
    SplitPieceChars(w, '/');
    SplitPieceChars(host, ':');
    assert forall c :: c in w ==> c in url;
  }

  /** Every character of the first piece of a split occurs in the input. */
  lemma SplitPieceChars(s: string, d: char)
    ensures forall c :: c in Split(s, d)[0] ==> c in s
  {
    match IndexOf(s, d)
    case None =>
    case Some(i) =>
      assert Split(s, d)[0] == s[..i];
  }

  // ---------------------------------------------------------------------
  // Geo

  /** NumberRun stops exactly after a number followed by a non-number
      character. */
  lemma {:induction false} NumberRunOf(a: string, rest: string)
    requires forall j :: 0 <= j < |a| ==> IsGeoNumberChar(a[j])
    requires rest == [] || !IsGeoNumberChar(rest[0])
    ensures NumberRun(a + rest) == |a|
    decreases |a|
  {
    if |a| == 0 {
      assert a + rest == rest;
    } else {
      assert (a + rest)[0] == a[0];
      assert (a + rest)[1..] == a[1..] + rest;
      NumberRunOf(a[1..], rest);
    }
  }

  /** The pattern on "geo:<lat>,<lng>" followed by nothing or a "?" part:
      both numbers are captured whole. */
  lemma MatchGeoOf(latitude: string, longitude: string, tail: string)
    requires IsGeoNumber(latitude) && IsGeoNumber(longitude)
    requires tail == [] || tail[0] == '?'
    ensures MatchGeo("geo:" + latitude + "," + longitude + tail)
         == Some(GeoMatch(latitude, longitude,
                          if tail == [] then "" else LabelGroup(tail[1..])))
  {
    var v := "geo:" + latitude + "," + longitude + tail;
    var r := "," + (longitude + tail);
    AppendAssoc("geo:" + latitude, ",", longitude);
    AppendAssoc("geo:" + latitude, "," + longitude, tail);
    AppendAssoc(",", longitude, tail);
    AppendAssoc("geo:", latitude, r);
    assert v[..4] == "geo:" && v[4..] == latitude + r;
    StartsWithIsIgnoreCase(v, "geo:");
    MatchGeoParts(v, latitude, longitude, tail);
  }

  /** The scan of a "geo:" payload whose text after the scheme is two
      numbers separated by "," and then nothing or a "?" part. */
  lemma MatchGeoParts(v: string, latitude: string, longitude: string, tail: string)
    requires IsGeo(v) && |v| >= 4 && v[4..] == latitude + ("," + (longitude + tail))
    requires IsGeoNumber(latitude) && IsGeoNumber(longitude)
    requires tail == [] || tail[0] == '?'
    ensures MatchGeo(v)
         == Some(GeoMatch(latitude, longitude,
                          if tail == [] then "" else LabelGroup(tail[1..])))
  {
    var s1 := v[4..];
    var s2 := longitude + tail;
    NumberRunOf(latitude, "," + s2);
    assert s1[|latitude|] == ',';
    assert s1[..|latitude|] == latitude;
    assert s1[|latitude| + 1..] == s2;
    NumberRunOf(longitude, tail);
    assert s2[..|longitude|] == longitude;
    assert s2[|longitude|..] == tail;
  }

  /** Without a q= part the match succeeds with an empty label, so the
      label is "" (not null) and so is the display. */
  lemma GeoWithoutQuery(latitude: string, longitude: string)
    requires IsGeoNumber(latitude) && IsGeoNumber(longitude)
    ensures var c := ParseGeo("geo:" + latitude + "," + longitude);
            c.parsedData.value.place == Some("") && c.displayValue == ""
  {
    MatchGeoOf(latitude, longitude, []);
    assert "geo:" + latitude + "," + longitude + [] == "geo:" + latitude + "," + longitude;
  }

  /** A payload the pattern does not match keeps the default coordinates. */
  lemma GeoNoMatchExample()
    ensures ParseGeo("geo:abc").parsedData == Some(GeoData("0.0", "0.0", None))
    ensures ParseGeo("geo:abc").displayValue == "0.0, 0.0"
  {
    var v := "geo:abc";
    assert v[4..] == "abc";
    assert NumberRun("abc") == 0;
  }

  /** The largest label start is 0 when no later position qualifies. */
  lemma {:induction false} LastLabelStartIsFirst(rest: string, n: nat)
    requires 1 <= n && IsLabelStart(rest, 0)
    requires forall k :: 1 <= k < n ==> !IsLabelStart(rest, k)
    ensures LastLabelStart(rest, n) == Some(0)
    decreases n
  {
    if n > 1 {
      LastLabelStartIsFirst(rest, n - 1);
    }
  }

  lemma {:induction false} NonAmpersandRunAll(s: string)
    requires '&' !in s
    ensures NonAmpersandRun(s) == |s|
    decreases |s|
  {
    if |s| > 0 {
      NonAmpersandRunAll(s[1..]);
    }
  }

  /** "q=" followed by a non-empty text without "=" and "&": the label is
      that whole text. */
  lemma LabelGroupOf(text: string)
    requires |text| > 0 && '=' !in text && '&' !in text
    ensures LabelGroup("q=" + text) == text
  {
    var rest := "q=" + text;
    assert rest[2..] == text;
    assert rest[2] == text[0];
    assert IsLabelStart(rest, 0);
    forall k | 1 <= k < |rest| ensures !IsLabelStart(rest, k) {
      if k + 2 < |rest| {
        assert rest[k + 1] == text[k - 1];
      }
    }
    LastLabelStartIsFirst(rest, |rest|);
    NonAmpersandRunAll(text);
    assert text[..|text|] == text;
  }

  lemma {:induction false} DigitRunOf(a: string, rest: string)
    requires forall j :: 0 <= j < |a| ==> IsDigit(a[j])
    requires rest == [] || !IsDigit(rest[0])
    ensures DigitRun(a + rest) == |a|
    decreases |a|
  {
    if |a| == 0 {
      assert a + rest == rest;
    } else {
      assert (a + rest)[0] == a[0];
      assert (a + rest)[1..] == a[1..] + rest;
      DigitRunOf(a[1..], rest);
    }
  }

  /** Digits, a point and digits form a decimal literal. */
  lemma DecimalOf(whole: string, fraction: string)
    requires |whole| > 0 && forall j :: 0 <= j < |whole| ==> IsDigit(whole[j])
    requires forall j :: 0 <= j < |fraction| ==> IsDigit(fraction[j])
    ensures IsDecimalLiteral(whole + "." + fraction)
  {
    var s := whole + "." + fraction;
    assert s == whole + ("." + fraction);
    DigitRunOf(whole, "." + fraction);
    assert s[|whole| + 1..] == fraction;
    DigitRunOf(fraction, []);
    assert fraction + [] == fraction;
  }

  lemma MatchGeoQuery(latitude: string, longitude: string, text: string)
    requires IsGeoNumber(latitude) && IsGeoNumber(longitude)
    requires |text| > 0 && '=' !in text && '&' !in text
    ensures MatchGeo("geo:" + latitude + "," + longitude + ("?q=" + text))
         == Some(GeoMatch(latitude, longitude, text))
  {
    var tail := "?q=" + text;
    QueryTail(text);
    MatchGeoOf(latitude, longitude, tail);
    LabelGroupOf(text);
  }

  lemma QueryTail(text: string)
    ensures ("?q=" + text) != [] && ("?q=" + text)[0] == '?' && ("?q=" + text)[1..] == "q=" + text
  {
    assert ("?q=" + text)[1..] == "q=" + text;
  }

  /** The label is everything after the last "q=" up to an "&": for
      "geo:41.0082,28.9784?q=41.0082,28.9784(Istanbul)" it is
      "41.0082,28.9784(Istanbul)", coordinates included. */
  lemma GeoQueryLabel(latitude: string, longitude: string, text: string)
    requires IsGeoNumber(latitude) && IsGeoNumber(longitude)
    requires |text| > 0 && '=' !in text && '&' !in text
    ensures ParseGeo("geo:" + latitude + "," + longitude + ("?q=" + text)).parsedData.value.place
         == Some(text)
    ensures ParseGeo("geo:" + latitude + "," + longitude + ("?q=" + text)).displayValue == text
  {
    MatchGeoQuery(latitude, longitude, text);
  }
}
