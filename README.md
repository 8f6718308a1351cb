# QRGuard payload codec, scan gate and create form in Dafny

This project models the core of QRGuard, an Android QR scanner and generator,
and proves properties of that model:

- **the payload parser** (`QrParser`). It trims a scanned payload and
  classifies it by case-insensitive scheme prefixes, tried in a fixed order:
  `WIFI:`, `mailto:`, `tel:`, `smsto:`/`sms:`, `geo:`, `BEGIN:VCARD`,
  `http(s)://`, and plain text as the fallback. It then extracts the typed
  fields of each kind. URLs also get at most one security warning from a
  three-step priority chain.
- **the payload generators** (`QrGenerator`). These are the inverse
  direction: text, URL, Wi-Fi (with backslash escaping), e-mail (with
  form-encoded query values), phone and SMS (digit filtering), vCard, geo and
  calendar-event payloads.
- **the scan screen's gate** (`ScanViewModel`). A detection is accepted at
  most once per 1500 ms and only while no result is shown. It also covers the
  torch, favourite and image-picker flags.
- **the create screen's form** (`CreateViewModel`). It covers type
  selection, the text fields, per-type validity and labels, the dispatch from
  the selected type to a generator, the colours and regeneration.
- **the "how long ago" caption** of a recent scan (`formatRelativeTime`).

## Design choices

- The Kotlin standard-library functions the codec leans on are written out
  with Kotlin's semantics in `kotlin_std.dfy`: `trim` with Java's definition
  of whitespace, `split`, `lines`, `startsWith(ignoreCase = true)`,
  `lowercase` and others.
- The parser's `forEach` loops (`parseWifi`, `parseEmail`, `parseVCard`,
  `analyzeUrlSecurity`) and `parse` are methods with loops. Each is proved
  equal to a declarative specification function (`ParsedWifi`,
  `ParsedEmail`, `ParsedVCard`, `UrlWarning`, `Parsed`). The lemmas about
  the parser are stated over those functions.
- The two view models are classes whose fields are the StateFlows. Each
  method is proved to leave the state that a transition function computes
  from the old state. The invariants and lemmas are stated over those
  transition functions.

## Behaviour worth noting

- `extractDomain` (QrParser.kt:121-128) is declared `String?` but never
  returns null: `split` always yields at least one piece.
- Phone and SMS number cleaning keeps every `+`, wherever it occurs, not
  only a leading one.
- A geo payload's label is everything after the last `q=` up to the next
  `&`. So the generated `q=41.0082,28.9784(Istanbul)` reads back as
  `41.0082,28.9784(Istanbul)`, not `Istanbul`.
- A geo match without a `q=` query has label `""` and display `""`, because
  `groupValues` gives `""` for an unmatched group.

## Model

| member | source | states |
|---|---|---|
| QrModel.NewContent | app/src/main/java/com/yunusek/qrguard/domain/model/QrContent.kt:3-12 | a parsed record gets the constructor defaults: id 0 and not a favourite |
| QrParser.Parsed | app/src/main/java/com/yunusek/qrguard/domain/parser/QrParser.kt:33-52 | null exactly for a null or blank payload; otherwise the raw value is the trimmed payload, the type is the first matching test, the payload variant agrees with the type, only URLs carry a warning, and a text result displays the trimmed payload |
| QrParser.Parse | app/src/main/java/com/yunusek/qrguard/domain/parser/QrParser.kt:33-52 | the method returns what `Parsed` specifies |
| QrParser.Classify | app/src/main/java/com/yunusek/qrguard/domain/parser/QrParser.kt:38-51 | no contract of its own: the `when` of `parse`, trying the seven prefix tests in order; ParserProperties.ClassifyExact states that each type is chosen exactly when its test holds, and ParserProperties.FirstLetters why the tests exclude each other |
| QrParser.Dispatch | app/src/main/java/com/yunusek/qrguard/domain/parser/QrParser.kt:38-51 | each type is routed to its own extractor, and TEXT keeps the trimmed payload as its display |
| QrParser.LastWithPrefix | app/src/main/java/com/yunusek/qrguard/domain/parser/QrParser.kt:145-151 | the result is a segment with the key, and it is absent exactly when no segment has the key |
| QrParser.LastWithPrefixSnoc | app/src/main/java/com/yunusek/qrguard/domain/parser/QrParser.kt:145-151 | a later segment with the key overwrites the earlier ones |
| QrParser.LastWithPrefixIsLast | app/src/main/java/com/yunusek/qrguard/domain/parser/QrParser.kt:145-151 | the segment found is the one at the last index holding the key |
| QrParser.FirstWithPrefix | app/src/main/java/com/yunusek/qrguard/domain/parser/QrParser.kt:248-251 | the result is a line with the key, and it is absent exactly when no line has the key |
| QrParser.FirstWithPrefixIsFirst | app/src/main/java/com/yunusek/qrguard/domain/parser/QrParser.kt:248-251 | the line found is the one at the first index holding the key |
| QrParser.FirstWithPrefixSnoc | app/src/main/java/com/yunusek/qrguard/domain/parser/QrParser.kt:248-251 | only the first `N:` line can give the name; later `N:` lines change nothing |
| QrParser.ParsedWifi | app/src/main/java/com/yunusek/qrguard/domain/parser/QrParser.kt:139-163 | WIFI content whose display is the ssid, or "Wi-Fi Ağı" when the ssid is empty |
| QrParser.WifiSegmentStep | app/src/main/java/com/yunusek/qrguard/domain/parser/QrParser.kt:145-151 | each segment sets ssid, password or security when it has that key and leaves the others as they were |
| QrParser.ParseWifi | app/src/main/java/com/yunusek/qrguard/domain/parser/QrParser.kt:139-163 | the segment loop computes `ParsedWifi` |
| QrParser.ParsedEmail | app/src/main/java/com/yunusek/qrguard/domain/parser/QrParser.kt:165-192 | the address holds no `?` and is the display; with no `?` after `mailto:`, the whole rest is the address and there is no subject or body |
| QrParser.ParseEmail | app/src/main/java/com/yunusek/qrguard/domain/parser/QrParser.kt:165-192 | the query loop computes `ParsedEmail` |
| QrParser.ParsePhone | app/src/main/java/com/yunusek/qrguard/domain/parser/QrParser.kt:194-202 | the number is the text after a case-sensitive `tel:`, or the whole value |
| QrParser.ParseSms | app/src/main/java/com/yunusek/qrguard/domain/parser/QrParser.kt:204-219 | after stripping `smsto:` and then `sms:`, the message is null exactly when no `:` is left; the number and message rejoin to the stripped text |
| QrParser.NumberRun | app/src/main/java/com/yunusek/qrguard/domain/parser/QrParser.kt:18-21 | the longest prefix of `[-\d.]` characters |
| QrParser.LabelGroup | app/src/main/java/com/yunusek/qrguard/domain/parser/QrParser.kt:18-21 | the captured label never holds `&` |
| QrParser.LastLabelStart | app/src/main/java/com/yunusek/qrguard/domain/parser/QrParser.kt:18-21 | the greedy `.*q=` settles on the last `q=` that can start the label |
| QrParser.MatchGeo | app/src/main/java/com/yunusek/qrguard/domain/parser/QrParser.kt:18-21 | a match needs a `geo:` payload; its coordinates are `[-\d.]+` runs right after `geo:`, separated by a comma, and its label holds no `&` |
| QrParser.Coordinate | app/src/main/java/com/yunusek/qrguard/domain/parser/QrParser.kt:223-224 | `toDoubleOrNull() ?: 0.0`: a decimal literal is kept and anything else becomes 0.0 |
| QrParser.ParseGeo | app/src/main/java/com/yunusek/qrguard/domain/parser/QrParser.kt:221-237 | without a match the coordinates are 0.0, there is no label and the display is "0.0, 0.0"; with a match the label is the captured group and is also the display |
| QrParser.VCardNameSnoc | app/src/main/java/com/yunusek/qrguard/domain/parser/QrParser.kt:247-251 | `FN:` always sets the name; `N:` sets it only while there is none, as "given family" |
| QrParser.VCardLineStep | app/src/main/java/com/yunusek/qrguard/domain/parser/QrParser.kt:245-256 | each line updates just the field its prefix names; `TEL`/`EMAIL` take the text after the first `:`; later lines overwrite earlier ones |
| QrParser.VCardName | app/src/main/java/com/yunusek/qrguard/domain/parser/QrParser.kt:246-251 | no contract of its own: the name the card's lines give; QrParser.VCardNameSnoc states how each line changes it, and RoundTrip.VCardFields what a generated card gives |
| QrParser.ParsedVCard | app/src/main/java/com/yunusek/qrguard/domain/parser/QrParser.kt:239-269 | CONTACT content displaying the name, or "Kişi" when there is none |
| QrParser.ParseVCard | app/src/main/java/com/yunusek/qrguard/domain/parser/QrParser.kt:239-269 | the line loop computes `ParsedVCard` |
| QrParser.ExtractDomain | app/src/main/java/com/yunusek/qrguard/domain/parser/QrParser.kt:121-128 | always present, and it holds neither `/` nor `:` |
| QrParser.DomainIsHost | app/src/main/java/com/yunusek/qrguard/domain/parser/QrParser.kt:121-128 | the domain is the URL with a leading `https://` and then `http://` removed, cut before its first `/` and then before its first `:`: a prefix of that text ending at its end or at a `/` or `:` |
| QrParser.AnalyzeUrlSecurity | app/src/main/java/com/yunusek/qrguard/domain/parser/QrParser.kt:95-119 | the loops with early return compute the priority chain `UrlWarning` |
| QrParser.UrlWarning | app/src/main/java/com/yunusek/qrguard/domain/parser/QrParser.kt:95-119 | no contract of its own: the priority chain on the lower-cased URL; QrParser.AnalyzeUrlSecurity is proved to compute it, and ParserProperties.InsecureHttpFirst, MicrosoftIsShortUrl, NoDotNoShortUrl and DotlessKeywordIsSuspicious state its steps |
| QrParser.UrlDisplay | app/src/main/java/com/yunusek/qrguard/domain/parser/QrParser.kt:90 | no contract of its own: the display of a URL; QrParser.ParsedUrl states that it is the first 50 characters of the value with a leading `https://` and then `http://` removed |
| QrParser.ParsedUrl | app/src/main/java/com/yunusek/qrguard/domain/parser/QrParser.kt:85-93 | URL content with the chain's warning; the display is the first 50 characters (all of a shorter text) of the value with a leading `https://` removed, then a leading `http://` |
| QrParser.ParseUrl | app/src/main/java/com/yunusek/qrguard/domain/parser/QrParser.kt:85-93 | the method returns what `ParsedUrl` specifies |
| ParserProperties.ReparseRawValue | app/src/main/java/com/yunusek/qrguard/domain/parser/QrParser.kt:33-52 | parsing a result's raw value again gives the same result |
| ParserProperties.ParsedDependsOnTrim | app/src/main/java/com/yunusek/qrguard/domain/parser/QrParser.kt:33-37 | two payloads that trim to the same text parse to the same result |
| ParserProperties.ClassifyExact | app/src/main/java/com/yunusek/qrguard/domain/parser/QrParser.kt:38-51 | a payload gets a type exactly when that type's test holds and no earlier test does; TEXT exactly when no test holds |
| ParserProperties.FirstLetters | app/src/main/java/com/yunusek/qrguard/domain/parser/QrParser.kt:54-83 | each test's first letter, in either case; so the scheme tests are mutually exclusive except `smsto:` vs `sms:` |
| ParserProperties.VCardBeatsUrl | app/src/main/java/com/yunusek/qrguard/domain/parser/QrParser.kt:38-51 | a vCard that contains a URL is still CONTACT |
| ParserProperties.TextFallback | app/src/main/java/com/yunusek/qrguard/domain/parser/QrParser.kt:46-50 | unmatched input is TEXT, displaying the trimmed payload, with no warning and no data |
| ParserProperties.WifiDefaults | app/src/main/java/com/yunusek/qrguard/domain/parser/QrParser.kt:139-163 | with no `S:`, `P:` or `T:` segment: ssid "", no password, security "WPA", placeholder display |
| ParserProperties.InsecureHttpFirst | app/src/main/java/com/yunusek/qrguard/domain/parser/QrParser.kt:96-100 | a case-insensitive `http://` prefix gives INSECURE_HTTP, whatever else the URL holds |
| ParserProperties.NoDotNoShortUrl | app/src/main/java/com/yunusek/qrguard/domain/parser/QrParser.kt:23-26 | a URL without a dot cannot be flagged as shortened |
| ParserProperties.MicrosoftIsShortUrl | app/src/main/java/com/yunusek/qrguard/domain/parser/QrParser.kt:23-26 | any URL mentioning microsoft.com is flagged as shortened (it contains `t.co`), unless it is plain http |
| ParserProperties.DotlessKeywordIsSuspicious | app/src/main/java/com/yunusek/qrguard/domain/parser/QrParser.kt:108-116 | a dotless non-http URL with a keyword is always SUSPICIOUS_URL |
| ParserProperties.SafeDomainsHaveDot | app/src/main/java/com/yunusek/qrguard/domain/parser/QrParser.kt:131-135 | every safe-list entry holds a dot |
| ParserProperties.ShortUrlDomainsHaveDot | app/src/main/java/com/yunusek/qrguard/domain/parser/QrParser.kt:23-26 | every shortener entry holds a dot |
| ParserProperties.DotlessDomainNotSafe | app/src/main/java/com/yunusek/qrguard/domain/parser/QrParser.kt:130-137 | a dotless domain never ends with a safe-list entry |
| ParserProperties.DomainChars | app/src/main/java/com/yunusek/qrguard/domain/parser/QrParser.kt:121-128 | the domain is made of the URL's own characters |
| ParserProperties.MatchGeoOf | app/src/main/java/com/yunusek/qrguard/domain/parser/QrParser.kt:18-21 | `geo:lat,lng` followed by nothing or by a `?` query matches with those coordinates |
| ParserProperties.GeoWithoutQuery | app/src/main/java/com/yunusek/qrguard/domain/parser/QrParser.kt:222-236 | a match without a query has label "" and display "" |
| ParserProperties.GeoNoMatchExample | app/src/main/java/com/yunusek/qrguard/domain/parser/QrParser.kt:221-237 | `geo:abc` gives 0.0, 0.0, no label, display "0.0, 0.0" |
| ParserProperties.LabelGroupOf | app/src/main/java/com/yunusek/qrguard/domain/parser/QrParser.kt:18-21 | `q=text` with no `=` or `&` in text captures exactly text |
| ParserProperties.GeoQueryLabel | app/src/main/java/com/yunusek/qrguard/domain/parser/QrParser.kt:221-237 | `geo:lat,lng?q=text` has label and display text |
| QrGenerator.SecurityName | app/src/main/java/com/yunusek/qrguard/generator/QrGenerator.kt:65-69 | "WPA", "WEP" or "nopass", none holding a Wi-Fi special character |
| QrGenerator.GenerateText | app/src/main/java/com/yunusek/qrguard/generator/QrGenerator.kt:50 | the text itself |
| QrGenerator.GenerateUrl | app/src/main/java/com/yunusek/qrguard/generator/QrGenerator.kt:52-58 | always starts with `http://` or `https://`; kept when it already starts so (case-sensitively), otherwise `https://` is put in front |
| QrGenerator.GenerateWifi | app/src/main/java/com/yunusek/qrguard/generator/QrGenerator.kt:60-80 | no contract of its own; RoundTrip.WifiLayout states the exact payload, and RoundTrip.WifiRoundTrip, WifiPlainRoundTrip and WifiOpenNetwork what scanning it gives back |
| QrGenerator.GenerateEmail | app/src/main/java/com/yunusek/qrguard/generator/QrGenerator.kt:82-96 | no contract of its own; RoundTrip.EmailPayload states how the payload splits, and RoundTrip.EmailRoundTrip and EmailAddressOnly what scanning it gives back |
| QrGenerator.GeneratePhone | app/src/main/java/com/yunusek/qrguard/generator/QrGenerator.kt:98-101 | no contract of its own; RoundTrip.PhoneRoundTrip states that it scans back as PHONE with the cleaned number |
| QrGenerator.GenerateSms | app/src/main/java/com/yunusek/qrguard/generator/QrGenerator.kt:103-110 | no contract of its own; RoundTrip.SmsWithoutMessage and SmsRoundTrip state what scanning it gives back |
| QrGenerator.GenerateVCard | app/src/main/java/com/yunusek/qrguard/generator/QrGenerator.kt:112-143 | no contract of its own; QrGenerator.VCardLines and RoundTrip.VCardFields state its lines, and RoundTrip.VCardRoundTrip what scanning it gives back |
| QrGenerator.GenerateGeo | app/src/main/java/com/yunusek/qrguard/generator/QrGenerator.kt:145-155 | no contract of its own; RoundTrip.GeoRoundTripUnlabelled, GeoRoundTripLabelled and ExponentCoordinateScansAsOrigin state what scanning it gives back |
| QrGenerator.GenerateEvent | app/src/main/java/com/yunusek/qrguard/generator/QrGenerator.kt:157-173 | no contract of its own; QrGenerator.EventLines states its lines, and RoundTrip.EventPayload and EventIsText what scanning it gives back |
| QrGenerator.EscapeWifi | app/src/main/java/com/yunusek/qrguard/generator/QrGenerator.kt:175-182 | no contract of its own; QrGenerator.EscapeWifiIsPerChar states that the replace chain escapes each special character once, and EscapeWifiLength, EscapeWifiPlain and EscapeWifiKeepsChars its consequences |
| QrGenerator.EscapeWifiAppend | app/src/main/java/com/yunusek/qrguard/generator/QrGenerator.kt:175-182 | escaping distributes over concatenation |
| QrGenerator.EscapeWifiIsPerChar | app/src/main/java/com/yunusek/qrguard/generator/QrGenerator.kt:175-182 | the replace chain equals a per-character map: each of `\ ; , " :` gets a backslash and nothing is escaped twice |
| QrGenerator.EscapeWifiLength | app/src/main/java/com/yunusek/qrguard/generator/QrGenerator.kt:175-182 | the length grows by the number of special characters |
| QrGenerator.EscapeWifiPlain | app/src/main/java/com/yunusek/qrguard/generator/QrGenerator.kt:175-182 | text without special characters is unchanged |
| QrGenerator.EscapeWifiKeepsChars | app/src/main/java/com/yunusek/qrguard/generator/QrGenerator.kt:175-182 | escaping adds no character other than backslash and removes none |
| QrGenerator.EmailParams | app/src/main/java/com/yunusek/qrguard/generator/QrGenerator.kt:89-91 | one parameter for each present subject and body |
| QrGenerator.CleanNumber | app/src/main/java/com/yunusek/qrguard/generator/QrGenerator.kt:99 | only `+` and ASCII digits are left, and nothing is added |
| QrGenerator.CleanNumberKeepsDialChars | app/src/main/java/com/yunusek/qrguard/generator/QrGenerator.kt:99 | a number of only `+` and digits is kept as is |
| QrGenerator.CleanNumberIdempotent | app/src/main/java/com/yunusek/qrguard/generator/QrGenerator.kt:99 | cleaning twice is cleaning once |
| QrGenerator.CleanNumberAppend | app/src/main/java/com/yunusek/qrguard/generator/QrGenerator.kt:99 | each character is kept or dropped on its own, wherever it occurs |
| QrGenerator.VCardLines | app/src/main/java/com/yunusek/qrguard/generator/QrGenerator.kt:122-141 | the card opens with BEGIN:VCARD and closes with END:VCARD |
| QrGenerator.EventLines | app/src/main/java/com/yunusek/qrguard/generator/QrGenerator.kt:164-171 | the event opens with BEGIN:VEVENT and closes with END:VEVENT |
| FormEncoding.EncodedAlphabet | app/src/main/java/com/yunusek/qrguard/generator/QrGenerator.kt:184-186 | URLEncoder output holds only letters, digits and `. - * _ + %` |
| FormEncoding.EncodedLacks | app/src/main/java/com/yunusek/qrguard/generator/QrGenerator.kt:184-186 | so the output never holds `?`, `&`, `=`, `(`, `)` or a line break |
| FormEncoding.EncodeNonEmpty | app/src/main/java/com/yunusek/qrguard/generator/QrGenerator.kt:184-186 | a non-empty input encodes to something non-empty |
| FormEncoding.EncodeExample | app/src/main/java/com/yunusek/qrguard/generator/QrGenerator.kt:184-186 | "a b&c" encodes to "a+b%26c" |
| RoundTrip.ParsedTrimmed | app/src/main/java/com/yunusek/qrguard/domain/parser/QrParser.kt:33-52 | a trimmed, non-empty payload reaches its type's extractor unchanged |
| RoundTrip.UrlIdempotent | app/src/main/java/com/yunusek/qrguard/generator/QrGenerator.kt:52-58 | generating a URL twice is generating it once |
| RoundTrip.UrlRoundTrip | app/src/main/java/com/yunusek/qrguard/generator/QrGenerator.kt:52-58 | every generated URL scans back as URL |
| RoundTrip.AddedSchemeIsSecure | app/src/main/java/com/yunusek/qrguard/generator/QrGenerator.kt:56 | a URL that got `https://` in front is never flagged as insecure http |
| RoundTrip.TextRoundTrip | app/src/main/java/com/yunusek/qrguard/generator/QrGenerator.kt:50 | non-blank text scans back with the trimmed text as its raw value |
| RoundTrip.PhoneRoundTrip | app/src/main/java/com/yunusek/qrguard/generator/QrGenerator.kt:98-101 | a generated phone payload scans as PHONE with the cleaned number, for every input |
| RoundTrip.SmsWithoutMessage | app/src/main/java/com/yunusek/qrguard/generator/QrGenerator.kt:103-110 | without a message: SMS with the cleaned number and no message |
| RoundTrip.SmsRoundTrip | app/src/main/java/com/yunusek/qrguard/generator/QrGenerator.kt:103-110 | with a message: SMS with the cleaned number and the message less its trailing whitespace |
| RoundTrip.EmailPayload | app/src/main/java/com/yunusek/qrguard/generator/QrGenerator.kt:87-95 | a generated e-mail payload with a query splits at `?` into address and query |
| RoundTrip.EmailRoundTrip | app/src/main/java/com/yunusek/qrguard/generator/QrGenerator.kt:82-96 | with a subject or body: EMAIL with the address and the still-encoded subject and body |
| RoundTrip.EmailAddressOnly | app/src/main/java/com/yunusek/qrguard/generator/QrGenerator.kt:82-96 | with neither: EMAIL with the address less its trailing whitespace and no subject or body |
| RoundTrip.GeoRoundTripUnlabelled | app/src/main/java/com/yunusek/qrguard/generator/QrGenerator.kt:150-151 | unlabelled: GEO with the coordinates, label "" and display "" |
| RoundTrip.GeoRoundTripLabelled | app/src/main/java/com/yunusek/qrguard/generator/QrGenerator.kt:152-153 | labelled: GEO with the coordinates, and label and display are "lat,lng(encoded label)" |
| RoundTrip.UnmatchedGeoScansAsOrigin | app/src/main/java/com/yunusek/qrguard/domain/parser/QrParser.kt:222-236 | a geo payload outside the geo pattern scans back as 0.0, 0.0 with no label and display "0.0, 0.0" |
| RoundTrip.ExponentCoordinateScansAsOrigin | app/src/main/java/com/yunusek/qrguard/generator/QrGenerator.kt:150-154 | a coordinate in exponent form, such as `1.0E-4`, is outside the geo pattern, so its code scans back as 0.0, 0.0 with no label |
| RoundTrip.EventHeaderIsText | app/src/main/java/com/yunusek/qrguard/domain/parser/QrParser.kt:38-51 | a payload starting like `BEGIN:VEVENT` matches no scheme test |
| RoundTrip.EventPayload | app/src/main/java/com/yunusek/qrguard/generator/QrGenerator.kt:164-172 | the trimmed event payload is its lines without the final newline |
| RoundTrip.EventIsText | app/src/main/java/com/yunusek/qrguard/generator/QrGenerator.kt:157-173 | every generated event scans as TEXT, displaying the payload less its final newline |
| RoundTrip.WifiLayout | app/src/main/java/com/yunusek/qrguard/generator/QrGenerator.kt:71-79 | the payload is `WIFI:T:<security>;S:<escaped ssid>;`, then `P:<escaped password>;` only for a non-empty password on a secured network, then `;` |
| RoundTrip.WifiFrame | app/src/main/java/com/yunusek/qrguard/domain/parser/QrParser.kt:140 | `WIFI:` and one trailing `;` are removed before splitting |
| RoundTrip.WifiRoundTrip | app/src/main/java/com/yunusek/qrguard/generator/QrGenerator.kt:60-80 | for an ssid and password without `;`: WIFI with the escaped ssid, the escaped password when one was sent, and the security name |
| RoundTrip.WifiPlainRoundTrip | app/src/main/java/com/yunusek/qrguard/generator/QrGenerator.kt:60-80 | without special characters, WPA/WEP gives back ssid, password and "WPA"/"WEP" exactly |
| RoundTrip.WifiOpenNetwork | app/src/main/java/com/yunusek/qrguard/generator/QrGenerator.kt:60-80 | an open network gives back no password and "nopass", whatever password was given |
| RoundTrip.WifiEscapesKept | app/src/main/java/com/yunusek/qrguard/generator/QrGenerator.kt:175-182 | the lossy case: escapes are not undone, so an ssid with special characters comes back longer and different |
| RoundTrip.VCardBlocks | app/src/main/java/com/yunusek/qrguard/generator/QrGenerator.kt:133-139 | the last line with a key is found among the optional lines in their fixed order |
| RoundTrip.VCardLinesBreakFree | app/src/main/java/com/yunusek/qrguard/generator/QrGenerator.kt:122-141 | with line-break-free fields, every card line is free of line breaks |
| RoundTrip.VCardFields | app/src/main/java/com/yunusek/qrguard/generator/QrGenerator.kt:112-143 | reading the card's lines gives name, phone, e-mail and organisation as given |
| RoundTrip.VCardText | app/src/main/java/com/yunusek/qrguard/domain/parser/QrParser.kt:239-245 | a newline-terminated card parses through its lines |
| RoundTrip.VCardRoundTrip | app/src/main/java/com/yunusek/qrguard/generator/QrGenerator.kt:112-143 | with no line breaks in the arguments: CONTACT displaying the name, with name, phone, e-mail and organisation equal to the inputs |
| PhoneExample.CleanExample | app/src/main/java/com/yunusek/qrguard/generator/QrGenerator.kt:99 | "+1 (555) 123-4567" cleans to "+15551234567" |
| PhoneExample.PhoneExample | app/src/main/java/com/yunusek/qrguard/generator/QrGenerator.kt:98-101 | "+1 (555) 123-4567" becomes "tel:+15551234567", which scans as PHONE "+15551234567" |
| ScanViewModel.InitialScreen | app/src/main/java/com/yunusek/qrguard/ui/screens/scan/ScanViewModel.kt:34-48 | scanning, no current scan, torch off, picker hidden, gate open, last time 0; the gate invariant holds |
| ScanViewModel.Detected | app/src/main/java/com/yunusek/qrguard/ui/screens/scan/ScanViewModel.kt:50-70 | a detection never touches the torch or the picker |
| ScanViewModel.Dismissed | app/src/main/java/com/yunusek/qrguard/ui/screens/scan/ScanViewModel.kt:72-76 | back to scanning with the gate open and the invariant holding; the last accepted time is kept |
| ScanViewModel.TorchToggled | app/src/main/java/com/yunusek/qrguard/ui/screens/scan/ScanViewModel.kt:78-80 | the torch flag flips |
| ScanViewModel.FavoriteToggled | app/src/main/java/com/yunusek/qrguard/ui/screens/scan/ScanViewModel.kt:82-96 | without a current scan nothing changes |
| ScanViewModel.PickerShown | app/src/main/java/com/yunusek/qrguard/ui/screens/scan/ScanViewModel.kt:98-123 | the picker flag is set as asked |
| ScanViewModel.DetectionIgnored | app/src/main/java/com/yunusek/qrguard/ui/screens/scan/ScanViewModel.kt:53-54 | within 1500 ms of the last accepted time, or while locked, a detection changes nothing |
| ScanViewModel.BlankDetection | app/src/main/java/com/yunusek/qrguard/ui/screens/scan/ScanViewModel.kt:53-69 | a blank detection that passes records its time and changes nothing else |
| ScanViewModel.AcceptedDetection | app/src/main/java/com/yunusek/qrguard/ui/screens/scan/ScanViewModel.kt:53-61 | a non-blank detection that passes becomes the current scan and the shown result, and the gate stays locked |
| ScanViewModel.GatedKept | app/src/main/java/com/yunusek/qrguard/ui/screens/scan/ScanViewModel.kt:50-104 | every operation keeps the invariant: locked exactly while a result is shown, and that result is the current scan (the save coroutine's id update is not modelled) |
| ScanViewModel.ResultHoldsGate | app/src/main/java/com/yunusek/qrguard/ui/screens/scan/ScanViewModel.kt:53-54 | no detection is accepted while a result is shown, however late it comes |
| ScanViewModel.DebounceAfterDismiss | app/src/main/java/com/yunusek/qrguard/ui/screens/scan/ScanViewModel.kt:53-56 | dismissing does not reset the debounce: a second payload within 1500 ms is still ignored |
| ScanViewModel.TorchTwice | app/src/main/java/com/yunusek/qrguard/ui/screens/scan/ScanViewModel.kt:78-80 | toggling the torch twice restores it |
| ScanViewModel.FavoriteTwice | app/src/main/java/com/yunusek/qrguard/ui/screens/scan/ScanViewModel.kt:82-96 | the current scan's flag flips, the shown result gets the same flag, and toggling twice restores the state |
| ScanViewModel.ScanViewModel.constructor | app/src/main/java/com/yunusek/qrguard/ui/screens/scan/ScanViewModel.kt:34-48 | the fields start in the initial state |
| ScanViewModel.ScanViewModel.OnQrCodeDetected | app/src/main/java/com/yunusek/qrguard/ui/screens/scan/ScanViewModel.kt:50-70 | the fields become `Detected` of the old state, with the invariant kept |
| ScanViewModel.ScanViewModel.OnResultDismissed | app/src/main/java/com/yunusek/qrguard/ui/screens/scan/ScanViewModel.kt:72-76 | the fields become `Dismissed` of the old state |
| ScanViewModel.ScanViewModel.ToggleTorch | app/src/main/java/com/yunusek/qrguard/ui/screens/scan/ScanViewModel.kt:78-80 | the fields become `TorchToggled` of the old state |
| ScanViewModel.ScanViewModel.ToggleFavorite | app/src/main/java/com/yunusek/qrguard/ui/screens/scan/ScanViewModel.kt:82-96 | the fields become `FavoriteToggled` of the old state |
| ScanViewModel.ScanViewModel.OnGalleryClick | app/src/main/java/com/yunusek/qrguard/ui/screens/scan/ScanViewModel.kt:98-100 | the picker is shown and nothing else changes |
| ScanViewModel.ScanViewModel.OnImagePickerDismissed | app/src/main/java/com/yunusek/qrguard/ui/screens/scan/ScanViewModel.kt:102-104 | the picker is hidden and nothing else changes |
| ScanViewModel.ScanViewModel.OnImageSelected | app/src/main/java/com/yunusek/qrguard/ui/screens/scan/ScanViewModel.kt:122 | the picker is hidden and nothing else changes |
| CreateViewModel.EmptyForm | app/src/main/java/com/yunusek/qrguard/ui/screens/create/CreateViewModel.kt:39-113 | every field is empty, and the security type is WPA |
| CreateViewModel.InitialScreen | app/src/main/java/com/yunusek/qrguard/ui/screens/create/CreateViewModel.kt:39-113 | TEXT, no content, no image, black on white, not loading, no save status, empty form |
| CreateViewModel.NullIfEmpty | app/src/main/java/com/yunusek/qrguard/ui/screens/create/CreateViewModel.kt:168-188 | `ifEmpty { null }`: absent exactly for the empty string |
| CreateViewModel.FormValid | app/src/main/java/com/yunusek/qrguard/ui/screens/create/CreateViewModel.kt:319-331 | EVENT is never valid, LOCATION needs both coordinates non-blank, every other type its primary field |
| CreateViewModel.Label | app/src/main/java/com/yunusek/qrguard/ui/screens/create/CreateViewModel.kt:237-249 | TEXT/URL: the first 30 characters (all of a shorter field, exactly 30 of a longer one); LOCATION: the label, or "Konum" when it is empty; EVENT: "Etkinlik"; other types: their primary field |
| CreateViewModel.GeneratedContent | app/src/main/java/com/yunusek/qrguard/ui/screens/create/CreateViewModel.kt:160-190 | EVENT yields "", and TEXT yields the text field |
| CreateViewModel.Rendered | app/src/main/java/com/yunusek/qrguard/generator/QrGenerator.kt:14-47 | an image exactly when the encoder accepts the payload, drawn from that payload at the given size and colours; otherwise null, as the `catch` gives |
| CreateViewModel.Generated | app/src/main/java/com/yunusek/qrguard/ui/screens/create/CreateViewModel.kt:192-204 | the content is stored; for non-empty content the image is redrawn with the current colours when the encoder accepts the payload and becomes null when it rejects it, and for empty content it is kept; loading ends; nothing else changes |
| CreateViewModel.Regenerated | app/src/main/java/com/yunusek/qrguard/ui/screens/create/CreateViewModel.kt:150-154 | with no stored content nothing changes |
| CreateViewModel.TypeSelected | app/src/main/java/com/yunusek/qrguard/ui/screens/create/CreateViewModel.kt:115-119 | the type is set, content and image are cleared, and the form, colours and statuses are kept |
| CreateViewModel.ScannedType | app/src/main/java/com/yunusek/qrguard/generator/QrType.kt:18-78 | every code type except TEXT and EVENT has a scanned type it should come back as |
| CreateViewModel.ScansAs | app/src/main/java/com/yunusek/qrguard/domain/parser/QrParser.kt:38-51 | a payload that starts with a scheme marker is accepted with that marker's type |
| CreateViewModel.WifiMarked | app/src/main/java/com/yunusek/qrguard/generator/QrGenerator.kt:71-72 | a Wi-Fi payload starts with `WIFI:` |
| CreateViewModel.EmailMarked | app/src/main/java/com/yunusek/qrguard/generator/QrGenerator.kt:88 | an e-mail payload starts with `mailto:` |
| CreateViewModel.PhoneMarked | app/src/main/java/com/yunusek/qrguard/generator/QrGenerator.kt:100 | a phone payload starts with `tel:` |
| CreateViewModel.SmsMarked | app/src/main/java/com/yunusek/qrguard/generator/QrGenerator.kt:105-109 | an SMS payload starts with `smsto:` |
| CreateViewModel.CardMarked | app/src/main/java/com/yunusek/qrguard/generator/QrGenerator.kt:123 | a vCard payload starts with `BEGIN:VCARD` |
| CreateViewModel.GeoMarked | app/src/main/java/com/yunusek/qrguard/generator/QrGenerator.kt:150-154 | a geo payload starts with `geo:` |
| CreateViewModel.CreatedCodeScansAs | app/src/main/java/com/yunusek/qrguard/ui/screens/create/CreateViewModel.kt:160-190 | a code made for any type other than TEXT and EVENT scans back as that type, whatever the form holds |
| CreateViewModel.ValidFormScans | app/src/main/java/com/yunusek/qrguard/ui/screens/create/CreateViewModel.kt:160-192 | the content is empty exactly for EVENT and for an empty text field; a valid form always gives a scannable payload |
| CreateViewModel.ValidFormHasLabel | app/src/main/java/com/yunusek/qrguard/ui/screens/create/CreateViewModel.kt:237-249 | a valid form always has a non-empty label |
| CreateViewModel.CreatedPhoneScansBack | app/src/main/java/com/yunusek/qrguard/ui/screens/create/CreateViewModel.kt:173 | a phone code scans back as the cleaned number |
| CreateViewModel.CreatedContactScansBack | app/src/main/java/com/yunusek/qrguard/ui/screens/create/CreateViewModel.kt:178-183 | a contact code scans back with the name and with empty phone, e-mail and company fields absent |
| CreateViewModel.GenerateTwice | app/src/main/java/com/yunusek/qrguard/ui/screens/create/CreateViewModel.kt:156-206 | generating twice is generating once |
| CreateViewModel.RecolourRedraws | app/src/main/java/com/yunusek/qrguard/ui/screens/create/CreateViewModel.kt:140-154 | a colour change redraws a shown code in the new colour when the encoder accepts it, shows no image when the encoder rejects it, and otherwise only records the colour |
| CreateViewModel.SelectedTypeNotRedrawn | app/src/main/java/com/yunusek/qrguard/ui/screens/create/CreateViewModel.kt:115-154 | after a type change a colour change draws nothing |
| CreateViewModel.CreateViewModel.constructor | app/src/main/java/com/yunusek/qrguard/ui/screens/create/CreateViewModel.kt:39-113 | the fields start in the initial state |
| CreateViewModel.CreateViewModel.SelectType | app/src/main/java/com/yunusek/qrguard/ui/screens/create/CreateViewModel.kt:115-119 | the fields become `TypeSelected` of the old state |
| CreateViewModel.CreateViewModel.UpdateTextInput | app/src/main/java/com/yunusek/qrguard/ui/screens/create/CreateViewModel.kt:121 | only the text field changes |
| CreateViewModel.CreateViewModel.UpdateUrlInput | app/src/main/java/com/yunusek/qrguard/ui/screens/create/CreateViewModel.kt:122 | only the URL field changes |
| CreateViewModel.CreateViewModel.UpdateWifiSsid | app/src/main/java/com/yunusek/qrguard/ui/screens/create/CreateViewModel.kt:123 | only the ssid field changes |
| CreateViewModel.CreateViewModel.UpdateWifiPassword | app/src/main/java/com/yunusek/qrguard/ui/screens/create/CreateViewModel.kt:124 | only the password field changes |
| CreateViewModel.CreateViewModel.UpdateWifiSecurity | app/src/main/java/com/yunusek/qrguard/ui/screens/create/CreateViewModel.kt:125 | only the security field changes |
| CreateViewModel.CreateViewModel.UpdateEmailAddress | app/src/main/java/com/yunusek/qrguard/ui/screens/create/CreateViewModel.kt:126 | only the address field changes |
| CreateViewModel.CreateViewModel.UpdateEmailSubject | app/src/main/java/com/yunusek/qrguard/ui/screens/create/CreateViewModel.kt:127 | only the subject field changes |
| CreateViewModel.CreateViewModel.UpdateEmailBody | app/src/main/java/com/yunusek/qrguard/ui/screens/create/CreateViewModel.kt:128 | only the body field changes |
| CreateViewModel.CreateViewModel.UpdatePhoneNumber | app/src/main/java/com/yunusek/qrguard/ui/screens/create/CreateViewModel.kt:129 | only the phone field changes |
| CreateViewModel.CreateViewModel.UpdateSmsNumber | app/src/main/java/com/yunusek/qrguard/ui/screens/create/CreateViewModel.kt:130 | only the SMS number field changes |
| CreateViewModel.CreateViewModel.UpdateSmsMessage | app/src/main/java/com/yunusek/qrguard/ui/screens/create/CreateViewModel.kt:131 | only the SMS message field changes |
| CreateViewModel.CreateViewModel.UpdateContactName | app/src/main/java/com/yunusek/qrguard/ui/screens/create/CreateViewModel.kt:132 | only the contact name field changes |
| CreateViewModel.CreateViewModel.UpdateContactPhone | app/src/main/java/com/yunusek/qrguard/ui/screens/create/CreateViewModel.kt:133 | only the contact phone field changes |
| CreateViewModel.CreateViewModel.UpdateContactEmail | app/src/main/java/com/yunusek/qrguard/ui/screens/create/CreateViewModel.kt:134 | only the contact e-mail field changes |
| CreateViewModel.CreateViewModel.UpdateContactCompany | app/src/main/java/com/yunusek/qrguard/ui/screens/create/CreateViewModel.kt:135 | only the company field changes |
| CreateViewModel.CreateViewModel.UpdateGeoLatitude | app/src/main/java/com/yunusek/qrguard/ui/screens/create/CreateViewModel.kt:136 | only the latitude field changes |
| CreateViewModel.CreateViewModel.UpdateGeoLongitude | app/src/main/java/com/yunusek/qrguard/ui/screens/create/CreateViewModel.kt:137 | only the longitude field changes |
| CreateViewModel.CreateViewModel.UpdateGeoLabel | app/src/main/java/com/yunusek/qrguard/ui/screens/create/CreateViewModel.kt:138 | only the geo label field changes |
| CreateViewModel.CreateViewModel.GenerateQr | app/src/main/java/com/yunusek/qrguard/ui/screens/create/CreateViewModel.kt:156-206 | the fields become `Generated` of the old state |
| CreateViewModel.CreateViewModel.RegenerateQrIfNeeded | app/src/main/java/com/yunusek/qrguard/ui/screens/create/CreateViewModel.kt:150-154 | the fields become `Regenerated` of the old state |
| CreateViewModel.CreateViewModel.UpdateForegroundColor | app/src/main/java/com/yunusek/qrguard/ui/screens/create/CreateViewModel.kt:140-143 | the colour is recorded, then the code is regenerated if content is shown |
| CreateViewModel.CreateViewModel.UpdateBackgroundColor | app/src/main/java/com/yunusek/qrguard/ui/screens/create/CreateViewModel.kt:145-148 | the colour is recorded, then the code is regenerated if content is shown |
| CreateViewModel.CreateViewModel.ClearSaveStatus | app/src/main/java/com/yunusek/qrguard/ui/screens/create/CreateViewModel.kt:315-317 | the save status becomes null and nothing else changes |
| RelativeTime.DecimalText | app/src/main/java/com/example/qrguard/ui/components/RecentScanItem.kt:206 | a count prints as a non-empty run of decimal digits |
| RelativeTime.DecimalRoundTrip | app/src/main/java/com/example/qrguard/ui/components/RecentScanItem.kt:206 | the printed count reads back as the count |
| RelativeTime.CountReadsBack | app/src/main/java/com/example/qrguard/ui/components/RecentScanItem.kt:204-216 | in a caption the text before the unit is the count |
| RelativeTime.FormatRelativeTime | app/src/main/java/com/example/qrguard/ui/components/RecentScanItem.kt:198-222 | under a minute, including future timestamps: "Az önce"; one to two days: "Dün"; a week or more: the formatted date |
| RelativeTime.MinutesAgo | app/src/main/java/com/example/qrguard/ui/components/RecentScanItem.kt:204-207 | under an hour: "<m> dk önce", with m from 1 to 59 whole minutes |
| RelativeTime.HoursAgo | app/src/main/java/com/example/qrguard/ui/components/RecentScanItem.kt:208-211 | under a day: "<h> saat önce", with h from 1 to 23 whole hours |
| RelativeTime.DaysAgo | app/src/main/java/com/example/qrguard/ui/components/RecentScanItem.kt:213-216 | two to seven days: "<d> gün önce", with d from 2 to 6 whole days |
| RelativeTime.OnlyElapsedMatters | app/src/main/java/com/example/qrguard/ui/components/RecentScanItem.kt:199-216 | under a week, the caption depends only on the time elapsed |

## Left out

- QR image rendering with ZXing (`generateQrCode`) is a foreign library. The rendered image is a value recording the payload, size and colours it was drawn from. Whether ZXing accepts a payload (it rejects one too long for a QR code, and the `catch` then yields null) is the parameter `renders`.
- Saving to the gallery, sharing, MediaStore and FileProvider I/O (`saveToGallery` and the save and share helpers) are Android storage. `saveSuccess` is set only by them, so the model keeps the field and `ClearSaveStatus`, and nothing else sets it.
- ML Kit decoding of a gallery image in `onImageSelected`, the camera analyzer and all Compose UI are left out. Only the picker flag is modelled.
- The coroutine that saves an accepted scan (ScanViewModel.kt:63-66) is left out, because it is persistence. This drops its state update `_currentScan.value = content.copy(id = savedId)`: in the model the current scan keeps the parser's id 0. The invariant that the shown result is the current scan (`Gated`) therefore holds in the model only because that id is ignored; with the update the two would agree up to the id.
- The repository call behind `toggleFavorite` is left out, because it is persistence. The model keeps the flag update of the current scan.
- `viewModelScope.launch` is modelled as running to completion at once, and the `AtomicBoolean` lock as a plain flag, so interleavings between coroutines are not captured.
- The clock (`System.currentTimeMillis`) is a parameter of the detection and of the relative-time caption. The creation timestamp of a parsed record is not modelled.
- Times are unbounded integers. The Kotlin `Long` subtractions `now - timestamp` (RecentScanItem.kt:200) and `currentTime - lastScanTime` (ScanViewModel.kt:53) would wrap around once the two times are more than 2^63 - 1 ms apart; that wrap-around is not modelled, so the caption and debounce lemmas say nothing about such times.
- The formatted calendar date of a caption a week old or more (`SimpleDateFormat`) is a parameter.
- `Double` coordinates: the parser keeps a coordinate as the decimal literal text it matched, or "0.0" when it is not a decimal literal. The create screen's text printed for the `Double` it parses from a field is a parameter. Number values, and forms such as exponents or `NaN` that `toDoubleOrNull` would also accept, are not modelled. The geo round trips therefore require decimal-literal coordinates. `Double.toString` prints small, large and non-finite values as `1.0E-4`, `NaN` or `Infinity`, which the geo pattern rejects, so such a code scans back as 0.0, 0.0 with no label (`ExponentCoordinateScansAsOrigin`).
- QrParser.ParsedUrl: Kotlin's `take(50)` counts UTF-16 code units, while the model's `Take` counts Unicode scalar values. A URL body of 30 emoji displays all 30 in the model but only 25 in Kotlin, and the model never cuts a surrogate pair in half as `take` can.
- CreateViewModel.Label: the `take(30)` of a text or URL label counts Unicode scalar values, not UTF-16 code units. So 30 emoji give all 30 in the model but only 15 in Kotlin, and the model never cuts a surrogate pair.
- `Regex` is replaced by hand-written scanners: a prefix test for the URL pattern, which is anchored on `https?://`, and a scanner for the geo pattern.
- Unicode `lowercase()` is modelled only as far as it can change which ASCII text occurs in the lower-cased URL: ASCII letters, U+0130 and the Kelvin sign.
- `URLEncoder.encode` is modelled concretely as form encoding of the UTF-8 bytes.
- The eighteen form StateFlows of the create screen are held as one form value.
- Coroutine cancellation and exceptions are not modelled. This includes the `try`/`catch` around `extractDomain`, which cannot throw.
- RoundTrip.TextRoundTrip: states only the raw value. Type and display follow the parser's rules for whatever the text happens to contain.
- CreateViewModel.CreatedCodeScansAs: states only the type the code scans back as. Field-level round trips are stated for the generators directly and for phone and contact codes.
