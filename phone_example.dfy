/**
 * A worked example of the phone generator and parser together: the number
 * typed as "+1 (555) 123-4567" is encoded as "tel:+15551234567" and scans
 * back as that cleaned number. The literal is taken apart into its digit
 * runs and separators so that each fact about it stays small.
 */
module PhoneExample {
  import opened KotlinStd
  import opened QrModel
  import opened QrParser
  import G = QrGenerator
  import RT = RoundTrip

  /** The typed number as digit runs and separators. */
  lemma Pieces()
    ensures "+1 (555) 123-4567" == "+1" + (" (" + ("555" + (") " + ("123" + ("-" + "4567")))))
  {
  }

  /** The separators hold no dial character. */
  lemma Blanks()
    ensures G.CleanNumber(" (") == "" && G.CleanNumber(") ") == "" && G.CleanNumber("-") == ""
  {
  }

  /** A run of dial characters is kept whole. */
  lemma Digits(s: string)
    requires forall j :: 0 <= j < |s| ==> G.IsDialChar(s[j])
    ensures G.CleanNumber(s) == s
  {
    G.CleanNumberKeepsDialChars(s);
  }

  /** Cleaning a number of seven pieces cleans each piece. */
  lemma CleanSeven(a: string, b: string, c: string, d: string, e: string, f: string, g: string)
    ensures G.CleanNumber(a + (b + (c + (d + (e + (f + g))))))
         == G.CleanNumber(a) + (G.CleanNumber(b) + (G.CleanNumber(c) + (G.CleanNumber(d)
            + (G.CleanNumber(e) + (G.CleanNumber(f) + G.CleanNumber(g))))))
  {
    G.CleanNumberAppend(f, g);
    G.CleanNumberAppend(e, f + g);
    G.CleanNumberAppend(d, e + (f + g));
    G.CleanNumberAppend(c, d + (e + (f + g)));
    G.CleanNumberAppend(b, c + (d + (e + (f + g))));
    G.CleanNumberAppend(a, b + (c + (d + (e + (f + g)))));
  }

  lemma Joined()
    ensures "+1" + ("" + ("555" + ("" + ("123" + ("" + "4567"))))) == "+15551234567"
  {
  }

  /** Cleaning drops the separators and keeps the digit runs. */
  lemma CleanOfPieces(x: string, a: string, b: string, c: string, d: string, e: string,
                      f: string, g: string, y: string)
    requires x == a + (b + (c + (d + (e + (f + g)))))
    requires G.CleanNumber(a) == a && G.CleanNumber(c) == c && G.CleanNumber(e) == e && G.CleanNumber(g) == g
    requires G.CleanNumber(b) == "" && G.CleanNumber(d) == "" && G.CleanNumber(f) == ""
    requires y == a + ("" + (c + ("" + (e + ("" + g)))))
    ensures G.CleanNumber(x) == y
  {
    CleanSeven(a, b, c, d, e, f, g);
  }

  /** The typed number cleans to "+15551234567". */
  lemma CleanExample()
    ensures G.CleanNumber("+1 (555) 123-4567") == "+15551234567"
  {
    Pieces();
    Blanks();
    Joined();
    Digits("+1");
    Digits("555");
    Digits("123");
    Digits("4567");
    CleanOfPieces("+1 (555) 123-4567", "+1", " (", "555", ") ", "123", "-", "4567", "+15551234567");
  }

  /** A number whose cleaned form is `n` is encoded as `tel:` and `n` and
      scans back as `n`. */
  lemma PhoneOf(raw: string, n: string)
    requires G.CleanNumber(raw) == n
    ensures G.GeneratePhone(raw) == "tel:" + n
    ensures Parsed(Some(G.GeneratePhone(raw))).Some?
    ensures Parsed(Some(G.GeneratePhone(raw))).value.parsedData == Some(PhoneData(n))
  {
    RT.PhoneRoundTrip(raw);
  }

  /** The worked example. */
  lemma PhoneExample()
    ensures G.GeneratePhone("+1 (555) 123-4567") == "tel:" + "+15551234567"
    ensures Parsed(Some(G.GeneratePhone("+1 (555) 123-4567"))).Some?
    ensures Parsed(Some(G.GeneratePhone("+1 (555) 123-4567"))).value.parsedData
            == Some(PhoneData("+15551234567"))
  {
    CleanExample();
    PhoneOf("+1 (555) 123-4567", "+15551234567");
  }
}
