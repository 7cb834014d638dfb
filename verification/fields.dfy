/** The six field patterns of the invoice extractor (app.py, extract_info). Each pattern
    is an anchored matcher in its backtracking order, searched leftmost over the whole
    OCR text; a field whose pattern finds nothing takes its default. */
module Fields {
  import opened Text
  import opened Scan

  // ---------------------------------------------------------------------------
  // Seller id: \b\d{8}\b
  // ---------------------------------------------------------------------------

  /** `\b` at position `i`: exactly one of the two neighbours is a word character
      (a missing neighbour at either edge of the text is not). */
  predicate IsBoundary(w: char -> bool, s: string, i: nat)
  {
    i <= |s| && ((0 < i && w(s[i - 1])) != (i < |s| && w(s[i])))
  }

  /** `\b\d{8}\b` anchored at `i`. */
  function SellerAt(w: char -> bool, s: string, i: nat): (r: Option<string>)
    ensures r.Some? ==> i + 8 <= |s| && r.value == s[i..i + 8] && AllDigits(r.value)
  {
    if i + 8 <= |s| && IsBoundary(w, s, i) && AllDigits(s[i..i + 8]) && IsBoundary(w, s, i + 8)
    then Some(s[i..i + 8])
    else None
  }

  /** Beside a digit (a word character), `\b` holds exactly when the other neighbour is
      a non-word character or the edge of the text. */
  lemma BoundaryBesideDigit(w: char -> bool, s: string, i: nat)
    requires WordClass(w)
    ensures i < |s| && IsDigit(s[i]) ==> (IsBoundary(w, s, i) <==> i == 0 || !w(s[i - 1]))
    ensures 0 < i <= |s| && IsDigit(s[i - 1]) ==> (IsBoundary(w, s, i) <==> i == |s| || !w(s[i]))
  {
    if i < |s| && IsDigit(s[i]) {
      assert w(s[i]);
    }
    if 0 < i <= |s| && IsDigit(s[i - 1]) {
      assert w(s[i - 1]);
    }
  }

  /** Eight digits at `i` whose neighbours are each a non-word character or an edge
      of the text. */
  predicate StandaloneRun(w: char -> bool, s: string, i: nat)
  {
    && i + 8 <= |s|
    && AllDigits(s[i..i + 8])
    && (i == 0 || !w(s[i - 1]))
    && (i + 8 == |s| || !w(s[i + 8]))
  }

  lemma SellerAtIsStandalone(w: char -> bool, s: string, i: nat)
    requires WordClass(w)
    ensures SellerAt(w, s, i).Some? <==> StandaloneRun(w, s, i)
  {
    if i + 8 <= |s| && AllDigits(s[i..i + 8]) {
      assert IsDigit(s[i..i + 8][0]) && IsDigit(s[i..i + 8][7]);
      assert w(s[i]) && w(s[i + 7]);
    }
  }

  lemma SellerMatchesAreStandalone(w: char -> bool, text: string)
    requires WordClass(w)
    ensures forall i: nat :: SellerAt(w, text, i).Some? <==> StandaloneRun(w, text, i)
  {
    forall i: nat ensures SellerAt(w, text, i).Some? <==> StandaloneRun(w, text, i) {
      SellerAtIsStandalone(w, text, i);
    }
  }

  /** Lines 33-34: the leftmost standalone 8-digit run, or "" when there is none. */
  function SellerId(w: char -> bool, text: string): (r: string)
    requires WordClass(w)
    ensures r == "" || (|r| == 8 && AllDigits(r))
    ensures r == "" <==> forall i: nat :: i <= |text| ==> !StandaloneRun(w, text, i)
    ensures r != "" ==>
      exists i: nat :: StandaloneRun(w, text, i) && r == text[i..i + 8]
        && forall j: nat :: j < i ==> !StandaloneRun(w, text, j)
  {
    SellerMatchesAreStandalone(w, text);
    var m := (s: string, i: nat) => SellerAt(w, s, i);
    assert forall i: nat :: m(text, i) == SellerAt(w, text, i);
    match Search(text, m)
    case Some(f) => f.value
    case None => ""
  }

  /** An 8-digit window inside a longer digit run, such as a 9-digit number, is never a
      seller id candidate. */
  lemma LongerRunIgnored(w: char -> bool, s: string, i: nat, n: nat, j: nat)
    requires WordClass(w)
    requires n > 8 && i + n <= |s| && AllDigits(s[i..i + n])
    requires i <= j <= i + n - 8
    ensures !StandaloneRun(w, s, j)
  {
    if j == i {
      assert IsDigit(s[i..i + n][8]);
      assert w(s[j + 8]);
    } else {
      assert IsDigit(s[i..i + n][j - 1 - i]);
      assert w(s[j - 1]);
    }
  }

  lemma SellerIdExampleAlone(w: char -> bool)
    requires WordClass(w)
    ensures SellerId(w, "12345678") == "12345678"
  {
    assert StandaloneRun(w, "12345678", 0);
  }

  lemma SellerIdExampleNineDigits(w: char -> bool)
    requires WordClass(w)
    ensures SellerId(w, "123456789") == ""
  {
    var t := "123456789";
    forall j: nat | j <= |t| ensures !StandaloneRun(w, t, j) {
      if j <= 1 {
        LongerRunIgnored(w, t, 0, 9, j);
      }
    }
  }

  lemma SellerIdExampleAfterLetter(w: char -> bool)
    requires WordClass(w)
    ensures SellerId(w, "A12345678") == ""
  {
    var t := "A12345678";
    assert w(t[0]);
    assert !StandaloneRun(w, t, 0) by { assert !IsDigit(t[0..8][0]); }
  }

  lemma SellerIdExampleAfterIdeograph(w: char -> bool)
    requires WordClass(w)
    ensures SellerId(w, "號12345678") == ""
  {
    var t := "號12345678";
    assert w(t[0]);
    assert !StandaloneRun(w, t, 0) by { assert !IsDigit(t[0..8][0]); }
  }

  /** A run set off by punctuation and a space is found after a CJK label. */
  lemma SellerIdExampleAfterLabel(w: char -> bool, digits: string, rest: string)
    requires WordClass(w)
    requires |digits| == 8 && AllDigits(digits)
    ensures SellerId(w, "統編:" + digits + " " + rest) == digits
  {
    var t := "統編:" + digits + " " + rest;
    assert t[2] == ':' && t[11] == ' ' && t[3..11] == digits;
    assert !w(t[2]) && !w(t[11]);
    assert StandaloneRun(w, t, 3);
    forall j: nat | j < 3 ensures !StandaloneRun(w, t, j) {
      assert !IsDigit(t[j..j + 8][2 - j]);
    }
  }

  // ---------------------------------------------------------------------------
  // Invoice date: (\d{3,4})[/.-](\d{2})[/.-](\d{2})
  // ---------------------------------------------------------------------------

  /** The three groups of a date match, as written in the text. */
  datatype DateParts = DateParts(year: string, month: string, day: string)

  predicate IsDateSeparator(c: char) { c == '/' || c == '.' || c == '-' }

  /** A date's groups as the pattern guarantees them: a 3- or 4-digit year and
      2-digit month and day. */
  predicate WellFormedParts(p: DateParts)
  {
    && (|p.year| == 3 || |p.year| == 4) && AllDigits(p.year)
    && |p.month| == 2 && AllDigits(p.month)
    && |p.day| == 2 && AllDigits(p.day)
  }

  /** `[/.-](\d{2})[/.-](\d{2})` anchored at `j`. */
  function MonthDayAt(s: string, j: nat): (r: Option<(string, string)>)
    ensures r.Some? ==> j + 6 <= |s| && r.value == (s[j + 1..j + 3], s[j + 4..j + 6])
    ensures r.Some? ==> IsDateSeparator(s[j]) && IsDateSeparator(s[j + 3])
    ensures r.Some? ==> AllDigits(r.value.0) && AllDigits(r.value.1)
  {
    if j + 6 <= |s| && IsDateSeparator(s[j]) && AllDigits(s[j + 1..j + 3])
       && IsDateSeparator(s[j + 3]) && AllDigits(s[j + 4..j + 6])
    then Some((s[j + 1..j + 3], s[j + 4..j + 6]))
    else None
  }

  /** The date pattern anchored at `i`: the greedy `\d{3,4}` tries four digits first
      and backtracks to three. */
  function DateAt(s: string, i: nat): (r: Option<DateParts>)
    ensures r.Some? ==> WellFormedParts(r.value)
    ensures r.Some? ==> var n := |r.value.year|;
      && i + n + 6 <= |s|
      && s[i..i + n] == r.value.year
      && MonthDayAt(s, i + n) == Some((r.value.month, r.value.day))
    ensures r.Some? && i + 4 <= |s| && AllDigits(s[i..i + 4]) ==> |r.value.year| == 4
  {
    if i + 4 <= |s| && AllDigits(s[i..i + 4]) && MonthDayAt(s, i + 4).Some? then
      var md := MonthDayAt(s, i + 4).value;
      Some(DateParts(s[i..i + 4], md.0, md.1))
    else if i + 3 <= |s| && AllDigits(s[i..i + 3]) && MonthDayAt(s, i + 3).Some? then
      var md := MonthDayAt(s, i + 3).value;
      Some(DateParts(s[i..i + 3], md.0, md.1))
    else
      None
  }

  /** Lines 41-42: a 3-digit (Minguo) year becomes `str(int(y) + 1911)`; a 4-digit year
      is kept as written. */
  function NormalizeYear(year: string): (y: string)
    requires AllDigits(year) && (|year| == 3 || |year| == 4)
    ensures |y| == 4 && AllDigits(y)
    ensures |year| == 4 ==> y == year
    ensures |year| == 3 ==> DigitsValue(y) == DigitsValue(year) + 1911
    ensures |year| == 3 ==> 1911 <= DigitsValue(y) <= 2910
  {
    if |year| == 3 then
      var n := DigitsValue(year) + 1911;
      FourDigitString(n);
      NatToStringValue(n);
      NatToString(n)
    else
      year
  }

  /** Line 43: `f"{y}/{m}/{d}"`. */
  function FormatDate(p: DateParts): (r: string)
    requires WellFormedParts(p)
    ensures IsSlashDate(r)
    ensures r[..4] == NormalizeYear(p.year) && r[5..7] == p.month && r[8..] == p.day
  {
    NormalizeYear(p.year) + "/" + p.month + "/" + p.day
  }

  /** `YYYY/MM/DD` with ASCII digits; month and day are not range-checked. */
  predicate IsSlashDate(r: string)
  {
    && |r| == 10 && r[4] == '/' && r[7] == '/'
    && AllDigits(r[..4]) && AllDigits(r[5..7]) && AllDigits(r[8..])
  }

  /** Lines 37-43: the leftmost date, normalised; "" when the pattern finds nothing. */
  function InvoiceDate(text: string): (r: string)
    ensures r == "" <==> forall i: nat :: i <= |text| ==> DateAt(text, i).None?
    ensures r != "" ==> IsSlashDate(r)
    ensures r != "" ==>
      exists i: nat :: DateAt(text, i).Some? && r == FormatDate(DateAt(text, i).value)
        && forall j: nat :: j < i ==> DateAt(text, j).None?
  {
    match Search(text, DateAt)
    case Some(f) => FormatDate(f.value)
    case None => ""
  }

  /** The date pattern's text at `i` with an `n`-digit year: the year's digits, a
      separator, two digits, a separator, two digits. */
  predicate DateShapeAt(s: string, i: nat, n: nat)
  {
    && i + n + 6 <= |s|
    && AllDigits(s[i..i + n])
    && IsDateSeparator(s[i + n]) && AllDigits(s[i + n + 1..i + n + 3])
    && IsDateSeparator(s[i + n + 3]) && AllDigits(s[i + n + 4..i + n + 6])
  }

  /** The groups of a date shape, as they stand in the text. */
  function PartsAt(s: string, i: nat, n: nat): DateParts
    requires i + n + 6 <= |s|
  {
    DateParts(s[i..i + n], s[i + n + 1..i + n + 3], s[i + n + 4..i + n + 6])
  }

  /** `[/.-](\d{2})[/.-](\d{2})` matches at `j` exactly when that text stands there. */
  lemma MonthDayAtExactly(s: string, j: nat)
    ensures MonthDayAt(s, j).Some? <==>
      (j + 6 <= |s| && IsDateSeparator(s[j]) && AllDigits(s[j + 1..j + 3])
        && IsDateSeparator(s[j + 3]) && AllDigits(s[j + 4..j + 6]))
    ensures MonthDayAt(s, j).Some? ==> MonthDayAt(s, j).value == (s[j + 1..j + 3], s[j + 4..j + 6])
  {
  }

  /** The date pattern matches at `i` exactly when a date with a 4- or a 3-digit year
      stands there; the 4-digit reading wins when both do. */
  lemma DateAtExactly(s: string, i: nat)
    ensures DateAt(s, i).Some? <==> DateShapeAt(s, i, 4) || DateShapeAt(s, i, 3)
    ensures DateShapeAt(s, i, 4) ==> DateAt(s, i) == Some(PartsAt(s, i, 4))
    ensures !DateShapeAt(s, i, 4) && DateShapeAt(s, i, 3) ==> DateAt(s, i) == Some(PartsAt(s, i, 3))
  {
    MonthDayAtExactly(s, i + 4);
    MonthDayAtExactly(s, i + 3);
  }

  /** Line 38's default: the date is "" exactly when no position holds a date shape. */
  lemma InvoiceDateEmpty(text: string)
    ensures InvoiceDate(text) == "" <==>
      forall i: nat :: i <= |text| ==> !DateShapeAt(text, i, 4) && !DateShapeAt(text, i, 3)
  {
    forall i: nat ensures DateAt(text, i).Some? <==> DateShapeAt(text, i, 4) || DateShapeAt(text, i, 3) {
      DateAtExactly(text, i);
    }
  }

  /** A date at the start of the text is written Y/M/D with '/', whichever of '/', '.'
      and '-' its two separators were. */
  lemma DateSeparatorsNormalized(t: string, year: string, a: char, month: string, b: char, day: string, rest: string)
    requires (|year| == 3 || |year| == 4) && AllDigits(year)
    requires |month| == 2 && AllDigits(month) && |day| == 2 && AllDigits(day)
    requires IsDateSeparator(a) && IsDateSeparator(b)
    requires t == year + [a] + month + [b] + day + rest
    ensures InvoiceDate(t) == NormalizeYear(year) + "/" + month + "/" + day
  {
    var n := |year|;
    assert t[..n] == year && t[n] == a;
    assert t[n + 1..n + 3] == month && t[n + 3] == b && t[n + 4..n + 6] == day;
    assert MonthDayAt(t, n) == Some((month, day));
    if n == 3 {
      assert !IsDigit(t[0..4][3]);
    }
    assert DateAt(t, 0) == Some(DateParts(year, month, day));
    FirstAt(t, 0, DateAt, 0);
  }

  /** Minguo year 113 is 2024: "113/05/20" is written "2024/05/20". */
  lemma MinguoYear113()
    ensures NormalizeYear("113") + "/" + "05" + "/" + "20" == "2024/05/20"
  {
    assert DigitsValue("113") == 113 by {
      assert "113"[..2] == "11" && "11"[..1] == "1" && "1"[..0] == "";
    }
    assert NatToString(2) == "2";
    assert NatToString(20) == "20";
    assert NatToString(202) == "202";
    assert NatToString(2024) == "2024";
  }

  lemma WesternYear2024()
    ensures NormalizeYear("2024") + "/" + "05" + "/" + "20" == "2024/05/20"
  {
  }

  /** "113/05/20" gives "2024/05/20" whatever follows it, so "113/05/2024" (a Western
      date read from its second digit on) gives "2024/05/20" too. */
  lemma DateExampleMinguo(rest: string)
    ensures InvoiceDate("113/05/20" + rest) == "2024/05/20"
  {
    DateSeparatorsNormalized("113/05/20" + rest, "113", '/', "05", '/', "20", rest);
    MinguoYear113();
  }

  lemma DateExampleWesternReadLate()
    ensures InvoiceDate("113/05/2024") == "2024/05/20"
  {
    assert "113/05/2024" == "113/05/20" + "24";
    DateExampleMinguo("24");
  }

  lemma DateExampleDashes(rest: string)
    ensures InvoiceDate("2024-05-20" + rest) == "2024/05/20"
  {
    DateSeparatorsNormalized("2024-05-20" + rest, "2024", '-', "05", '-', "20", rest);
    WesternYear2024();
  }

  // ---------------------------------------------------------------------------
  // Invoice number: ([A-Z]{2})[- ]?(\d{8})
  // ---------------------------------------------------------------------------

  /** Two uppercase ASCII letters followed by eight ASCII digits. */
  predicate IsInvoiceNumber(t: string)
  {
    |t| == 10 && IsUpper(t[0]) && IsUpper(t[1]) && AllDigits(t[2..])
  }

  /** The invoice pattern anchored at `i`, its groups already concatenated (line 47):
      the greedy `[- ]?` first tries to take a separator. */
  function InvoiceAt(s: string, i: nat): (r: Option<string>)
    ensures r.Some? ==> IsInvoiceNumber(r.value)
    ensures r.Some? ==> i + 10 <= |s| && r.value[..2] == s[i..i + 2]
    ensures r.Some? ==>
      || r.value[2..] == s[i + 2..i + 10]
      || (i + 11 <= |s| && (s[i + 2] == '-' || s[i + 2] == ' ') && r.value[2..] == s[i + 3..i + 11])
  {
    if i + 2 <= |s| && IsUpper(s[i]) && IsUpper(s[i + 1]) then
      if i + 11 <= |s| && (s[i + 2] == '-' || s[i + 2] == ' ') && AllDigits(s[i + 3..i + 11]) then
        Some(s[i..i + 2] + s[i + 3..i + 11])
      else if i + 10 <= |s| && AllDigits(s[i + 2..i + 10]) then
        Some(s[i..i + 10])
      else
        None
    else
      None
  }

  /** Lines 46-47: the leftmost invoice number, separator dropped; "" when none. */
  function InvoiceNumber(text: string): (r: string)
    ensures r == "" || IsInvoiceNumber(r)
    ensures r == "" <==> forall i: nat :: i <= |text| ==> InvoiceAt(text, i).None?
    ensures r != "" ==>
      exists i: nat :: InvoiceAt(text, i) == Some(r) && forall j: nat :: j < i ==> InvoiceAt(text, j).None?
  {
    match Search(text, InvoiceAt)
    case Some(f) => f.value
    case None => ""
  }

  /** Two capitals at `i`, then `sep` characters of separator ('-' or ' ') and eight
      digits. */
  predicate InvoiceShapeAt(s: string, i: nat, sep: nat)
  {
    && (sep == 0 || sep == 1)
    && i + sep + 10 <= |s|
    && IsUpper(s[i]) && IsUpper(s[i + 1])
    && (sep == 1 ==> s[i + 2] == '-' || s[i + 2] == ' ')
    && AllDigits(s[i + sep + 2..i + sep + 10])
  }

  /** The invoice pattern matches at `i` exactly when an invoice number, with or without
      a separator, stands there, and the result is the letters and the digits with the
      separator dropped. */
  lemma InvoiceAtExactly(s: string, i: nat)
    ensures InvoiceAt(s, i).Some? <==> InvoiceShapeAt(s, i, 1) || InvoiceShapeAt(s, i, 0)
    ensures InvoiceShapeAt(s, i, 1) ==> InvoiceAt(s, i) == Some(s[i..i + 2] + s[i + 3..i + 11])
    ensures InvoiceShapeAt(s, i, 0) ==> InvoiceAt(s, i) == Some(s[i..i + 10])
  {
    if InvoiceShapeAt(s, i, 0) {
      assert IsDigit(s[i + 2..i + 10][0]);
    }
  }

  /** Line 47's default: the invoice number is "" exactly when no position holds two
      capitals, an optional separator and eight digits. */
  lemma InvoiceNumberEmpty(text: string)
    ensures InvoiceNumber(text) == "" <==>
      forall i: nat :: i <= |text| ==> !InvoiceShapeAt(text, i, 1) && !InvoiceShapeAt(text, i, 0)
  {
    forall i: nat ensures InvoiceAt(text, i).Some? <==> InvoiceShapeAt(text, i, 1) || InvoiceShapeAt(text, i, 0) {
      InvoiceAtExactly(text, i);
    }
  }

  /** "AB-12345678", "AB 12345678" and "AB12345678" all give "AB12345678". */
  lemma InvoiceSeparatorDropped(letters: string, sep: string, digits: string, rest: string)
    requires |letters| == 2 && IsUpper(letters[0]) && IsUpper(letters[1])
    requires sep == "" || sep == "-" || sep == " "
    requires |digits| == 8 && AllDigits(digits)
    ensures InvoiceNumber(letters + sep + digits + rest) == letters + digits
  {
    var t := letters + sep + digits + rest;
    assert t[..2] == letters;
    if sep == "" {
      assert t[2..10] == digits;
      assert !(t[2] == '-' || t[2] == ' ') by { assert t[2] == digits[0]; }
    } else {
      assert t[2] == sep[0] && t[3..11] == digits;
    }
    assert InvoiceAt(t, 0) == Some(letters + digits);
    FirstAt(t, 0, InvoiceAt, 0);
  }

  /** No boundary is required: the match may start inside a longer run of capitals. */
  lemma InvoiceExampleNoBoundary()
    ensures InvoiceNumber("ABC12345678") == "BC12345678"
  {
    var t := "ABC12345678";
    assert InvoiceAt(t, 0).None? by { assert !IsDigit(t[2..10][0]); }
    assert AllDigits(t[3..11]) && t[1..11] == "BC12345678";
    assert InvoiceAt(t, 1) == Some("BC12345678");
    FirstAt(t, 0, InvoiceAt, 1);
  }

  // ---------------------------------------------------------------------------
  // Item: 95.*?\s?(\d+\.\d{3}), written as "95汽油 <liters> L"
  // ---------------------------------------------------------------------------

  /** Line 53's fixed label; the grade "95" is never read from the text. */
  const FuelLabel: string := "95汽油 "

  /** Line 52's default litres. */
  const DefaultLiters: string := "00.000"

  /** A run of digits, '.', and exactly three digits. */
  predicate IsLiters(t: string)
  {
    |t| >= 5 && t[|t| - 4] == '.' && AllDigits(t[..|t| - 4]) && AllDigits(t[|t| - 3..])
  }

  /** `\d+\.\d{3}` anchored at `p`. The greedy `\d+` takes the whole digit run: giving
      back a digit would leave a digit where `\.` needs '.', so backtracking never helps.
      Only the first three fractional digits are taken. */
  function NumberAt(s: string, p: nat): (r: Option<string>)
    ensures r.Some? ==> IsLiters(r.value) && p + |r.value| <= |s| && s[p..p + |r.value|] == r.value
    ensures r.Some? ==> |r.value| - 4 == RunLength(s, p, IsDigit)
  {
    if p <= |s| then
      var n := RunLength(s, p, IsDigit);
      if 1 <= n && p + n + 4 <= |s| && s[p + n] == '.' && AllDigits(s[p + n + 1..p + n + 4]) then
        Some(s[p..p + n + 4])
      else
        None
    else
      None
  }

  /** Whenever a whole digit run of length `n` stands at `p`, followed by '.' and three
      digits, the number pattern matches there and takes exactly that text. */
  lemma NumberAtExactly(s: string, p: nat, n: nat)
    requires 1 <= n && p + n + 4 <= |s|
    requires AllDigits(s[p..p + n]) && s[p + n] == '.' && AllDigits(s[p + n + 1..p + n + 4])
    ensures NumberAt(s, p) == Some(s[p..p + n + 4])
  {
    DigitRunIsRun(s, p, s[p..p + n]);
  }

  /** `.*?\s?(\d+\.\d{3})` once the lazy `.*?` has consumed the text up to `j`: first the
      rest of the pattern (`\s?` tries to take one whitespace character, then none), and
      only when that fails one more character for `.`, which never takes a line feed. */
  function LazyNumber(s: string, j: nat): (r: Option<string>)
    requires j <= |s|
    ensures r.Some? ==> IsLiters(r.value)
    decreases |s| - j
  {
    if j < |s| && IsSpace(s[j]) && NumberAt(s, j + 1).Some? then NumberAt(s, j + 1)
    else if NumberAt(s, j).Some? then NumberAt(s, j)
    else if j < |s| && s[j] != '\n' then LazyNumber(s, j + 1)
    else None
  }

  /** The fuel pattern anchored at `i`: the literal "95", then the lazy scan. */
  function FuelAt(s: string, i: nat): (r: Option<string>)
    ensures r.Some? ==> IsLiters(r.value)
  {
    if i + 2 <= |s| && s[i..i + 2] == "95" then LazyNumber(s, i + 2) else None
  }

  /** Line 52: the captured litres, or "00.000". */
  function Liters(text: string): (r: string)
    ensures IsLiters(r)
    ensures r != DefaultLiters ==> exists i: nat :: FuelAt(text, i) == Some(r)
  {
    match Search(text, FuelAt)
    case Some(f) => f.value
    case None => DefaultLiters
  }

  /** Line 53: never empty, always the fixed label, the litres and " L". */
  function ItemDescription(text: string): (r: string)
    ensures |r| >= |FuelLabel| + 7
    ensures r[..|FuelLabel|] == FuelLabel && r[|r| - 2..] == " L"
    ensures IsLiters(r[|FuelLabel|..|r| - 2])
  {
    var liters := Liters(text);
    var r := FuelLabel + liters + " L";
    assert r[|FuelLabel|..|r| - 2] == liters;
    r
  }

  /** "95" at position `i`. */
  function Marker95At(s: string, i: nat): Option<string>
  {
    if i + 2 <= |s| && s[i..i + 2] == "95" then Some("95") else None
  }

  function ValueOf<T>(r: Option<Found<T>>): Option<T>
  {
    match r
    case Some(f) => Some(f.value)
    case None => None
  }

  /** The litres without the regular expression: the leftmost `digits.ddd` that starts
      after the first "95" of the text, or the default. */
  function LitersAfterFirst95(text: string): string
  {
    match Search(text, Marker95At)
    case None => DefaultLiters
    case Some(f) =>
      match First(text, f.at + 2, NumberAt)
      case Some(g) => g.value
      case None => DefaultLiters
  }

  /** On a text without line feeds, the lazy scan finds the leftmost number at or after
      `j`: the optional whitespace never changes which number is found. */
  lemma {:induction false} LazyNumberIsLeftmost(s: string, j: nat)
    requires '\n' !in s && j <= |s|
    ensures LazyNumber(s, j) == ValueOf(First(s, j, NumberAt))
    decreases |s| - j
  {
    if j < |s| && IsSpace(s[j]) && NumberAt(s, j + 1).Some? {
      assert NumberAt(s, j).None?;
      FirstAt(s, j, NumberAt, j + 1);
    } else if NumberAt(s, j).Some? {
      FirstAt(s, j, NumberAt, j);
    } else if j < |s| {
      assert s[j] != '\n' by { assert s[j] in s; }
      LazyNumberIsLeftmost(s, j + 1);
      assert First(s, j, NumberAt) == First(s, j + 1, NumberAt);
    } else {
      assert First(s, j, NumberAt).None?;
    }
  }

  /** On a text without line feeds, the litres are the first `digits.ddd` after the first
      "95", and "00.000" when there is no such number: a later "95" never helps. */
  lemma LitersWithoutNewline(text: string)
    requires '\n' !in text
    ensures Liters(text) == LitersAfterFirst95(text)
  {
    match Search(text, Marker95At)
    case None =>
      assert forall i: nat :: FuelAt(text, i) == None by {
        forall i: nat ensures FuelAt(text, i) == None {
          if i <= |text| { assert Marker95At(text, i).None?; }
        }
      }
    case Some(f) =>
      var i0 := f.at;
      LazyNumberIsLeftmost(text, i0 + 2);
      assert FuelAt(text, i0) == ValueOf(First(text, i0 + 2, NumberAt));
      forall i: nat | i < i0 ensures FuelAt(text, i).None? {
        assert Marker95At(text, i).None?;
      }
      match First(text, i0 + 2, NumberAt)
      case Some(g) =>
        FirstAt(text, 0, FuelAt, i0);
      case None =>
        forall i: nat | i0 < i <= |text| ensures FuelAt(text, i).None? {
          if i + 2 <= |text| && text[i..i + 2] == "95" {
            LazyNumberIsLeftmost(text, i + 2);
            assert First(text, i + 2, NumberAt).None?;
          }
        }
        assert Search(text, FuelAt).None?;
  }

  /** Without a "95" in the text the litres are the default. */
  lemma LitersDefaultWithoutMarker(text: string)
    requires forall i: nat :: Marker95At(text, i).None?
    ensures Liters(text) == DefaultLiters
  {
    forall i: nat ensures FuelAt(text, i).None? {
      assert Marker95At(text, i).None?;
    }
  }

  /** A number with exactly three decimals after "95", whatever comes between them on
      the line, gives the litres. */
  lemma LitersExample(rest: string)
    ensures Liters("95無鉛汽油 23.456" + rest) == "23.456"
  {
    var t := "95無鉛汽油 23.456" + rest;
    assert t[0..2] == "95" && t[6] == ' ' && t[7..13] == "23.456";
    assert RunLength(t, 9, IsDigit) == 0;
    assert RunLength(t, 7, IsDigit) == 2;
    assert NumberAt(t, 7) == Some("23.456");
    assert LazyNumber(t, 6) == Some("23.456");
    forall j | 2 <= j <= 5 ensures NumberAt(t, j).None? && !IsSpace(t[j]) && t[j] != '\n' {
      assert RunLength(t, j, IsDigit) == 0;
    }
    assert LazyNumber(t, 5) == Some("23.456");
    assert LazyNumber(t, 4) == Some("23.456");
    assert LazyNumber(t, 3) == Some("23.456");
    assert LazyNumber(t, 2) == Some("23.456");
    FirstAt(t, 0, FuelAt, 0);
  }

  /** `\d{3}` stops after three decimals: "12.3456" gives "12.345". */
  lemma LitersThreeDecimals(rest: string)
    ensures Liters("95 12.3456" + rest) == "12.345"
  {
    var t := "95 12.3456" + rest;
    assert t[0..2] == "95" && t[2] == ' ' && t[3..9] == "12.345";
    assert RunLength(t, 5, IsDigit) == 0;
    assert RunLength(t, 3, IsDigit) == 2;
    assert NumberAt(t, 3) == Some("12.345");
    assert LazyNumber(t, 2) == Some("12.345");
    FirstAt(t, 0, FuelAt, 0);
  }

  // ---------------------------------------------------------------------------
  // Sales and tax amounts: (銷售額|Amount)[: ]*(\d+) and (稅額|Tax)[: ]*(\d+)
  // ---------------------------------------------------------------------------

  /** Line 57's alternatives, in the order the pattern tries them. */
  const SalesKeywords: seq<string> := ["銷售額", "Amount"]

  /** Line 58's alternatives, in the order the pattern tries them. */
  const TaxKeywords: seq<string> := ["稅額", "Tax"]

  predicate IsAmountSeparator(c: char) { c == ':' || c == ' ' }

  predicate KeywordAt(s: string, i: nat, keyword: string)
  {
    i + |keyword| <= |s| && s[i..i + |keyword|] == keyword
  }

  /** From `p`, only ':' and ' ' up to `j`, and there the whole digit run `v`. */
  predicate DigitsAfterSeparators(s: string, p: nat, j: nat, v: string)
  {
    && p <= j && j + |v| <= |s|
    && (forall k :: p <= k < j ==> IsAmountSeparator(s[k]))
    && s[j..j + |v|] == v && v != [] && AllDigits(v)
    && (j + |v| == |s| || !IsDigit(s[j + |v|]))
  }

  /** `[: ]*(\d+)` anchored at `p`: greedy separators, then greedy digits. Giving back a
      separator would leave ':' or ' ' where `\d` needs a digit, so backtracking never
      helps. */
  function AmountAfter(s: string, p: nat): (r: Option<string>)
    requires p <= |s|
    ensures r.Some? ==> r.value != [] && AllDigits(r.value)
  {
    var j := p + RunLength(s, p, IsAmountSeparator);
    var n := RunLength(s, j, IsDigit);
    if n >= 1 then Some(s[j..j + n]) else None
  }

  /** The amount after `p` is the one digit run reachable over separators: it is found
      whenever such a run exists, and it is that run. */
  lemma AmountAfterIsReachableRun(s: string, p: nat)
    requires p <= |s|
    ensures AmountAfter(s, p).Some? ==>
      DigitsAfterSeparators(s, p, p + RunLength(s, p, IsAmountSeparator), AmountAfter(s, p).value)
    ensures forall j: nat, v :: DigitsAfterSeparators(s, p, j, v) ==> AmountAfter(s, p) == Some(v)
  {
    var j := p + RunLength(s, p, IsAmountSeparator);
    var n := RunLength(s, j, IsDigit);
    if n >= 1 {
      assert DigitsAfterSeparators(s, p, j, s[j..j + n]);
      AmountAfterUnique(s, p, j, s[j..j + n]);
    } else {
      AmountAfterNone(s, p);
    }
  }

  lemma AmountAfterUnique(s: string, p: nat, j: nat, v: string)
    requires DigitsAfterSeparators(s, p, j, v)
    requires j == p + RunLength(s, p, IsAmountSeparator)
    ensures forall j': nat, v' :: DigitsAfterSeparators(s, p, j', v') ==> v' == v
  {
    forall j': nat, v' | DigitsAfterSeparators(s, p, j', v') ensures v' == v {
      SeparatorRunEnds(s, p, j', v');
      DigitRunIsRun(s, j, v);
      DigitRunIsRun(s, j, v');
    }
  }

  lemma AmountAfterNone(s: string, p: nat)
    requires p <= |s|
    requires RunLength(s, p + RunLength(s, p, IsAmountSeparator), IsDigit) == 0
    ensures forall j: nat, v :: !DigitsAfterSeparators(s, p, j, v)
  {
    forall j: nat, v | DigitsAfterSeparators(s, p, j, v) ensures false {
      SeparatorRunEnds(s, p, j, v);
    }
  }

  /** A digit run reached over separators starts exactly where the separators end. */
  lemma SeparatorRunEnds(s: string, p: nat, j: nat, v: string)
    requires DigitsAfterSeparators(s, p, j, v)
    ensures j == p + RunLength(s, p, IsAmountSeparator)
  {
    var e := p + RunLength(s, p, IsAmountSeparator);
    assert IsDigit(s[j]) by { assert s[j] == s[j..j + |v|][0]; }

  }

  /** A whole digit run starting at `j` is the maximal one. */
  lemma DigitRunIsRun(s: string, j: nat, v: string)
    requires j + |v| <= |s| && s[j..j + |v|] == v && v != [] && AllDigits(v)
    requires j + |v| == |s| || !IsDigit(s[j + |v|])
    ensures |v| == RunLength(s, j, IsDigit)
  {
  }

  /** The amount that follows `keyword` when the keyword is at `i`. */
  function AmountAfterKeyword(s: string, i: nat, keyword: string): Option<string>
  {
    if KeywordAt(s, i, keyword) then AmountAfter(s, i + |keyword|) else None
  }

  /** The alternation from alternative `k` on: the first keyword that is at `i` and is
      followed by an amount (the pattern backtracks into the alternation). */
  function AlternativesFrom(keywords: seq<string>, k: nat, s: string, i: nat): (r: Option<string>)
    requires k <= |keywords|
    ensures r.Some? ==>
      exists a :: k <= a < |keywords| && AmountAfterKeyword(s, i, keywords[a]) == r
        && forall b :: k <= b < a ==> AmountAfterKeyword(s, i, keywords[b]).None?
    ensures r.None? ==> forall a :: k <= a < |keywords| ==> AmountAfterKeyword(s, i, keywords[a]).None?
    decreases |keywords| - k
  {
    if k == |keywords| then None
    else
      var here := AmountAfterKeyword(s, i, keywords[k]);
      if here.Some? then
        assert AmountAfterKeyword(s, i, keywords[k]) == here;
        here
      else
        assert AmountAfterKeyword(s, i, keywords[k]).None?;
        AlternativesFrom(keywords, k + 1, s, i)
  }

  /** The amount pattern anchored at `i`. */
  function KeywordAmountAt(keywords: seq<string>, s: string, i: nat): (r: Option<string>)
    ensures r.Some? ==> r.value != [] && AllDigits(r.value)
    ensures r.Some? ==> exists a :: 0 <= a < |keywords| && AmountAfterKeyword(s, i, keywords[a]) == r
    ensures r.None? <==> forall a :: 0 <= a < |keywords| ==> AmountAfterKeyword(s, i, keywords[a]).None?
  {
    AlternativesFrom(keywords, 0, s, i)
  }

  /** Lines 57-61 for one keyword list: the digits after the leftmost keyword occurrence
      that is followed by separators and digits, or "". */
  function Amount(keywords: seq<string>, text: string): (r: string)
    ensures r == "" || AllDigits(r)
    ensures r == "" <==> forall i: nat :: i <= |text| ==> KeywordAmountAt(keywords, text, i).None?
    ensures r != "" ==>
      exists i: nat :: KeywordAmountAt(keywords, text, i) == Some(r)
        && forall j: nat :: j < i ==> KeywordAmountAt(keywords, text, j).None?
  {
    var m := (s: string, i: nat) => KeywordAmountAt(keywords, s, i);
    assert forall i: nat :: m(text, i) == KeywordAmountAt(keywords, text, i);
    match Search(text, m)
    case Some(f) =>
      assert KeywordAmountAt(keywords, text, f.at) == Some(f.value);
      f.value
    case None => ""
  }

  /** Lines 57 and 60. */
  function SalesAmount(text: string): (r: string)
    ensures r == "" || AllDigits(r)
  {
    Amount(SalesKeywords, text)
  }

  /** Lines 58 and 61. */
  function TaxAmount(text: string): (r: string)
    ensures r == "" || AllDigits(r)
  {
    Amount(TaxKeywords, text)
  }

  /** `keyword` at `i`, then only ':' and ' ' up to `j`, and there the whole digit run `v`. */
  predicate KeywordThenDigits(text: string, i: nat, keyword: string, j: nat, v: string)
  {
    KeywordAt(text, i, keyword) && DigitsAfterSeparators(text, i + |keyword|, j, v)
  }

  /** An anchored amount match is a keyword alternative followed by separators and a
      whole digit run. */
  lemma AnchoredAmountFollowsKeyword(keywords: seq<string>, text: string, i: nat)
    requires KeywordAmountAt(keywords, text, i).Some?
    ensures exists a, j: nat ::
      0 <= a < |keywords| && KeywordThenDigits(text, i, keywords[a], j, KeywordAmountAt(keywords, text, i).value)
  {
    var r := KeywordAmountAt(keywords, text, i).value;
    var a :| 0 <= a < |keywords| && AmountAfterKeyword(text, i, keywords[a]) == Some(r);
    KeywordAmountIsDigitRun(text, i, keywords[a], r);
  }

  lemma KeywordAmountIsDigitRun(text: string, i: nat, keyword: string, r: string)
    requires AmountAfterKeyword(text, i, keyword) == Some(r)
    ensures exists j: nat :: KeywordThenDigits(text, i, keyword, j, r)
  {
    var p: nat := i + |keyword|;
    AmountAfterIsReachableRun(text, p);
    assert KeywordThenDigits(text, i, keyword, p + RunLength(text, p, IsAmountSeparator), AmountAfter(text, p).value);
  }

  /** The amount is the anchored match at the leftmost position where one exists. */
  lemma AmountAt(keywords: seq<string>, text: string, p: nat)
    requires p <= |text| && KeywordAmountAt(keywords, text, p).Some?
    requires forall q: nat :: q < p ==> KeywordAmountAt(keywords, text, q).None?
    ensures Amount(keywords, text) == KeywordAmountAt(keywords, text, p).value
  {
    var r := Amount(keywords, text);
    assert r != "";
    var i: nat :| KeywordAmountAt(keywords, text, i) == Some(r)
      && forall j: nat :: j < i ==> KeywordAmountAt(keywords, text, j).None?;
    assert !(i < p) && !(p < i);
  }

  /** A non-empty amount is a whole digit run reached from a keyword over ':' and ' '
      only; and whenever some keyword is followed that way by digits, the amount is
      not empty. */
  lemma AmountFollowsKeyword(keywords: seq<string>, text: string)
    ensures Amount(keywords, text) != "" ==>
      exists i: nat, a, j: nat :: 0 <= a < |keywords| && KeywordThenDigits(text, i, keywords[a], j, Amount(keywords, text))
    ensures forall i: nat, a, j: nat, v ::
      (0 <= a < |keywords| && KeywordThenDigits(text, i, keywords[a], j, v)) ==> Amount(keywords, text) != ""
  {
    var r := Amount(keywords, text);
    if r != "" {
      var i: nat :| KeywordAmountAt(keywords, text, i) == Some(r);
      AnchoredAmountFollowsKeyword(keywords, text, i);
    }
    forall i: nat, a, j: nat, v | 0 <= a < |keywords| && KeywordThenDigits(text, i, keywords[a], j, v)
      ensures r != ""
    {
      AmountAfterIsReachableRun(text, i + |keywords[a]|);
      assert AmountAfterKeyword(text, i, keywords[a]).Some?;
      assert KeywordAmountAt(keywords, text, i).Some?;
    }
  }

  lemma SalesAmountExample(rest: string)
    requires rest == "" || !IsDigit(rest[0])
    ensures SalesAmount("銷售額: 1000" + rest) == "1000"
  {
    var t := "銷售額: 1000" + rest;
    assert t[0..3] == "銷售額" && t[5..9] == "1000";
    assert IsAmountSeparator(t[3]) && IsAmountSeparator(t[4]) && !IsAmountSeparator(t[5]);
    assert RunLength(t, 3, IsAmountSeparator) == 2;
    assert RunLength(t, 5, IsDigit) == 4;
    assert AmountAfter(t, 3) == Some("1000");
    assert KeywordAt(t, 0, SalesKeywords[0]);
    assert AmountAfterKeyword(t, 0, SalesKeywords[0]) == Some("1000");
    assert KeywordAmountAt(SalesKeywords, t, 0) == Some("1000");
    AmountAt(SalesKeywords, t, 0);
  }

  /** A keyword that is not followed by digits is passed over: the search goes on to
      the next occurrence of either alternative. */
  lemma TaxAmountSkipsKeywordWithoutDigits(rest: string)
    requires rest == "" || !IsDigit(rest[0])
    ensures TaxAmount("稅額 N/A Tax:7" + rest) == "7"
  {
    var t := "稅額 N/A Tax:7" + rest;
    TaxMatchesInExample(t, rest);
    AmountAt(TaxKeywords, t, 7);
  }

  lemma TaxMatchesInExample(t: string, rest: string)
    requires t == "稅額 N/A Tax:7" + rest
    requires rest == "" || !IsDigit(rest[0])
    ensures forall q: nat :: q < 7 ==> KeywordAmountAt(TaxKeywords, t, q).None?
    ensures KeywordAmountAt(TaxKeywords, t, 7) == Some("7")
  {
    TaxKeywordWithoutDigits(t, rest);
    NoTaxKeywordInside(t, rest);
    TaxKeywordWithDigit(t, rest);
  }

  lemma TaxKeywordWithoutDigits(t: string, rest: string)
    requires t == "稅額 N/A Tax:7" + rest
    ensures KeywordAmountAt(TaxKeywords, t, 0).None?
  {
    assert t[0..2] == "稅額" && t[0..3][0] == t[0] == '稅';
    assert IsAmountSeparator(t[2]) && !IsAmountSeparator(t[3]) && !IsDigit(t[3]);
    assert RunLength(t, 2, IsAmountSeparator) == 1;
    assert RunLength(t, 3, IsDigit) == 0;
    assert AmountAfterKeyword(t, 0, TaxKeywords[0]).None?;
  }

  lemma NoTaxKeywordInside(t: string, rest: string)
    requires t == "稅額 N/A Tax:7" + rest
    ensures forall q: nat :: 1 <= q < 7 ==> KeywordAmountAt(TaxKeywords, t, q).None?
  {
    forall q: nat | 1 <= q < 7 ensures KeywordAmountAt(TaxKeywords, t, q).None? {
      assert !KeywordAt(t, q, "稅額") by { assert t[q..q + 2][0] == t[q]; }
      assert !KeywordAt(t, q, "Tax") by { assert t[q..q + 3][0] == t[q]; }
    }
  }

  lemma TaxKeywordWithDigit(t: string, rest: string)
    requires t == "稅額 N/A Tax:7" + rest
    requires rest == "" || !IsDigit(rest[0])
    ensures KeywordAmountAt(TaxKeywords, t, 7) == Some("7")
  {
    assert t[7..9][0] == t[7] == 'T' && t[7..10] == "Tax" && t[11] == '7';
    assert IsAmountSeparator(t[10]) && !IsAmountSeparator(t[11]);
    assert RunLength(t, 10, IsAmountSeparator) == 1;
    assert RunLength(t, 11, IsDigit) == 1;
    assert AmountAfterKeyword(t, 7, TaxKeywords[1]) == Some("7");
  }
}
