/** The receipt parser of main.py (`parse_extracted_text`): it reads the OCR
    text of a receipt and returns the item descriptions, the item amounts (in
    cents) and the receipt date. */
module ReceiptParser {
  import opened Options
  import opened Text
  import opened Dates

  // ---------------------------------------------------------------------
  // The receipt date: re.search(r'\d{2}/\d{2}/\d{2}') then strptime('%m/%d/%y')
  // ---------------------------------------------------------------------

  /** `strptime` raised `ValueError` on the matched date text. */
  datatype ParseError = InvalidDate(dateText: string)

  /** The pattern `\d{2}/\d{2}/\d{2}` matches `s` at position `i`. */
  predicate DatePatternAt(s: string, i: int) {
    0 <= i && i + 8 <= |s|
    && IsDigit(s[i]) && IsDigit(s[i + 1]) && s[i + 2] == '/'
    && IsDigit(s[i + 3]) && IsDigit(s[i + 4]) && s[i + 5] == '/'
    && IsDigit(s[i + 6]) && IsDigit(s[i + 7])
  }

  /** `i` is where `re.search` finds the date pattern: the leftmost match. */
  predicate FirstDateAt(s: string, i: int) {
    DatePatternAt(s, i) && forall j :: 0 <= j < i ==> !DatePatternAt(s, j)
  }

  /** The leftmost match of the date pattern at or after `from`. */
  function FindDatePattern(s: string, from: nat): (r: Option<nat>)
    requires from <= |s|
    ensures r.Some? ==> from <= r.value && DatePatternAt(s, r.value)
    ensures r.Some? ==> forall j :: from <= j < r.value ==> !DatePatternAt(s, j)
    ensures r.None? ==> forall j :: from <= j ==> !DatePatternAt(s, j)
    decreases |s| - from
  {
    if from + 8 > |s| then None
    else if DatePatternAt(s, from) then Some(from)
    else FindDatePattern(s, from + 1)
  }

  function TwoDigitValue(s: string, i: int): (v: nat)
    requires 0 <= i && i + 1 < |s| && IsDigit(s[i]) && IsDigit(s[i + 1])
    ensures v < 100
  {
    DigitValue(s[i]) * 10 + DigitValue(s[i + 1])
  }

  /** `datetime.strptime(t, '%m/%d/%y').date()` on the eight characters at
      `i`: it succeeds exactly when month, day and the expanded two-digit
      year form a real calendar date, and raises otherwise. */
  function ParseMonthDayYear(s: string, i: int): (r: Result<Date, ParseError>)
    requires DatePatternAt(s, i)
    ensures r.Ok? ==> IsValid(r.value)
    ensures r.Ok? ==> r.value.month == TwoDigitValue(s, i) && r.value.day == TwoDigitValue(s, i + 3)
    ensures r.Ok? ==> r.value.year % 100 == TwoDigitValue(s, i + 6) && 1969 <= r.value.year <= 2068
    ensures r.Err? <==> !IsValid(Date(ExpandYear(TwoDigitValue(s, i + 6)), TwoDigitValue(s, i), TwoDigitValue(s, i + 3)))
    ensures r.Err? ==> r.error == InvalidDate(s[i..i + 8])
  {
    var month := TwoDigitValue(s, i);
    var day := TwoDigitValue(s, i + 3);
    var year := ExpandYear(TwoDigitValue(s, i + 6));
    if 1 <= month <= 12 && 1 <= day <= DaysInMonth(year, month) then Ok(Date(year, month, day))
    else Err(InvalidDate(s[i..i + 8]))
  }

  /** The date part of `parse_extracted_text`: `None` when the text holds no
      `dd/dd/dd`, otherwise the first such substring read as `MM/DD/YY`,
      which raises when it is not a calendar date. */
  function ExtractDate(text: string): (r: Result<Option<Date>, ParseError>)
    ensures r == Ok(None) <==> forall i :: !DatePatternAt(text, i)
    ensures forall i :: FirstDateAt(text, i) ==> (r.Ok? <==> ParseMonthDayYear(text, i).Ok?)
    ensures forall i :: FirstDateAt(text, i) && r.Ok? ==> r.value == Some(ParseMonthDayYear(text, i).value)
    ensures forall i :: FirstDateAt(text, i) && r.Err? ==> r.error == ParseMonthDayYear(text, i).error
  {
    match FindDatePattern(text, 0)
    case None => Ok(None)
    case Some(i) =>
      assert FirstDateAt(text, i);
      assert forall j :: FirstDateAt(text, j) ==> j == i;
      match ParseMonthDayYear(text, i)
      case Ok(d) => Ok(Some(d))
      case Err(e) => Err(e)
  }

  // ---------------------------------------------------------------------
  // The item description: re.search(r'^(\d+)\s+(.+?)\s+\d+', line), group 2
  // ---------------------------------------------------------------------

  datatype CharClass = Digits | Spaces

  predicate InClass(c: char, cls: CharClass) {
    match cls
    case Digits => IsDigit(c)
    case Spaces => IsSpace(c)
  }

  /** The longest run of `cls` characters starting at `i`: what a greedy
      `\d+` or `\s+` consumes before any backtracking. */
  function Run(s: string, i: nat, cls: CharClass): (n: nat)
    requires i <= |s|
    ensures i + n <= |s|
    decreases |s| - i
  {
    if i < |s| && InClass(s[i], cls) then 1 + Run(s, i + 1, cls) else 0
  }

  /** Every character of the run is in the class, and the next one is not. */
  lemma {:induction false} RunSpec(s: string, i: nat, cls: CharClass)
    requires i <= |s|
    ensures var n := Run(s, i, cls);
            && (forall k :: i <= k < i + n ==> InClass(s[k], cls))
            && (i + n == |s| || !InClass(s[i + n], cls))
    decreases |s| - i
  {
    if i < |s| && InClass(s[i], cls) {
      RunSpec(s, i + 1, cls);
    }
  }

  /** `\s+\d` matches at `q` (the tail `\s+\d+` of the pattern: once the
      greedy `\s+` has taken the whole whitespace run, a digit must follow). */
  predicate SpaceThenDigitAt(s: string, q: nat) {
    q <= |s| && var w := Run(s, q, Spaces); w >= 1 && q + w < |s| && IsDigit(s[q + w])
  }

  /** `.` matches every character of `s[p..q]` (it does not match a newline). */
  predicate NoNewline(s: string, p: nat, q: nat) {
    q <= |s| && forall k :: p <= k < q ==> s[k] != '\n'
  }

  /** `.+?` started at `p` can stop somewhere. */
  ghost predicate CanEnd(s: string, p: nat) {
    exists q :: p < q && NoNewline(s, p, q) && SpaceThenDigitAt(s, q)
  }

  /** `.+?` started at `p` stops at `q`: the shortest non-empty run after
      which `\s+\d` matches. */
  ghost predicate LazyStopsAt(s: string, p: nat, q: nat) {
    p < q && NoNewline(s, p, q) && SpaceThenDigitAt(s, q)
    && forall q' :: p < q' < q ==> !SpaceThenDigitAt(s, q')
  }

  /** The regex succeeds on `line` with group 2 equal to `desc`. The leading
      `\d+` takes the whole digit run (a shorter one leaves a digit where
      `\s+` needs whitespace). The regex engine tries the whitespace widths
      of `\s+` from the longest down, and for each the shortest `.+?`; so
      the description starts at the LAST position in the whitespace run from
      which `.+?` can end, and ends where it first can. */
  ghost predicate DescriptionMatch(line: string, desc: string) {
    exists p: nat, q: nat :: DescriptionSpan(line, p, q) && desc == line[p..q]
  }

  /** Group 2 spans `line[p..q]`: `p` is the last start within the
      whitespace run after the item number from which `.+?` can end, and `q`
      is where it first ends. */
  ghost predicate DescriptionSpan(line: string, p: nat, q: nat) {
    var d := Run(line, 0, Digits);
    var top := d + Run(line, d, Spaces);
    && d >= 1 && d < p <= top && LazyStopsAt(line, p, q)
    && forall p' :: p < p' <= top ==> !CanEnd(line, p')
  }

  /** `.+?` from `p`, trying the end positions `q, q + 1, ...` in turn. */
  function LazyEnd(s: string, p: nat, q: nat): (r: Option<nat>)
    requires p < q && NoNewline(s, p, q - 1)
    ensures r.Some? ==> q <= r.value && NoNewline(s, p, r.value) && SpaceThenDigitAt(s, r.value)
    ensures r.Some? ==> forall q' :: q <= q' < r.value ==> !SpaceThenDigitAt(s, q')
    ensures r.None? ==> forall q' :: q <= q' && NoNewline(s, p, q') ==> !SpaceThenDigitAt(s, q')
    decreases |s| + 1 - q
  {
    if q > |s| then None
    else if s[q - 1] == '\n' then None
    else if SpaceThenDigitAt(s, q) then Some(q)
    else LazyEnd(s, p, q + 1)
  }

  /** The backtracking over the width of `\s+`: the description starts
      tried at `p, p - 1, ..., d + 1`; the first that lets `.+?` end wins. */
  function TryStarts(s: string, d: nat, p: nat): (r: Option<(nat, nat)>)
    requires d <= p <= |s|
    ensures r.Some? ==> d < r.value.0 <= p && LazyStopsAt(s, r.value.0, r.value.1)
    ensures r.Some? ==> forall p' :: r.value.0 < p' <= p ==> !CanEnd(s, p')
    ensures r.None? ==> forall p' :: d < p' <= p ==> !CanEnd(s, p')
    decreases p - d
  {
    if p == d then None
    else
      match LazyEnd(s, p, p + 1)
      case Some(q) => Some((p, q))
      case None => TryStarts(s, d, p - 1)
  }

  /** Group 2 of `re.search(r'^(\d+)\s+(.+?)\s+\d+', line)`, or `None`. */
  function ItemDescription(line: string): Option<string> {
    var d := Run(line, 0, Digits);
    var found := TryStarts(line, d, d + Run(line, d, Spaces));
    if d == 0 || found.None? then None else Some(line[found.value.0..found.value.1])
  }

  /** `.+?` stops at one place at most. */
  lemma LazyStopUnique(s: string, p: nat, q1: nat, q2: nat)
    requires LazyStopsAt(s, p, q1) && LazyStopsAt(s, p, q2)
    ensures q1 == q2
  {
  }

  lemma StopCanEnd(s: string, p: nat, q: nat)
    requires LazyStopsAt(s, p, q)
    ensures CanEnd(s, p)
  {
    assert p < q && NoNewline(s, p, q) && SpaceThenDigitAt(s, q);
  }

  /** The regex yields at most one description. */
  lemma DescriptionSpanUnique(line: string, pa: nat, qa: nat, pb: nat, qb: nat)
    requires DescriptionSpan(line, pa, qa) && DescriptionSpan(line, pb, qb)
    ensures pa == pb && qa == qb
  {
    StopCanEnd(line, pa, qa);
    StopCanEnd(line, pb, qb);
    if pa == pb {
      LazyStopUnique(line, pa, qa, qb);
    }
  }

  /** What `ItemDescription` returns is a match of the regex. */
  lemma ItemDescriptionSound(line: string)
    requires ItemDescription(line).Some?
    ensures DescriptionMatch(line, ItemDescription(line).value)
  {
    var d := Run(line, 0, Digits);
    var top := d + Run(line, d, Spaces);
    var (p, q) := TryStarts(line, d, top).value;
    assert DescriptionSpan(line, p, q);
  }

  /** A start from which `.+?` can end makes the backtracking succeed. */
  lemma TryStartsSome(line: string, d: nat, top: nat, p: nat)
    requires d < p <= top <= |line| && CanEnd(line, p)
    ensures TryStarts(line, d, top).Some?
  {
  }

  /** What the backtracking finds after a non-empty item number is the
      regex's match span. */
  lemma TryStartsSpan(line: string)
    requires Run(line, 0, Digits) >= 1
    requires TryStarts(line, Run(line, 0, Digits), Run(line, 0, Digits) + Run(line, Run(line, 0, Digits), Spaces)).Some?
    ensures var d := Run(line, 0, Digits);
            var found := TryStarts(line, d, d + Run(line, d, Spaces));
            DescriptionSpan(line, found.value.0, found.value.1)
  {
  }

  /** When the regex matches with span `p..q`, the backtracking finds
      exactly that span. */
  lemma TryStartsFinds(line: string, p: nat, q: nat)
    requires DescriptionSpan(line, p, q)
    ensures var d := Run(line, 0, Digits);
            TryStarts(line, d, d + Run(line, d, Spaces)) == Some((p, q))
  {
    var d := Run(line, 0, Digits);
    var top := d + Run(line, d, Spaces);
    StopCanEnd(line, p, q);
    TryStartsSome(line, d, top, p);
    TryStartsSpan(line);
    var found := TryStarts(line, d, top);
    var (p0, q0) := found.value;
    DescriptionSpanUnique(line, p, q, p0, q0);
    assert found == Some((p0, q0));
  }

  /** When the regex matches, `ItemDescription` finds exactly that. */
  lemma ItemDescriptionComplete(line: string, desc: string)
    requires DescriptionMatch(line, desc)
    ensures ItemDescription(line) == Some(desc)
  {
    var p: nat, q: nat :| DescriptionSpan(line, p, q) && desc == line[p..q];
    TryStartsFinds(line, p, q);
  }

  /** The computed description is exactly what the regex yields. */
  lemma ItemDescriptionIsRegexMatch(line: string)
    ensures forall desc :: DescriptionMatch(line, desc) <==> ItemDescription(line) == Some(desc)
  {
    forall desc ensures DescriptionMatch(line, desc) <==> ItemDescription(line) == Some(desc) {
      if DescriptionMatch(line, desc) {
        ItemDescriptionComplete(line, desc);
      }
      if ItemDescription(line) == Some(desc) {
        ItemDescriptionSound(line);
      }
    }
  }

  // ---------------------------------------------------------------------
  // The item amount: re.search(r'\$(\d+\.\d{2})', line), group 1 as cents
  // ---------------------------------------------------------------------

  /** The pattern `\$\d+\.\d{2}` matches at `i` with `n` integer digits. */
  predicate DollarAmountAt(s: string, i: int, n: int) {
    0 <= i && 1 <= n && i + n + 4 <= |s| && s[i] == '$'
    && (forall k :: i + 1 <= k < i + 1 + n ==> IsDigit(s[k]))
    && s[i + 1 + n] == '.' && IsDigit(s[i + 2 + n]) && IsDigit(s[i + 3 + n])
  }

  /** The matched `<digits>.<d1><d2>` in cents: the integer part times 100
      plus the two decimals; any further digits are not part of the match. */
  function CentsAt(s: string, i: int, n: int): int
    requires DollarAmountAt(s, i, n)
  {
    NumberValue(s[i + 1..i + 1 + n]) * 100 + TwoDigitValue(s, i + 2 + n)
  }

  /** `re.search` finds the amount pattern first at `i`, worth `cents`. */
  ghost predicate AmountMatch(line: string, cents: int) {
    exists i, n :: DollarAmountAt(line, i, n) && cents == CentsAt(line, i, n)
                   && forall j, m :: 0 <= j < i ==> !DollarAmountAt(line, j, m)
  }

  /** The integer part of a match is the whole digit run after `$`: a
      shorter run would be followed by a digit, not by `.`. */
  lemma DollarAmountDigits(s: string, i: nat, n: int)
    requires i < |s| && DollarAmountAt(s, i, n)
    ensures n == Run(s, i + 1, Digits)
  {
    RunSpec(s, i + 1, Digits);
  }

  /** The leftmost match of the amount pattern at or after `from`. */
  function FindAmount(s: string, from: nat): (r: Option<(nat, nat)>)
    requires from <= |s|
    ensures r.Some? ==> from <= r.value.0 && DollarAmountAt(s, r.value.0, r.value.1)
    ensures r.Some? ==> forall j, m :: from <= j < r.value.0 ==> !DollarAmountAt(s, j, m)
    ensures r.None? ==> forall j, m :: from <= j ==> !DollarAmountAt(s, j, m)
    decreases |s| - from
  {
    if from == |s| then None
    else
      var n := Run(s, from + 1, Digits) as int;
      if from + 1 <= |s| && s[from] == '$' && DollarAmountAt(s, from, n) then Some((from, n as nat))
      else
        assert forall m :: !DollarAmountAt(s, from, m) by {
          forall m | DollarAmountAt(s, from, m) ensures false {
            DollarAmountDigits(s, from, m);
          }
        }
        FindAmount(s, from + 1)
  }

  /** Group 1 of `re.search(r'\$(\d+\.\d{2})', line)` as cents, or `None`. */
  function ItemAmount(line: string): Option<int> {
    match FindAmount(line, 0)
    case None => None
    case Some((i, n)) => Some(CentsAt(line, i, n))
  }

  /** The computed amount is exactly what the regex yields. */
  lemma ItemAmountIsRegexMatch(line: string)
    ensures forall cents :: AmountMatch(line, cents) <==> ItemAmount(line) == Some(cents)
  {
    forall cents ensures AmountMatch(line, cents) <==> ItemAmount(line) == Some(cents) {
      var found := FindAmount(line, 0);
      if AmountMatch(line, cents) {
        var i, n :| DollarAmountAt(line, i, n) && cents == CentsAt(line, i, n)
                    && forall j, m :: 0 <= j < i ==> !DollarAmountAt(line, j, m);
        var (i0, n0) := found.value;
        assert i0 == i;
        DollarAmountDigits(line, i, n);
        DollarAmountDigits(line, i, n0);
      }
      if ItemAmount(line) == Some(cents) {
        var (i0, n0) := found.value;
        assert DollarAmountAt(line, i0, n0) && cents == CentsAt(line, i0, n0);
      }
    }
  }

  // ---------------------------------------------------------------------
  // The line scan
  // ---------------------------------------------------------------------

  /** The loop's variables: `in_item_list`, `descriptions`, `amounts`. */
  datatype ScanState = ScanState(inItemList: bool, descriptions: seq<string>, amounts: seq<int>)

  const Start := ScanState(false, [], [])

  /** The stripped line starts with `ITEM`. */
  predicate IsItemMarker(rawLine: string) {
    StartsWith(Strip(rawLine), "ITEM")
  }

  function OptionToSeq<T>(o: Option<T>): (r: seq<T>)
    ensures |r| <= 1 && (r == [] <==> o.None?)
    ensures o.Some? ==> r == [o.value]
  {
    match o
    case None => []
    case Some(v) => [v]
  }

  /** One turn of the loop body on one raw line. A marker line switches the
      item list on and adds nothing; before the first marker nothing is
      added; after it each line adds at most one description and at most
      one amount, at the end. */
  function Step(st: ScanState, rawLine: string): (r: ScanState)
    ensures IsItemMarker(rawLine) ==> r == st.(inItemList := true)
    ensures !IsItemMarker(rawLine) && !st.inItemList ==> r == st
    ensures r.descriptions == st.descriptions + (if !IsItemMarker(rawLine) && st.inItemList then OptionToSeq(ItemDescription(Strip(rawLine))) else [])
    ensures r.amounts == st.amounts + (if !IsItemMarker(rawLine) && st.inItemList then OptionToSeq(ItemAmount(Strip(rawLine))) else [])
    ensures r.inItemList == (st.inItemList || IsItemMarker(rawLine))
  {
    var line := Strip(rawLine);
    if StartsWith(line, "ITEM") then st.(inItemList := true)
    else if !st.inItemList then st
    else ScanState(true, st.descriptions + OptionToSeq(ItemDescription(line)),
                   st.amounts + OptionToSeq(ItemAmount(line)))
  }

  /** The loop run over `lines` in order from the state `st`. */
  function Scan(st: ScanState, lines: seq<string>): ScanState
    decreases |lines|
  {
    if lines == [] then st else Step(Scan(st, lines[..|lines| - 1]), lines[|lines| - 1])
  }

  /** The parser's result. */
  datatype Receipt = Receipt(descriptions: seq<string>, amounts: seq<int>, date: Option<Date>)

  /** What `parse_extracted_text` returns for `text`, or the error its
      `strptime` raises: the date of the whole text, and the lists the scan
      of its lines builds. */
  function ParsedReceipt(text: string): Result<Receipt, ParseError> {
    match ExtractDate(text)
    case Err(e) => Err(e)
    case Ok(date) =>
      var st := Scan(Start, Split(text, '\n'));
      Ok(Receipt(st.descriptions, st.amounts, date))
  }

  /** `parse_extracted_text`: the date search first (whose `strptime` may
      raise), then the `for` loop over the stripped lines. */
  method ParseExtractedText(extractedText: string) returns (r: Result<Receipt, ParseError>)
    ensures r == ParsedReceipt(extractedText)
  {
    var found := ExtractDate(extractedText);
    if found.Err? {
      return Err(found.error);
    }
    var date := found.value;
    var lines := Split(extractedText, '\n');
    var inItemList := false;
    var descriptions: seq<string> := [];
    var amounts: seq<int> := [];
    for i := 0 to |lines|
      invariant ScanState(inItemList, descriptions, amounts) == Scan(Start, lines[..i])
    {
      assert lines[..i + 1][..i] == lines[..i];
      var line := Strip(lines[i]);
      if StartsWith(line, "ITEM") {
        inItemList := true;
        continue;
      }
      if inItemList {
        var description := ItemDescription(line);
        if description.Some? {
          descriptions := descriptions + [description.value];
        }
        var amount := ItemAmount(line);
        if amount.Some? {
          amounts := amounts + [amount.value];
        }
      }
    }
    assert lines[..|lines|] == lines;
    return Ok(Receipt(descriptions, amounts, date));
  }

  // ---------------------------------------------------------------------
  // Properties of the scan
  // ---------------------------------------------------------------------

  /** Scanning two blocks of lines is scanning the first, then the second. */
  lemma {:induction false} ScanAppend(st: ScanState, a: seq<string>, b: seq<string>)
    ensures Scan(st, a + b) == Scan(Scan(st, a), b)
    decreases |b|
  {
    if b == [] {
      assert a + b == a;
    } else {
      assert (a + b)[..|a + b| - 1] == a + b[..|b| - 1];
      ScanAppend(st, a, b[..|b| - 1]);
    }
  }

  /** Scanning the lines is scanning those before `m`, then the rest. */
  lemma ScanSplitAt(st: ScanState, lines: seq<string>, m: nat)
    requires m <= |lines|
    ensures Scan(st, lines) == Scan(Scan(st, lines[..m]), lines[m..])
  {
    assert lines == lines[..m] + lines[m..];
    ScanAppend(st, lines[..m], lines[m..]);
  }

  /** Line `i` comes after some marker line. */
  ghost predicate AfterMarker(lines: seq<string>, i: int) {
    exists k :: 0 <= k < i && k < |lines| && IsItemMarker(lines[k])
  }

  /** Line `i + 1` comes after a marker when line `i` does or is one. */
  lemma AfterMarkerNext(lines: seq<string>, i: nat)
    requires i < |lines|
    ensures AfterMarker(lines, i + 1) <==> AfterMarker(lines, i) || IsItemMarker(lines[i])
  {
    if AfterMarker(lines, i + 1) {
      var k :| 0 <= k < i + 1 && k < |lines| && IsItemMarker(lines[k]);
      assert k == i || AfterMarker(lines, i);
    }
  }

  /** Whether a line lies after a marker does not depend on later lines. */
  lemma AfterMarkerPrefix(lines: seq<string>, m: nat, i: int)
    requires i <= m <= |lines|
    ensures AfterMarker(lines, i) <==> AfterMarker(lines[..m], i)
  {
    if AfterMarker(lines, i) {
      var k :| 0 <= k < i && k < |lines| && IsItemMarker(lines[k]);
      assert lines[..m][k] == lines[k];
    }
    if AfterMarker(lines[..m], i) {
      var k :| 0 <= k < i && k < m && IsItemMarker(lines[..m][k]);
      assert lines[..m][k] == lines[k];
    }
  }

  /** The item list is on after the scan exactly when some line is a
      marker. */
  lemma {:induction false} InItemListIffMarker(lines: seq<string>)
    ensures Scan(Start, lines).inItemList <==> AfterMarker(lines, |lines|)
    decreases |lines|
  {
    if lines != [] {
      var n := |lines| - 1;
      InItemListIffMarker(lines[..n]);
      AfterMarkerPrefix(lines, n, n);
      AfterMarkerNext(lines, n);
    }
  }

  /** Without a line starting with `ITEM`, there are no descriptions and no
      amounts. */
  lemma {:induction false} NoMarkerNoItems(lines: seq<string>)
    requires forall k :: 0 <= k < |lines| ==> !IsItemMarker(lines[k])
    ensures Scan(Start, lines) == Start
    decreases |lines|
  {
    if lines != [] {
      NoMarkerNoItems(lines[..|lines| - 1]);
    }
  }

  /** A marker line only switches the item list on. */
  lemma MarkerLine(st: ScanState, rawLine: string)
    requires IsItemMarker(rawLine)
    ensures Scan(st, [rawLine]) == st.(inItemList := true)
  {
    assert [rawLine][..0] == [];
  }

  /** The scan up to and including the first marker line ends with the
      item list on and both lists empty. */
  lemma UpToFirstMarker(lines: seq<string>, k: nat)
    requires k < |lines| && IsItemMarker(lines[k])
    requires forall j :: 0 <= j < k ==> !IsItemMarker(lines[j])
    ensures Scan(Start, lines[..k + 1]) == ScanState(true, [], [])
  {
    var pre := lines[..k];
    assert forall j :: 0 <= j < |pre| ==> !IsItemMarker(pre[j]);
    NoMarkerNoItems(pre);
    assert lines[..k + 1] == pre + [lines[k]];
    ScanAppend(Start, pre, [lines[k]]);
    MarkerLine(Start, lines[k]);
  }

  /** Everything up to and including the first marker line contributes
      nothing: the scan is the scan of the lines after it, started with the
      item list on and both lists empty. */
  lemma FirstMarker(lines: seq<string>, k: nat)
    requires k < |lines| && IsItemMarker(lines[k])
    requires forall j :: 0 <= j < k ==> !IsItemMarker(lines[j])
    ensures Scan(Start, lines) == Scan(ScanState(true, [], []), lines[k + 1..])
  {
    var on := Scan(Start, lines[..k + 1]);
    assert on == ScanState(true, [], []) by {
      UpToFirstMarker(lines, k);
    }
    assert Scan(Start, lines) == Scan(on, lines[k + 1..]) by {
      ScanSplitAt(Start, lines, k + 1);
    }
  }

  /** The scan only appends, at most one description and one amount per
      line, and never turns the item list off. */
  lemma {:induction false} ScanGrows(st: ScanState, lines: seq<string>)
    ensures var r := Scan(st, lines);
            && |st.descriptions| <= |r.descriptions| <= |st.descriptions| + |lines|
            && r.descriptions[..|st.descriptions|] == st.descriptions
            && |st.amounts| <= |r.amounts| <= |st.amounts| + |lines|
            && r.amounts[..|st.amounts|] == st.amounts
            && (st.inItemList ==> r.inItemList)
    decreases |lines|
  {
    if lines != [] {
      ScanGrows(st, lines[..|lines| - 1]);
    }
  }

  /** Each list is no longer than the number of lines after the first
      marker. */
  lemma ItemCountBound(lines: seq<string>, k: nat)
    requires k < |lines| && IsItemMarker(lines[k])
    requires forall j :: 0 <= j < k ==> !IsItemMarker(lines[j])
    ensures |Scan(Start, lines).descriptions| <= |lines| - k - 1
    ensures |Scan(Start, lines).amounts| <= |lines| - k - 1
  {
    FirstMarker(lines, k);
    ScanGrows(ScanState(true, [], []), lines[k + 1..]);
  }

  /** Line `i` comes after a marker line, is not one itself, and its
      stripped text yields the description `desc`. */
  ghost predicate GivesDescription(lines: seq<string>, i: int, desc: string) {
    0 <= i < |lines| && AfterMarker(lines, i) && !IsItemMarker(lines[i])
    && ItemDescription(Strip(lines[i])) == Some(desc)
  }

  /** Line `i` comes after a marker line, is not one itself, and its
      stripped text yields the amount `cents`. */
  ghost predicate GivesAmount(lines: seq<string>, i: int, cents: int) {
    0 <= i < |lines| && AfterMarker(lines, i) && !IsItemMarker(lines[i])
    && ItemAmount(Strip(lines[i])) == Some(cents)
  }

  /** After the lines before the last, the item list is on exactly when the
      last line comes after a marker. */
  lemma InItemListBeforeLast(lines: seq<string>)
    requires lines != []
    ensures Scan(Start, lines[..|lines| - 1]).inItemList <==> AfterMarker(lines, |lines| - 1)
  {
    var n := |lines| - 1;
    InItemListIffMarker(lines[..n]);
    AfterMarkerPrefix(lines, n, n);
  }

  /** A description is in the result exactly when some line after the
      first marker, not itself a marker, yields it. */
  lemma {:induction false} ScanDescriptions(lines: seq<string>)
    ensures forall desc :: desc in Scan(Start, lines).descriptions <==> exists i :: GivesDescription(lines, i, desc)
    decreases |lines|
  {
    if lines != [] {
      var n := |lines| - 1;
      var init := lines[..n];
      var before := Scan(Start, init);
      ScanDescriptions(init);
      InItemListBeforeLast(lines);
      var extra := if !IsItemMarker(lines[n]) && before.inItemList then OptionToSeq(ItemDescription(Strip(lines[n]))) else [];
      assert Scan(Start, lines).descriptions == before.descriptions + extra;
      forall desc ensures desc in Scan(Start, lines).descriptions <==> exists i :: GivesDescription(lines, i, desc) {
        assert desc in extra <==> GivesDescription(lines, n, desc);
        forall i | 0 <= i < n ensures GivesDescription(lines, i, desc) <==> GivesDescription(init, i, desc) {
          AfterMarkerPrefix(lines, n, i);
        }
        if desc in before.descriptions {
          var i :| GivesDescription(init, i, desc);
          assert GivesDescription(lines, i, desc);
        }
        if exists i :: GivesDescription(lines, i, desc) {
          var i :| GivesDescription(lines, i, desc);
          assert i == n || GivesDescription(init, i, desc);
        }
      }
    }
  }

  /** An amount is in the result exactly when some line after the first
      marker, not itself a marker, yields it. */
  lemma {:induction false} ScanAmounts(lines: seq<string>)
    ensures forall cents :: cents in Scan(Start, lines).amounts <==> exists i :: GivesAmount(lines, i, cents)
    decreases |lines|
  {
    if lines != [] {
      var n := |lines| - 1;
      var init := lines[..n];
      var before := Scan(Start, init);
      ScanAmounts(init);
      InItemListBeforeLast(lines);
      var extra := if !IsItemMarker(lines[n]) && before.inItemList then OptionToSeq(ItemAmount(Strip(lines[n]))) else [];
      assert Scan(Start, lines).amounts == before.amounts + extra;
      forall cents ensures cents in Scan(Start, lines).amounts <==> exists i :: GivesAmount(lines, i, cents) {
        assert cents in extra <==> GivesAmount(lines, n, cents);
        forall i | 0 <= i < n ensures GivesAmount(lines, i, cents) <==> GivesAmount(init, i, cents) {
          AfterMarkerPrefix(lines, n, i);
        }
        if cents in before.amounts {
          var i :| GivesAmount(init, i, cents);
          assert GivesAmount(lines, i, cents);
        }
        if exists i :: GivesAmount(lines, i, cents) {
          var i :| GivesAmount(lines, i, cents);
          assert i == n || GivesAmount(init, i, cents);
        }
      }
    }
  }
}
