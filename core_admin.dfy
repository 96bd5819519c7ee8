/** The display helpers of the investment admin pages (core/admin.py): the
    allocation summary, the percentage and money columns, and the colour
    maps behind the badges. The HTML around each value is not modelled. */
module CoreAdmin {
  import opened Common
  import opened Text
  import opened Plans
  import opened Grants
  import opened Subscriptions

  // ---------------------------------------------------------------------------
  // allocation_summary
  // ---------------------------------------------------------------------------

  /** One asset class in the summary: its place in the fixed order, its label
      and its percentage. */
  datatype Segment = Segment(rank: nat, tag: string, value: int)

  /** The five classes in the order the summary lists them. */
  function Segments(p: Plan): (ss: seq<Segment>)
    ensures |ss| == 5 && forall i :: 0 <= i < 5 ==> ss[i].rank == i
  {
    [Segment(0, "C", p.cryptoAllocation), Segment(1, "RE", p.realEstateAllocation), Segment(2, "S", p.stocksAllocation),
     Segment(3, "B", p.bondsAllocation), Segment(4, "Ca", p.cashAllocation)]
  }

  /** The segments with a strictly positive percentage, order kept. */
  function KeepPositive(ss: seq<Segment>): (r: seq<Segment>)
    ensures |r| <= |ss|
    ensures forall x :: x in r <==> x in ss && x.value > 0
  {
    if ss == [] then []
    else
      var rest := KeepPositive(ss[..|ss| - 1]);
      var last := ss[|ss| - 1];
      assert forall x :: x in ss <==> x in ss[..|ss| - 1] || x == last;
      if last.value > 0 then rest + [last] else rest
  }

  function AllocationParts(p: Plan): seq<Segment>
  {
    KeepPositive(Segments(p))
  }

  /** One segment kept or dropped. */
  function Keep(x: Segment): (r: seq<Segment>)
    ensures |r| == Positive(x.value)
  {
    if x.value > 0 then [x] else []
  }

  lemma KeepPositiveSnoc(ss: seq<Segment>, x: Segment)
    ensures KeepPositive(ss + [x]) == KeepPositive(ss) + Keep(x)
  {
    assert (ss + [x])[..|ss + [x]| - 1] == ss;
  }

  /** The filter over five segments, one segment at a time. */
  lemma KeepFive(ss: seq<Segment>)
    requires |ss| == 5
    ensures KeepPositive(ss) == Keep(ss[0]) + Keep(ss[1]) + Keep(ss[2]) + Keep(ss[3]) + Keep(ss[4])
  {
    assert ss[..0] == [];
    assert ss[..1] == ss[..0] + [ss[0]];
    assert ss[..2] == ss[..1] + [ss[1]];
    assert ss[..3] == ss[..2] + [ss[2]];
    assert ss[..4] == ss[..3] + [ss[3]];
    assert ss == ss[..4] + [ss[4]];
    KeepPositiveSnoc(ss[..0], ss[0]);
    KeepPositiveSnoc(ss[..1], ss[1]);
    KeepPositiveSnoc(ss[..2], ss[2]);
    KeepPositiveSnoc(ss[..3], ss[3]);
    KeepPositiveSnoc(ss[..4], ss[4]);
  }

  lemma PartsExpanded(p: Plan)
    ensures var ss := Segments(p);
      AllocationParts(p) == Keep(ss[0]) + Keep(ss[1]) + Keep(ss[2]) + Keep(ss[3]) + Keep(ss[4])
  {
    KeepFive(Segments(p));
  }

  /** `f"{label}:{value}%"`. */
  function SegmentText(s: Segment): string
  {
    s.tag + ":" + IntText(s.value) + "%"
  }

  function Texts(ss: seq<Segment>): (ts: seq<string>)
    ensures |ts| == |ss| && forall i :: 0 <= i < |ss| ==> ts[i] == SegmentText(ss[i])
  {
    if ss == [] then [] else Texts(ss[..|ss| - 1]) + [SegmentText(ss[|ss| - 1])]
  }

  lemma TextsAppend(a: seq<Segment>, b: seq<Segment>)
    ensures Texts(a + b) == Texts(a) + Texts(b)
  {
  }

  /** One `if value > 0: parts.append(f"{label}:{value}%")`: the parts stay
      the texts of the segments kept so far. */
  method AppendIfPositive(ghost kept: seq<Segment>, parts: seq<string>, x: Segment) returns (after: seq<string>)
    requires parts == Texts(kept)
    ensures after == Texts(kept + Keep(x))
  {
    after := parts;
    if x.value > 0 {
      after := after + [x.tag + ":" + IntText(x.value) + "%"];
    }
    TextsAppend(kept, Keep(x));
  }

  /** The summary the column shows, defined from the filtered segments. */
  function SummaryText(p: Plan): string
  {
    var parts := AllocationParts(p);
    if parts == [] then "No allocation" else Join(Texts(parts), " | ")
  }

  /** `allocation_summary`, appending one part per positive class in turn. */
  method AllocationSummary(p: Plan) returns (summary: string)
    ensures summary == SummaryText(p)
  {
    var c := Segment(0, "C", p.cryptoAllocation);
    var re := Segment(1, "RE", p.realEstateAllocation);
    var st := Segment(2, "S", p.stocksAllocation);
    var b := Segment(3, "B", p.bondsAllocation);
    var ca := Segment(4, "Ca", p.cashAllocation);
    var parts: seq<string> := [];
    parts := AppendIfPositive([], parts, c);
    parts := AppendIfPositive(Keep(c), parts, re);
    parts := AppendIfPositive(Keep(c) + Keep(re), parts, st);
    parts := AppendIfPositive(Keep(c) + Keep(re) + Keep(st), parts, b);
    parts := AppendIfPositive(Keep(c) + Keep(re) + Keep(st) + Keep(b), parts, ca);
    summary := if |parts| > 0 then Join(parts, " | ") else "No allocation";
    SummaryFromParts(p, Keep(c) + Keep(re) + Keep(st) + Keep(b) + Keep(ca), parts, summary);
  }

  lemma SummaryFromParts(p: Plan, kept: seq<Segment>, parts: seq<string>, summary: string)
    requires kept == Keep(Segment(0, "C", p.cryptoAllocation)) + Keep(Segment(1, "RE", p.realEstateAllocation))
      + Keep(Segment(2, "S", p.stocksAllocation)) + Keep(Segment(3, "B", p.bondsAllocation))
      + Keep(Segment(4, "Ca", p.cashAllocation))
    requires parts == Texts(kept)
    requires summary == if |parts| > 0 then Join(parts, " | ") else "No allocation"
    ensures summary == SummaryText(p)
  {
    PartsExpanded(p);
  }

  predicate RanksIncrease(ss: seq<Segment>)
  {
    forall i, j :: 0 <= i < j < |ss| ==> ss[i].rank < ss[j].rank
  }

  lemma {:induction false} KeepPositiveOrdered(ss: seq<Segment>)
    requires RanksIncrease(ss)
    ensures RanksIncrease(KeepPositive(ss))
  {
    if ss != [] {
      var init := ss[..|ss| - 1];
      KeepPositiveOrdered(init);
      var rest := KeepPositive(init);
      forall i | 0 <= i < |rest|
        ensures rest[i].rank < ss[|ss| - 1].rank
      {
        assert rest[i] in init;
      }
    }
  }

  /** The parts are exactly the positive classes, in the order C, RE, S, B, Ca. */
  lemma PartsPositiveInOrder(p: Plan)
    ensures var parts := AllocationParts(p);
      && (forall i :: 0 <= i < |parts| ==> parts[i].value > 0)
      && RanksIncrease(parts)
      && (forall s :: s in Segments(p) && s.value > 0 ==> s in parts)
  {
    KeepPositiveOrdered(Segments(p));
    forall i | 0 <= i < |AllocationParts(p)|
      ensures AllocationParts(p)[i].value > 0
    {
      assert AllocationParts(p)[i] in AllocationParts(p);
    }
  }

  function Positive(x: int): nat
  {
    if x > 0 then 1 else 0
  }

  /** There is one part per strictly positive class. */
  lemma PartCount(p: Plan)
    ensures |AllocationParts(p)| == Positive(p.cryptoAllocation) + Positive(p.realEstateAllocation)
      + Positive(p.stocksAllocation) + Positive(p.bondsAllocation) + Positive(p.cashAllocation)
  {
    PartsExpanded(p);
  }

  /** Every kept segment carries one of the five short tags. */
  lemma PartsTagged(p: Plan)
    ensures forall x :: x in AllocationParts(p) ==>
      |x.tag| > 0 && x.tag[0] in {'C', 'R', 'S', 'B'} && CountChar(x.tag, '|') == 0
  {
    var ss := Segments(p);
    assert CountChar("C", '|') == 0 && CountChar("RE", '|') == 0 && CountChar("S", '|') == 0;
    assert CountChar("B", '|') == 0 && CountChar("Ca", '|') == 0;
    forall x | x in AllocationParts(p)
      ensures |x.tag| > 0 && x.tag[0] in {'C', 'R', 'S', 'B'} && CountChar(x.tag, '|') == 0
    {
      assert x in ss;
    }
  }

  /** A segment's text starts with the first letter of its tag. */
  lemma SegmentTextStart(s: Segment)
    requires |s.tag| > 0
    ensures SegmentText(s)[0] == s.tag[0]
  {
  }

  /** A non-empty summary starts with the letter of its first class: C, R, S or B. */
  lemma SummaryStart(p: Plan)
    requires AllocationParts(p) != []
    ensures SummaryText(p)[0] in {'C', 'R', 'S', 'B'}
  {
    var parts := AllocationParts(p);
    var ts := Texts(parts);
    JoinEnds(ts, " | ");
    PartsTagged(p);
    assert parts[0] in parts;
    SegmentTextStart(parts[0]);
    assert ts[0][0] in {'C', 'R', 'S', 'B'};
    assert SummaryText(p) == Join(ts, " | ");
    assert SummaryText(p)[..|ts[0]|] == ts[0];
  }

  /** Within the field validators, the summary says "No allocation" exactly
      when all five classes are 0. */
  lemma NoAllocationIff(p: Plan)
    requires AllocationsInRange(p)
    ensures SummaryText(p) == "No allocation" <==>
      p.cryptoAllocation == 0 && p.realEstateAllocation == 0 && p.stocksAllocation == 0
      && p.bondsAllocation == 0 && p.cashAllocation == 0
  {
    PartCount(p);
    if AllocationParts(p) != [] {
      SummaryStart(p);
    }
  }

  lemma {:induction false} DigitsHoldNoBar(s: string)
    requires AllDigits(s)
    ensures CountChar(s, '|') == 0
  {
    if s != [] {
      DigitsHoldNoBar(s[1..]);
    }
  }

  lemma SegmentTextHoldsNoBar(s: Segment)
    requires CountChar(s.tag, '|') == 0
    ensures CountChar(SegmentText(s), '|') == 0
  {
    var digits := NatText(if s.value < 0 then -s.value else s.value);
    DigitsHoldNoBar(digits);
    var sign: string := if s.value < 0 then "-" else "";
    assert IntText(s.value) == sign + digits;
    CountCharAppend(sign, digits, '|');
    CountCharAppend(s.tag + ":", IntText(s.value), '|');
    CountCharAppend(s.tag, ":", '|');
    CountCharAppend(s.tag + ":" + IntText(s.value), "%", '|');
  }

  /** The parts are joined with one `" | "` between neighbours and none at
      either end: n parts hold n - 1 bars, the text begins with the first part
      and ends with the last. */
  lemma SummarySeparators(p: Plan)
    requires AllocationParts(p) != []
    ensures var ts := Texts(AllocationParts(p));
      && CountChar(SummaryText(p), '|') == |ts| - 1
      && |SummaryText(p)| >= |ts[0]| && SummaryText(p)[..|ts[0]|] == ts[0]
      && |SummaryText(p)| >= |ts[|ts| - 1]|
      && SummaryText(p)[|SummaryText(p)| - |ts[|ts| - 1]|..] == ts[|ts| - 1]
  {
    var parts := AllocationParts(p);
    var ts := Texts(parts);
    assert SummaryText(p) == Join(ts, " | ");
    PartsTagged(p);
    forall i | 0 <= i < |ts|
      ensures CountChar(ts[i], '|') == 0
    {
      assert parts[i] in parts;
      SegmentTextHoldsNoBar(parts[i]);
    }
    JoinBarCount(ts);
    JoinEnds(ts, " | ");
  }

  /** The Starter split renders as "C:30% | S:40% | B:20% | Ca:10%". */
  lemma StarterSummary(p: Plan)
    requires p.cryptoAllocation == 30 && p.realEstateAllocation == 0 && p.stocksAllocation == 40
    requires p.bondsAllocation == 20 && p.cashAllocation == 10
    ensures SummaryText(p) == "C:30%" + " | " + "S:40%" + " | " + "B:20%" + " | " + "Ca:10%"
  {
    StarterParts(p);
    StarterTexts();
    StarterJoin();
    assert AllocationParts(p) != [];
  }

  lemma StarterJoin()
    ensures Join(["C:30%", "S:40%", "B:20%", "Ca:10%"], " | ") == "C:30%" + " | " + "S:40%" + " | " + "B:20%" + " | " + "Ca:10%"
  {
    var ts := ["C:30%", "S:40%", "B:20%", "Ca:10%"];
    JoinCons(ts);
    JoinCons(ts[1..]);
    JoinCons(ts[1..][1..]);
    assert ts[1..][1..][1..] == ["Ca:10%"];
  }

  lemma JoinCons(ts: seq<string>)
    requires |ts| >= 2
    ensures Join(ts, " | ") == ts[0] + " | " + Join(ts[1..], " | ")
  {
  }

  lemma StarterParts(p: Plan)
    requires p.cryptoAllocation == 30 && p.realEstateAllocation == 0 && p.stocksAllocation == 40
    requires p.bondsAllocation == 20 && p.cashAllocation == 10
    ensures AllocationParts(p) == [Segment(0, "C", 30), Segment(2, "S", 40), Segment(3, "B", 20), Segment(4, "Ca", 10)]
  {
    PartsExpanded(p);
  }

  lemma StarterTexts()
    ensures Texts([Segment(0, "C", 30), Segment(2, "S", 40), Segment(3, "B", 20), Segment(4, "Ca", 10)])
      == ["C:30%", "S:40%", "B:20%", "Ca:10%"]
  {
    assert NatText(30) == "30" && NatText(40) == "40" && NatText(20) == "20" && NatText(10) == "10";
    assert SegmentText(Segment(0, "C", 30)) == "C:30%";
    assert SegmentText(Segment(2, "S", 40)) == "S:40%";
    assert SegmentText(Segment(3, "B", 20)) == "B:20%";
    assert SegmentText(Segment(4, "Ca", 10)) == "Ca:10%";
  }

  // ---------------------------------------------------------------------------
  // Percentages and money
  // ---------------------------------------------------------------------------

  /** `str(d)` of a two-place Decimal column followed by "%". */
  function PercentText(x: real): string
  {
    CentsText(HundredthsHalfEven(x)) + "%"
  }

  /** `expected_return_display`: the expected return at two places, then "%";
      the digits read back as the stored hundredths. */
  lemma ExpectedReturnDisplay(p: Plan, h: nat)
    requires p.expectedAnnualReturn == h as real / 100.0
    ensures var s := PercentText(p.expectedAnnualReturn);
      && s == NatText(h / 100) + "." + Pad2(h % 100) + "%"
      && ParseDigits(NatText(h / 100)) * 100 + ParseDigits(Pad2(h % 100)) == h
  {
    TwoPlaceValueUnrounded(h);
    CentsTextDigits(h);
  }

  /** The Starter plan's 12.5 shows as "12.50%". */
  lemma StarterExpectedReturn()
    ensures PercentText(12.5) == "12.50%"
  {
    TwoPlaceValueUnrounded(1250);
    assert 1250 as real / 100.0 == 12.5;
    assert NatText(12) == "12";
    assert Pad2(50) == "50";
  }

  /** `f"${amount:,.2f}"`. */
  function MoneyText(x: real): string
  {
    "$" + GroupedTwoPlaces(x)
  }

  /** Without the "$" and the thousands commas, a money column is the plain
      two-place rendering of its rounded value. */
  lemma MoneyTextUngrouped(x: real)
    ensures MoneyText(x)[0] == '$'
    ensures RemoveCommas(MoneyText(x)[1..]) == CentsText(HundredthsHalfEven(x))
  {
    assert MoneyText(x)[1..] == GroupedTwoPlaces(x);
    GroupedCentsUngrouped(HundredthsHalfEven(x));
  }

  /** `grant_display`: the fixed amount as money when it is nonzero, else the
      percentage when it is nonzero, else "N/A". */
  function GrantDisplay(g: Grant): (s: string)
    ensures |s| > 0
    ensures s[0] == '$' <==> Truthy(g.grantAmount)
    ensures s[|s| - 1] == '%' <==> !Truthy(g.grantAmount) && Truthy(g.grantPercentage)
    ensures s == "N/A" <==> !Truthy(g.grantAmount) && !Truthy(g.grantPercentage)
  {
    if Truthy(g.grantAmount) then MoneyText(g.grantAmount.value)
    else if Truthy(g.grantPercentage) then PercentText(g.grantPercentage.value)
    else "N/A"
  }

  /** The admin column shows the figure the bonus arithmetic uses: the fixed
      amount when it shows money, the percentage when it shows a percentage,
      and "N/A" exactly when the uncapped bonus is always 0. */
  lemma GrantDisplayAgreesWithCalculation(g: Grant, investment: real)
    ensures GrantDisplay(g)[0] == '$' ==> UncappedGrant(g, investment) == Min(g.grantAmount.value, investment)
    ensures GrantDisplay(g)[|GrantDisplay(g)| - 1] == '%' ==>
              UncappedGrant(g, investment) == investment * g.grantPercentage.value / 100.0
    ensures GrantDisplay(g) == "N/A" ==> UncappedGrant(g, investment) == 0.0
  {
  }

  // ---------------------------------------------------------------------------
  // Colour maps
  // ---------------------------------------------------------------------------

  const RiskColors: map<string, string> := map["low" := "#28a745", "moderate" := "#ffc107", "high" := "#dc3545"]

  /** `colors.get(obj.risk_level, '#000')`. */
  function RiskLevelColor(risk: string): (c: string)
    ensures risk in RiskColors ==> c == RiskColors[risk]
    ensures c == "#000" <==> risk !in RiskColors
  {
    if risk in RiskColors then RiskColors[risk] else "#000"
  }

  const StatusColors: map<string, string> :=
    map["active" := "#28a745", "paused" := "#ffc107", "completed" := "#007bff", "cancelled" := "#dc3545"]

  /** `colors.get(obj.status, '#999')`. */
  function StatusBadgeColor(status: string): (c: string)
    ensures status in StatusColors ==> c == StatusColors[status]
    ensures c == "#999" <==> status !in StatusColors
  {
    if status in StatusColors then StatusColors[status] else "#999"
  }

  /** Every status the model stores has its own badge colour, none of them the default. */
  lemma StatusBadgeColorsDistinct(a: Status, b: Status)
    ensures StatusBadgeColor(StatusCode(a)) != "#999"
    ensures StatusBadgeColor(StatusCode(a)) == StatusBadgeColor(StatusCode(b)) ==> a == b
  {
  }

  /** Green for a non-negative ROI, red otherwise. */
  function RoiColor(roi: real): (c: string)
    ensures c == "#28a745" <==> roi >= 0.0
    ensures c == "#dc3545" <==> roi < 0.0
  {
    if roi >= 0.0 then "#28a745" else "#dc3545"
  }

  // ---------------------------------------------------------------------------
  // format_html
  // ---------------------------------------------------------------------------

  /** `django.utils.html.escape` of one character (`html.escape` with quotes). */
  function EscapeChar(c: char): (r: string)
    ensures |r| >= 1
    ensures r == [c] <==> c !in {'&', '<', '>', '"', '\''}
  {
    if c == '&' then "&amp;"
    else if c == '<' then "&lt;"
    else if c == '>' then "&gt;"
    else if c == '"' then "&quot;"
    else if c == '\'' then "&#x27;"
    else [c]
  }

  function HtmlEscape(s: string): (r: string)
    ensures |r| >= |s|
  {
    if s == [] then [] else EscapeChar(s[0]) + HtmlEscape(s[1..])
  }

  /** Text that `escape` leaves alone: digits, signs and points. */
  predicate PlainNumberText(s: string)
  {
    forall i :: 0 <= i < |s| ==> IsDigit(s[i]) || s[i] == '-' || s[i] == '.'
  }

  lemma {:induction false} EscapeKeepsPlain(s: string)
    requires PlainNumberText(s)
    ensures HtmlEscape(s) == s
  {
    if s != [] {
      assert PlainNumberText(s[1..]) by {
        forall i | 0 <= i < |s[1..]|
          ensures IsDigit(s[1..][i]) || s[1..][i] == '-' || s[1..][i] == '.'
        {
          assert s[1..][i] == s[i + 1];
        }
      }
      EscapeKeepsPlain(s[1..]);
      assert EscapeChar(s[0]) == [s[0]];
      assert s == [s[0]] + s[1..];
    }
  }

  /** A two-place rendering holds only a sign, digits and a point. */
  lemma CentsTextPlain(h: int)
    ensures PlainNumberText(CentsText(h))
  {
    var m := if h < 0 then -h else h;
    var sign: string := if h < 0 then "-" else "";
    var a, b := NatText(m / 100), Pad2(m % 100);
    assert CentsText(h) == sign + a + "." + b;
    forall i | 0 <= i < |sign + a + "." + b|
      ensures IsDigit((sign + a + "." + b)[i]) || (sign + a + "." + b)[i] == '-' || (sign + a + "." + b)[i] == '.'
    {
      var t := sign + a + "." + b;
      if i < |sign| {
        assert t[i] == '-';
      } else if i < |sign| + |a| {
        assert t[i] == a[i - |sign|];
      } else if i == |sign| + |a| {
        assert t[i] == '.';
      } else {
        assert t[i] == b[i - |sign| - |a| - 1];
      }
    }
  }

  /** An argument as `str.format` sees it inside `format_html`: already
      escaped text (a `SafeString`, which is a `str`), or a number. */
  datatype FormatArg = SafeText(text: string) | Numeric(value: real)

  /** The outcome of a format step: the text, or the `ValueError` it raised. */
  datatype Formatted = Rendered(text: string) | FormatValueError

  /** `conditional_escape(x)` for a value without `__html__`: `escape(str(x))`,
      marked safe. `str()` of an arbitrary Decimal is not modelled, so that
      text comes in as `shown`. */
  function ConditionalEscape(shown: string): (a: FormatArg)
    ensures a.SafeText? && |a.text| >= |shown|
  {
    SafeText(HtmlEscape(shown))
  }

  /** `"{:.2f}".format(a)`: a Decimal rounds half to even at two places; a
      `str` has no `f` presentation type, so it raises `ValueError`. */
  function FormatFixed2(a: FormatArg): (r: Formatted)
    ensures r.FormatValueError? <==> a.SafeText?
    ensures a.Numeric? ==> r == Rendered(CentsText(HundredthsHalfEven(a.value)))
  {
    match a
    case SafeText(_) => FormatValueError
    case Numeric(x) => Rendered(CentsText(HundredthsHalfEven(x)))
  }

  /** The ROI cell of `roi_display`, `"...{:.2f}%..."` on its (escaped) argument;
      the surrounding span is not modelled. */
  function RoiCell(a: FormatArg): (r: Formatted)
    ensures r.Rendered? <==> a.Numeric?
  {
    match FormatFixed2(a)
    case Rendered(t) => Rendered(t + "%")
    case FormatValueError => FormatValueError
  }

  /** `format_html` escapes every argument before formatting, so the cell can
      never be rendered, whatever the ROI is. */
  lemma EscapedRoiNeverRenders(shown: string)
    ensures RoiCell(ConditionalEscape(shown)) == FormatValueError
  {
  }

  /** `roi_display` as written: `calculate_roi` runs (storing the ROI on the
      row) and the colour is chosen, then `format_html` escapes the ROI to a
      `SafeString` and `{:.2f}` raises `ValueError`. `shown` is `str(roi)`. */
  method RoiDisplay(s: Subscription, shown: string) returns (color: string, cell: Formatted)
    modifies s`roiPercentage
    ensures color == RoiColor(Roi(s.initialInvestment, s.currentValue))
    ensures s.initialInvestment > 0.0 ==> (color == "#28a745" <==> s.currentValue >= s.initialInvestment)
    ensures s.initialInvestment > 0.0 ==> s.roiPercentage == Roi(s.initialInvestment, s.currentValue)
    ensures s.initialInvestment <= 0.0 ==> s.roiPercentage == old(s.roiPercentage)
    ensures cell == FormatValueError
  {
    var roi := s.CalculateRoi();
    if s.initialInvestment > 0.0 {
      RoiSign(s.initialInvestment, s.currentValue);
    }
    color := RoiColor(roi);
    cell := RoiCell(ConditionalEscape(shown));
  }

  /** `roi_display` as evidently intended, `format_html("...{}%...", color,
      f"{roi:.2f}")`: the number is formatted first, and escaping leaves its
      digits alone, so the cell is the ROI at two places followed by "%". */
  method RoiDisplayFixed(s: Subscription) returns (color: string, cell: Formatted)
    modifies s`roiPercentage
    ensures color == RoiColor(Roi(s.initialInvestment, s.currentValue))
    ensures s.initialInvestment > 0.0 ==> (color == "#28a745" <==> s.currentValue >= s.initialInvestment)
    ensures s.initialInvestment > 0.0 ==> s.roiPercentage == Roi(s.initialInvestment, s.currentValue)
    ensures s.initialInvestment <= 0.0 ==> s.roiPercentage == old(s.roiPercentage)
    ensures cell == Rendered(PercentText(Roi(s.initialInvestment, s.currentValue)))
  {
    var roi := s.CalculateRoi();
    if s.initialInvestment > 0.0 {
      RoiSign(s.initialInvestment, s.currentValue);
    }
    color := RoiColor(roi);
    var figure := FormatFixed2(Numeric(roi)).text;
    CentsTextPlain(HundredthsHalfEven(roi));
    EscapeKeepsPlain(figure);
    cell := Rendered(ConditionalEscape(figure).text + "%");
  }
}
