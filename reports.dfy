/**
 * The reports screen (src/components/ReportsScreen.tsx): a constant list of
 * reports per language, an icon chosen from the report's type and a colour
 * chosen from its status by ordered `includes` tests (English stem or Urdu
 * stem, first match wins), a detail line listing the optional fields that
 * are present in a fixed order, and an empty-state branch. Titles and dates
 * are wording and are not modelled.
 */
module ReportsScreen {

  import opened Wrappers
  import opened App
  import opened Strings

  datatype Icon = AlertTriangle | TrendingUp | Droplets | FileText

  datatype Color = Green | Blue | Cyan | Red | Gray

  datatype Report = Report(
    id: nat,
    kind: string,
    status: string,
    crop: Option<string>,
    yieldAmount: Option<string>,
    water: Option<string>,
    location: Option<string>,
    severity: Option<string>,
    temp: Option<string>)

  /** getReportIcon. */
  function ReportIcon(kind: string): Icon {
    if Includes(kind, "Disease") || Includes(kind, "بیماری") then AlertTriangle
    else if Includes(kind, "Yield") || Includes(kind, "پیداوار") then TrendingUp
    else if Includes(kind, "Irrigation") || Includes(kind, "آبپاشی") then Droplets
    else FileText
  }

  /** getStatusColor. */
  function StatusColor(status: string): Color {
    if Includes(status, "Treated") || Includes(status, "علاج") then Green
    else if Includes(status, "Predicted") || Includes(status, "پیش گوئی") then Blue
    else if Includes(status, "Applied") || Includes(status, "لاگو") then Cyan
    else if Includes(status, "Alert") || Includes(status, "انتباہ") then Red
    else Gray
  }

  /** The icon rules as a table: the stems of each rule, and the icon it gives. */
  const IconStems: seq<seq<string>> := [["Disease", "بیماری"], ["Yield", "پیداوار"], ["Irrigation", "آبپاشی"]]
  const RuleIcons: seq<Icon> := [AlertTriangle, TrendingUp, Droplets]

  /** The status rules as a table. */
  const StatusStems: seq<seq<string>> := [["Treated", "علاج"], ["Predicted", "پیش گوئی"], ["Applied", "لاگو"], ["Alert", "انتباہ"]]
  const RuleColors: seq<Color> := [Green, Blue, Cyan, Red]

  /** A rule with two stems matches when either stem is included. */
  lemma AnyIncludedPair(s: string, a: string, b: string)
    ensures AnyIncluded(s, [a, b]) <==> Includes(s, a) || Includes(s, b)
  {
    if Includes(s, a) {
      assert Includes(s, [a, b][0]);
    }
    if Includes(s, b) {
      assert Includes(s, [a, b][1]);
    }
  }

  /** getReportIcon is the first-matching rule of its table, FileText when none matches. */
  lemma ReportIconIsFirstMatch(kind: string)
    ensures ReportIcon(kind) == match FirstMatch(IconStems, kind) case Some(k) => RuleIcons[k] case None => FileText
  {
    AnyIncludedPair(kind, "Disease", "بیماری");
    AnyIncludedPair(kind, "Yield", "پیداوار");
    AnyIncludedPair(kind, "Irrigation", "آبپاشی");
    var g := IconStems;
    assert g[0] == ["Disease", "بیماری"] && g[1..][0] == ["Yield", "پیداوار"];
    assert g[1..][1..][0] == ["Irrigation", "آبپاشی"] && g[1..][1..][1..] == [];
  }

  /** getStatusColor is the first-matching rule of its table, gray when none matches. */
  lemma StatusColorIsFirstMatch(status: string)
    ensures StatusColor(status) == match FirstMatch(StatusStems, status) case Some(k) => RuleColors[k] case None => Gray
  {
    AnyIncludedPair(status, "Treated", "علاج");
    AnyIncludedPair(status, "Predicted", "پیش گوئی");
    AnyIncludedPair(status, "Applied", "لاگو");
    AnyIncludedPair(status, "Alert", "انتباہ");
    var g := StatusStems;
    assert g[0] == ["Treated", "علاج"] && g[1..][0] == ["Predicted", "پیش گوئی"];
    assert g[1..][1..][0] == ["Applied", "لاگو"] && g[1..][1..][1..][0] == ["Alert", "انتباہ"];
    assert g[1..][1..][1..][1..] == [];
  }

  /** The reports of each language's list, in order. */
  function Reports(l: Language): seq<Report> {
    match l
    case En => [
      Report(1, "Disease Detection", "Treated", Some("Wheat"), None, None, None, Some("Medium"), None),
      Report(2, "Yield Prediction", "Predicted", Some("Wheat"), Some("35 mann/acre"), None, None, None, None),
      Report(3, "Irrigation Advice", "Applied", Some("Cotton"), None, Some("10mm"), None, None, None),
      Report(4, "Weather Alert", "Alert", None, None, None, Some("Lahore"), None, Some("32°C"))]
    case Ur => [
      Report(1, "بیماری کی تشخیص", "علاج شدہ", Some("گندم"), None, None, None, Some("درمیانہ"), None),
      Report(2, "پیداوار کی پیش گوئی", "پیش گوئی شدہ", Some("گندم"), Some("35 من فی ایکڑ"), None, None, None, None),
      Report(3, "آبپاشی کی رہنمائی", "لاگو شدہ", Some("کپاس"), None, Some("10 ملی میٹر"), None, None, None),
      Report(4, "موسمی انتباہ", "انتباہ", None, None, None, Some("لاہور"), None, Some("32°C"))]
  }

  /** "Disease Detection" matches the first rule. */
  lemma EnglishDiseaseIcon()
    ensures ReportIcon("Disease Detection") == AlertTriangle
  {
    assert Includes("Disease Detection", "Disease") by { IncludesPrefix("Disease Detection", "Disease"); }
  }

  /** "بیماری کی تشخیص" matches the first rule. */
  lemma UrduDiseaseIcon()
    ensures ReportIcon("بیماری کی تشخیص") == AlertTriangle
  {
    assert Includes("بیماری کی تشخیص", "بیماری") by { IncludesPrefix("بیماری کی تشخیص", "بیماری"); }
  }

  /** "Yield Prediction" misses the rules before the second and gets its icon. */
  lemma EnglishYieldIcon()
    ensures ReportIcon("Yield Prediction") == TrendingUp
  {
    assert !Includes("Yield Prediction", "Disease") by { NotIncludesMissingChar("Yield Prediction", "Disease", 0); }
    assert !Includes("Yield Prediction", "بیماری") by { NotIncludesMissingChar("Yield Prediction", "بیماری", 0); }
    assert Includes("Yield Prediction", "Yield") by { IncludesPrefix("Yield Prediction", "Yield"); }
  }

  /** "پیداوار کی پیش گوئی" misses the rules before the second and gets its icon. */
  lemma UrduYieldIcon()
    ensures ReportIcon("پیداوار کی پیش گوئی") == TrendingUp
  {
    assert !Includes("پیداوار کی پیش گوئی", "Disease") by { NotIncludesMissingChar("پیداوار کی پیش گوئی", "Disease", 0); }
    assert !Includes("پیداوار کی پیش گوئی", "بیماری") by { NotIncludesMissingChar("پیداوار کی پیش گوئی", "بیماری", 0); }
    assert Includes("پیداوار کی پیش گوئی", "پیداوار") by { IncludesPrefix("پیداوار کی پیش گوئی", "پیداوار"); }
  }

  /** "Irrigation Advice" misses the rules before the third and gets its icon. */
  lemma EnglishIrrigationIcon()
    ensures ReportIcon("Irrigation Advice") == Droplets
  {
    assert !Includes("Irrigation Advice", "Disease") by { NotIncludesMissingChar("Irrigation Advice", "Disease", 0); }
    assert !Includes("Irrigation Advice", "بیماری") by { NotIncludesMissingChar("Irrigation Advice", "بیماری", 0); }
    assert !Includes("Irrigation Advice", "Yield") by { NotIncludesMissingChar("Irrigation Advice", "Yield", 0); }
    assert !Includes("Irrigation Advice", "پیداوار") by { NotIncludesMissingChar("Irrigation Advice", "پیداوار", 0); }
    assert Includes("Irrigation Advice", "Irrigation") by { IncludesPrefix("Irrigation Advice", "Irrigation"); }
  }

  /** The one "ب" of "آبپاشی کی رہنمائی" is followed by "پ", so the text does not include "بیماری". */
  lemma UrduIrrigationNotDisease()
    ensures !Includes("آبپاشی کی رہنمائی", "بیماری")
  {
    NotIncludesSingleStart("آبپاشی کی رہنمائی", "بیماری", 1);
  }

  /** "آبپاشی کی رہنمائی" misses the rules before the third and gets its icon. */
  lemma UrduIrrigationIcon()
    ensures ReportIcon("آبپاشی کی رہنمائی") == Droplets
  {
    assert !Includes("آبپاشی کی رہنمائی", "Disease") by { NotIncludesMissingChar("آبپاشی کی رہنمائی", "Disease", 0); }
    UrduIrrigationNotDisease();
    assert !Includes("آبپاشی کی رہنمائی", "Yield") by { NotIncludesMissingChar("آبپاشی کی رہنمائی", "Yield", 0); }
    assert !Includes("آبپاشی کی رہنمائی", "پیداوار") by { NotIncludesMissingChar("آبپاشی کی رہنمائی", "پیداوار", 2); }
    assert Includes("آبپاشی کی رہنمائی", "آبپاشی") by { IncludesPrefix("آبپاشی کی رہنمائی", "آبپاشی"); }
  }

  /** "Weather Alert" matches no rule and gets the file icon. */
  lemma EnglishWeatherIcon()
    ensures ReportIcon("Weather Alert") == FileText
  {
    assert !Includes("Weather Alert", "Disease") by { NotIncludesMissingChar("Weather Alert", "Disease", 0); }
    assert !Includes("Weather Alert", "بیماری") by { NotIncludesMissingChar("Weather Alert", "بیماری", 0); }
    assert !Includes("Weather Alert", "Yield") by { NotIncludesMissingChar("Weather Alert", "Yield", 0); }
    assert !Includes("Weather Alert", "پیداوار") by { NotIncludesMissingChar("Weather Alert", "پیداوار", 0); }
    assert !Includes("Weather Alert", "Irrigation") by { NotIncludesMissingChar("Weather Alert", "Irrigation", 0); }
    assert !Includes("Weather Alert", "آبپاشی") by { NotIncludesMissingChar("Weather Alert", "آبپاشی", 0); }
  }

  /** "موسمی انتباہ" matches no rule and gets the file icon. */
  lemma UrduWeatherIcon()
    ensures ReportIcon("موسمی انتباہ") == FileText
  {
    assert !Includes("موسمی انتباہ", "Disease") by { NotIncludesMissingChar("موسمی انتباہ", "Disease", 0); }
    assert !Includes("موسمی انتباہ", "بیماری") by { NotIncludesMissingChar("موسمی انتباہ", "بیماری", 4); }
    assert !Includes("موسمی انتباہ", "Yield") by { NotIncludesMissingChar("موسمی انتباہ", "Yield", 0); }
    assert !Includes("موسمی انتباہ", "پیداوار") by { NotIncludesMissingChar("موسمی انتباہ", "پیداوار", 0); }
    assert !Includes("موسمی انتباہ", "Irrigation") by { NotIncludesMissingChar("موسمی انتباہ", "Irrigation", 0); }
    assert !Includes("موسمی انتباہ", "آبپاشی") by { NotIncludesMissingChar("موسمی انتباہ", "آبپاشی", 0); }
  }

  /** "Treated" matches the first rule. */
  lemma EnglishTreatedColor()
    ensures StatusColor("Treated") == Green
  {
    assert Includes("Treated", "Treated") by { IncludesPrefix("Treated", "Treated"); }
  }

  /** "علاج شدہ" matches the first rule. */
  lemma UrduTreatedColor()
    ensures StatusColor("علاج شدہ") == Green
  {
    assert Includes("علاج شدہ", "علاج") by { IncludesPrefix("علاج شدہ", "علاج"); }
  }

  /** "Predicted" misses the rules before the second and gets its colour. */
  lemma EnglishPredictedColor()
    ensures StatusColor("Predicted") == Blue
  {
    assert !Includes("Predicted", "Treated") by { NotIncludesMissingChar("Predicted", "Treated", 0); }
    assert !Includes("Predicted", "علاج") by { NotIncludesMissingChar("Predicted", "علاج", 0); }
    assert Includes("Predicted", "Predicted") by { IncludesPrefix("Predicted", "Predicted"); }
  }

  /** "پیش گوئی شدہ" misses the rules before the second and gets its colour. */
  lemma UrduPredictedColor()
    ensures StatusColor("پیش گوئی شدہ") == Blue
  {
    assert !Includes("پیش گوئی شدہ", "Treated") by { NotIncludesMissingChar("پیش گوئی شدہ", "Treated", 0); }
    assert !Includes("پیش گوئی شدہ", "علاج") by { NotIncludesMissingChar("پیش گوئی شدہ", "علاج", 0); }
    assert Includes("پیش گوئی شدہ", "پیش گوئی") by { IncludesPrefix("پیش گوئی شدہ", "پیش گوئی"); }
  }

  /** "Applied" misses the rules before the third and gets its colour. */
  lemma EnglishAppliedColor()
    ensures StatusColor("Applied") == Cyan
  {
    assert !Includes("Applied", "Treated") by { NotIncludesMissingChar("Applied", "Treated", 0); }
    assert !Includes("Applied", "علاج") by { NotIncludesMissingChar("Applied", "علاج", 0); }
    assert !Includes("Applied", "Predicted") by { NotIncludesMissingChar("Applied", "Predicted", 0); }
    assert !Includes("Applied", "پیش گوئی") by { NotIncludesMissingChar("Applied", "پیش گوئی", 0); }
    assert Includes("Applied", "Applied") by { IncludesPrefix("Applied", "Applied"); }
  }

  /** "لاگو شدہ" misses the rules before the third and gets its colour. */
  lemma UrduAppliedColor()
    ensures StatusColor("لاگو شدہ") == Cyan
  {
    assert !Includes("لاگو شدہ", "Treated") by { NotIncludesMissingChar("لاگو شدہ", "Treated", 0); }
    assert !Includes("لاگو شدہ", "علاج") by { NotIncludesMissingChar("لاگو شدہ", "علاج", 0); }
    assert !Includes("لاگو شدہ", "Predicted") by { NotIncludesMissingChar("لاگو شدہ", "Predicted", 0); }
    assert !Includes("لاگو شدہ", "پیش گوئی") by { NotIncludesMissingChar("لاگو شدہ", "پیش گوئی", 0); }
    assert Includes("لاگو شدہ", "لاگو") by { IncludesPrefix("لاگو شدہ", "لاگو"); }
  }

  /** "Alert" misses the rules before the fourth and gets its colour. */
  lemma EnglishAlertColor()
    ensures StatusColor("Alert") == Red
  {
    assert !Includes("Alert", "Treated") by { NotIncludesMissingChar("Alert", "Treated", 0); }
    assert !Includes("Alert", "علاج") by { NotIncludesMissingChar("Alert", "علاج", 0); }
    assert !Includes("Alert", "Predicted") by { NotIncludesMissingChar("Alert", "Predicted", 0); }
    assert !Includes("Alert", "پیش گوئی") by { NotIncludesMissingChar("Alert", "پیش گوئی", 0); }
    assert !Includes("Alert", "Applied") by { NotIncludesMissingChar("Alert", "Applied", 1); }
    assert !Includes("Alert", "لاگو") by { NotIncludesMissingChar("Alert", "لاگو", 0); }
    assert Includes("Alert", "Alert") by { IncludesPrefix("Alert", "Alert"); }
  }

  /** "انتباہ" misses the rules before the fourth and gets its colour. */
  lemma UrduAlertColor()
    ensures StatusColor("انتباہ") == Red
  {
    assert !Includes("انتباہ", "Treated") by { NotIncludesMissingChar("انتباہ", "Treated", 0); }
    assert !Includes("انتباہ", "علاج") by { NotIncludesMissingChar("انتباہ", "علاج", 0); }
    assert !Includes("انتباہ", "Predicted") by { NotIncludesMissingChar("انتباہ", "Predicted", 0); }
    assert !Includes("انتباہ", "پیش گوئی") by { NotIncludesMissingChar("انتباہ", "پیش گوئی", 0); }
    assert !Includes("انتباہ", "Applied") by { NotIncludesMissingChar("انتباہ", "Applied", 0); }
    assert !Includes("انتباہ", "لاگو") by { NotIncludesMissingChar("انتباہ", "لاگو", 0); }
    assert Includes("انتباہ", "انتباہ") by { IncludesPrefix("انتباہ", "انتباہ"); }
  }

  /** The number of detail spans: Crop, Yield, Water, Location, Severity and Temp, in the order written. */
  const FieldCount: nat := 6

  /** One span of the detail line: the position of its label in that order, and the value shown. */
  datatype Detail = Detail(position: nat, value: string)

  /** The optional field at a label position. */
  function FieldAt(r: Report, position: nat): Option<string> {
    match position
    case 0 => r.crop
    case 1 => r.yieldAmount
    case 2 => r.water
    case 3 => r.location
    case 4 => r.severity
    case 5 => r.temp
    case _ => None
  }

  /** A field is shown when `report.field &&` is truthy: present and not the empty string. */
  predicate Shown(v: Option<string>) {
    v.Some? && v.value != ""
  }

  /** The span for one field, or nothing. */
  function Span(position: nat, v: Option<string>): seq<Detail> {
    if Shown(v) then [Detail(position, v.value)] else []
  }

  /** The detail line: six conditional spans, in the order written. */
  function Details(r: Report): seq<Detail> {
    Span(0, r.crop) + (Span(1, r.yieldAmount) + (Span(2, r.water) + (Span(3, r.location) + (Span(4, r.severity) + Span(5, r.temp)))))
  }

  /** The spans from label position `k` on. */
  function DetailsFrom(r: Report, k: nat): seq<Detail>
    decreases FieldCount - k
  {
    if k >= FieldCount then [] else Span(k, FieldAt(r, k)) + DetailsFrom(r, k + 1)
  }

  /** Positions strictly increase along `ds`, and lie in lo .. hi - 1. */
  predicate OrderedWithin(ds: seq<Detail>, lo: nat, hi: nat) {
    && (forall i :: 0 <= i < |ds| ==> lo <= ds[i].position < hi)
    && (forall i, j :: 0 <= i < j < |ds| ==> ds[i].position < ds[j].position)
  }

  /** Every span of `ds` shows a present field of `r`, with its value. */
  predicate SoundFor(r: Report, ds: seq<Detail>) {
    forall i :: 0 <= i < |ds| ==> Shown(FieldAt(r, ds[i].position)) && FieldAt(r, ds[i].position).value == ds[i].value
  }

  /** Putting at most one span at position `k` in front of spans ordered within k + 1 .. hi - 1 gives spans ordered within k .. hi - 1. */
  lemma ConsOrdered(head: seq<Detail>, rest: seq<Detail>, k: nat, hi: nat)
    requires |head| <= 1 && (forall i :: 0 <= i < |head| ==> head[i].position == k) && k < hi
    requires OrderedWithin(rest, k + 1, hi)
    ensures OrderedWithin(head + rest, k, hi)
  {
    var all := head + rest;
    forall i | 0 <= i < |all|
      ensures k <= all[i].position < hi
    {
      if i >= |head| {
        assert all[i] == rest[i - |head|];
      }
    }
    forall i, j | 0 <= i < j < |all|
      ensures all[i].position < all[j].position
    {
      assert all[j] == rest[j - |head|];
      if i >= |head| {
        assert all[i] == rest[i - |head|];
      }
    }
  }

  /** Soundness is kept by concatenation. */
  lemma ConcatSound(r: Report, head: seq<Detail>, rest: seq<Detail>)
    requires SoundFor(r, head) && SoundFor(r, rest)
    ensures SoundFor(r, head + rest)
  {
    var all := head + rest;
    forall i | 0 <= i < |all|
      ensures Shown(FieldAt(r, all[i].position)) && FieldAt(r, all[i].position).value == all[i].value
    {
      if i >= |head| {
        assert all[i] == rest[i - |head|];
      } else {
        assert all[i] == head[i];
      }
    }
  }

  /** The spans from position `k` on are strictly ordered by position, each within k .. 5. */
  lemma {:induction false} DetailsFromOrdered(r: Report, k: nat)
    ensures OrderedWithin(DetailsFrom(r, k), k, FieldCount)
    decreases FieldCount - k
  {
    if k < FieldCount {
      DetailsFromOrdered(r, k + 1);
      var head := Span(k, FieldAt(r, k));
      assert |head| <= 1 && forall i :: 0 <= i < |head| ==> head[i].position == k;
      assert DetailsFrom(r, k) == head + DetailsFrom(r, k + 1);
      ConsOrdered(head, DetailsFrom(r, k + 1), k, FieldCount);
    }
  }

  /** Every span from position `k` on shows a present field, with its value. */
  lemma {:induction false} DetailsFromSound(r: Report, k: nat)
    ensures SoundFor(r, DetailsFrom(r, k))
    decreases FieldCount - k
  {
    if k < FieldCount {
      DetailsFromSound(r, k + 1);
      assert DetailsFrom(r, k) == Span(k, FieldAt(r, k)) + DetailsFrom(r, k + 1);
      ConcatSound(r, Span(k, FieldAt(r, k)), DetailsFrom(r, k + 1));
    }
  }

  /** Every present field from position `k` on has its span. */
  lemma {:induction false} DetailsFromComplete(r: Report, k: nat)
    ensures forall p: nat :: k <= p < FieldCount && Shown(FieldAt(r, p)) ==> Detail(p, FieldAt(r, p).value) in DetailsFrom(r, k)
    decreases FieldCount - k
  {
    if k < FieldCount {
      DetailsFromComplete(r, k + 1);
      var rest := DetailsFrom(r, k + 1);
      var head := Span(k, FieldAt(r, k));
      assert DetailsFrom(r, k) == head + rest;
      forall p: nat | k <= p < FieldCount && Shown(FieldAt(r, p))
        ensures Detail(p, FieldAt(r, p).value) in head + rest
      {
        if p == k {
          assert head == [Detail(p, FieldAt(r, p).value)];
        } else {
          assert Detail(p, FieldAt(r, p).value) in rest;
        }
      }
    }
  }

  /** The six literal spans are the recursive definition from position 0. */
  lemma DetailsIsDetailsFrom(r: Report)
    ensures Details(r) == DetailsFrom(r, 0)
  {
    var s0, s1, s2, s3, s4, s5 := Span(0, r.crop), Span(1, r.yieldAmount), Span(2, r.water), Span(3, r.location), Span(4, r.severity), Span(5, r.temp);
    assert DetailsFrom(r, 6) == [];
    assert DetailsFrom(r, 5) == s5;
    assert DetailsFrom(r, 4) == s4 + s5;
    assert DetailsFrom(r, 3) == s3 + (s4 + s5);
    assert DetailsFrom(r, 2) == s2 + (s3 + (s4 + s5));
    assert DetailsFrom(r, 1) == s1 + (s2 + (s3 + (s4 + s5)));
  }

  /** The detail line lists its spans in the fixed order crop, yield, water, location, severity, temp, so each field at most once. */
  lemma DetailsOrdered(r: Report)
    ensures OrderedWithin(Details(r), 0, FieldCount)
  {
    DetailsIsDetailsFrom(r);
    DetailsFromOrdered(r, 0);
  }

  /** Every span of the detail line shows a field that is present (neither missing nor empty), with its value. */
  lemma DetailsSound(r: Report)
    ensures SoundFor(r, Details(r))
  {
    DetailsIsDetailsFrom(r);
    DetailsFromSound(r, 0);
  }

  /** Every field that is present gets its span in the detail line. */
  lemma DetailsComplete(r: Report)
    ensures forall p: nat :: p < FieldCount && Shown(FieldAt(r, p)) ==> Detail(p, FieldAt(r, p).value) in Details(r)
  {
    DetailsIsDetailsFrom(r);
    DetailsFromComplete(r, 0);
  }

  /** One card: its icon, its status colour and its detail line. */
  datatype Card = Card(icon: Icon, color: Color, details: seq<Detail>)

  datatype Body = EmptyState | Cards(cards: seq<Card>)

  /** The body of the screen for a list of reports. */
  function Render(reports: seq<Report>): Body {
    if |reports| == 0 then EmptyState
    else Cards(seq(|reports|, i requires 0 <= i < |reports| =>
      Card(ReportIcon(reports[i].kind), StatusColor(reports[i].status), Details(reports[i]))))
  }

  /** The empty state is shown exactly for an empty list; otherwise one card per report, in order, each with its report's icon, colour and details. */
  lemma RenderShows(reports: seq<Report>, i: nat)
    ensures Render(reports).EmptyState? <==> reports == []
    ensures Render(reports).Cards? ==> |Render(reports).cards| == |reports|
    ensures Render(reports).Cards? && i < |reports| ==>
      Render(reports).cards[i] == Card(ReportIcon(reports[i].kind), StatusColor(reports[i].status), Details(reports[i]))
  {
  }

  /** On the shipped lists, the four reports get the icons alert, trend, drops, file and the colours green, blue, cyan, red, in both languages. */
  lemma ShippedCards(l: Language)
    ensures |Reports(l)| == 4
    ensures forall i :: 0 <= i < 4 ==> ReportIcon(Reports(l)[i].kind) == [AlertTriangle, TrendingUp, Droplets, FileText][i]
    ensures forall i :: 0 <= i < 4 ==> StatusColor(Reports(l)[i].status) == [Green, Blue, Cyan, Red][i]
  {
    var icons := [AlertTriangle, TrendingUp, Droplets, FileText];
    var colors := [Green, Blue, Cyan, Red];
    var rs := Reports(l);
    forall i | 0 <= i < 4
      ensures ReportIcon(rs[i].kind) == icons[i] && StatusColor(rs[i].status) == colors[i]
    {
      match l
      case En =>
        if i == 0 { EnglishDiseaseIcon(); EnglishTreatedColor(); }
        else if i == 1 { EnglishYieldIcon(); EnglishPredictedColor(); }
        else if i == 2 { EnglishIrrigationIcon(); EnglishAppliedColor(); }
        else { EnglishWeatherIcon(); EnglishAlertColor(); }
      case Ur =>
        if i == 0 { UrduDiseaseIcon(); UrduTreatedColor(); }
        else if i == 1 { UrduYieldIcon(); UrduPredictedColor(); }
        else if i == 2 { UrduIrrigationIcon(); UrduAppliedColor(); }
        else { UrduWeatherIcon(); UrduAlertColor(); }
    }
  }
}
