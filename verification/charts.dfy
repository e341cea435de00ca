/** What `createChart` builds from one aggregation response: the title that
    carries the turbine count, one category label per time bucket, the label
    formatter shown under each checkbox, and the series of summed output. */
module Charts {
  import opened Text

  /** A time bucket at hour precision, already split into calendar fields.
      The minutes and seconds of `prediction_time` are not kept: `%H:00`
      prints a literal ":00" whatever they are. */
  datatype DateHour = DateHour(month: nat, day: nat, year: nat, hour: nat)

  /** One grouped record of the aggregation response. */
  datatype Feature = Feature(predictionTime: DateHour, totalEnergy: int)

  /** The parts of the rendered chart the range-sum gesture reads back. */
  datatype Chart = Chart(title: string, categories: seq<string>, values: seq<int>)

  predicate ValidDateHour(d: DateHour) {
    1 <= d.month <= 12 && 1 <= d.day <= 31 && 1000 <= d.year <= 9999 && d.hour <= 23
  }

  /** The words before the count, written as one word per literal so that the
      absence of digits is proved word by word. */
  const TitlePrefix := "Predicted " + "Wind " + "Power " + "Generation " + "for " + "Selected "

  function PluralSuffix(count: int): string {
    if count > 1 then "s" else ""
  }

  /** The chart title for `turbineCount` selected turbines: its first run
      of digits is the printed count. */
  function Title(turbineCount: nat): (t: string)
    ensures FirstDigitRun(t) == Some(NatToDecimal(turbineCount))
  {
    TitlePrefixHasNoDigits();
    FirstRunAfterPrefix(TitlePrefix, NatToDecimal(turbineCount), " Turbine" + PluralSuffix(turbineCount));
    TitlePrefix + NatToDecimal(turbineCount) + (" Turbine" + PluralSuffix(turbineCount))
  }

  lemma TitlePrefixHasNoDigits()
    ensures NoDigits(TitlePrefix)
  {
    var w1, w2, w3, w4, w5, w6 := "Predicted ", "Wind ", "Power ", "Generation ", "for ", "Selected ";
    assert NoDigits(w1) && NoDigits(w2) && NoDigits(w3) && NoDigits(w4) && NoDigits(w5) && NoDigits(w6);
    NoDigitsConcat(w1, w2);
    NoDigitsConcat(w1 + w2, w3);
    NoDigitsConcat(w1 + w2 + w3, w4);
    NoDigitsConcat(w1 + w2 + w3 + w4, w5);
    NoDigitsConcat(w1 + w2 + w3 + w4 + w5, w6);
  }

  /** The count the range-sum report re-reads from a title, by taking its
      first run of digits and reading it as a number, is the count the title
      was built for. */
  lemma TitleRoundTrip(n: nat)
    ensures FirstDigitRun(Title(n)).Some?
    ensures ParseDecimal(FirstDigitRun(Title(n)).value) == n
  {
    ParseNatToDecimal(n);
  }

  /** The title says "Turbines" exactly when more than one turbine is selected. */
  lemma TitlePlural(n: nat)
    ensures |Title(n)| >= 8
    ensures n > 1 <==> Title(n)[|Title(n)| - 8..] == "Turbines"
    ensures n <= 1 <==> Title(n)[|Title(n)| - 7..] == "Turbine"
  {
    var t := Title(n);
    var head := TitlePrefix + NatToDecimal(n);
    var rest := " Turbine" + PluralSuffix(n);
    assert t == head + rest;
    assert t[|head|..] == rest;
    if n > 1 {
      assert rest == " Turbines";
      assert t[|t| - 8..] == rest[1..];
      assert t[|t| - 7..] != "Turbine" by {
        assert t[|t| - 1] == rest[8] == 's';
      }
    } else {
      assert rest == " Turbine";
      assert t[|t| - 7..] == rest[1..];
      assert t[|t| - 8..] != "Turbines" by {
        assert t[|t| - 1] == rest[7] == 'e';
      }
    }
  }

  /** A two-digit, zero-padded field (`%m`, `%d`, `%H`). */
  function Pad2(n: nat): (s: string)
    requires n < 100
    ensures |s| == 2 && AllDigits(s) && ParseDecimal(s) == n
  {
    var s := [DigitChar(n / 10), DigitChar(n % 10)];
    assert s[..1] == [s[0]] && s[..1][..0] == [];
    assert ParseDecimal(s[..1]) == n / 10;
    s
  }

  /** A four-digit year (`%Y`). */
  function Pad4(n: nat): (s: string)
    requires n < 10000
    ensures |s| == 4 && AllDigits(s) && ParseDecimal(s) == n
  {
    var q1 := n / 10;
    var q2 := q1 / 10;
    var q3 := q2 / 10;
    var s := [DigitChar(q3), DigitChar(q2 % 10), DigitChar(q1 % 10), DigitChar(n % 10)];
    assert s[..3][..2] == s[..2] && s[..2][..1] == [s[0]] && [s[0]][..0] == [];
    assert ParseDecimal(s[..1]) == q3;
    assert ParseDecimal(s[..2]) == q2;
    assert ParseDecimal(s[..3]) == q1;
    s
  }

  function DatePart(d: DateHour): string
    requires ValidDateHour(d)
  {
    Pad2(d.month) + "/" + Pad2(d.day) + "/" + Pad4(d.year)
  }

  function HourPart(d: DateHour): string
    requires ValidDateHour(d)
  {
    Pad2(d.hour) + ":00"
  }

  /** The category label `%m/%d/%Y %H:00` of a time bucket. */
  function CategoryLabel(d: DateHour): (s: string)
    requires ValidDateHour(d)
    ensures |s| == 16
  {
    DatePart(d) + " " + HourPart(d)
  }

  /** The text the axis formatter shows next to a checkbox whose value is
      `v`: the part before the first space when `v` contains "00:00",
      otherwise the part after it. */
  function FormatLabel(v: string): (r: string)
    ensures Contains(v, "00:00") && ' ' in v ==> r + " " <= v && ' ' !in r
    ensures Contains(v, "00:00") && ' ' !in v ==> r == ""
    ensures !Contains(v, "00:00") && ' ' in v ==>
              |r| < |v| && v[|v| - |r| - 1] == ' ' && ' ' !in v[..|v| - |r| - 1] && v[|v| - |r|..] == r
    ensures !Contains(v, "00:00") && ' ' !in v ==> r == v
  {
    var space := IndexOf(v, ' ');
    if IndexOfSub(v, "00:00") > -1 then Substring(v, 0, space)
    else Substring(v, space + 1, |v|)
  }

  lemma LabelColon(d: DateHour)
    requires ValidDateHour(d)
    ensures forall k :: 0 <= k < 16 && k != 13 ==> CategoryLabel(d)[k] != ':'
    ensures CategoryLabel(d)[13] == ':'
    ensures CategoryLabel(d)[10] == ' ' && ' ' !in CategoryLabel(d)[..10]
    ensures CategoryLabel(d)[..10] == DatePart(d) && CategoryLabel(d)[11..] == HourPart(d)
    ensures CategoryLabel(d)[11..13] == Pad2(d.hour)
  {
  }

  /** A label shows "00:00" exactly for the midnight bucket. */
  lemma LabelMidnight(d: DateHour)
    requires ValidDateHour(d)
    ensures Contains(CategoryLabel(d), "00:00") <==> d.hour == 0
  {
    var v := CategoryLabel(d);
    LabelColon(d);
    if d.hour == 0 {
      assert OccursAt(v, "00:00", 11);
    } else {
      assert Pad2(d.hour) != "00" by {
        assert ParseDecimal("00") == 0;
      }
      forall i
        ensures !OccursAt(v, "00:00", i)
      {
        if 0 <= i && i + 5 <= |v| {
          assert v[i..i + 5][2] == v[i + 2];
          if i == 11 {
            assert v[i..i + 5][..2] == Pad2(d.hour);
          }
        }
      }
    }
  }

  /** The formatter shows the date under midnight ticks and the hour under
      every other tick. */
  lemma FormatCategoryLabel(d: DateHour)
    requires ValidDateHour(d)
    ensures FormatLabel(CategoryLabel(d)) == if d.hour == 0 then DatePart(d) else HourPart(d)
  {
    var v := CategoryLabel(d);
    LabelColon(d);
    LabelMidnight(d);
    assert IndexOf(v, ' ') == 10;
  }

  /** Each field can be read back from its place in the label. */
  lemma LabelFields(d: DateHour)
    requires ValidDateHour(d)
    ensures ParseDecimal(CategoryLabel(d)[..2]) == d.month
    ensures ParseDecimal(CategoryLabel(d)[3..5]) == d.day
    ensures ParseDecimal(CategoryLabel(d)[6..10]) == d.year
    ensures ParseDecimal(CategoryLabel(d)[11..13]) == d.hour
  {
    var v := CategoryLabel(d);
    assert v[..2] == Pad2(d.month);
    assert v[3..5] == Pad2(d.day);
    assert v[6..10] == Pad4(d.year);
    assert v[11..13] == Pad2(d.hour);
  }

  /** Distinct hours get distinct labels, so a label names one hour. */
  lemma CategoryLabelInjective(d1: DateHour, d2: DateHour)
    requires ValidDateHour(d1) && ValidDateHour(d2)
    ensures CategoryLabel(d1) == CategoryLabel(d2) <==> d1 == d2
  {
    if CategoryLabel(d1) == CategoryLabel(d2) {
      LabelFields(d1);
      LabelFields(d2);
    }
  }

  /** One category label per response record, in response order. */
  function Categories(features: seq<Feature>): (cats: seq<string>)
    requires forall k :: 0 <= k < |features| ==> ValidDateHour(features[k].predictionTime)
    ensures |cats| == |features|
    ensures forall k :: 0 <= k < |features| ==> cats[k] == CategoryLabel(features[k].predictionTime)
  {
    seq(|features|, k requires 0 <= k < |features| => CategoryLabel(features[k].predictionTime))
  }

  /** The series data: each record's `total_energy`, in response order. */
  function Energies(features: seq<Feature>): (values: seq<int>)
    ensures |values| == |features|
    ensures forall k :: 0 <= k < |features| ==> values[k] == features[k].totalEnergy
  {
    seq(|features|, k requires 0 <= k < |features| => features[k].totalEnergy)
  }

  /** The title plus categories and data taken from the same response, so
      that category `k` and value `k` describe the same time bucket. */
  function BuildChart(turbineCount: nat, features: seq<Feature>): (c: Chart)
    requires forall k :: 0 <= k < |features| ==> ValidDateHour(features[k].predictionTime)
    ensures |c.categories| == |features| && |c.values| == |features|
    ensures forall k :: 0 <= k < |features| ==>
              c.categories[k] == CategoryLabel(features[k].predictionTime) && c.values[k] == features[k].totalEnergy
    ensures FirstDigitRun(c.title) == Some(NatToDecimal(turbineCount))
    ensures Wellformed(c)
  {
    Chart(Title(turbineCount), Categories(features), Energies(features))
  }

  /** A chart the range-sum gesture can read without a runtime error: one
      value per category and a count in the title. */
  predicate Wellformed(c: Chart) {
    |c.categories| == |c.values| && FirstDigitRun(c.title).Some?
  }
}
