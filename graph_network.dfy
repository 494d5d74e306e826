/**
 * The county map of eco-labelled hotels: the constant county table, the
 * colour band of a county by its hotel count, the legend, the tooltip
 * position, and the texts of the tooltip and the information panel.
 *
 * The GeoJSON download, the d3 projection, zoom and path drawing are not
 * modelled; a feature reaches this model as its county name.
 */
module GraphNetwork {
  import opened JsString
  import opened App
  import opened Wrappers

  /** One entry of `countyData`: hotel total, gold, silver and bronze counts, and region. */
  datatype County = County(name: string, hotels: int, gold: int, silver: int, bronze: int, region: string)

  /** The entries of `countyData`, one constant each. */
  const Taipei := County("台北市", 28, 10, 12, 6, "north")
  const Taoyuan := County("桃園市", 22, 1, 9, 12, "north")
  const Kaohsiung := County("高雄市", 18, 5, 6, 7, "south")
  const Taitung := County("台東縣", 17, 1, 1, 15, "east")
  const Tainan := County("台南市", 15, 0, 6, 9, "south")
  const Hualien := County("花蓮縣", 12, 2, 4, 6, "east")
  const Yilan := County("宜蘭縣", 10, 3, 3, 4, "east")
  const NewTaipei := County("新北市", 10, 8, 2, 0, "north")
  const Pingtung := County("屏東縣", 9, 1, 3, 5, "south")
  const Taichung := County("台中市", 8, 1, 4, 3, "central")
  const ChiayiCounty := County("嘉義縣", 7, 4, 2, 1, "south")
  const HsinchuCity := County("新竹市", 5, 2, 0, 3, "north")
  const Miaoli := County("苗栗縣", 5, 0, 2, 3, "central")
  const HsinchuCounty := County("新竹縣", 4, 0, 0, 4, "north")
  const Kinmen := County("金門縣", 4, 1, 0, 3, "island")
  const Nantou := County("南投縣", 3, 1, 2, 0, "central")
  const ChiayiCity := County("嘉義市", 3, 2, 0, 1, "south")
  const Changhua := County("彰化縣", 3, 0, 1, 2, "central")
  const Penghu := County("澎湖縣", 3, 2, 0, 1, "island")
  const Yunlin := County("雲林縣", 2, 0, 2, 0, "central")
  const Keelung := County("基隆市", 1, 0, 1, 0, "north")
  const Lienchiang := County("連江縣", 0, 0, 0, 0, "island")

  /** `countyData`, in the order its keys are written: largest hotel total first. */
  const CountyData: seq<County> := [
    Taipei, Taoyuan, Kaohsiung, Taitung, Tainan, Hualien,
    Yilan, NewTaipei, Pingtung, Taichung, ChiayiCounty, HsinchuCity,
    Miaoli, HsinchuCounty, Kinmen, Nantou, ChiayiCity, Changhua,
    Penghu, Yunlin, Keelung, Lienchiang]

  /** The national total the legend prints. */
  const LegendTotalText := "全國環保標章總計: " + "189" + " 間"

  /** The hotels of the first `n` counties. */
  function TotalHotels(cs: seq<County>, n: nat): int
    requires n <= |cs|
  {
    if n == 0 then 0 else TotalHotels(cs, n - 1) + cs[n - 1].hotels
  }

  /** Every county's total is the sum of its gold, silver and bronze counts. */
  lemma MedalsAddUp()
    ensures |CountyData| == 22
    ensures forall i :: 0 <= i < |CountyData| ==>
              CountyData[i].hotels == CountyData[i].gold + CountyData[i].silver + CountyData[i].bronze
  {
  }

  /** The table's hotels add up to the 189 the legend prints. */
  lemma TotalMatchesLegend()
    ensures TotalHotels(CountyData, |CountyData|) == 189
    ensures Includes(LegendTotalText, "189")
  {
    var t := CountyData;
    assert t[0] == Taipei && TotalHotels(t, 1) == 28;
    assert t[1] == Taoyuan && TotalHotels(t, 2) == 50;
    assert t[2] == Kaohsiung && TotalHotels(t, 3) == 68;
    assert t[3] == Taitung && TotalHotels(t, 4) == 85;
    assert t[4] == Tainan && TotalHotels(t, 5) == 100;
    assert t[5] == Hualien && TotalHotels(t, 6) == 112;
    assert t[6] == Yilan && TotalHotels(t, 7) == 122;
    assert t[7] == NewTaipei && TotalHotels(t, 8) == 132;
    assert t[8] == Pingtung && TotalHotels(t, 9) == 141;
    assert t[9] == Taichung && TotalHotels(t, 10) == 149;
    assert t[10] == ChiayiCounty && TotalHotels(t, 11) == 156;
    assert t[11] == HsinchuCity && TotalHotels(t, 12) == 161;
    assert t[12] == Miaoli && TotalHotels(t, 13) == 166;
    assert t[13] == HsinchuCounty && TotalHotels(t, 14) == 170;
    assert t[14] == Kinmen && TotalHotels(t, 15) == 174;
    assert t[15] == Nantou && TotalHotels(t, 16) == 177;
    assert t[16] == ChiayiCity && TotalHotels(t, 17) == 180;
    assert t[17] == Changhua && TotalHotels(t, 18) == 183;
    assert t[18] == Penghu && TotalHotels(t, 19) == 186;
    assert t[19] == Yunlin && TotalHotels(t, 20) == 188;
    assert t[20] == Keelung && TotalHotels(t, 21) == 189;
    assert t[21] == Lienchiang && TotalHotels(t, 22) == 189;
    IncludesParts("全國環保標章總計: ", "189", " 間");
  }

  predicate NonIncreasing(cs: seq<County>) {
    forall i :: 0 < i < |cs| ==> cs[i - 1].hotels >= cs[i].hotels
  }

  lemma {:induction false} NonIncreasingPairs(cs: seq<County>, i: int, j: int)
    requires NonIncreasing(cs)
    requires 0 <= i <= j < |cs|
    ensures cs[i].hotels >= cs[j].hotels
    decreases j - i
  {
    if i < j {
      NonIncreasingPairs(cs, i, j - 1);
    }
  }

  /** The spelling the summary uses for Taipei; the table writes it with 台. */
  const SummaryTaipei := "臺北市"

  /**
   * The three largest totals are 台北市 28, 桃園市 22 and 高雄市 18, and every
   * other county has fewer than 18.
   */
  lemma TopThree()
    ensures CountyData[0].name == "台北市" && CountyData[0].hotels == 28
    ensures CountyData[1].name == "桃園市" && CountyData[1].hotels == 22
    ensures CountyData[2].name == "高雄市" && CountyData[2].hotels == 18
    ensures forall i :: 3 <= i < |CountyData| ==> CountyData[i].hotels < 18
  {
    var t := CountyData;
    assert NonIncreasing(t);
    forall i | 3 <= i < |t| ensures t[i].hotels < 18 {
      NonIncreasingPairs(t, 3, i);
    }
  }

  /**
   * The county-statistics answer lists 臺北市 28, 桃園市 22 and 高雄市 18: the
   * table's top three (see TopThree), Taipei spelled 臺 (see TaipeiTitle).
   */
  lemma SummaryListsThree()
    ensures Includes(CountyStatisticsSummary, "臺北市 28間")
    ensures Includes(CountyStatisticsSummary, "桃園市 22間")
    ensures Includes(CountyStatisticsSummary, "高雄市 18間")
  {
    var t1, t2, t3 := "臺北市 28間", "桃園市 22間", "高雄市 18間";
    var head := "在台灣，針對旅宿業的「永續／綠色／低碳」措施，各縣市均有推動，不過從取得環保標章的旅宿來看，前三縣市在推動量與政務力度上比較突出：\n"
      + "\n" + "1. ";
    var tail := "如果你願意，我可以提供一個比完整各縣市較表格給你。你要不要？";
    IncludesParts(head, t1, "\n");
    var s := head + t1 + "\n";
    IncludesExtend(s, t1, "2. ");
    s := s + "2. ";
    IncludesExtend(s, t1, t2);
    IncludesParts(s, t2, "\n");
    IncludesExtend(s + t2, t1, "\n");
    s := s + t2 + "\n";
    IncludesExtend(s, t1, "3. ");
    IncludesExtend(s, t2, "3. ");
    s := s + "3. ";
    IncludesParts(s, t3, "\n");
    IncludesExtend(s, t1, t3);
    IncludesExtend(s, t2, t3);
    IncludesExtend(s + t3, t1, "\n");
    IncludesExtend(s + t3, t2, "\n");
    s := s + t3 + "\n";
    IncludesExtend(s, t1, "\n");
    IncludesExtend(s, t2, "\n");
    IncludesExtend(s, t3, "\n");
    s := s + "\n";
    IncludesExtend(s, t1, tail);
    IncludesExtend(s, t2, tail);
    IncludesExtend(s, t3, tail);
    assert s + tail == CountyStatisticsSummary;
  }

  /** The title shown for a feature named 臺北市 is the table's 台北市. */
  lemma TaipeiTitle()
    ensures DisplayName(SummaryTaipei) == Taipei.name
  {
    var s, r := SummaryTaipei, DisplayName(SummaryTaipei);
    assert |s| == 3 && s[0] == '臺' && s[1] == '北' && s[2] == '市';
    assert s[..0] == [];
    assert r[0] == '台';
    assert r[1] == '北' && r[2] == '市';
    assert r == "台北市";
  }

  // ---------------------------------------------------------------------
  // Colour bands and the legend

  /** `getColor`: the fill for a hotel total. */
  function GetColor(hotels: int): (color: string)
    ensures hotels >= 20 ==> color == "#2ecc71"
    ensures 10 <= hotels < 20 ==> color == "#3498db"
    ensures 5 <= hotels < 10 ==> color == "#95a5a6"
    ensures hotels < 5 ==> color == "#7f8c8d"
  {
    if hotels >= 20 then "#2ecc71"
    else if hotels >= 10 then "#3498db"
    else if hotels >= 5 then "#95a5a6"
    else "#7f8c8d"
  }

  /** A count band: its least total and, except for the top band, its largest. */
  datatype Band = Band(lo: nat, hi: Option<nat>)

  /** One legend entry: colour, label text (`label`), and the band written as `lo-hi` or `lo+`. */
  datatype LegendItem = LegendItem(color: string, caption: string, range: string)

  const LegendHigh := LegendItem("#2ecc71", "高度推動 (≥20間)", "20+")
  const LegendActive := LegendItem("#3498db", "積極推動 (10-19間)", "10-19")
  const LegendGrowing := LegendItem("#95a5a6", "發展中 (5-9間)", "5-9")
  const LegendStarting := LegendItem("#7f8c8d", "起步階段 (<5間)", "0-4")

  const LegendItems: seq<LegendItem> := [LegendHigh, LegendActive, LegendGrowing, LegendStarting]

  predicate IsDigit(c: char) { '0' <= c <= '9' }

  /** A non-empty run of decimal digits, read as a number. */
  function ParseNat(s: string): (r: Option<nat>)
    ensures r.Some? <==> |s| > 0 && forall i :: 0 <= i < |s| ==> IsDigit(s[i])
    decreases |s|
  {
    if s == [] || !IsDigit(s[|s| - 1]) then None
    else if |s| == 1 then Some((s[0] - '0') as nat)
    else match ParseNat(s[..|s| - 1])
      case None => None
      case Some(n) => Some(10 * n + (s[|s| - 1] - '0') as nat)
  }

  /** `s.indexOf(c)` for a one-character pattern: the first position of `c`, if any. */
  function IndexOf(s: string, c: char): (r: Option<nat>)
    ensures r.Some? ==> r.value < |s| && s[r.value] == c && c !in s[..r.value]
    ensures r.None? <==> c !in s
    decreases |s|
  {
    if s == [] then None
    else if s[0] == c then Some(0)
    else match IndexOf(s[1..], c)
      case None => None
      case Some(i) =>
        assert s[..i + 1] == [s[0]] + s[1..][..i];
        Some(i + 1)
  }

  /** The band a range text names: `n+` is `n` and above, `a-b` is `a` to `b`. */
  function ParseRange(range: string): Option<Band> {
    if |range| > 0 && range[|range| - 1] == '+' then
      match ParseNat(range[..|range| - 1])
      case None => None
      case Some(lo) => Some(Band(lo, None))
    else
      match IndexOf(range, '-')
      case None => None
      case Some(d) =>
        match (ParseNat(range[..d]), ParseNat(range[d + 1..]))
        case (Some(lo), Some(hi)) => Some(Band(lo, Some(hi)))
        case _ => None
  }

  predicate InBand(b: Band, hotels: int) {
    b.lo <= hotels && (b.hi.None? || hotels <= b.hi.value)
  }

  /** The four range texts, read. */
  lemma LegendRanges()
    ensures ParseRange("20+") == Some(Band(20, None))
    ensures ParseRange("10-19") == Some(Band(10, Some(19)))
    ensures ParseRange("5-9") == Some(Band(5, Some(9)))
    ensures ParseRange("0-4") == Some(Band(0, Some(4)))
  {
    RangeTop();
    RangeTens();
    RangeDigits("5-9", '5', '9');
    RangeDigits("0-4", '0', '4');
  }

  lemma RangeTop()
    ensures ParseRange("20+") == Some(Band(20, None))
  {
    assert "20"[..1] == "2";
    assert "20+"[..2] == "20";
  }

  lemma RangeTens()
    ensures ParseRange("10-19") == Some(Band(10, Some(19)))
  {
    assert "10"[..1] == "1" && "19"[..1] == "1";
    assert "10-19"[1..] == "0-19" && "0-19"[1..] == "-19";
    assert "10-19"[..2] == "10" && "10-19"[3..] == "19";
  }

  /** A range of two single digits. */
  lemma RangeDigits(r: string, lo: char, hi: char)
    requires IsDigit(lo) && IsDigit(hi) && r == [lo, '-', hi]
    ensures ParseRange(r) == Some(Band((lo - '0') as nat, Some((hi - '0') as nat)))
  {
    assert r[1..] == ['-', hi];
    assert r[..1] == [lo] && r[2..] == [hi];
  }

  /** The band the `k`-th legend entry's range names. */
  function LegendBand(k: nat): (b: Band)
    requires k < |LegendItems|
    ensures Some(b) == ParseRange(LegendItems[k].range)
  {
    LegendRanges();
    if k == 0 then Band(20, None)
    else if k == 1 then Band(10, Some(19))
    else if k == 2 then Band(5, Some(9))
    else Band(0, Some(4))
  }

  /** Every total in the band a legend entry names is filled with that entry's colour. */
  lemma LegendMatchesColors(k: nat, hotels: int)
    requires k < |LegendItems|
    ensures InBand(LegendBand(k), hotels) ==> GetColor(hotels) == LegendItems[k].color
  {
  }

  /** Every total from 0 up lies in some legend entry's band ... */
  lemma LegendCovers(hotels: int)
    requires hotels >= 0
    ensures exists j: nat :: j < |LegendItems| && InBand(LegendBand(j), hotels)
  {
    var j: nat := if hotels >= 20 then 0 else if hotels >= 10 then 1 else if hotels >= 5 then 2 else 3;
    assert InBand(LegendBand(j), hotels);
  }

  /** ... and in no two. */
  lemma LegendDisjoint(hotels: int, k: nat, m: nat)
    requires k < m < |LegendItems|
    ensures !(InBand(LegendBand(k), hotels) && InBand(LegendBand(m), hotels))
  {
    var bk, bm := LegendBand(k), LegendBand(m);
    assert k == 0 ==> bk.hi.None? && bk.lo == 20;
    assert m == 3 ==> bm.hi == Some(4);
    assert m == 2 ==> bm.hi == Some(9) && bm.lo == 5;
    assert m == 1 ==> bm.hi == Some(19);
    assert k == 1 ==> bk.lo == 10;
    assert k == 2 ==> bk.lo == 5;
  }

  // ---------------------------------------------------------------------
  // Features, fills and the panels

  /** A map feature's properties after the merge: the county's figures when its name is a table key. */
  datatype Props = Props(name: string, hotels: Option<int>, gold: Option<int>, silver: Option<int>,
                         bronze: Option<int>, region: Option<string>)

  function Lookup(cs: seq<County>, name: string): (r: Option<County>)
    ensures r.Some? ==> r.value in cs && r.value.name == name
    ensures r.None? ==> forall i :: 0 <= i < |cs| ==> cs[i].name != name
    decreases |cs|
  {
    if cs == [] then None
    else if cs[0].name == name then Some(cs[0])
    else Lookup(cs[1..], name)
  }

  /** The merge of a downloaded feature with `countyData`, by the feature's county name. */
  function Merge(name: string): (p: Props)
    ensures p.name == name
  {
    match Lookup(CountyData, name)
    case Some(c) => Props(name, Some(c.hotels), Some(c.gold), Some(c.silver), Some(c.bronze), Some(c.region))
    case None => Props(name, None, None, None, None, None)
  }

  /** `value || 0`: a missing count reads as 0. */
  function OrZero(v: Option<int>): (r: int)
    ensures v.None? ==> r == 0
    ensures v.Some? ==> r == v.value
  {
    match v
    case None => 0
    case Some(n) => n
  }

  /** The fill of a county path that is neither hovered nor selected. */
  function Fill(p: Props): string {
    GetColor(OrZero(p.hotels))
  }

  /** A feature without figures is filled as a county with no labelled hotel. */
  lemma MissingCountsDarkest(p: Props)
    requires p.hotels.None?
    ensures Fill(p) == "#7f8c8d" && Fill(p) == Fill(p.(hotels := Some(0)))
  {
  }

  /** A feature whose name is a table key is filled by that county's band. */
  lemma MergedFill(name: string)
    requires Lookup(CountyData, name).Some?
    ensures Merge(name).hotels == Some(Lookup(CountyData, name).value.hotels)
    ensures Fill(Merge(name)) == GetColor(Lookup(CountyData, name).value.hotels)
  {
  }

  /** No county name in the table starts with 臺. */
  lemma NoTaiKey()
    ensures forall i :: 0 <= i < |CountyData| ==> |CountyData[i].name| > 0 && CountyData[i].name[0] != '臺'
  {
  }

  /** A feature named with 臺 rather than the table's 台 gets no figures and the darkest fill. */
  lemma TaiSpellingNotFound()
    ensures Merge(SummaryTaipei).hotels.None?
    ensures Fill(Merge(SummaryTaipei)) == "#7f8c8d"
  {
    NoTaiKey();
  }

  /** Replace the first occurrence of a character, as `String.replace` does with a one-character pattern. */
  function ReplaceFirst(s: string, from: char, to: char): (r: string)
    ensures |r| == |s|
    ensures forall k :: 0 <= k < |s| ==> r[k] == if s[k] == from && from !in s[..k] then to else s[k]
  {
    match IndexOf(s, from)
    case None => s
    case Some(i) =>
      var r := s[..i] + [to] + s[i + 1..];
      assert forall k :: 0 <= k < i ==> from !in s[..k] by {
        forall k | 0 <= k < i ensures s[..k] <= s[..i] { }
      }
      assert forall k :: i < k < |s| ==> s[i] in s[..k] by {
        forall k | i < k < |s| ensures s[..k][i] == s[i] { }
      }
      r
  }

  /** The county title of the tooltip and the information panel: 臺 shown as 台. */
  function DisplayName(name: string): string {
    ReplaceFirst(name, '臺', '台')
  }

  /** `region`: the four region codes in Chinese, anything else as the outlying islands. */
  function RegionLabel(region: Option<string>): (text: string)
    ensures region == Some("north") <==> text == "北部"
    ensures region == Some("central") <==> text == "中部"
    ensures region == Some("south") <==> text == "南部"
    ensures region == Some("east") <==> text == "東部"
    ensures text == "離島" <==> region !in {Some("north"), Some("central"), Some("south"), Some("east")}
  {
    if region == Some("north") then "北部"
    else if region == Some("central") then "中部"
    else if region == Some("south") then "南部"
    else if region == Some("east") then "東部"
    else "離島"
  }

  /** The tooltip corner: right of and above the pointer, kept off the right edge and below the header. */
  function TooltipPosition(pageX: int, pageY: int, innerWidth: int): (p: (int, int))
    ensures p.0 <= innerWidth - 260 && p.1 >= 50
    ensures p.0 == pageX + 15 || p.0 == innerWidth - 260
    ensures p.1 == pageY - 10 || p.1 == 50
    ensures pageX + 15 <= innerWidth - 260 ==> p.0 == pageX + 15
    ensures pageY - 10 >= 50 ==> p.1 == pageY - 10
  {
    var x := if pageX + 15 <= innerWidth - 260 then pageX + 15 else innerWidth - 260;
    var y := if pageY - 10 >= 50 then pageY - 10 else 50;
    (x, y)
  }

  /** The figures the tooltip and the information panel print, each missing one as 0. */
  datatype Figures = Figures(title: string, gold: int, silver: int, bronze: int, total: int)

  function FiguresOf(p: Props): Figures {
    Figures(DisplayName(p.name), OrZero(p.gold), OrZero(p.silver), OrZero(p.bronze), OrZero(p.hotels))
  }

  /** For a table county the printed figures are its own, and the printed total is their sum. */
  lemma FiguresOfTable(name: string)
    requires Lookup(CountyData, name).Some?
    ensures var c, f := Lookup(CountyData, name).value, FiguresOf(Merge(name));
            f == Figures(DisplayName(name), c.gold, c.silver, c.bronze, c.hotels)
            && f.total == f.gold + f.silver + f.bronze
  {
    MedalsAddUp();
    var c := Lookup(CountyData, name).value;
    var i :| 0 <= i < |CountyData| && CountyData[i] == c;
  }

  /** What the information panel prints: the figures and the region in words. */
  datatype PanelText = PanelText(figures: Figures, region: string)

  /**
   * The county the information panel describes: the hovered one, else the
   * selected one; the panel lists figures only for a county with a total.
   */
  function InfoPanel(hovered: Option<Props>, selected: Option<Props>): (f: Option<PanelText>)
    ensures hovered.Some? ==> (f.Some? <==> hovered.value.hotels.Some?)
    ensures hovered.None? && selected.Some? ==> (f.Some? <==> selected.value.hotels.Some?)
    ensures hovered.None? && selected.None? ==> f.None?
    ensures f.Some? ==> var p := if hovered.Some? then hovered.value else selected.value;
              f.value == PanelText(FiguresOf(p), RegionLabel(p.region))
  {
    var display := if hovered.Some? then hovered else selected;
    match display
    case Some(p) => if p.hotels.Some? then Some(PanelText(FiguresOf(p), RegionLabel(p.region))) else None
    case None => None
  }

  /** Hovering a table county puts its own figures and region in the information panel. */
  lemma PanelOfTable(name: string, selected: Option<Props>)
    requires Lookup(CountyData, name).Some?
    ensures var c := Lookup(CountyData, name).value;
            InfoPanel(Some(Merge(name)), selected)
            == Some(PanelText(Figures(DisplayName(name), c.gold, c.silver, c.bronze, c.hotels), RegionLabel(Some(c.region))))
  {
    FiguresOfTable(name);
  }

  /** The tooltip shows only while a county is hovered, with that county's figures. */
  function Tooltip(hovered: Option<Props>): (f: Option<Figures>)
    ensures f.Some? <==> hovered.Some?
    ensures f.Some? ==> f.value == FiguresOf(hovered.value)
  {
    match hovered
    case Some(p) => Some(FiguresOf(p))
    case None => None
  }

  /** Hovering a table county shows that county's own figures in the tooltip. */
  lemma TooltipOfTable(name: string)
    requires Lookup(CountyData, name).Some?
    ensures var c := Lookup(CountyData, name).value;
            Tooltip(Some(Merge(name))) == Some(Figures(DisplayName(name), c.gold, c.silver, c.bronze, c.hotels))
  {
    FiguresOfTable(name);
  }
}
