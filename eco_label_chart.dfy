/**
 * The eco-label chart component: its one bronze-level dataset and its
 * `visibleStatuses` state, which the legend toggles.
 */
module EcoLabelChart {
  import opened EcoLabelLayout
  import opened Wrappers

  /** `bronzeData`: six categories and their fifteen conditions. */
  const BronzeData: LevelData := LevelData("銅級完成率", "53%", "#CD7F32", [
    Item("能源與水資源管理", [
      Condition("具有能源、水資源使用之年度統計資料，並自主管理。", Completed),
      Condition("具有員工環境保護教育訓練計畫及執行實績。", Completed),
      Condition("設有餐廳者，餐廳不使用保育類食材。", Completed)]),
    Item("員工教育與環保文化", [
      Condition("每年進行空調（暖氣與冷氣）及通風、排氣系統之保養與調整。", Completed),
      Condition("室內無人區域設置自動調光控制或紅外線控制照明自動點燈等照明設備或確保室內無人區域維持燈具關閉之措施。", Incomplete)]),
    Item("節能照明與節水宣導", [
      Condition("每半年進行用水設備（含管線、蓄水池及冷卻水塔等）之保養與調整。", Priority),
      Condition("客房採用告示卡或其他方式說明，讓房客能夠選擇每日或多日更換一次床單與毛巾。", Priority),
      Condition("在浴廁或客房適當位置張貼（或擺放）節約水電宣導卡片。", Priority)]),
    Item("綠色採購與產品使用", [
      Condition("業者應建立綠色採購機制。", Completed),
      Condition("每年至少有3項綠色產品採購", Incomplete)]),
    Item("減塑行動與一次性用品管理", [
      Condition("場所內不提供免洗餐具，包含塑膠及紙製材質之杯、碗、盤、碟、叉、匙及免洗筷等一次用餐具。", Completed),
      Condition("具有相關措施向房客說明一次用產品對環境之衝擊。", Priority)]),
    Item("廢棄物與污染防治", [
      Condition("廢棄電池及照明光源具有相關設施或程序之回收機制。", Completed),
      Condition("環境衛生用藥及病媒防治等符合環保法規規定。", Completed),
      Condition("具有廢棄物分類及資源回收機制。", Priority)])
  ])

  /** The statuses of the bronze conditions, category by category. */
  lemma BronzeStatuses()
    ensures |BronzeData.items| == 6
    ensures |BronzeData.items[0].conditions| == 3 && |BronzeData.items[1].conditions| == 2
    ensures |BronzeData.items[2].conditions| == 3 && |BronzeData.items[3].conditions| == 2
    ensures |BronzeData.items[4].conditions| == 2 && |BronzeData.items[5].conditions| == 3
    ensures forall j :: 0 <= j < 3 ==> BronzeData.items[0].conditions[j].status == Completed
    ensures BronzeData.items[1].conditions[0].status == Completed
    ensures BronzeData.items[1].conditions[1].status == Incomplete
    ensures forall j :: 0 <= j < 3 ==> BronzeData.items[2].conditions[j].status == Priority
    ensures BronzeData.items[3].conditions[0].status == Completed
    ensures BronzeData.items[3].conditions[1].status == Incomplete
    ensures BronzeData.items[4].conditions[0].status == Completed
    ensures BronzeData.items[4].conditions[1].status == Priority
    ensures BronzeData.items[5].conditions[0].status == Completed
    ensures BronzeData.items[5].conditions[1].status == Completed
    ensures BronzeData.items[5].conditions[2].status == Priority
  {
  }

  function Flag(b: bool, n: nat): nat {
    if b then n else 0
  }

  /**
   * The bronze data has eight completed, five priority and two incomplete
   * conditions: the seven not yet completed are the "seven items to go" of the
   * eco-label assessment answer.
   */
  lemma BronzeVisibleCount(v: Visibility)
    ensures |BronzeData.items| == 6
    ensures VisibleCount(BronzeData.items, v, 6)
            == Flag(v.completed, 8) + Flag(v.priority, 5) + Flag(v.incomplete, 2)
  {
    BronzeStatuses();
    var items := BronzeData.items;
    var c, p, i := Flag(v.completed, 1), Flag(v.priority, 1), Flag(v.incomplete, 1);
    assert IsVisible(v, Completed) == v.completed && IsVisible(v, Priority) == v.priority
        && IsVisible(v, Incomplete) == v.incomplete;
    assert VisibleConditions(items, v, 0, 1) == c;
    assert VisibleConditions(items, v, 0, 2) == 2 * c;
    assert VisibleConditions(items, v, 0, 3) == 3 * c;
    assert VisibleConditions(items, v, 1, 1) == c;
    assert VisibleConditions(items, v, 1, 2) == c + i;
    assert VisibleConditions(items, v, 2, 1) == p;
    assert VisibleConditions(items, v, 2, 2) == 2 * p;
    assert VisibleConditions(items, v, 2, 3) == 3 * p;
    assert VisibleConditions(items, v, 3, 1) == c;
    assert VisibleConditions(items, v, 3, 2) == c + i;
    assert VisibleConditions(items, v, 4, 1) == c;
    assert VisibleConditions(items, v, 4, 2) == c + p;
    assert VisibleConditions(items, v, 5, 1) == c;
    assert VisibleConditions(items, v, 5, 2) == 2 * c;
    assert VisibleConditions(items, v, 5, 3) == 2 * c + p;
    assert VisibleCount(items, v, 1) == 3 * c;
    assert VisibleCount(items, v, 2) == 4 * c + i;
    assert VisibleCount(items, v, 3) == 4 * c + i + 3 * p;
    assert VisibleCount(items, v, 4) == 5 * c + 2 * i + 3 * p;
    assert VisibleCount(items, v, 5) == 6 * c + 2 * i + 4 * p;
  }

  /** With every status shown the bronze section has 21 boxes: six items and fifteen conditions. */
  lemma BronzeSectionSize()
    ensures |SectionOf(BronzeData, AllVisible).elements| == 21
  {
    BronzeVisibleCount(AllVisible);
    SectionSize(BronzeData, AllVisible);
  }

  /** Hiding the incomplete conditions drops exactly their two boxes. */
  lemma BronzeHidingIncomplete()
    ensures |SectionOf(BronzeData, Toggle(AllVisible, Incomplete)).elements| == 19
  {
    BronzeVisibleCount(Toggle(AllVisible, Incomplete));
    SectionSize(BronzeData, Toggle(AllVisible, Incomplete));
  }

  /** The component: whether it may draw yet, and which status classes are shown. */
  class Chart {
    const isVisible: bool
    var visibleStatuses: Visibility

    constructor (isVisible: bool)
      ensures this.isVisible == isVisible
      ensures visibleStatuses == AllVisible
    {
      this.isVisible := isVisible;
      visibleStatuses := AllVisible;
    }

    /** A click on a legend entry. */
    method ToggleStatus(status: Status)
      modifies this
      ensures visibleStatuses == Toggle(old(visibleStatuses), status)
    {
      visibleStatuses := Toggle(visibleStatuses, status);
    }

    /** What is drawn: nothing but a loading notice until visible, then the bronze section. */
    method Render() returns (section: Option<Section>)
      ensures !isVisible ==> section == None
      ensures isVisible ==> section == Some(SectionOf(BronzeData, visibleStatuses))
    {
      if !isVisible {
        return None;
      }
      var s := RenderLevelSection(BronzeData, visibleStatuses);
      section := Some(s);
    }
  }
}
