/**
 * The application shell: the canned query answers (`generateMockQueryResult`,
 * `generateMockGraphData` and the per-case generators), the choice of the
 * main view, and the five pieces of state the `App` handlers overwrite.
 *
 * The name-extraction regular expression of the default case is not
 * modelled: the default generators take the extracted name as a parameter.
 */
module App {
  import opened JsString
  import opened Wrappers

  // ---------------------------------------------------------------------
  // Query results

  datatype Finding = Finding(source: string, status: string, content: string)

  /** A query answer; an absent flag of the source reads as `false`. */
  datatype QueryResult = QueryResult(
    summary: string,
    findings: seq<Finding>,
    riskLevel: string,
    recommendation: string,
    isGovernmentQuery: bool,
    isLowCarbonRoute: bool,
    isEcoLabelQuery: bool)

  const CourtRecords := "法院判決書系統"
  const FinancialRegulator := "金融監理機關"
  const CompanyRegistry := "企業登記資料"
  const SanctionsList := "國際制裁名單"
  const NewsMedia := "新聞媒體報導"

  /** A person answer: findings, a risk level and a recommendation, and no flag. */
  function PersonResult(summary: string, findings: seq<Finding>, riskLevel: string, recommendation: string): QueryResult {
    QueryResult(summary, findings, riskLevel, recommendation, false, false, false)
  }

  const ZhangXiaoHuaSummary := "根據我們的資料庫搜尋，網紅" + "張小華" + "的金融詐欺風險評估如下："

  const ZhangXiaoHuaFindings := [
    Finding(CourtRecords, "found", "發現2件相關案件：詐欺罪判決1件（2023年），違反銀行法1件（2022年）"),
    Finding(FinancialRegulator, "found", "列入金融詐欺警示名單，有效期至2024年12月"),
    Finding(CompanyRegistry, "found", "與星光娛樂公司簽約，並擔任XYZ科技公司代言人"),
    Finding(SanctionsList, "clear", "未發現相關紀錄"),
    Finding(NewsMedia, "found", "發現5筆相關新聞報導，主要涉及網紅投資詐騙案")]

  function ZhangXiaoHuaResult(): QueryResult {
    PersonResult(ZhangXiaoHuaSummary, ZhangXiaoHuaFindings,
      "high", "建議謹慎評估，該網紅具有較高的金融詐欺風險，不建議投資相關商品。")
  }

  const AbcCompanySummary := "根據我們的資料庫搜尋，ABC投資公司負責人" + "陳世凱" + "的法律紀錄如下："

  const AbcCompanyFindings := [
    Finding(CourtRecords, "found", "發現2件相關案件：背信罪案件1件（2023年），違反公司法1件（2022年）"),
    Finding(FinancialRegulator, "found", "陳世凱列入投信業禁止往來名單"),
    Finding(CompanyRegistry, "found", "擔任ABC投資公司負責人，並為DEF建設公司股東"),
    Finding(SanctionsList, "clear", "未發現相關紀錄"),
    Finding(NewsMedia, "found", "發現3筆相關新聞報導，主要涉及公司治理問題")]

  function AbcCompanyResult(): QueryResult {
    PersonResult(AbcCompanySummary, AbcCompanyFindings,
      "high", "建議謹慎評估，該公司負責人具有公司治理風險，投資前應詳細了解。")
  }

  const WangLiRelationshipSummary := "根據我們的資料庫搜尋，" + "王小明" + "和" + "李大華" + "之間的商業往來分析如下："

  const WangLiRelationshipFindings := [
    Finding(CourtRecords, "found", "發現商業糾紛案件：合夥糾紛1件（2023年），投資糾紛1件（2022年）"),
    Finding(FinancialRegulator, "clear", "未發現金融違規紀錄"),
    Finding(CompanyRegistry, "found", "兩人為明華投資公司共同創辦人，另有其他企業投資關係"),
    Finding(SanctionsList, "clear", "未發現相關紀錄"),
    Finding(NewsMedia, "found", "發現2筆相關新聞報導，主要涉及合夥糾紛")]

  function WangLiRelationshipResult(): QueryResult {
    PersonResult(WangLiRelationshipSummary, WangLiRelationshipFindings,
      "medium", "兩人確實有商業往來關係，但存在合夥糾紛，建議了解糾紛詳情後再決定是否合作。")
  }

  const ChenXiaoWeiSummary := "根據我們的資料庫搜尋，" + "陳曉偉" + "先生在越南的詐欺相關紀錄如下："

  const ChenXiaoWeiFindings := [
    Finding(CourtRecords, "found", "發現跨國案件：越南詐欺案1件（2023年），跨國洗錢案1件（2022年）"),
    Finding(FinancialRegulator, "found", "列入跨境金融犯罪警示名單"),
    Finding(CompanyRegistry, "found", "擔任越南分公司負責人，並為國際貿易公司股東"),
    Finding(SanctionsList, "found", "列入越南當地金融犯罪監控名單"),
    Finding(NewsMedia, "found", "發現4筆相關新聞報導，主要涉及跨國詐欺案")]

  function ChenXiaoWeiResult(): QueryResult {
    PersonResult(ChenXiaoWeiSummary, ChenXiaoWeiFindings,
      "high", "陳曉偉先生確實在越南犯下詐欺相關罪行，具有極高風險，強烈建議避免任何商業往來。")
  }

  /** `generateDefaultResult(personName)`. */
  function DefaultResult(personName: string): QueryResult {
    PersonResult("根據我們的資料庫搜尋，" + personName + "的風險評估如下：", [
      Finding(CourtRecords, "found", "發現2件相關案件，包括詐欺罪判決1件，違反銀行法1件"),
      Finding(FinancialRegulator, "found", "列入金融詐欺警示名單，有效期至2024年12月"),
      Finding(CompanyRegistry, "found", "曾任3家公司負責人，其中2家已解散"),
      Finding(SanctionsList, "clear", "未發現相關紀錄"),
      Finding(NewsMedia, "found", "發現5筆相關新聞報導，主要涉及投資詐騙案")],
      "high", "建議謹慎評估，該個人具有較高的金融詐欺風險。")
  }

  const CountyStatisticsSummary :=
      "在台灣，針對旅宿業的「永續／綠色／低碳」措施，各縣市均有推動，不過從取得環保標章的旅宿來看，前三縣市在推動量與政務力度上比較突出：\n"
      + "\n"
      + "1. " + "臺北市 28間" + "\n"
      + "2. " + "桃園市 22間" + "\n"
      + "3. " + "高雄市 18間" + "\n"
      + "\n"
      + "如果你願意，我可以提供一個比完整各縣市較表格給你。你要不要？"

  function CountyStatisticsResult(): QueryResult {
    QueryResult(CountyStatisticsSummary,
      [], "low", "", true, false, false)
  }

  const LowCarbonRouteSummary :=
      "針對12月中從台中逢甲到高雄駁二藝術特區的行程，以下是低碳旅遊建議：\n"
      + "\n"
      + "📍 交通建議\n"
      + "1. 開車前往\n"
      + "2. 公共運輸\n"
      + "\n"
      + "🏨 住宿建議\n"
      + "這些是具有環保標章的旅店：\n"
      + "城市商旅高雄真愛館 高雄市鹽埕區大義街1號\n"
      + "城市商旅駁二館 高雄市鹽埕區公園二路83號1至11樓\n"
      + "福容大飯店 高雄 高雄市鹽埕區五福四路45號\n"
      + "翰品酒店 高雄 高雄市鹽埕區大仁路43號\n"
      + "\n"
      + "🎉 活動建議\n"
      + "這些是幾個不錯的行程推薦：\n"
      + "12/14 2025茄萣烏金大賞夕陽音樂會\n"
      + "12/19 ONEREPUBLIC 2025 LIVE IN KAOHSIUNG\n"
      + "12/21 2025蜜柑站長耶誕公益路跑\n"
      + "\n"
      + "是否需要整理成一張旅行計畫表格？"

  function LowCarbonRouteResult(): QueryResult {
    QueryResult(LowCarbonRouteSummary,
      [], "low", "", false, true, false)
  }

  const EcoLabelAssessmentSummary :=
      "恭喜你！目前只差7個項目就可以申請銅級環保標章。\n"
      + "\n"
      + "✅ 已符合的條件\n"
      + "(1)具有能源、水資源使用之年度統計資料，並自主管理。\n"
      + "(2)具有員工環境保護教育訓練計畫及執行實績\n"
      + "(3)設有餐廳者，餐廳不使用保育類食材。\n"
      + "(4)業者應建立綠色採購機制。\n"
      + "(5)每年進行空調（暖氣與冷氣）及通風、排氣系統之保養與調整。\n"
      + "(6)場所內不提供免洗餐具，包含塑膠及紙製材質之杯、碗、盤、碟、叉、匙及免洗筷等一次用餐具。\n"
      + "(7)廢棄電池及照明光源具有相關設施或程序之回收機制。\n"
      + "(8)環境衛生用藥及病媒防治等符合環保法規規定。\n"
      + "\n"
      + "⚠️ 需要確認／可能補強的項目\n"
      + "(1)室內無人區域設置自動調光控制或紅外線控制照明自動點燈等照明設備或確保室內無人區域維持燈具關閉之措施。\n"
      + "(2)每半年進行用水設備（含管線、蓄水池及冷卻水塔等）之保養與調整。\n"
      + "(3)客房採用告示卡或其他方式說明，讓房客能夠選擇每日或多日更換一次床單與毛巾。\n"
      + "(4)在浴廁或客房適當位置張貼（或擺放）節約水電宣導卡片。\n"
      + "(5)業者應建立綠色採購機制。\n"
      + "(6)每年至少有3項綠色產品採購\n"
      + "(7)具有相關措施向房客說明一次用產品對環境之衝擊\n"
      + "(8)具有廢棄物分類及資源回收機制。\n"
      + "\n"
      + "是否需要提供銀級、金級需要的條件？"

  function EcoLabelAssessmentResult(): QueryResult {
    QueryResult(EcoLabelAssessmentSummary,
      [], "low", "", false, false, true)
  }

  /**
   * `generateMockQueryResult(query)`: the branches are tried in order and the
   * first that matches answers.  `extracted` stands for
   * `extractPersonName(query)`, used only by the default answer.
   */
  function MockQueryResult(query: string, extracted: string): QueryResult {
    if Includes(query, "張小華") then ZhangXiaoHuaResult()
    else if Includes(query, "ABC投資公司") then AbcCompanyResult()
    else if Includes(query, "王小明") && Includes(query, "李大華") then WangLiRelationshipResult()
    else if Includes(query, "陳曉偉") then ChenXiaoWeiResult()
    else if Includes(query, "縣市") && Includes(query, "永續") then CountyStatisticsResult()
    else if Includes(query, "逢甲") && Includes(query, "駁二") then LowCarbonRouteResult()
    else if Includes(query, "環保標章") || Includes(query, "客房") then EcoLabelAssessmentResult()
    else DefaultResult(extracted)
  }

  /** The guard of the person branches, in the order `generateMockQueryResult` tries them. */
  predicate PersonQuery(query: string) {
    Includes(query, "張小華") || Includes(query, "ABC投資公司")
    || (Includes(query, "王小明") && Includes(query, "李大華")) || Includes(query, "陳曉偉")
  }

  predicate CountyQuery(query: string) {
    !PersonQuery(query) && Includes(query, "縣市") && Includes(query, "永續")
  }

  predicate RouteQuery(query: string) {
    !PersonQuery(query) && !CountyQuery(query) && Includes(query, "逢甲") && Includes(query, "駁二")
  }

  predicate EcoLabelQuery(query: string) {
    !PersonQuery(query) && !CountyQuery(query) && !RouteQuery(query)
    && (Includes(query, "環保標章") || Includes(query, "客房"))
  }

  /** The first match wins: a query naming 張小華 gets 張小華's answer whatever else it names. */
  lemma FirstMatchWins(query: string, extracted: string)
    requires Includes(query, "張小華")
    ensures MockQueryResult(query, extracted) == ZhangXiaoHuaResult()
  {
  }

  /** A person query is never answered with the county, route or eco-label answer. */
  lemma PersonBeforeTopics(query: string, extracted: string)
    requires Includes(query, "張小華") || Includes(query, "ABC投資公司")
    ensures var r := MockQueryResult(query, extracted);
            !r.isGovernmentQuery && !r.isLowCarbonRoute && !r.isEcoLabelQuery
  {
  }

  /** Each topic flag is set exactly when its branch is the first that matches. */
  lemma FlagsFollowBranches(query: string, extracted: string)
    ensures MockQueryResult(query, extracted).isGovernmentQuery <==> CountyQuery(query)
    ensures MockQueryResult(query, extracted).isLowCarbonRoute <==> RouteQuery(query)
    ensures MockQueryResult(query, extracted).isEcoLabelQuery <==> EcoLabelQuery(query)
  {
    if Includes(query, "張小華") {
    } else if Includes(query, "ABC投資公司") {
    } else if Includes(query, "王小明") && Includes(query, "李大華") {
    } else if Includes(query, "陳曉偉") {
    } else if Includes(query, "縣市") && Includes(query, "永續") {
    } else if Includes(query, "逢甲") && Includes(query, "駁二") {
    } else if Includes(query, "環保標章") || Includes(query, "客房") {
    } else {
    }
  }

  /** At most one topic flag is set. */
  lemma FlagsExclusive(query: string, extracted: string)
    ensures var r := MockQueryResult(query, extracted);
            (r.isGovernmentQuery ==> !r.isLowCarbonRoute && !r.isEcoLabelQuery)
            && (r.isLowCarbonRoute ==> !r.isEcoLabelQuery)
  {
    FlagsFollowBranches(query, extracted);
  }

  /** A topic answer carries no findings, a low risk and no recommendation. */
  lemma TopicAnswersBare(query: string, extracted: string)
    ensures var r := MockQueryResult(query, extracted);
            (r.isGovernmentQuery || r.isLowCarbonRoute || r.isEcoLabelQuery)
            ==> r.findings == [] && r.riskLevel == "low" && r.recommendation == ""
  {
    if Includes(query, "張小華") {
    } else if Includes(query, "ABC投資公司") {
    } else if Includes(query, "王小明") && Includes(query, "李大華") {
    } else if Includes(query, "陳曉偉") {
    } else if Includes(query, "縣市") && Includes(query, "永續") {
    } else if Includes(query, "逢甲") && Includes(query, "駁二") {
    } else if Includes(query, "環保標章") || Includes(query, "客房") {
    } else {
    }
  }

  /**
   * An answer without a flag is a person answer: five findings, one per
   * source in a fixed order, and a high or medium risk.
   */
  lemma PersonAnswersComplete(query: string, extracted: string)
    ensures var r := MockQueryResult(query, extracted);
            !(r.isGovernmentQuery || r.isLowCarbonRoute || r.isEcoLabelQuery) ==>
              |r.findings| == 5 && r.findings[0].source == CourtRecords
              && r.findings[1].source == FinancialRegulator && r.findings[2].source == CompanyRegistry
              && r.findings[3].source == SanctionsList && r.findings[4].source == NewsMedia
              && (r.riskLevel == "high" || r.riskLevel == "medium")
  {
    if Includes(query, "張小華") {
    } else if Includes(query, "ABC投資公司") {
    } else if Includes(query, "王小明") && Includes(query, "李大華") {
    } else if Includes(query, "陳曉偉") {
    } else {
      FlagsFollowBranches(query, extracted);
    }
  }

  // ---------------------------------------------------------------------
  // Graph data

  datatype Node = Node(id: string, group: string, size: int, color: string)
  datatype Link = Link(source: string, target: string, relationship: string)
  datatype Graph = Graph(nodes: seq<Node>, links: seq<Link>)

  const PersonColor := "#A95565"
  const CaseColor := "#4E8677"
  const CrimeColor := "#B1F7FC"
  const RelativeColor := "#8271B0"
  const CompanyColor := "#BB870C"

  const ZhangXiaoHuaNodes := [
      Node("張小華", "person", 20, PersonColor),
      Node("詐欺案件_2023", "case", 15, CaseColor),
      Node("違反銀行法_2022", "case", 15, CaseColor),
      Node("詐欺罪", "crime", 12, CrimeColor),
      Node("違反銀行法", "crime", 12, CrimeColor),
      Node("沈志豪", "family", 14, RelativeColor),
      Node("林麗雯", "family", 14, RelativeColor),
      Node("謝美麗", "associate", 13, RelativeColor),
      Node("星光娛樂公司", "company", 16, CompanyColor),
      Node("XYZ科技公司", "company", 16, CompanyColor)
    ]

  const ZhangXiaoHuaLinks := [
      Link("張小華", "詐欺案件_2023", "涉嫌"),
      Link("張小華", "違反銀行法_2022", "涉嫌"),
      Link("詐欺案件_2023", "詐欺罪", "判決"),
      Link("違反銀行法_2022", "違反銀行法", "判決"),
      Link("張小華", "沈志豪", "親屬"),
      Link("張小華", "林麗雯", "配偶"),
      Link("張小華", "謝美麗", "共犯"),
      Link("張小華", "星光娛樂公司", "簽約網紅"),
      Link("張小華", "XYZ科技公司", "代言人"),
      Link("詐欺案件_2023", "星光娛樂公司", "涉及")
    ]

  function ZhangXiaoHuaData(): Graph {
    Graph(ZhangXiaoHuaNodes, ZhangXiaoHuaLinks)
  }

  const AbcCompanyNodes := [
      Node("陳世凱", "person", 20, PersonColor),
      Node("背信案件_2023", "case", 15, CaseColor),
      Node("公司法違反_2022", "case", 15, CaseColor),
      Node("背信罪", "crime", 12, CrimeColor),
      Node("違反公司法", "crime", 12, CrimeColor),
      Node("陳美玲", "family", 14, RelativeColor),
      Node("劉志明", "associate", 13, RelativeColor),
      Node("王大同", "associate", 13, RelativeColor),
      Node("ABC投資公司", "company", 18, CompanyColor),
      Node("DEF建設公司", "company", 16, CompanyColor)
    ]

  const AbcCompanyLinks := [
      Link("陳世凱", "背信案件_2023", "涉嫌"),
      Link("陳世凱", "公司法違反_2022", "涉嫌"),
      Link("背信案件_2023", "背信罪", "判決"),
      Link("公司法違反_2022", "違反公司法", "判決"),
      Link("陳世凱", "陳美玲", "配偶"),
      Link("陳世凱", "劉志明", "商業夥伴"),
      Link("陳世凱", "王大同", "共同投資人"),
      Link("陳世凱", "ABC投資公司", "負責人"),
      Link("陳世凱", "DEF建設公司", "股東"),
      Link("ABC投資公司", "背信案件_2023", "涉及")
    ]

  function AbcCompanyData(): Graph {
    Graph(AbcCompanyNodes, AbcCompanyLinks)
  }

  const WangLiRelationshipNodes := [
      Node("王小明", "person", 20, PersonColor),
      Node("李大華", "person", 20, PersonColor),
      Node("合夥糾紛_2023", "case", 15, CaseColor),
      Node("投資糾紛_2022", "case", 15, CaseColor),
      Node("合約糾紛", "crime", 12, CrimeColor),
      Node("投資詐欺", "crime", 12, CrimeColor),
      Node("張雅芳", "associate", 13, RelativeColor),
      Node("林建國", "associate", 13, RelativeColor),
      Node("明華投資公司", "company", 18, CompanyColor),
      Node("大明科技公司", "company", 16, CompanyColor),
      Node("華昇貿易公司", "company", 16, CompanyColor)
    ]

  const WangLiRelationshipLinks := [
      Link("王小明", "李大華", "商業夥伴"),
      Link("王小明", "合夥糾紛_2023", "涉嫌"),
      Link("李大華", "投資糾紛_2022", "涉嫌"),
      Link("合夥糾紛_2023", "合約糾紛", "案由"),
      Link("投資糾紛_2022", "投資詐欺", "案由"),
      Link("王小明", "張雅芳", "證人"),
      Link("李大華", "林建國", "證人"),
      Link("王小明", "明華投資公司", "共同創辦人"),
      Link("李大華", "明華投資公司", "共同創辦人"),
      Link("王小明", "大明科技公司", "董事"),
      Link("李大華", "華昇貿易公司", "股東"),
      Link("明華投資公司", "合夥糾紛_2023", "涉及")
    ]

  function WangLiRelationshipData(): Graph {
    Graph(WangLiRelationshipNodes, WangLiRelationshipLinks)
  }

  const ChenXiaoWeiNodes := [
      Node("陳曉偉", "person", 20, PersonColor),
      Node("越南詐欺案_2023", "case", 15, CaseColor),
      Node("跨國洗錢案_2022", "case", 15, CaseColor),
      Node("詐欺罪", "crime", 12, CrimeColor),
      Node("洗錢罪", "crime", 12, CrimeColor),
      Node("陳麗華", "family", 14, RelativeColor),
      Node("黃志成", "associate", 13, RelativeColor),
      Node("Nguyen Van A", "associate", 13, RelativeColor),
      Node("越南分公司", "company", 16, CompanyColor),
      Node("國際貿易公司", "company", 16, CompanyColor)
    ]

  const ChenXiaoWeiLinks := [
      Link("陳曉偉", "越南詐欺案_2023", "涉嫌"),
      Link("陳曉偉", "跨國洗錢案_2022", "涉嫌"),
      Link("越南詐欺案_2023", "詐欺罪", "判決"),
      Link("跨國洗錢案_2022", "洗錢罪", "判決"),
      Link("陳曉偉", "陳麗華", "配偶"),
      Link("陳曉偉", "黃志成", "共犯"),
      Link("陳曉偉", "Nguyen Van A", "當地共犯"),
      Link("陳曉偉", "越南分公司", "負責人"),
      Link("陳曉偉", "國際貿易公司", "股東"),
      Link("越南詐欺案_2023", "越南分公司", "涉及")
    ]

  function ChenXiaoWeiData(): Graph {
    Graph(ChenXiaoWeiNodes, ChenXiaoWeiLinks)
  }

  /** `generateDefaultData(personName)`: the default graph, centred on the extracted name. */
  function DefaultData(personName: string): Graph {
    Graph([
      Node(personName, "person", 20, PersonColor),
      Node("詐欺案件_2023", "case", 15, CaseColor),
      Node("違反銀行法_2022", "case", 15, CaseColor),
      Node("詐欺罪", "crime", 12, CrimeColor),
      Node("違反銀行法", "crime", 12, CrimeColor),
      Node("沈志豪", "family", 14, RelativeColor),
      Node("林麗雯", "family", 14, RelativeColor),
      Node("謝美麗", "associate", 13, RelativeColor),
      Node("ABC投資公司", "company", 16, CompanyColor),
      Node("XYZ科技公司", "company", 16, CompanyColor)
    ], [
      Link(personName, "詐欺案件_2023", "涉嫌"),
      Link(personName, "違反銀行法_2022", "涉嫌"),
      Link("詐欺案件_2023", "詐欺罪", "判決"),
      Link("違反銀行法_2022", "違反銀行法", "判決"),
      Link(personName, "沈志豪", "親屬"),
      Link(personName, "林麗雯", "配偶"),
      Link(personName, "謝美麗", "共犯"),
      Link(personName, "ABC投資公司", "負責人"),
      Link(personName, "XYZ科技公司", "前負責人"),
      Link("詐欺案件_2023", "ABC投資公司", "涉及")
    ])
  }

  /** `generateMockGraphData(query)`: the four person branches in the same order, else the default. */
  function MockGraphData(query: string, extracted: string): Graph {
    if Includes(query, "張小華") then ZhangXiaoHuaData()
    else if Includes(query, "ABC投資公司") then AbcCompanyData()
    else if Includes(query, "王小明") && Includes(query, "李大華") then WangLiRelationshipData()
    else if Includes(query, "陳曉偉") then ChenXiaoWeiData()
    else DefaultData(extracted)
  }

  /** Some node of `g` has id `id`. */
  predicate HasNode(g: Graph, id: string) {
    exists a :: 0 <= a < |g.nodes| && g.nodes[a].id == id
  }

  /** Every link of the graph joins two of its nodes (d3 refuses a link to an unknown id). */
  predicate LinksJoinNodes(g: Graph) {
    forall k :: 0 <= k < |g.links| ==> HasNode(g, g.links[k].source) && HasNode(g, g.links[k].target)
  }

  /** Tables giving, link by link, the index of its source node and of its target node. */
  lemma {:induction false} LinksJoinByIndex(g: Graph, src: seq<nat>, tgt: seq<nat>)
    requires |src| == |g.links| && |tgt| == |g.links|
    requires forall k :: 0 <= k < |g.links| ==> src[k] < |g.nodes| && g.nodes[src[k]].id == g.links[k].source
    requires forall k :: 0 <= k < |g.links| ==> tgt[k] < |g.nodes| && g.nodes[tgt[k]].id == g.links[k].target
    ensures LinksJoinNodes(g)
  {
    forall k | 0 <= k < |g.links|
      ensures HasNode(g, g.links[k].source) && HasNode(g, g.links[k].target)
    {
      var a, b := src[k], tgt[k];
      assert g.nodes[a].id == g.links[k].source;
      assert g.nodes[b].id == g.links[k].target;
    }
  }

  lemma ZhangXiaoHuaLinksJoin()
    ensures LinksJoinNodes(ZhangXiaoHuaData())
  {
    LinksJoinByIndex(ZhangXiaoHuaData(), [0, 0, 1, 2, 0, 0, 0, 0, 0, 1], [1, 2, 3, 4, 5, 6, 7, 8, 9, 8]);
  }

  lemma AbcCompanyLinksJoin()
    ensures LinksJoinNodes(AbcCompanyData())
  {
    LinksJoinByIndex(AbcCompanyData(), [0, 0, 1, 2, 0, 0, 0, 0, 0, 8], [1, 2, 3, 4, 5, 6, 7, 8, 9, 1]);
  }

  lemma WangLiRelationshipLinksJoin()
    ensures LinksJoinNodes(WangLiRelationshipData())
  {
    LinksJoinByIndex(WangLiRelationshipData(),
      [0, 0, 1, 2, 3, 0, 1, 0, 1, 0, 1, 8], [1, 2, 3, 4, 5, 6, 7, 8, 8, 9, 10, 2]);
  }

  lemma ChenXiaoWeiLinksJoin()
    ensures LinksJoinNodes(ChenXiaoWeiData())
  {
    LinksJoinByIndex(ChenXiaoWeiData(), [0, 0, 1, 2, 0, 0, 0, 0, 0, 1], [1, 2, 3, 4, 5, 6, 7, 8, 9, 8]);
  }

  lemma DefaultLinksJoin(personName: string)
    ensures LinksJoinNodes(DefaultData(personName))
  {
    LinksJoinByIndex(DefaultData(personName), [0, 0, 1, 2, 0, 0, 0, 0, 0, 1], [1, 2, 3, 4, 5, 6, 7, 8, 9, 8]);
  }

  /** In every generated graph each link's ends are node ids, whatever the extracted name. */
  lemma GeneratedLinksJoinNodes(query: string, extracted: string)
    ensures LinksJoinNodes(MockGraphData(query, extracted))
  {
    if Includes(query, "張小華") {
      ZhangXiaoHuaLinksJoin();
    } else if Includes(query, "ABC投資公司") {
      AbcCompanyLinksJoin();
    } else if Includes(query, "王小明") && Includes(query, "李大華") {
      WangLiRelationshipLinksJoin();
    } else if Includes(query, "陳曉偉") {
      ChenXiaoWeiLinksJoin();
    } else {
      DefaultLinksJoin(extracted);
    }
  }

  /** Every person node of the graph is named in the answer's summary. */
  predicate PersonsNamed(r: QueryResult, g: Graph) {
    forall a :: 0 <= a < |g.nodes| && g.nodes[a].group == "person" ==> Includes(r.summary, g.nodes[a].id)
  }

  lemma ZhangXiaoHuaNamed()
    ensures PersonsNamed(ZhangXiaoHuaResult(), ZhangXiaoHuaData())
  {
    IncludesParts("根據我們的資料庫搜尋，網紅", "張小華", "的金融詐欺風險評估如下：");
  }

  lemma AbcCompanyNamed()
    ensures PersonsNamed(AbcCompanyResult(), AbcCompanyData())
  {
    IncludesParts("根據我們的資料庫搜尋，ABC投資公司負責人", "陳世凱", "的法律紀錄如下：");
  }

  lemma WangLiRelationshipNamed()
    ensures PersonsNamed(WangLiRelationshipResult(), WangLiRelationshipData())
  {
    IncludesParts("根據我們的資料庫搜尋，", "王小明", "和");
    IncludesExtend("根據我們的資料庫搜尋，" + "王小明" + "和", "王小明", "李大華");
    IncludesExtend("根據我們的資料庫搜尋，" + "王小明" + "和" + "李大華", "王小明", "之間的商業往來分析如下：");
    IncludesParts("根據我們的資料庫搜尋，" + "王小明" + "和", "李大華", "之間的商業往來分析如下：");
  }

  lemma ChenXiaoWeiNamed()
    ensures PersonsNamed(ChenXiaoWeiResult(), ChenXiaoWeiData())
  {
    IncludesParts("根據我們的資料庫搜尋，", "陳曉偉", "先生在越南的詐欺相關紀錄如下：");
  }

  lemma DefaultNamed(personName: string)
    ensures PersonsNamed(DefaultResult(personName), DefaultData(personName))
  {
    IncludesParts("根據我們的資料庫搜尋，", personName, "的風險評估如下：");
  }

  /**
   * The answer and the graph come from the same case: for every answer
   * about a person (no topic flag), the people at the centre of the graph are
   * the ones the summary names.  A topic answer is drawn without the map.
   */
  lemma GraphFollowsResult(query: string, extracted: string)
    ensures var r := MockQueryResult(query, extracted);
            !(r.isGovernmentQuery || r.isLowCarbonRoute || r.isEcoLabelQuery)
            ==> PersonsNamed(r, MockGraphData(query, extracted))
  {
    if Includes(query, "張小華") {
      ZhangXiaoHuaNamed();
    } else if Includes(query, "ABC投資公司") {
      AbcCompanyNamed();
    } else if Includes(query, "王小明") && Includes(query, "李大華") {
      WangLiRelationshipNamed();
    } else if Includes(query, "陳曉偉") {
      ChenXiaoWeiNamed();
    } else {
      FlagsFollowBranches(query, extracted);
      DefaultNamed(extracted);
    }
  }

  // ---------------------------------------------------------------------
  // The main view and the App state

  datatype View = EcoLabelView | TransportView | GraphView

  /** Lines 99-105: the eco-label chart, else the route choice, else the map. */
  function ViewOf(result: Option<QueryResult>): View {
    if result.Some? && result.value.isEcoLabelQuery then EcoLabelView
    else if result.Some? && result.value.isLowCarbonRoute then TransportView
    else GraphView
  }

  /** What the content area shows. */
  datatype Screen = QueryForm | Results(view: View, mapVisible: bool, panelShown: bool)

  /** The view an answered query leads to follows the branch that answered it. */
  lemma ViewOfQuery(query: string, extracted: string)
    ensures ViewOf(Some(MockQueryResult(query, extracted))) == EcoLabelView <==> EcoLabelQuery(query)
    ensures ViewOf(Some(MockQueryResult(query, extracted))) == TransportView <==> RouteQuery(query)
    ensures ViewOf(Some(MockQueryResult(query, extracted))) == GraphView
            <==> !EcoLabelQuery(query) && !RouteQuery(query)
  {
    FlagsFollowBranches(query, extracted);
  }

  class AppState {
    var currentQuery: string
    var queryResult: Option<QueryResult>
    var graphData: Option<Graph>
    var showQueryInterface: bool
    var isMapVisible: bool

    constructor ()
      ensures currentQuery == "" && queryResult == None && graphData == None
      ensures showQueryInterface && !isMapVisible
    {
      currentQuery := "";
      queryResult := None;
      graphData := None;
      showQueryInterface := true;
      isMapVisible := false;
    }

    function CurrentScreen(): Screen
      reads this
    {
      if showQueryInterface then QueryForm
      else Results(ViewOf(queryResult), isMapVisible, queryResult.Some?)
    }

    /** `handleQuery(query)`, up to the delayed answer: hide the form and the map. */
    method HandleQuery(query: string)
      modifies this
      ensures currentQuery == query && !showQueryInterface && !isMapVisible
      ensures queryResult == old(queryResult) && graphData == old(graphData)
      ensures CurrentScreen() == Results(ViewOf(old(queryResult)), false, old(queryResult).Some?)
    {
      currentQuery := query;
      showQueryInterface := false;
      isMapVisible := false;
    }

    /** The delayed part of `handleQuery(query)`: store the answer and the graph for `query`. */
    method AnswerArrives(query: string, extracted: string)
      modifies this
      ensures queryResult == Some(MockQueryResult(query, extracted))
      ensures graphData == Some(MockGraphData(query, extracted))
      ensures currentQuery == old(currentQuery) && showQueryInterface == old(showQueryInterface)
      ensures isMapVisible == old(isMapVisible)
      ensures !showQueryInterface ==>
                CurrentScreen() == Results(ViewOf(Some(MockQueryResult(query, extracted))), isMapVisible, true)
    {
      var mockResult := MockQueryResult(query, extracted);
      var mockGraphData := MockGraphData(query, extracted);
      queryResult := Some(mockResult);
      graphData := Some(mockGraphData);
    }

    /** `handleNewQuery()`: back to an empty form. */
    method HandleNewQuery()
      modifies this
      ensures showQueryInterface && currentQuery == "" && queryResult == None && graphData == None
      ensures !isMapVisible
      ensures CurrentScreen() == QueryForm
    {
      showQueryInterface := true;
      currentQuery := "";
      queryResult := None;
      graphData := None;
      isMapVisible := false;
    }

    /** `handleTypingComplete()`: only the map becomes visible. */
    method HandleTypingComplete()
      modifies this
      ensures isMapVisible
      ensures currentQuery == old(currentQuery) && queryResult == old(queryResult)
      ensures graphData == old(graphData) && showQueryInterface == old(showQueryInterface)
      ensures CurrentScreen().Results? ==> CurrentScreen().mapVisible
    {
      isMapVisible := true;
    }
  }
}
