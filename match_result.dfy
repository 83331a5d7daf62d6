/** The match-result screen: three swipeable pages drawn from an immutable `MatchingInfo`.
    Everything here is a pure function of the page index and the match; layout, colours,
    fonts and the pager's own state are not modelled. */
module MatchResult {
  import opened Domain
  import Decimal

  /** The five synergy images; percent1 stands for the most similar pair. */
  datatype ImageResource = Percent1 | Percent2 | Percent3 | Percent4 | Percent5

  /** The number in the image's name. */
  function BucketNumber(r: ImageResource): (k: nat)
    ensures 1 <= k <= 5
  {
    match r
    case Percent1 => 1
    case Percent2 => 2
    case Percent3 => 3
    case Percent4 => 4
    case Percent5 => 5
  }

  /** `findSynergyImageResource(from:)`: the cases are tried in order and anything outside
      0...100 falls to the default, percent3. */
  function FindSynergyImageResource(percentage: int): (r: ImageResource)
    ensures 0 <= percentage <= 100 ==> InBucket(percentage, r)
    ensures !(0 <= percentage <= 100) ==> r == Percent3
  {
    if 0 <= percentage <= 20 then Percent5
    else if 21 <= percentage <= 40 then Percent4
    else if 41 <= percentage <= 60 then Percent3
    else if 61 <= percentage <= 80 then Percent2
    else if 81 <= percentage <= 100 then Percent1
    else Percent3
  }

  /** The closed range of similarities each image is drawn for. */
  function LowerBound(r: ImageResource): int
  {
    match r
    case Percent5 => 0
    case Percent4 => 21
    case Percent3 => 41
    case Percent2 => 61
    case Percent1 => 81
  }

  function UpperBound(r: ImageResource): (hi: int)
    ensures LowerBound(r) < hi
  {
    match r
    case Percent5 => 20
    case Percent4 => 40
    case Percent3 => 60
    case Percent2 => 80
    case Percent1 => 100
  }

  predicate InBucket(percentage: int, r: ImageResource)
  {
    LowerBound(r) <= percentage <= UpperBound(r)
  }

  /** The five ranges cover 0..100 and do not overlap: an in-range similarity lies in
      exactly one of them, the one whose image is chosen. */
  lemma BucketsPartition(percentage: int)
    requires 0 <= percentage <= 100
    ensures InBucket(percentage, FindSynergyImageResource(percentage))
    ensures forall r :: InBucket(percentage, r) <==> r == FindSynergyImageResource(percentage)
  {
  }

  /** The deliberate fallback: out-of-range similarities get percent3. */
  lemma OutOfRangeFallsBack(percentage: int)
    requires percentage < 0 || 100 < percentage
    ensures FindSynergyImageResource(percentage) == Percent3
    ensures forall r :: !InBucket(percentage, r)
  {
  }

  /** Within 0..100 a higher similarity never picks a higher-numbered image. */
  lemma BucketMonotone(p: int, q: int)
    requires 0 <= p <= q <= 100
    ensures BucketNumber(FindSynergyImageResource(q)) <= BucketNumber(FindSynergyImageResource(p))
  {
  }

  /** An independent description of the mapping: after 0, each image covers a band of
      twenty consecutive points, counted down from percent5. */
  lemma BucketIsTwentyPointBand(percentage: int)
    requires 0 <= percentage <= 100
    ensures BucketNumber(FindSynergyImageResource(percentage))
            == if percentage == 0 then 5 else 5 - (percentage - 1) / 20
  {
  }

  /** Sample values at the band edges and outside the range. */
  lemma BucketSamples()
    ensures FindSynergyImageResource(0) == Percent5 && FindSynergyImageResource(20) == Percent5
    ensures FindSynergyImageResource(21) == Percent4 && FindSynergyImageResource(60) == Percent3
    ensures FindSynergyImageResource(81) == Percent1 && FindSynergyImageResource(100) == Percent1
    ensures FindSynergyImageResource(-5) == Percent3 && FindSynergyImageResource(150) == Percent3
  {
  }

  /** The pager's data is `0..<3`. */
  const PageCount: nat := 3

  /** The panel drawn on a page. */
  datatype Panel = SynergyPanel | RecommendationPanel | ProfilePanel | EmptyPanel

  /** `resultView(_:)`: a fixed dispatch on the page index. */
  function ResultView(pageIndex: int): (p: Panel)
    ensures p == EmptyPanel <==> !(0 <= pageIndex < PageCount)
  {
    match pageIndex
    case 0 => SynergyPanel
    case 1 => RecommendationPanel
    case 2 => ProfilePanel
    case _ => EmptyPanel
  }

  /** Every index the pager produces shows a different, non-empty panel, and each of the
      three panels is reached from one of them. */
  lemma PagerShowsEachPanelOnce()
    ensures forall i :: 0 <= i < PageCount ==> ResultView(i) != EmptyPanel
    ensures forall i, j :: 0 <= i < PageCount && 0 <= j < PageCount && ResultView(i) == ResultView(j) ==> i == j
    ensures (set i | 0 <= i < PageCount :: ResultView(i)) == {SynergyPanel, RecommendationPanel, ProfilePanel}
  {
    var shown := set i | 0 <= i < PageCount :: ResultView(i);
    assert ResultView(0) in shown && ResultView(1) in shown && ResultView(2) in shown;
  }

  /** The two texts of `pageIndexLabel(_:)`: the 1-based page number and the total. */
  datatype PageLabel = PageLabel(number: string, total: string)

  /** `pageIndexLabel(_:)`: the page number is one more than the index, and the total
      after the slash is the pager's page count. */
  function PageIndexLabel(index: int): (l: PageLabel)
    ensures l.number == Decimal.IntText(index + 1) && Decimal.ParseInt(l.number) == index + 1
    ensures l.total == "/" + Decimal.IntText(PageCount)
  {
    Decimal.IntTextRoundTrip(index + 1);
    PageLabel(Decimal.IntText(index + 1), "/3")
  }

  /** On every page the pager shows, the label is a single digit 1..3 followed by "/3". */
  lemma PagerLabels(index: int)
    requires 0 <= index < PageCount
    ensures PageIndexLabel(index).number == [Decimal.DigitChar(index + 1)]
    ensures 1 <= Decimal.ParseInt(PageIndexLabel(index).number) <= PageCount
    ensures PageIndexLabel(index).total == "/3"
  {
    Decimal.SingleDigitText(index + 1);
    Decimal.SingleDigitText(PageCount);
  }

  /** `recommendationList`: the conversation prompts, the same for every match. */
  const RecommendationList: seq<string> := [
    "어느 팀이세요?",
    "팀에서 어떤 서비스를 만드나요?",
    "서로의 첫인상은?",
    "가장 인상 깊었던 여행지는?",
    "취미를 소개해주세요!"
  ]

  /** The list has five prompts and, since SwiftUI identifies each row by its text, no
      two of them are equal. */
  lemma RecommendationListShape()
    ensures |RecommendationList| == 5
    ensures forall i, j :: 0 <= i < j < |RecommendationList| ==> RecommendationList[i] != RecommendationList[j]
  {
  }

  /** The attribute categories of the profile page: 직군, 동아리, MBTI, 혈액형, 지하철. */
  datatype ChipCategory = Job | Club | Mbti | BloodType | Subway

  /** The order the profile page lists its chip rows in. */
  const ChipOrder: seq<ChipCategory> := [Job, Club, Mbti, BloodType, Subway]

  /** One `ProfileChipRow(category, profile)`. */
  datatype ChipRow = ChipRow(category: ChipCategory, profile: Profile)

  /** What a page shows, with the layout stripped away. */
  datatype PageContent =
    | SynergyContent(similarityText: string, image: ImageResource, synergyInfos: seq<SynergyInfo>)
    | RecommendationContent(topics: seq<string>)
    | ProfileContent(nickname: string, rows: seq<ChipRow>)
    | EmptyContent

  /** `synergyView`: "<similarity>%", the image for the similarity and every synergy fact
      in the match's order. */
  function SynergyView(info: MatchingInfo): (c: PageContent)
    ensures c.SynergyContent?
    ensures c.similarityText == Decimal.IntText(info.similarity) + "%"
    ensures |c.similarityText| >= 2 && c.similarityText[|c.similarityText| - 1] == '%'
    ensures Decimal.ParseInt(c.similarityText[..|c.similarityText| - 1]) == info.similarity
    ensures c.image == FindSynergyImageResource(info.similarity)
    ensures c.synergyInfos == info.synergyInfos
  {
    var text := Decimal.IntText(info.similarity);
    Decimal.IntTextRoundTrip(info.similarity);
    assert (text + "%")[..|text|] == text;
    SynergyContent(text + "%", FindSynergyImageResource(info.similarity), info.synergyInfos)
  }

  /** `recommendationView`: the fixed prompt list; it does not depend on the match. */
  function RecommendationView(): (c: PageContent)
    ensures c.RecommendationContent? && |c.topics| == 5
  {
    RecommendationContent(RecommendationList)
  }

  /** `profileView`: the matched user's nickname, then one chip row per category, in
      `ChipOrder`, each drawn from the matched profile. */
  function ProfileView(info: MatchingInfo): (c: PageContent)
    ensures c.ProfileContent? && c.nickname == info.profile.userNickname
    ensures |c.rows| == |ChipOrder|
    ensures forall i :: 0 <= i < |c.rows| ==> c.rows[i] == ChipRow(ChipOrder[i], info.profile)
  {
    var p := info.profile;
    ProfileContent(p.userNickname,
      [ChipRow(Job, p), ChipRow(Club, p), ChipRow(Mbti, p), ChipRow(BloodType, p), ChipRow(Subway, p)])
  }

  /** The chip order names each of the five categories exactly once. */
  lemma ChipOrderIsPermutation()
    ensures |ChipOrder| == 5
    ensures forall c: ChipCategory :: c in ChipOrder
    ensures forall i, j :: 0 <= i < j < |ChipOrder| ==> ChipOrder[i] != ChipOrder[j]
  {
    forall c: ChipCategory ensures c in ChipOrder {
      match c
      case Job => assert ChipOrder[0] == c;
      case Club => assert ChipOrder[1] == c;
      case Mbti => assert ChipOrder[2] == c;
      case BloodType => assert ChipOrder[3] == c;
      case Subway => assert ChipOrder[4] == c;
    }
  }

  /** The content of page `pageIndex` of the result for `info`. */
  function PageContentOf(info: MatchingInfo, pageIndex: int): (c: PageContent)
    ensures c.EmptyContent? <==> ResultView(pageIndex) == EmptyPanel
    ensures c.SynergyContent? <==> pageIndex == 0
    ensures pageIndex == 0 ==> c == SynergyView(info)
    ensures pageIndex == 1 ==> c == RecommendationView()
    ensures pageIndex == 2 ==> c == ProfileView(info)
  {
    match ResultView(pageIndex)
    case SynergyPanel => SynergyView(info)
    case RecommendationPanel => RecommendationView()
    case ProfilePanel => ProfileView(info)
    case EmptyPanel => EmptyContent
  }

  /** The recommendation page is the same for every match. */
  lemma RecommendationPageIgnoresMatch(a: MatchingInfo, b: MatchingInfo)
    ensures PageContentOf(a, 1) == PageContentOf(b, 1) == RecommendationContent(RecommendationList)
  {
  }

  /** Each page depends on the match only through what it shows: the synergy page on the
      similarity and the synergy facts, the profile page on the matched profile. */
  lemma PagesDependOnlyOnShownFields(a: MatchingInfo, b: MatchingInfo)
    ensures a.similarity == b.similarity && a.synergyInfos == b.synergyInfos ==>
              PageContentOf(a, 0) == PageContentOf(b, 0)
    ensures a.profile == b.profile ==> PageContentOf(a, 2) == PageContentOf(b, 2)
  {
  }
}
