/** The fixed table of 25 consulting categories used by the single-label classifier. */
module ConsultingCategories {

  /** The category names, in the order the classifier searches them. */
  const CATEGORIES: seq<string> := [
    "도난/분실 신청/해제",
    "이용내역 안내",
    "승인취소/매출취소 안내",
    "한도상향 접수/처리",
    "선결제/즉시출금",
    "한도 안내",
    "가상계좌 안내",
    "결제계좌 안내/변경",
    "서비스 이용방법 안내",
    "결제대금 안내",
    "연체대금 즉시출금",
    "포인트/마일리지 전환등록",
    "증명서/확인서 발급",
    "가상계좌 예약/취소",
    "단기카드대출 안내/실행",
    "장기카드대출 안내",
    "정부지원 바우처 (등유, 임신 등)",
    "이벤트 안내",
    "심사 진행사항 안내",
    "도시가스",
    "일부결제 대금이월약정 안내",
    "일부결제대금이월약정 해지",
    "결제일 안내/변경",
    "약관 안내",
    "상품 안내"
  ]

  /** The category the classifier falls back to. */
  const DEFAULT_CATEGORY: string := "이용내역 안내"

  /** List.contains: a front-to-back search with equals. */
  function ListContains(xs: seq<string>, x: string): (b: bool)
    ensures b <==> x in xs
  {
    if |xs| == 0 then false else xs[0] == x || ListContains(xs[1..], x)
  }

  /** CATEGORY_COUNT. */
  function CategoryCount(): (n: nat)
    ensures n == |CATEGORIES| && n == 25
  {
    |CATEGORIES|
  }

  /** isValidCategory: the name is exactly one of the table's entries. */
  function IsValidCategory(category: string): (b: bool)
    ensures b <==> exists i :: 0 <= i < |CATEGORIES| && CATEGORIES[i] == category
  {
    ListContains(CATEGORIES, category)
  }

  /** getAllCategories: an unmodifiable copy of the table. */
  function GetAllCategories(): (r: seq<string>)
    ensures |r| == CategoryCount()
    ensures forall i :: 0 <= i < |r| ==> r[i] == CATEGORIES[i]
  {
    CATEGORIES
  }

  /** The position of a table name, told apart by its length and first character; -1
      when no entry has both. */
  function Slot(s: string): int {
    if |s| == 0 then -1
    else if |s| == 11 && s[0] == '도' then 0
    else if |s| == 7 && s[0] == '이' then 1
    else if |s| == 12 && s[0] == '승' then 2
    else if |s| == 10 && s[0] == '한' then 3
    else if |s| == 8 && s[0] == '선' then 4
    else if |s| == 5 && s[0] == '한' then 5
    else if |s| == 7 && s[0] == '가' then 6
    else if |s| == 10 && s[0] == '결' then 7
    else if |s| == 11 && s[0] == '서' then 8
    else if |s| == 7 && s[0] == '결' then 9
    else if |s| == 9 && s[0] == '연' then 10
    else if |s| == 13 && s[0] == '포' then 11
    else if |s| == 10 && s[0] == '증' then 12
    else if |s| == 10 && s[0] == '가' then 13
    else if |s| == 12 && s[0] == '단' then 14
    else if |s| == 9 && s[0] == '장' then 15
    else if |s| == 19 && s[0] == '정' then 16
    else if |s| == 6 && s[0] == '이' then 17
    else if |s| == 10 && s[0] == '심' then 18
    else if |s| == 4 && s[0] == '도' then 19
    else if |s| == 14 && s[0] == '일' then 20
    else if |s| == 13 && s[0] == '일' then 21
    else if |s| == 9 && s[0] == '결' then 22
    else if |s| == 5 && s[0] == '약' then 23
    else if |s| == 5 && s[0] == '상' then 24
    else -1
  }

  /** No name appears twice in the table, and the fallback is one of them. */
  lemma CategoriesDistinct()
    ensures forall i, j :: 0 <= i < j < |CATEGORIES| ==> CATEGORIES[i] != CATEGORIES[j]
    ensures IsValidCategory(DEFAULT_CATEGORY) && CATEGORIES[1] == DEFAULT_CATEGORY
  {
    // each name sits in the slot its length and first character pick, so equal names
    // sit at equal positions
    forall i | 0 <= i < |CATEGORIES|
      ensures Slot(CATEGORIES[i]) == i
    {
    }
  }
}
