/** The category shape and the numeric `MainCategoryType` enum. A category
    arrives from the server with its main category as a plain number, which
    need not be one of the enum's values. */
module CategoryTypes {
  import opened Common

  datatype MainCategoryType = AoNam | QuanNam | GiayDep | PhuKien | QuaTang | XTech | HangMoi | UuDai

  /** The members in declaration order; each is initialised to its position. */
  const MainCategoryMembers: seq<MainCategoryType> :=
    [AoNam, QuanNam, GiayDep, PhuKien, QuaTang, XTech, HangMoi, UuDai]

  function MainCategoryValue(m: MainCategoryType): (n: nat)
    ensures n < |MainCategoryMembers| && MainCategoryMembers[n] == m
  {
    match m
    case AoNam => 0
    case QuanNam => 1
    case GiayDep => 2
    case PhuKien => 3
    case QuaTang => 4
    case XTech => 5
    case HangMoi => 6
    case UuDai => 7
  }

  function MainCategoryName(m: MainCategoryType): string
  {
    match m
    case AoNam => "AoNam"
    case QuanNam => "QuanNam"
    case GiayDep => "GiayDep"
    case PhuKien => "PhuKien"
    case QuaTang => "QuaTang"
    case XTech => "XTech"
    case HangMoi => "HangMoi"
    case UuDai => "UuDai"
  }

  datatype Category = Category(id: string, name: string, mainCategory: int)
}
