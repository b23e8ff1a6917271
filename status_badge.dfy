/**
 * The status badge (components/ui/StatusBadge.tsx): a coloured dot and, unless
 * switched off, the status name in the same colour.
 */
module StatusBadge {
  import opened Wrappers
  import opened Palette

  datatype Status = Online | Offline | Warning | Error | Recording | Patrolling
  datatype BadgeSize = Sm | Md | Lg

  /** Sizes and text visibility when the props leave them out. */
  const DefaultSize: BadgeSize := Md
  const DefaultShowText: bool := true

  function StatusColor(s: Status): (c: string)
    ensures ParseHex(c).Some?
    ensures s == Online ==> c == Green
    ensures s == Offline ==> c == Gray
    ensures s == Warning ==> c == Yellow
    ensures s == Error ==> c == Red
    ensures s == Recording ==> c == Pink
    ensures s == Patrolling ==> c == Indigo
  {
    match s
    case Online => "#30D158"
    case Offline => "#8E8E93"
    case Warning => "#FFD60A"
    case Error => "#FF453A"
    case Recording => "#FF375F"
    case Patrolling => "#5E5CE6"
  }

  /** The status as it is spelled in the `status` prop. */
  function StatusName(s: Status): (n: string)
    ensures |n| > 0
  {
    match s
    case Online => "online"
    case Offline => "offline"
    case Warning => "warning"
    case Error => "error"
    case Recording => "recording"
    case Patrolling => "patrolling"
  }

  /** The first letter in upper case (ASCII letters only). */
  function Capitalize(w: string): (r: string)
    ensures |r| == |w|
    ensures |w| > 0 ==> r[1..] == w[1..]
  {
    if |w| == 0 then w
    else if 'a' <= w[0] <= 'z' then [(w[0] as int - 32) as char] + w[1..]
    else w
  }

  /** Label of the badge: never empty, and it starts with a capital. */
  function StatusText(s: Status): (t: string)
    ensures |t| > 0 && 'A' <= t[0] <= 'Z'
    ensures t[1..] == StatusName(s)[1..]
  {
    match s
    case Online => "Online"
    case Offline => "Offline"
    case Warning => "Warning"
    case Error => "Error"
    case Recording => "Recording"
    case Patrolling => "Patrolling"
  }

  /** The label is the prop's spelling, capitalised. */
  lemma StatusTextIsCapitalizedName(s: Status)
    ensures StatusText(s) == Capitalize(StatusName(s))
  {
  }

  /** Six statuses, six colours and six labels. */
  lemma StatusLookupsInjective(a: Status, b: Status)
    ensures StatusColor(a) == StatusColor(b) ==> a == b
    ensures StatusText(a) == StatusText(b) ==> a == b
  {
  }

  function DotSize(z: BadgeSize): (px: nat)
    ensures z == Sm ==> px == 8
    ensures z == Md ==> px == 10
    ensures z == Lg ==> px == 12
  {
    match z
    case Sm => 8
    case Md => 10
    case Lg => 12
  }

  function TextSize(z: BadgeSize): (px: nat)
    ensures px == DotSize(z) + 4
  {
    match z
    case Sm => 12
    case Md => 14
    case Lg => 16
  }

  /** Order of the badge sizes. */
  function SizeIndex(z: BadgeSize): nat
  {
    match z
    case Sm => 0
    case Md => 1
    case Lg => 2
  }

  /** A larger badge has a strictly larger dot and text. */
  lemma SizesStrictlyIncreasing(a: BadgeSize, b: BadgeSize)
    requires SizeIndex(a) < SizeIndex(b)
    ensures DotSize(a) < DotSize(b)
    ensures TextSize(a) < TextSize(b)
  {
  }

  datatype Label = Label(text: string, fontSize: nat, color: string)
  datatype BadgeView = BadgeView(dotColor: string, dotSize: nat, caption: Option<Label>)

  /**
   * Renders a badge; `size` and `showText` are the optional props, which
   * default to medium and to showing the text.
   */
  function Render(s: Status, size: Option<BadgeSize>, showText: Option<bool>): (v: BadgeView)
    ensures v.dotColor == StatusColor(s)
    ensures v.dotSize == DotSize(size.GetOr(DefaultSize))
    ensures size.None? ==> v.dotSize == 10
    ensures v.caption.Some? <==> showText != Some(false)
    ensures v.caption.Some? ==> v.caption.value.color == v.dotColor
    ensures v.caption.Some? ==> v.caption.value.text == StatusText(s)
    ensures v.caption.Some? ==> v.caption.value.fontSize == v.dotSize + 4
  {
    var z := size.GetOr(DefaultSize);
    BadgeView(
      StatusColor(s),
      DotSize(z),
      if showText.GetOr(DefaultShowText) then Some(Label(StatusText(s), TextSize(z), StatusColor(s))) else None)
  }
}
