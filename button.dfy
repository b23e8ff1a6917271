/**
 * The shared button (components/ui/Button.tsx): style lookups over variant and
 * size, and the rule that a disabled or loading button does not fire.
 */
module Button {
  import opened Wrappers
  import opened Palette

  datatype Variant = Primary | Secondary | Accent | Outline | Ghost | Link | Destructive
  datatype Size = Xs | Sm | Md | Lg | Xl
  datatype IconPosition = IconLeft | IconRight

  const DefaultVariant: Variant := Primary
  const DefaultSize: Size := Md
  const DefaultIconPosition: IconPosition := IconLeft

  /** The spinner's colour on filled buttons, as the source spells it. */
  const SpinnerWhite: string := "#fff"
  const Transparent: string := "transparent"

  /** The variants drawn without a fill: their text takes the variant colour. */
  predicate IsUnfilled(v: Variant) { v == Outline || v == Ghost || v == Link }

  /** Style of the container per variant: fill, border, and an own padding. */
  datatype VariantStyle = VariantStyle(background: string, borderColor: Option<string>, padding: Option<(nat, nat)>)

  function VariantStyleOf(v: Variant): (s: VariantStyle)
    ensures IsUnfilled(v) <==> s.background == Transparent
    ensures s.borderColor.Some? <==> v == Outline
    ensures s.padding.Some? <==> v == Link
    ensures !IsUnfilled(v) ==> s.background == VariantColor(v)
  {
    match v
    case Primary => VariantStyle("#0A84FF", None, None)
    case Secondary => VariantStyle("#5E5CE6", None, None)
    case Accent => VariantStyle("#FF9500", None, None)
    case Outline => VariantStyle("transparent", Some("#0A84FF"), None)
    case Ghost => VariantStyle("transparent", None, None)
    case Link => VariantStyle("transparent", None, Some((4, 4)))
    case Destructive => VariantStyle("#FF453A", None, None)
  }

  /**
   * The variant colour. Outline, ghost and link have no case of their own and
   * take the `default` branch, blue.
   */
  function VariantColor(v: Variant): (c: string)
    ensures IsUnfilled(v) ==> c == Blue
    ensures v == Primary ==> c == Blue
    ensures v == Secondary ==> c == Indigo
    ensures v == Accent ==> c == Orange
    ensures v == Destructive ==> c == Red
  {
    match v
    case Primary => "#0A84FF"
    case Secondary => "#5E5CE6"
    case Accent => "#FF9500"
    case Destructive => "#FF453A"
    case _ => "#0A84FF"
  }

  /** Text colour: white on filled variants, the variant colour otherwise. */
  function TextColor(v: Variant): (c: string)
    ensures !IsUnfilled(v) ==> c == White
    ensures IsUnfilled(v) ==> c == VariantColor(v) == Blue
  {
    match v
    case Primary | Secondary | Accent | Destructive => "#FFFFFF"
    case Outline | Ghost | Link => VariantColor(v)
  }

  /** Horizontal and vertical padding per size. */
  function SizePadding(z: Size): (p: (nat, nat))
    ensures z == Xs ==> p == (12, 4)
    ensures z == Sm ==> p == (16, 8)
    ensures z == Md ==> p == (20, 10)
    ensures z == Lg ==> p == (24, 12)
    ensures z == Xl ==> p == (32, 16)
  {
    match z
    case Xs => (12, 4)
    case Sm => (16, 8)
    case Md => (20, 10)
    case Lg => (24, 12)
    case Xl => (32, 16)
  }

  /** Font size of the label per size. */
  function TextSize(z: Size): (px: nat)
    ensures px == 12 + 2 * SizeIndex(z)
  {
    match z
    case Xs => 12
    case Sm => 14
    case Md => 16
    case Lg => 18
    case Xl => 20
  }

  function SizeIndex(z: Size): (i: nat)
    ensures i <= 4
  {
    match z
    case Xs => 0
    case Sm => 1
    case Md => 2
    case Lg => 3
    case Xl => 4
  }

  /** A larger size never has less padding, and has strictly larger text. */
  lemma SizesMonotone(a: Size, b: Size)
    requires SizeIndex(a) <= SizeIndex(b)
    ensures SizePadding(a).0 <= SizePadding(b).0 && SizePadding(a).1 <= SizePadding(b).1
    ensures a != b ==> TextSize(a) < TextSize(b)
  {
  }

  /**
   * Padding of the rendered container: the variant's style is listed after the
   * size's, so the link variant's own 4/4 padding wins over the size.
   */
  function EffectivePadding(v: Variant, z: Size): (p: (nat, nat))
    ensures v == Link ==> p == (4, 4)
    ensures v != Link ==> p == SizePadding(z)
  {
    VariantStyleOf(v).padding.GetOr(SizePadding(z))
  }

  /** The optional props of a button; `A` is the type of its press handler. */
  datatype ButtonProps<A> = ButtonProps(
    onPress: Option<A>,
    variant: Option<Variant>,
    size: Option<Size>,
    disabled: Option<bool>,
    loading: Option<bool>,
    hasIcon: bool,
    iconPosition: Option<IconPosition>,
    glass: Option<bool>)

  /** What is drawn inside the button. */
  datatype Content =
    | Spinner(color: string)
    | Caption(iconLeft: bool, iconRight: bool, textColor: string, fontSize: nat)

  /** The pressable the button renders, and whether it is wrapped in a blur. */
  datatype ButtonView<A> = ButtonView(blurred: bool, onPress: Option<A>, disabled: bool, content: Content)

  /**
   * Renders a button on a platform (`isWeb` is `Platform.OS === 'web'`). The
   * glass branch and the plain branch wire `onPress` and `disabled` alike.
   */
  function Render<A>(p: ButtonProps<A>, isWeb: bool): (b: ButtonView<A>)
    ensures var off := p.disabled.GetOr(false) || p.loading.GetOr(false);
      && b.disabled == off
      && (b.onPress.Some? <==> !off && p.onPress.Some?)
      && (b.onPress.Some? ==> b.onPress == p.onPress)
    ensures b.blurred <==> p.glass == Some(true) && !isWeb
    ensures b.content.Spinner? <==> p.loading == Some(true)
    ensures b.content.Spinner? ==>
      b.content.color == (if IsUnfilled(p.variant.GetOr(DefaultVariant)) then Blue else SpinnerWhite)
    ensures b.content.Caption? ==>
      && (b.content.iconLeft <==> p.hasIcon && p.iconPosition.GetOr(DefaultIconPosition) == IconLeft)
      && (b.content.iconRight <==> p.hasIcon && p.iconPosition == Some(IconRight))
      && b.content.textColor == TextColor(p.variant.GetOr(DefaultVariant))
      && b.content.fontSize == TextSize(p.size.GetOr(DefaultSize))
  {
    var variant := p.variant.GetOr(DefaultVariant);
    var disabled := p.disabled.GetOr(false);
    var loading := p.loading.GetOr(false);
    var position := p.iconPosition.GetOr(DefaultIconPosition);
    var content :=
      if loading then
        Spinner(if variant == Outline || variant == Ghost || variant == Link then VariantColor(variant) else "#fff")
      else
        Caption(p.hasIcon && position == IconLeft, p.hasIcon && position == IconRight,
                TextColor(variant), TextSize(p.size.GetOr(DefaultSize)));
    var onPress := if !disabled && !loading then p.onPress else None;
    ButtonView(p.glass.GetOr(false) && !isWeb, onPress, disabled || loading, content)
  }

  /** The handler a press on the rendered button runs, if any. */
  function Press<A>(b: ButtonView<A>): (fired: Option<A>)
    ensures fired.Some? ==> !b.disabled && fired == b.onPress
  {
    if b.disabled then None else b.onPress
  }

  /** A press reaches `onPress` exactly when the button is neither disabled nor loading. */
  lemma PressGating<A>(p: ButtonProps<A>, isWeb: bool)
    ensures Press(Render(p, isWeb)) ==
      if p.disabled == Some(true) || p.loading == Some(true) then None else p.onPress
  {
  }

  /** The icon sits on exactly one side, the one `iconPosition` names (left by default). */
  lemma IconOnOneSide<A>(p: ButtonProps<A>, isWeb: bool)
    requires p.hasIcon && p.loading != Some(true)
    ensures var c := Render(p, isWeb).content;
      c.Caption? && (c.iconLeft != c.iconRight) && (c.iconRight <==> p.iconPosition == Some(IconRight))
  {
  }
}
