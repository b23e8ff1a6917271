/**
 * The alert banner (components/ui/AlertBanner.tsx): a coloured strip with a
 * title, an optional message and an optional close button. Its accent colour
 * and its translucent background are two lookups over the banner type.
 */
module AlertBanner {
  import opened Wrappers
  import opened Palette

  datatype BannerType = Info | Warning | Error | Success

  /** Accent colour of the banner: left border and title. */
  function AlertColor(t: BannerType): (c: string)
    ensures ParseHex(c).Some?
    ensures t == Info ==> c == Blue
    ensures t == Warning ==> c == Yellow
    ensures t == Error ==> c == Red
    ensures t == Success ==> c == Green
  {
    match t
    case Info => "#0A84FF"
    case Warning => "#FFD60A"
    case Error => "#FF453A"
    case Success => "#30D158"
  }

  /** Background of the banner, as the literal `rgba(...)` text it uses. */
  function AlertBgColor(t: BannerType): (c: string)
    ensures |c| > 11 && c[..5] == "rgba(" && c[|c| - 6..] == ", 0.1)"
  {
    match t
    case Info => "rgba(10, 132, 255, 0.1)"
    case Warning => "rgba(255, 214, 10, 0.1)"
    case Error => "rgba(255, 69, 58, 0.1)"
    case Success => "rgba(48, 209, 88, 0.1)"
  }

  /** The background is the accent colour's red, green and blue at alpha 0.1. */
  lemma BackgroundIsAccentAtTenth(t: BannerType)
    ensures ParseHex(AlertColor(t)).Some?
    ensures AlertBgColor(t) == Rgba(ParseHex(AlertColor(t)).value, "0.1")
  {
    match t
    case Info => InfoParse(); InfoText();
    case Warning => WarningParse(); WarningText();
    case Error => ErrorParse(); ErrorText();
    case Success => SuccessParse(); SuccessText();
  }

  lemma InfoParse()
    ensures ParseHex("#0A84FF") == Some(Rgb(10, 132, 255))
  {
    assert HexByte('0', 'A') == Some(10);
    assert HexByte('8', '4') == Some(132);
    assert HexByte('F', 'F') == Some(255);
  }

  lemma InfoText()
    ensures "rgba(10, 132, 255, 0.1)" == Rgba(Rgb(10, 132, 255), "0.1")
  {
    assert Decimal(1) == "1";
    assert Decimal(10) == "10";
    assert Decimal(13) == "13";
    assert Decimal(132) == "132";
    assert Decimal(2) == "2";
    assert Decimal(25) == "25";
    assert Decimal(255) == "255";
    // Literal strings are compared element by element, so the text is
    // assembled one piece at a time.
    assert Rgba(Rgb(10, 132, 255), "0.1") == "rgba(" + "10" + ", " + "132" + ", " + "255" + ", " + "0.1" + ")";
    assert "rgba(" + "10" == "rgba(10";
    assert "rgba(10" + ", " == "rgba(10, ";
    assert "rgba(10, " + "132" == "rgba(10, 132";
    assert "rgba(10, 132" + ", " == "rgba(10, 132, ";
    assert "rgba(10, 132, " + "255" == "rgba(10, 132, 255";
    assert "rgba(10, 132, 255" + ", " == "rgba(10, 132, 255, ";
    assert "rgba(10, 132, 255, " + "0.1" == "rgba(10, 132, 255, 0.1";
    assert "rgba(10, 132, 255, 0.1" + ")" == "rgba(10, 132, 255, 0.1)";
  }

  lemma WarningParse()
    ensures ParseHex("#FFD60A") == Some(Rgb(255, 214, 10))
  {
    assert HexByte('F', 'F') == Some(255);
    assert HexByte('D', '6') == Some(214);
    assert HexByte('0', 'A') == Some(10);
  }

  lemma WarningText()
    ensures "rgba(255, 214, 10, 0.1)" == Rgba(Rgb(255, 214, 10), "0.1")
  {
    assert Decimal(2) == "2";
    assert Decimal(25) == "25";
    assert Decimal(255) == "255";
    assert Decimal(21) == "21";
    assert Decimal(214) == "214";
    assert Decimal(1) == "1";
    assert Decimal(10) == "10";
    // Literal strings are compared element by element, so the text is
    // assembled one piece at a time.
    assert Rgba(Rgb(255, 214, 10), "0.1") == "rgba(" + "255" + ", " + "214" + ", " + "10" + ", " + "0.1" + ")";
    assert "rgba(" + "255" == "rgba(255";
    assert "rgba(255" + ", " == "rgba(255, ";
    assert "rgba(255, " + "214" == "rgba(255, 214";
    assert "rgba(255, 214" + ", " == "rgba(255, 214, ";
    assert "rgba(255, 214, " + "10" == "rgba(255, 214, 10";
    assert "rgba(255, 214, 10" + ", " == "rgba(255, 214, 10, ";
    assert "rgba(255, 214, 10, " + "0.1" == "rgba(255, 214, 10, 0.1";
    assert "rgba(255, 214, 10, 0.1" + ")" == "rgba(255, 214, 10, 0.1)";
  }

  lemma ErrorParse()
    ensures ParseHex("#FF453A") == Some(Rgb(255, 69, 58))
  {
    assert HexByte('F', 'F') == Some(255);
    assert HexByte('4', '5') == Some(69);
    assert HexByte('3', 'A') == Some(58);
  }

  lemma ErrorText()
    ensures "rgba(255, 69, 58, 0.1)" == Rgba(Rgb(255, 69, 58), "0.1")
  {
    assert Decimal(2) == "2";
    assert Decimal(25) == "25";
    assert Decimal(255) == "255";
    assert Decimal(6) == "6";
    assert Decimal(69) == "69";
    assert Decimal(5) == "5";
    assert Decimal(58) == "58";
    // Literal strings are compared element by element, so the text is
    // assembled one piece at a time.
    assert Rgba(Rgb(255, 69, 58), "0.1") == "rgba(" + "255" + ", " + "69" + ", " + "58" + ", " + "0.1" + ")";
    assert "rgba(" + "255" == "rgba(255";
    assert "rgba(255" + ", " == "rgba(255, ";
    assert "rgba(255, " + "69" == "rgba(255, 69";
    assert "rgba(255, 69" + ", " == "rgba(255, 69, ";
    assert "rgba(255, 69, " + "58" == "rgba(255, 69, 58";
    assert "rgba(255, 69, 58" + ", " == "rgba(255, 69, 58, ";
    assert "rgba(255, 69, 58, " + "0.1" == "rgba(255, 69, 58, 0.1";
    assert "rgba(255, 69, 58, 0.1" + ")" == "rgba(255, 69, 58, 0.1)";
  }

  lemma SuccessParse()
    ensures ParseHex("#30D158") == Some(Rgb(48, 209, 88))
  {
    assert HexByte('3', '0') == Some(48);
    assert HexByte('D', '1') == Some(209);
    assert HexByte('5', '8') == Some(88);
  }

  lemma SuccessText()
    ensures "rgba(48, 209, 88, 0.1)" == Rgba(Rgb(48, 209, 88), "0.1")
  {
    assert Decimal(4) == "4";
    assert Decimal(48) == "48";
    assert Decimal(2) == "2";
    assert Decimal(20) == "20";
    assert Decimal(209) == "209";
    assert Decimal(8) == "8";
    assert Decimal(88) == "88";
    // Literal strings are compared element by element, so the text is
    // assembled one piece at a time.
    assert Rgba(Rgb(48, 209, 88), "0.1") == "rgba(" + "48" + ", " + "209" + ", " + "88" + ", " + "0.1" + ")";
    assert "rgba(" + "48" == "rgba(48";
    assert "rgba(48" + ", " == "rgba(48, ";
    assert "rgba(48, " + "209" == "rgba(48, 209";
    assert "rgba(48, 209" + ", " == "rgba(48, 209, ";
    assert "rgba(48, 209, " + "88" == "rgba(48, 209, 88";
    assert "rgba(48, 209, 88" + ", " == "rgba(48, 209, 88, ";
    assert "rgba(48, 209, 88, " + "0.1" == "rgba(48, 209, 88, 0.1";
    assert "rgba(48, 209, 88, 0.1" + ")" == "rgba(48, 209, 88, 0.1)";
  }

  /** What the banner renders. */
  datatype BannerView = BannerView(
    background: string,
    borderLeftColor: string,
    titleColor: string,
    title: string,
    message: Option<string>,
    closeButton: bool)

  /**
   * Renders a banner. The message is a JavaScript `message && ...`: it is
   * shown only when present and non-empty. The close button is shown exactly
   * when an `onClose` handler is given.
   */
  function Render(t: BannerType, title: string, message: Option<string>, hasOnClose: bool): (v: BannerView)
    ensures v.titleColor == v.borderLeftColor == AlertColor(t)
    ensures v.background == AlertBgColor(t)
    ensures v.title == title
    ensures v.message.Some? <==> message.Some? && message.value != ""
    ensures v.message.Some? ==> v.message == message
    ensures v.closeButton <==> hasOnClose
  {
    BannerView(
      AlertBgColor(t),
      AlertColor(t),
      AlertColor(t),
      title,
      if message.Some? && message.value != "" then message else None,
      hasOnClose)
  }

  /** Different banner types have different accents. */
  lemma AlertColorInjective(a: BannerType, b: BannerType)
    ensures AlertColor(a) == AlertColor(b) ==> a == b
  {
  }
}
