/**
 * One row of the alert list (components/AlertItem.tsx): an icon chosen by
 * alert type and a badge coloured by severity.
 */
module AlertItem {
  import opened Palette

  datatype AlertType = Motion | Human | Animal | Object | System
  datatype AlertSeverity = Low | Medium | High

  /** The icon shapes the row can show. */
  datatype Glyph = Triangle | User | PawPrint | Picture

  datatype Icon = Icon(glyph: Glyph, color: string)

  /**
   * Icon per alert type. The grey fallback of the source's `default` branch
   * has no counterpart: every declared type has its own case.
   */
  function IconForType(t: AlertType): (i: Icon)
    ensures i.color != Gray
    ensures t == Motion ==> i == Icon(Triangle, Yellow)
    ensures t == Human ==> i == Icon(User, Red)
    ensures t == Animal ==> i == Icon(PawPrint, Orange)
    ensures t == Object ==> i == Icon(Picture, Blue)
    ensures t == System ==> i == Icon(Triangle, Indigo)
  {
    match t
    case Motion => Icon(Triangle, "#FFD60A")
    case Human => Icon(User, "#FF453A")
    case Animal => Icon(PawPrint, "#FF9500")
    case Object => Icon(Picture, "#0A84FF")
    case System => Icon(Triangle, "#5E5CE6")
  }

  /** Badge colour per severity; the grey fallback is unreachable here too. */
  function SeverityColor(s: AlertSeverity): (c: string)
    ensures c != Gray
    ensures s == Low ==> c == Green
    ensures s == Medium ==> c == Orange
    ensures s == High ==> c == Red
  {
    match s
    case Low => "#30D158"
    case Medium => "#FF9500"
    case High => "#FF453A"
  }

  /** Distinct severities get distinct colours. */
  lemma SeverityColorInjective(a: AlertSeverity, b: AlertSeverity)
    ensures SeverityColor(a) == SeverityColor(b) ==> a == b
  {
  }

  /** Distinct alert types get distinct icons; only motion and system share a shape. */
  lemma IconForTypeInjective(a: AlertType, b: AlertType)
    ensures IconForType(a) == IconForType(b) ==> a == b
    ensures IconForType(a).glyph == IconForType(b).glyph && a != b ==> {a, b} == {Motion, System}
  {
  }
}
