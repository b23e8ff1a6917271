/**
 * The direction pad and patrol control (components/RobotControlPanel.tsx).
 * One slot remembers the direction whose button is held; pressing a button
 * fills it and runs the button's movement callback, releasing clears it.
 */
module RobotControlPanel {
  import opened Wrappers
  import opened Palette
  import Button

  /** The five pad buttons, named as the panel names them ('up', ..., 'home'). */
  datatype Direction = Up | Left | Home | Right | Down

  /** The optional callback props of the panel. */
  datatype Handler = MoveForward | MoveBackward | MoveLeft | MoveRight | ReturnHome | TogglePatrol

  /** The callback each pad button runs on press-in. */
  function HandlerFor(d: Direction): (h: Handler)
    ensures h != TogglePatrol
    ensures d == Up ==> h == MoveForward
    ensures d == Left ==> h == MoveLeft
    ensures d == Home ==> h == ReturnHome
    ensures d == Right ==> h == MoveRight
    ensures d == Down ==> h == MoveBackward
  {
    match d
    case Up => MoveForward
    case Left => MoveLeft
    case Home => ReturnHome
    case Right => MoveRight
    case Down => MoveBackward
  }

  /** No two buttons share a callback. */
  lemma HandlerForInjective(a: Direction, b: Direction)
    ensures HandlerFor(a) == HandlerFor(b) ==> a == b
  {
  }

  /** A button is highlighted exactly when it is the active direction. */
  predicate Highlighted(active: Option<Direction>, d: Direction): (lit: bool)
    ensures lit <==> active.Some? && active.value == d
    ensures active.None? ==> !lit
  {
    active == Some(d)
  }

  /** At most one button is highlighted at a time. */
  lemma AtMostOneHighlighted(active: Option<Direction>, a: Direction, b: Direction)
    requires Highlighted(active, a) && Highlighted(active, b)
    ensures a == b
  {
  }

  /** Arrow colour: black on the highlighted button, white otherwise. */
  function ArrowColor(active: Option<Direction>, d: Direction): (c: string)
    ensures c == Black <==> Highlighted(active, d)
    ensures c == White <==> !Highlighted(active, d)
  {
    if active == Some(d) then "#000000" else "#FFFFFF"
  }

  /** Caption and variant of the patrol button. */
  function PatrolCaption(isPatrolling: bool): (c: (string, Button.Variant))
    ensures isPatrolling <==> c == ("Stop Patrol", Button.Destructive)
    ensures !isPatrolling <==> c == ("Start Patrol", Button.Primary)
  {
    if isPatrolling then ("Stop Patrol", Button.Destructive) else ("Start Patrol", Button.Primary)
  }

  /** The props the panel passes to the patrol button. */
  function PatrolButtonProps(isPatrolling: bool, supplied: set<Handler>): (p: Button.ButtonProps<Handler>)
    ensures p.variant == Some(PatrolCaption(isPatrolling).1)
    ensures p.onPress.Some? <==> TogglePatrol in supplied
    ensures p.onPress.Some? ==> p.onPress.value == TogglePatrol
  {
    Button.ButtonProps(
      if TogglePatrol in supplied then Some(TogglePatrol) else None,
      Some(PatrolCaption(isPatrolling).1),
      None, None, None, true, None, None)
  }

  /** Pressing the patrol button runs `onTogglePatrol` exactly when it was given. */
  lemma PatrolButtonTogglesPatrol(isPatrolling: bool, supplied: set<Handler>, isWeb: bool)
    ensures Button.Press(Button.Render(PatrolButtonProps(isPatrolling, supplied), isWeb)) ==
      if TogglePatrol in supplied then Some(TogglePatrol) else None
  {
    Button.PressGating(PatrolButtonProps(isPatrolling, supplied), isWeb);
  }

  /**
   * The panel's state: the active direction, and the callbacks it has run
   * so far, oldest first (their effect lies outside the panel).
   */
  class ControlPanel {
    /** The callback props the parent supplied. */
    const supplied: set<Handler>
    var activeDirection: Option<Direction>
    var invoked: seq<Handler>

    constructor (supplied: set<Handler>)
      ensures this.supplied == supplied
      ensures activeDirection == None && invoked == []
    {
      this.supplied := supplied;
      activeDirection := None;
      invoked := [];
    }

    /** Makes `d` the active direction and runs `callback` once, if given. */
    method HandlePressIn(d: Direction, callback: Option<Handler>)
      modifies this
      ensures activeDirection == Some(d)
      ensures invoked == old(invoked) + (if callback.Some? then [callback.value] else [])
    {
      activeDirection := Some(d);
      if callback.Some? {
        invoked := invoked + [callback.value];
      }
    }

    /** Clears the active direction, whatever it was. */
    method HandlePressOut()
      modifies this
      ensures activeDirection == None
      ensures invoked == old(invoked)
    {
      activeDirection := None;
    }

    /** Press-in on the pad button `d`, wired to that button's callback prop. */
    method PressIn(d: Direction)
      modifies this
      ensures activeDirection == Some(d)
      ensures forall e :: Highlighted(activeDirection, e) <==> e == d
      ensures HandlerFor(d) in supplied ==> invoked == old(invoked) + [HandlerFor(d)]
      ensures HandlerFor(d) !in supplied ==> invoked == old(invoked)
    {
      var h := HandlerFor(d);
      HandlePressIn(d, if h in supplied then Some(h) else None);
    }

    /** Press-out on any pad button. */
    method PressOut()
      modifies this
      ensures activeDirection == None
      ensures forall e :: !Highlighted(activeDirection, e)
      ensures invoked == old(invoked)
    {
      HandlePressOut();
    }
  }

  /**
   * A second press replaces the first: only the later direction stays
   * active, and each press ran its own callback once, when it was supplied.
   */
  method PressTwice(panel: ControlPanel, first: Direction, second: Direction)
    modifies panel
    ensures panel.activeDirection == Some(second)
    ensures panel.invoked == old(panel.invoked)
      + (if HandlerFor(first) in panel.supplied then [HandlerFor(first)] else [])
      + (if HandlerFor(second) in panel.supplied then [HandlerFor(second)] else [])
  {
    panel.PressIn(first);
    panel.PressIn(second);
  }

  /** Releasing twice is the same as releasing once. */
  method PressOutTwice(panel: ControlPanel)
    modifies panel
    ensures panel.activeDirection == None
    ensures panel.invoked == old(panel.invoked)
  {
    panel.PressOut();
    panel.PressOut();
  }
}
