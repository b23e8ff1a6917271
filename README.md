# Robot monitoring UI: decision logic of the components

This project models the decision logic of the React Native components of a
security-robot monitoring app and proves what that logic promises:

- **Camera feed** (`CameraView`): the `isLoading`, `hasError` and `isPaused`
  flags as a class (`CameraFeed`) whose methods are the feed events and
  controls. It also models the overlays the flags select, the detection boxes
  drawn over the feed (one per object, scaled to percentages), and the
  case-insensitive label taxonomy that colours them.
- **Direction pad** (`RobotControlPanel`): the single `activeDirection` slot as
  a class (`ControlPanel`). Press-in fills the slot and runs the button's
  callback once; press-out clears it. The module also holds the
  button-to-callback wiring, the highlighting, and the patrol button.
- **Telemetry bands** (`RobotCard`): battery, signal and temperature sorted
  into red, yellow and green. The proofs cover inclusive boundaries and
  monotonicity.
- **Lookup tables** (`AlertItem`, `StatusBadge`, `Button`, `AlertBanner`):
  total maps from closed enums to colours, labels and sizes. Two real rules sit
  among them. A button runs `onPress` only when it is neither disabled nor
  loading. A banner's background is its accent colour at alpha 0.1, proved by
  parsing the `#RRGGBB` accent and formatting the `rgba(...)` text.

`Palette` holds the shared colour literals, a `#RRGGBB` parser and decimal
formatting. `Wrappers` holds `Option`, used for optional props; `GetOr` applies
a prop's default. Colours are the source's own strings. JavaScript numbers are
modelled as reals.

The component files describe no video-session state machine, no repeating
movement commands and no alert store. The model therefore does not describe
them either (see "Left out").

## Model

| member | source | states |
|---|---|---|
| `CameraView.ToLower` | components/CameraView.tsx:95 | lower-casing keeps the length and lower-cases each character in place |
| `CameraView.ToLowerIdempotent` | components/CameraView.tsx:95 | lower-casing twice is the same as lower-casing once |
| `CameraView.ColorForObjectType` | components/CameraView.tsx:94-109 | red exactly for person/human, blue exactly for car/vehicle, orange exactly for dog/cat/animal, green for every other label (all after lower-casing) |
| `CameraView.ColorIgnoresCase` | components/CameraView.tsx:94-95 | a label and its lower-cased form get the same colour |
| `CameraView.SameColorUpToCase` | components/CameraView.tsx:94-95 | two labels that are equal after lower-casing get the same colour |
| `CameraView.CapitalisedLabels` | components/CameraView.tsx:94-109 | "Person", "VEHICLE" and "Cat" get red, blue and orange, like their lower-case spellings |
| `CameraView.BoxFor` | components/CameraView.tsx:73-91 | a box is keyed by the object's id; left/top/width/height are x/y/width/height times 100; border and label colours both equal the taxonomy colour of its type |
| `CameraView.MapBoxes` | components/CameraView.tsx:73 | one box per object, in input order |
| `CameraView.DetectionBoxes` | components/CameraView.tsx:70-92 | nothing (null) exactly when recognition is off or there are no objects; otherwise one box per object, in order, each equal to `BoxFor` of its object (id key, type and confidence, geometry times 100, taxonomy colour) |
| `CameraView.BoxesScaleBack` | components/CameraView.tsx:79-82 | dividing a box's percentages by 100 gives back the object's normalised box |
| `CameraView.OverlaysFor` | components/CameraView.tsx:132-154 | the loading and error overlays follow their own flags (both can show); the paused overlay shows exactly when not loading, no error and paused, and never with another overlay |
| `CameraView.PauseButtonLabel` | components/CameraView.tsx:164 | the label is "Resume" exactly when paused, otherwise "Pause" |
| `CameraView.RecordButton` | components/CameraView.tsx:166-171 | "Stop Recording" with the destructive variant exactly when recording, otherwise "Start Recording" with the outline variant |
| `CameraView.HeaderBadges` | components/CameraView.tsx:118-125 | an online badge exactly when live and a recording badge exactly when recording, online first, both small |
| `CameraView.CameraFeed.constructor` | components/CameraView.tsx:35-37 | a new feed is loading, has no error and is not paused |
| `CameraView.CameraFeed.OnFeedLoad` | components/CameraView.tsx:54 | loading is cleared; error and pause are unchanged |
| `CameraView.CameraFeed.OnCameraReady` | components/CameraView.tsx:64 | loading is cleared; error and pause are unchanged |
| `CameraView.CameraFeed.OnFeedError` | components/CameraView.tsx:55 | the error flag is set; loading and pause are unchanged |
| `CameraView.CameraFeed.Retry` | components/CameraView.tsx:143 | only the error flag is cleared |
| `CameraView.CameraFeed.TogglePause` | components/CameraView.tsx:43-45 | pause flips; loading and error are unchanged |
| `CameraView.TogglePauseTwice` | components/CameraView.tsx:43-45 | toggling pause twice restores all three flags |
| `CameraView.OverlayLifecycle` | components/CameraView.tsx:35-154 | a new feed shows only the loading overlay; loaded and paused, only the paused overlay; a feed error shows the error overlay and hides the paused one; Retry brings the paused overlay back |
| `RobotControlPanel.HandlerFor` | components/RobotControlPanel.tsx:54-106 | up runs onMoveForward, left onMoveLeft, home onReturnHome, right onMoveRight, down onMoveBackward; no pad button runs onTogglePatrol |
| `RobotControlPanel.HandlerForInjective` | components/RobotControlPanel.tsx:54-106 | no two pad buttons share a callback |
| `RobotControlPanel.Highlighted` | components/RobotControlPanel.tsx:52-104 | a button is highlighted exactly when the active direction is its own name; nothing is highlighted when no direction is active |
| `RobotControlPanel.AtMostOneHighlighted` | components/RobotControlPanel.tsx:52-104 | a button is highlighted when the active direction is its own name, so at most one button is highlighted |
| `RobotControlPanel.ArrowColor` | components/RobotControlPanel.tsx:57-109 | the arrow is black exactly on the highlighted button, white otherwise |
| `RobotControlPanel.PatrolCaption` | components/RobotControlPanel.tsx:116-121 | "Stop Patrol" with the destructive variant exactly when patrolling, otherwise "Start Patrol" with the primary variant |
| `RobotControlPanel.PatrolButtonProps` | components/RobotControlPanel.tsx:115-122 | the patrol button gets the patrol variant and onTogglePatrol as its handler, when that prop is given |
| `RobotControlPanel.PatrolButtonTogglesPatrol` | components/RobotControlPanel.tsx:118 | pressing the patrol button runs onTogglePatrol exactly when it was given |
| `RobotControlPanel.ControlPanel.constructor` | components/RobotControlPanel.tsx:30 | initially no direction is active and no callback has run |
| `RobotControlPanel.ControlPanel.HandlePressIn` | components/RobotControlPanel.tsx:32-35 | the direction replaces any active one; the callback, if given, runs exactly once |
| `RobotControlPanel.ControlPanel.HandlePressOut` | components/RobotControlPanel.tsx:37-39 | no direction is active afterwards, whatever was; no callback runs |
| `RobotControlPanel.ControlPanel.PressIn` | components/RobotControlPanel.tsx:49-56 | the pressed button becomes the only highlighted one, and its own callback runs once when supplied, otherwise none |
| `RobotControlPanel.ControlPanel.PressOut` | components/RobotControlPanel.tsx:55 | no button is highlighted afterwards; no callback runs |
| `RobotControlPanel.PressTwice` | components/RobotControlPanel.tsx:32-35 | for any set of supplied callbacks, a second press supersedes the first, and each press ran its own callback once when it was supplied, in press order |
| `RobotControlPanel.PressOutTwice` | components/RobotControlPanel.tsx:37-39 | releasing twice is the same as releasing once |
| `RobotCard.BatteryColor` | components/RobotCard.tsx:37-41 | one of three colours: red exactly at or below 20, yellow exactly above 20 up to 40, green exactly above 40 |
| `RobotCard.SignalColor` | components/RobotCard.tsx:43-47 | one of three colours: red exactly at or below 25, yellow exactly above 25 up to 50, green exactly above 50 |
| `RobotCard.TemperatureColor` | components/RobotCard.tsx:49-53 | one of three colours: red exactly at or above 80, yellow exactly from 60 below 80, green exactly below 60 |
| `RobotCard.BatteryAndSignalMonotone` | components/RobotCard.tsx:37-47 | a higher battery or signal reading never gives a worse band |
| `RobotCard.TemperatureAntitone` | components/RobotCard.tsx:49-53 | a higher temperature never gives a better band |
| `RobotCard.BoundariesInclusive` | components/RobotCard.tsx:38-51 | battery 20 is red and 40 yellow; signal 25 is red and 50 yellow; temperature 80 is red and 60 yellow |
| `AlertItem.IconForType` | components/AlertItem.tsx:31-46 | motion yellow triangle, human red user, animal orange paw, object blue image, system indigo triangle; never the grey fallback |
| `AlertItem.IconForTypeInjective` | components/AlertItem.tsx:31-42 | distinct types get distinct icons; only motion and system share the triangle, and they differ in colour |
| `AlertItem.SeverityColor` | components/AlertItem.tsx:48-59 | low green, medium orange, high red; never the grey fallback |
| `AlertItem.SeverityColorInjective` | components/AlertItem.tsx:48-55 | distinct severities get distinct colours |
| `StatusBadge.StatusColor` | components/ui/StatusBadge.tsx:17-34 | the stated colour of each of the six statuses, each a well-formed `#RRGGBB` |
| `StatusBadge.StatusText` | components/ui/StatusBadge.tsx:36-53 | the label is never empty, starts with a capital, and otherwise spells the status as the prop does |
| `StatusBadge.StatusTextIsCapitalizedName` | components/ui/StatusBadge.tsx:36-53 | each label is the status name as the prop spells it, with its first letter capitalised |
| `StatusBadge.StatusLookupsInjective` | components/ui/StatusBadge.tsx:17-53 | distinct statuses get distinct colours and distinct labels |
| `StatusBadge.DotSize` | components/ui/StatusBadge.tsx:55-66 | dot size sm 8, md 10, lg 12 |
| `StatusBadge.TextSize` | components/ui/StatusBadge.tsx:68-79 | text size is the dot size plus 4 for every size |
| `StatusBadge.SizesStrictlyIncreasing` | components/ui/StatusBadge.tsx:55-79 | a larger badge has a strictly larger dot and text |
| `StatusBadge.Render` | components/ui/StatusBadge.tsx:12-95 | the size defaults to md (dot 10); the text shows exactly unless showText is false; the text has the dot's colour, the status label, and the dot size plus 4 |
| `Button.VariantStyleOf` | components/ui/Button.tsx:34-53 | unfilled variants (outline, ghost, link) are transparent and the others filled with their variant colour; only outline has a border, only link its own padding |
| `Button.VariantColor` | components/ui/Button.tsx:71-84 | primary blue, secondary indigo, accent orange, destructive red; outline, ghost and link fall through to blue |
| `Button.TextColor` | components/ui/Button.tsx:55-69 | white on primary, secondary, accent and destructive; the variant colour, blue, on outline, ghost and link |
| `Button.SizePadding` | components/ui/Button.tsx:241-262 | horizontal/vertical padding xs 12/4, sm 16/8, md 20/10, lg 24/12, xl 32/16 |
| `Button.TextSize` | components/ui/Button.tsx:263-277 | text size is 12 plus 2 per size step: xs 12, sm 14, md 16, lg 18, xl 20 |
| `Button.SizesMonotone` | components/ui/Button.tsx:241-277 | a larger size never has less padding and has strictly larger text |
| `Button.EffectivePadding` | components/ui/Button.tsx:120-126 | the link variant's own 4/4 padding overrides the size padding; other variants use the size padding |
| `Button.Render` | components/ui/Button.tsx:120-174 | the pressable is disabled exactly when disabled or loading, and gets onPress only otherwise, in the glass and plain branches alike; loading shows a spinner, blue on unfilled variants and white otherwise; else the icon sits on the side iconPosition names (left by default) |
| `Button.Press` | components/ui/Button.tsx:163-174 | a press runs a handler only on an enabled pressable, and that handler is the one wired |
| `Button.PressGating` | components/ui/Button.tsx:145-174 | pressing a rendered button runs onPress exactly when it is neither disabled nor loading |
| `Button.IconOnOneSide` | components/ui/Button.tsx:136-140 | when not loading, an icon is placed on exactly one side, the right only when iconPosition is right |
| `AlertBanner.AlertColor` | components/ui/AlertBanner.tsx:20-33 | info blue, warning yellow, error red, success green, each a well-formed `#RRGGBB` |
| `AlertBanner.AlertColorInjective` | components/ui/AlertBanner.tsx:20-33 | distinct banner types get distinct accents |
| `AlertBanner.AlertBgColor` | components/ui/AlertBanner.tsx:35-48 | each background is an `rgba(...)` colour whose alpha is 0.1 |
| `AlertBanner.BackgroundIsAccentAtTenth` | components/ui/AlertBanner.tsx:35-48 | for every type, the background is `rgba(r, g, b, 0.1)` where r, g, b are the accent colour's channels |
| `AlertBanner.Render` | components/ui/AlertBanner.tsx:50-73 | the title colour and left border equal the accent; the message shows only when present and non-empty; the close button shows exactly when onClose is given |

## Left out

- Video sessions, retries, repeating movement commands, return-home cancellation, geometry validation, a confidence threshold, and alert storage, filtering, sorting, dismissing and de-duplication. None of these appears in the component files.
- `CameraView.ToLower`: lower-cases ASCII letters only, where JavaScript's `toLowerCase` covers all of Unicode. The colour taxonomy is unaffected. Only two other characters lower-case to text with an ASCII letter: U+0130 becomes 'i' plus a combining dot, so the word no longer matches, and U+212A becomes 'k', which none of the seven words contains.
- Floating point: readings and box coordinates are exact reals. A NaN reading, which the source would colour green, is not modelled.
- The platform branch of the camera feed is modelled only through its events. The web image calls `OnFeedLoad`/`OnFeedError`; the native camera calls only `OnCameraReady`, and it has no error event. Camera permission, image loading and timing are outside the model.
- The formatted text of a detection label (`Math.round(confidence*100)`) and the `%` strings. Boxes carry the scaled numbers and the confidence.
- Layout and styles other than the size, padding and colour tables; icons and the blur view are foreign components. Card, StatisticsCard and the app screens hold no decision logic.
- The closed enums have no fallback cases. The grey alert fallbacks and the `default` branches of the badge and banner lookups, and of the button's style, text and size lookups, cannot be reached with values of their declared types. The one exception is the `default` of the button's variant colour: outline, ghost and link have no case of their own and reach it. `Button.VariantColor` models it as their case.
- Callbacks are modelled by name. A callback's run is recorded in `ControlPanel.invoked`; what it does lies outside the panel.
