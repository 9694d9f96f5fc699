# Platform sidebar and message list of a messaging-aggregator prototype

This project models the two pieces of behaviour in the app's home-screen
components that can be stated exactly.

- **The platform sidebar** (`PlatformSidebar`, file `platform_sidebar.dfy`).
  The component holds one visibility flag. It starts visible. Every pan-move
  sample compares the gesture's horizontal distance `dx` with a threshold of
  50: `dx > 50` shows the sidebar, `dx < -50` hides it, and anything in
  between leaves it as it was. The responder claims every move gesture. The
  flag is a field of the class `Sidebar`, and the move handler changes it in
  place. The pure function `AfterMove` gives the rule for one sample, and
  `AfterMoves` gives it for a sequence of samples in arrival order. The
  lemmas show, among other things, that the last sample beyond the threshold
  decides the outcome. The sidebar's list of platforms and its unread-badge
  condition are modelled as data.
- **The message list** (`MessageList`, file `message_list.dfy`). The list
  shows the sample messages, or only those on the selected platform. A
  falsy platform (`undefined` or the empty string) means no filtering.
  `GetPlatformColor` gives the colour of the platform indicator drawn beside
  each message. Both are pure functions over `seq<Message>` and `string`.
- **Supporting modules.** `Colors` (`colors.dfy`) holds the palette of
  `constants/Colors.ts` as string constants. `Optional` (`option.dfy`) holds
  an `Option` type, used for the optional `platform` property.

The horizontal distance `dx` is a JavaScript number. It is modelled as
`real`, because it only takes part in comparisons with the constants 50 and
-50.

The home screen (`app/(tabs)/index.tsx`) has its own drag controller for the
sidebar. It uses a release-time rule with a threshold of 0.4 × 80, clamped
offsets and spring settling. The sidebar component itself does none of that:
it uses a move-time ±50 rule with no clamp and no release handler. This
model covers the component as written.

## Model

| member | source | states |
|---|---|---|
| PlatformSidebar.Sidebar.constructor | components/PlatformSidebar.tsx:73 | a freshly mounted sidebar is visible |
| PlatformSidebar.MoveShouldSetResponder | components/PlatformSidebar.tsx:77 | the move-capture predicate accepts every gesture state |
| PlatformSidebar.DecisiveIffPriorIrrelevant | components/PlatformSidebar.tsx:79-83 | a sample sets the visibility, whatever it was before, exactly when `dx` lies outside [-50, 50] (the predicate `Decisive`), because both comparisons are strict |
| PlatformSidebar.AfterMove | components/PlatformSidebar.tsx:78-84 | after one move sample, `dx > 50` means visible and `dx < -50` means hidden, whatever the prior state; any `dx` in [-50, 50] keeps the prior visibility |
| PlatformSidebar.Sidebar.OnPanResponderMove | components/PlatformSidebar.tsx:78-84 | the handler sets the visibility field to `AfterMove(old visibility, dx)`, so it shows on `dx > 50`, hides on `dx < -50` and otherwise changes nothing |
| PlatformSidebar.BoundariesAreInert | components/PlatformSidebar.tsx:79-81 | the comparisons are strict: `dx == 50` and `dx == -50` leave the visibility unchanged |
| PlatformSidebar.DecisiveIgnoresPrior | components/PlatformSidebar.tsx:79-83 | a sample beyond the threshold gives the same visibility from either prior state, namely "visible iff it went right" |
| PlatformSidebar.MoveIdempotent | components/PlatformSidebar.tsx:78-84 | applying the same move sample twice gives the same visibility as applying it once |
| PlatformSidebar.AfterMoves | components/PlatformSidebar.tsx:78-84 | a sequence of samples all within [-50, 50] leaves the visibility unchanged |
| PlatformSidebar.LastDecisiveDecides | components/PlatformSidebar.tsx:78-84 | after a sequence of samples, the visibility equals whether the last sample beyond the threshold went right, whatever it was before |
| PlatformSidebar.LastDecisiveFrom | components/PlatformSidebar.tsx:78-84 | if some sample is beyond the threshold, there is a last one, at or after it, with no such sample after it |
| PlatformSidebar.AfterMovesAppend | components/PlatformSidebar.tsx:78-84 | feeding two runs of samples one after the other equals feeding their concatenation |
| PlatformSidebar.ReplayIdempotent | components/PlatformSidebar.tsx:78-84 | replaying the same sequence of samples does not change the visibility again |
| PlatformSidebar.Sidebar.OnGesture | components/PlatformSidebar.tsx:73-86 | delivering a gesture's samples in order, each claimed by the capture predicate, leaves the visibility at `AfterMoves(old visibility, samples)` |
| PlatformSidebar.BadgedPlatforms | components/PlatformSidebar.tsx:23-64 | among the listed platforms, the badge condition `ShowsBadge` (a positive unread count, line 115) holds exactly for WhatsApp, Messenger and Instagram |
| MessageList.Filter | components/MessageList.tsx:99 | the filter result is no longer than the list, and every message in it has the selected platform |
| MessageList.FilteredMessages | components/MessageList.tsx:98-100 | the predicate `Truthy` gives JavaScript truthiness of `platform` (line 98); with `platform` undefined or empty the whole list is shown unchanged; otherwise every shown message has that platform; the shown list is never longer than the list |
| MessageList.FilterPositions | components/MessageList.tsx:99 | the filter result is the list's messages at an increasing sequence of positions, and those positions are exactly the ones whose platform matches, so the result is an order-preserving subsequence and nothing matching is dropped |
| MessageList.FilterMembership | components/MessageList.tsx:99 | a message is in the filter result iff it is in the list and has the selected platform |
| MessageList.FilterCount | components/MessageList.tsx:99 | the result's length equals the number of messages in the list with the selected platform |
| MessageList.FilterEmpty | components/MessageList.tsx:99 | the filter result is empty iff no message in the list has the selected platform |
| MessageList.FilterAllMatching | components/MessageList.tsx:99 | filtering a list whose messages all have the platform returns the list unchanged |
| MessageList.FilterUnique | components/MessageList.tsx:99 | a message whose platform no other message shares is the whole filter result for that platform |
| MessageList.FilterIdempotent | components/MessageList.tsx:99 | filtering the result again with the same platform returns it unchanged |
| MessageList.FilteredMessagesIdempotent | components/MessageList.tsx:98-100 | applying the displayed-list selection twice with the same `platform` gives the same list as once |
| MessageList.FilteredMessagesEmpty | components/MessageList.tsx:98-100 | with a non-empty platform selected, nothing is shown iff no message has that platform |
| MessageList.FixtureUnknownPlatform | components/MessageList.tsx:25-100 | selecting a non-empty platform that no sample message has, `signal` among them, shows an empty list |
| MessageList.FixtureOnePerPlatform | components/MessageList.tsx:25-100 | selecting the platform of any sample message shows exactly that one message |
| MessageList.GetPlatformColor | components/MessageList.tsx:140-157 | the six known ids map to their brand colours, and every other string maps to the accent colour |
| MessageList.AccentIffUnknown | components/MessageList.tsx:140-157 | the lookup returns the accent colour iff the id is not one of the six known ids |
| MessageList.PlatformColorInjective | components/MessageList.tsx:140-153 | two different known ids get different colours |
| MessageList.FixtureColorsAreBrandColors | components/MessageList.tsx:25-91 | every sample message's platform indicator has a brand colour, never the accent colour (the indicator is coloured at line 109) |

## Left out

- All rendering is left out: JSX, `FlatList`, `ScrollView`, `Image`, `TouchableOpacity` and style sheets. Also left out is the fact that the platform column is mounted only while the flag is set (PlatformSidebar.tsx:90). This is presentational layout.
- The press handler `onSelectPlatform` is left out. It forwards the platform to a callback outside the component.
- The home-screen drag controller in `app/(tabs)/index.tsx` is not part of this model. Its threshold is 0.4 × 80, and it has coupled offsets, clamping and spring animation on release.
- `components/Header.tsx` is not part of this model. It is purely presentational.
- React hooks, the PanResponder framework and frame scheduling are left out. A gesture session is modelled as the sequence of its move samples, delivered in arrival order.
- Gesture fields other than `dx` are left out, and so is the event object. The sidebar's handlers read only `dx`.
- `unreadCount` is modelled as an integer; every count in the sidebar's platform list is a whole number.
- Image URLs, timestamps and message texts are carried as opaque strings.
- `isActive` and the add button have no behaviour beyond styling, so nothing is stated about them.
