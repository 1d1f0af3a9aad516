# Background Color Changer — a Dafny model of its colour state

The extension lets a user paint a web page's background from a context menu
or from a popup, remembers the colour per browser tab in
`chrome.storage.local` under the key `color_<tabId>`, and re-sends that
colour when the tab finishes loading a new page. This project models the
logic under that event glue:

- **The page agent** (`content.js`, module `Content`, file `content.dfy`):
  the `originalBackground` snapshot `{color, image, stored}`, captured at
  most once; `changeBackgroundColor`, which paints body and root and hides
  the body image; `resetBackgroundColor`, which restores the snapshot or
  clears the inline styles; and the message listener and its replies. The
  class `PageAgent` holds the script's mutable state field by field; its
  methods are proved against the pure transitions `Capture`, `Apply`,
  `Restore` and `Dispatch` over the value `Agent`, and the lemmas state what
  the source promises about those transitions, alone and over any sequence
  of page events (`Run`).
- **The background script** (`background.js`, module `Background`): the
  menu entries registered on install and the `colorMap` table; the
  click, tab-closed and tab-updated handlers as methods on the shared
  store, proved against `ClickEffect` / `Next` and lemmas about whole
  event sequences; and the runtime-message handler as the pure function
  `Acknowledge`, which never touches the store.
- **The popup** (`popup.js`, module `Popup`): the privileged-URL check,
  the choice between the message path and the CSS fallback (`ApplyRoute`,
  `ResetRoute`), and the class `Panel`, whose methods update the store and
  the `#currentColor` label only when a path succeeds.
- Shared pieces: `Messaging` (message and reply shapes, send outcomes),
  `TabKeys` (the decimal `color_<tabId>` key and its injectivity) and
  `Storage` (the class `LocalStore` over a `map<string, string>`).

Every host call whose result matters is a parameter: the outcome of
`chrome.tabs.sendMessage` (`SendOutcome`: rejected, or resolved with a
reply or with nothing), whether `insertCSS` / `removeCSS` succeeded,
whether the page agent's notification was delivered, rejected or threw,
and the background `getComputedStyle` reports. Timers become ordinary
sequential calls.

Behaviour the model takes from the code, where a reader might expect
otherwise:
- On install the code only calls `contextMenus.create` for each entry; it
  does not clear earlier entries first.
- `storeOriginalBackground` captures only while nothing is stored, so the
  visibility-change call never re-captures once a snapshot exists.
- When the active tab has no `url`, `url.startsWith` throws: apply then
  lands in its CSS fallback, while reset ends in its outer handler with an
  error toast and no fallback.
- A colour record holding the empty string is falsy: the navigation
  handler does not re-send it, and a reopened popup shows "Default" for it.
- A menu click writes or deletes the tab's record whenever `sendMessage`
  resolves, even with a reply `{success: false, ...}`: the background script
  never reads the reply. The popup, by contrast, writes only when the reply
  has `success`.

## Model

| member | source | states |
|---|---|---|
| TabKeys.NatToString | background.js:56 | a tab id renders as a non-empty string of decimal digits, one digit exactly for ids below 10, no leading zero otherwise |
| TabKeys.NatToStringInjective | background.js:69 | two tab ids with the same rendering are the same id |
| TabKeys.TabKey | background.js:80 | every record key starts with `color_` and continues with digits only |
| TabKeys.TabKeyInjective | background.js:91 | `color_<a>` and `color_<b>` are the same key if and only if a and b are the same tab, so each tab has at most one record and writes for one tab never reach another's |
| Storage.LocalStore.Get | background.js:91-92 | `get([key])` returns the stored value exactly when the key is present and changes nothing |
| Storage.LocalStore.Set | background.js:68-70 | `set` overwrites or adds that one key and keeps every other entry |
| Storage.LocalStore.Remove | background.js:80 | `remove` deletes that one key, is harmless on an absent key, and keeps every other entry |
| Content.Reply | content.js:74-87 | the listener replies success exactly for `changeBackground` and `resetBackground` handled without an exception; any other action gets `{success: false, message: 'Unknown action'}`; an exception gets `{success: false, error}`; a success carries the matching 'changed' or 'reset' message text and no error |
| Content.Capture | content.js:9-18 | `storeOriginalBackground` as a transition: take the computed background as snapshot only when none is stored (properties in `CaptureAtMostOnce`) |
| Content.Apply | content.js:21-30 | `changeBackgroundColor` as a transition: capture, then body colour, `none` image and root colour (properties in `ApplyPaints`, `ApplyLastColourWins`) |
| Content.Restore | content.js:44-59 | `resetBackgroundColor` as a transition: the snapshot's colour and image with an empty root colour, or all three cleared (properties in `RestoreExact`) |
| Content.Dispatch | content.js:75-83 | the listener's state change: apply for `changeBackground`, restore for `resetBackground`, nothing otherwise (used by `PageAgent.OnMessage` and `RunSnapshot`) |
| Content.CaptureAtMostOnce | content.js:9-18 | the snapshot is taken only when none is stored, then holds the computed colour and image and leaves the styles alone; once stored, later captures change nothing |
| Content.ApplyPaints | content.js:21-30 | after an apply the body colour and root colour are the new colour and the body image is `none`; the snapshot is the earlier one if there was one, otherwise the background seen just before painting |
| Content.ApplyLastColourWins | content.js:21-30 | two applies keep the first apply's snapshot and show the second colour, the same as applying the second colour alone; applying the same colour twice equals applying it once |
| Content.RestoreExact | content.js:44-59 | with a snapshot, reset sets body colour and image to exactly the captured values and root colour to `''`; without one it sets all three to `''`; reset never changes the snapshot and is idempotent |
| Content.ApplyThenRestore | content.js:21-59 | on a page without a snapshot, apply then reset sets the body's inline colour and image to the values the computed style reported just before the apply, and the root's inline colour to `''`, whatever the page's inline styles were |
| Content.RunSnapshot | content.js:92-103 | after any sequence of loads, visibility changes and messages, the snapshot is the one already held or else the background seen by the first capturing event |
| Content.ResetAlwaysRestoresFirstCapture | content.js:44-59 | however many apply/reset cycles and visibility changes happen, a reset restores the background the first capture saw |
| Content.PageAgent.constructor | content.js:2-6 | a fresh agent has `{color: null, image: null, stored: false}` over the page's own inline styles |
| Content.PageAgent.StoreOriginalBackground | content.js:9-18 | updates the fields exactly as `Capture` and keeps colour and image stored together or not at all |
| Content.PageAgent.ChangeBackgroundColor | content.js:21-41 | updates the fields exactly as `Apply`, sends `{action: 'colorChanged', color}` and lets only a synchronous throw of that send escape |
| Content.PageAgent.ResetBackgroundColor | content.js:44-68 | updates the fields exactly as `Restore` and sends `{action: 'colorChanged', color: 'reset'}` |
| Content.PageAgent.OnMessage | content.js:71-90 | dispatches on the action, replies with `Reply`, and always returns true to keep the channel open |
| Content.PageAgent.OnVisibilityChange | content.js:100-104 | becoming visible runs the capture, becoming hidden changes nothing |
| Background.InstalledMenu | background.js:2-33 | the `contextMenus.create` calls of `onInstalled`, in order (properties in `InstalledMenuShape`) |
| Background.InstalledMenuShape | background.js:2-33 | install registers the parent `colorChanger` and then nine children under it, in the order of `colors`; all ten ids, the parent's included, are distinct |
| Background.ColorMapAgreesWithMenu | background.js:11-46 | every non-reset entry of `colors` has its colour under its id in `colorMap`, `colorMap` has no key outside those entries, and the last entry is reset |
| Background.ColorMapSize | background.js:37-46 | `colorMap` holds eight colours and neither `reset` nor the parent id |
| Background.ClickCommand | background.js:49-71 | a click sends a command exactly for `reset` (a `resetBackground`) or an id of `colorMap` (a `changeBackground` with that colour); the parent or any other id sends nothing |
| Background.ClickEffect | background.js:48-74 | the store after a click: written only when a command was sent and delivered (properties in `ClickPolicy`, `RecordStaysAbsent`) |
| Background.ClickPolicy | background.js:48-74 | a click changes no record but the clicked tab's; a failed send or an unknown id leaves the store unchanged; a delivered reset deletes the tab's record; a delivered colour overwrites it with that colour |
| Background.RedOnTabSeven | background.js:58-70 | choosing Red on tab 7 stores `color_7 -> #ff6b6b` when the send succeeds and nothing when it fails |
| Background.CloseOnlyRemovesOwnRecord | background.js:78-84 | closing a tab deletes its record and leaves every other tab's record as it was |
| Background.Acknowledge | background.js:115-120 | a `colorChanged` message is answered with exactly `{success: true}`; other messages get no answer |
| Background.OnClicked | background.js:36-75 | sends `ClickCommand`'s command and leaves the store as `ClickEffect` says |
| Background.OnRemoved | background.js:78-84 | deletes the closed tab's key and nothing else |
| Background.OnUpdated | background.js:87-112 | sends `changeBackground` with the stored colour exactly when the status is `complete`, the tab has a URL and a truthy colour is stored; it never writes the store |
| Background.RunKeepsWellFormed | background.js:48-84 | under any sequence of background events every record stays keyed by some tab's `color_<id>` and holds one of the menu colours |
| Background.RecordStaysAbsent | background.js:58-80 | under background events alone (clicks, closes, navigations), a tab without a record gets one only from a menu click on that same tab |
| Background.ClosedTabHasNoRecord | background.js:78-80 | after a tab closes, it has no record whatever other tabs, closes and navigations follow, until a click targets it again |
| Popup.IsPrivileged | popup.js:45 | the four `startsWith` tests in source order (proved equal to the prefix list in `IsPrivilegedMatchesPrefixList`) |
| Popup.IsPrivilegedMatchesPrefixList | popup.js:45-48 | a URL is refused exactly when one of `chrome://`, `chrome-extension://`, `edge://`, `about:` is a prefix of it |
| Popup.ApplyRoute | popup.js:40-118 | apply is refused exactly on privileged URLs, succeeds by message exactly when the reply has `success`, and otherwise succeeds by CSS insertion exactly when that succeeds, including when the URL is missing |
| Popup.ResetRoute | popup.js:121-185 | reset is refused exactly on privileged URLs, succeeds by message exactly when the reply has `success`, falls through to CSS removal on any other reply or a rejection, and fails outright when the URL is missing |
| Popup.ApplyEffect | popup.js:70-116 | store and label after an apply: the tab's record and `Current: <colour>` on either success path, unchanged otherwise (properties in `ApplyWritesOnlyOnSuccess`, `ApplyLabelInSync`) |
| Popup.ResetEffect | popup.js:137-179 | store and label after a reset: the tab's record deleted and `Current: Default` on either success path, unchanged otherwise (properties in `ResetDeletesOnlyOnSuccess`, `ResetLabelInSync`) |
| Popup.ApplyFeedback | popup.js:46-115 | the toast text for each way an apply ends (used by `Panel.ChangeBackgroundColor`) |
| Popup.ResetFeedback | popup.js:127-183 | the toast text for each way a reset ends (used by `Panel.ResetBackgroundColor`) |
| Popup.InitialLabel | popup.js:10-13 | `Current: <stored>` for a truthy stored value, `Current: Default` otherwise (used by `Panel.constructor` and the label lemmas) |
| Popup.ApplyWritesOnlyOnSuccess | popup.js:70-116 | a successful apply by either path sets only the tab's record to the colour and shows `Current: <colour>`, both paths making the same update; a refused or failed apply changes neither store nor label |
| Popup.ResetDeletesOnlyOnSuccess | popup.js:137-179 | a successful reset by either path deletes only the tab's record and shows `Current: Default`; otherwise nothing changes |
| Popup.ApplyLabelInSync | popup.js:70-77 | after a successful apply the label equals what a reopened popup shows if and only if the colour is not empty |
| Popup.ResetLabelInSync | popup.js:137-171 | after a successful reset the label agrees with the store; a refused or failed one keeps whatever agreement there was |
| Popup.AgentReplyDecidesPath | popup.js:65-83 | the page agent's reply sends apply and reset down the primary path exactly when the action was known and handled without an exception |
| Popup.Panel.constructor | popup.js:2-13 | on open the label is `Current: <stored>` for a truthy stored colour and `Current: Default` otherwise, in step with the store |
| Popup.Panel.ChangeBackgroundColor | popup.js:40-118 | sends no command on a privileged or URL-less tab and `{action: 'changeBackground', color}` otherwise; store, label and toast change exactly as `ApplyRoute` and `ApplyEffect` say |
| Popup.Panel.ResetBackgroundColor | popup.js:121-185 | sends no command on a privileged or URL-less tab and `{action: 'resetBackground'}` otherwise; store, label and toast change exactly as `ResetRoute` and `ResetEffect` say |

## Left out

- The `chrome.*` calls themselves (`tabs.sendMessage`, `scripting.executeScript`, `insertCSS`, `removeCSS`, `contextMenus.create`): each is an outcome parameter; what they do inside the browser is not visible in this code.
- `chrome.storage.local` calls always complete: a rejected `get`, `set` or `remove` is not modelled (in the popup it would move a primary-path success into the fallback).
- `chrome.tabs.query`: the active tab is a parameter, assumed present and the same when the popup's fallback queries it again.
- The outcome of `executeScript` in the popup: its failure is swallowed and nothing afterwards depends on it, so it is not a parameter.
- Timing: the 100 ms settle delay, the 500 ms restore delay, the 100 ms visibility delay and the 2 s toast; the model is sequential.
- Interleaving of concurrent commands and awaits that never resolve.
- CSS semantics: `getComputedStyle`, `!important`, and the CSS text given to `insertCSS` / `removeCSS`; style values are opaque strings.
- The toast's DOM construction, `console` logging and the injected transition `<style>` element; the model returns only the toast's text.
- Content.PageAgent.OnMessage: only a synchronous throw of the agent's notification is modelled as an exception; a page without `document.body` is not modelled.
- Messaging.Message: a `changeBackground` message without a `color` property is not modelled; messages that carry no colour have `color == ""`.
- Tab ids are non-negative integers; the `-1` "no tab" id never reaches these handlers.
- Menu ids come only from the registered entries, so inherited object properties of `colorMap` (such as `constructor`) are not looked up.
- The root element's own inline background colour: reset writes `''` there (content.js:49) and the snapshot holds only the body's computed colour and image, so a page's own inline `<html>` background is not captured or restored.
- Duplicate-id errors when menus are registered again on reinstall: host behaviour.
- Background.RecordStaysAbsent: covers background events alone; the popup's apply also writes `color_<tabId>` on either success path.
- Background.RunKeepsWellFormed: covers the background handlers alone; the popup may also store arbitrary colours under the same keys.
