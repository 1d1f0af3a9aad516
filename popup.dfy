/** The popup panel: it shows the active tab's stored colour, and applies or
    resets a colour on that tab, first through the page agent and, when
    that fails, through CSS inserted or removed by the host. The colour
    record and the "Current: ..." label change only when one of the two
    paths succeeds. Each host call is a parameter that says whether it
    succeeded. */
module Popup {
  import opened Messaging
  import opened TabKeys
  import opened Storage
  import Content

  /** The active tab as `chrome.tabs.query` reports it; `url` may be absent. */
  datatype Tab = Tab(id: nat, url: Option<string>)

  /** Which way an apply or reset ended. */
  datatype Route =
    | Refused   // a browser-internal page: nothing is attempted
    | Primary   // the page agent replied with success
    | Fallback  // the agent path failed, the CSS call succeeded
    | Failed    // every path failed

  /** The store and the `#currentColor` label, as one value. */
  datatype View = View(entries: map<string, string>, currentColor: string)

  const PrivilegedPrefixes: seq<string> := ["chrome://", "chrome-extension://", "edge://", "about:"]
  const DefaultLabel: string := "Current: Default"

  /** `s.startsWith(prefix)`: Dafny's sequence prefix relation. */
  predicate StartsWith(s: string, prefix: string)
  {
    prefix <= s
  }

  /** The pages the popup refuses to touch: the four prefix tests, in the
      order the popup makes them. */
  predicate IsPrivileged(url: string)
  {
    StartsWith(url, "chrome://") || StartsWith(url, "chrome-extension://")
      || StartsWith(url, "edge://") || StartsWith(url, "about:")
  }

  /** A URL is refused exactly when one of the listed prefixes is a prefix
      of it. */
  lemma IsPrivilegedMatchesPrefixList(url: string)
    ensures IsPrivileged(url) <==> exists p :: p in PrivilegedPrefixes && p <= url
  {
    var prefixes := PrivilegedPrefixes;
    if IsPrivileged(url) {
      var i := if StartsWith(url, "chrome://") then 0
               else if StartsWith(url, "chrome-extension://") then 1
               else if StartsWith(url, "edge://") then 2 else 3;
      assert prefixes[i] in prefixes && prefixes[i] <= url;
    }
  }

  /** `response && response.success` for an awaited `sendMessage`. */
  predicate Succeeded(send: SendOutcome)
  {
    send.Resolved? && send.reply.Some? && send.reply.value.success
  }

  /** How `changeBackgroundColor` ends. An absent `url` makes `startsWith`
      throw, and that exception lands in the CSS fallback. */
  function ApplyRoute(url: Option<string>, send: SendOutcome, insertOk: bool): (r: Route)
    ensures r == Refused <==> url.Some? && IsPrivileged(url.value)
    ensures r == Primary <==> url.Some? && !IsPrivileged(url.value) && Succeeded(send)
    ensures r == Fallback <==> (url.None? || (!IsPrivileged(url.value) && !Succeeded(send))) && insertOk
    ensures r == Failed <==> (url.None? || (!IsPrivileged(url.value) && !Succeeded(send))) && !insertOk
  {
    match url
    case None => if insertOk then Fallback else Failed
    case Some(u) =>
      if IsPrivileged(u) then Refused
      else if Succeeded(send) then Primary
      else if insertOk then Fallback
      else Failed
  }

  /** How `resetBackgroundColor` ends. A reply without `success` falls
      through to `removeCSS`; an absent `url` ends in the outer handler,
      which has no fallback. */
  function ResetRoute(url: Option<string>, send: SendOutcome, removeOk: bool): (r: Route)
    ensures url.None? ==> r == Failed
    ensures r == Refused <==> url.Some? && IsPrivileged(url.value)
    ensures r == Primary <==> url.Some? && !IsPrivileged(url.value) && Succeeded(send)
    ensures r == Fallback <==> url.Some? && !IsPrivileged(url.value) && !Succeeded(send) && removeOk
  {
    match url
    case None => Failed
    case Some(u) =>
      if IsPrivileged(u) then Refused
      else if Succeeded(send) then Primary
      else if removeOk then Fallback
      else Failed
  }

  function ApplyFeedback(r: Route): string
  {
    match r
    case Refused => "✗ Cannot modify this page"
    case Primary => "✓ Color applied!"
    case Fallback => "✓ Color applied (fallback)!"
    case Failed => "✗ Error applying color"
  }

  function ResetFeedback(r: Route): string
  {
    match r
    case Refused => "✗ Cannot modify this page"
    case Primary => "✓ Reset to original!"
    case Fallback => "✓ Reset (fallback)!"
    case Failed => "✗ Error resetting color"
  }

  /** The label the popup shows for a stored value when it opens. */
  function InitialLabel(stored: Option<string>): string
  {
    if Truthy(stored) then "Current: " + stored.value else DefaultLabel
  }

  /** The label agrees with what a freshly opened popup would show for `tab`. */
  ghost predicate InSync(v: View, tab: nat)
  {
    v.currentColor == InitialLabel(Lookup(v.entries, TabKey(tab)))
  }

  function ApplyEffect(v: View, tab: nat, color: string, r: Route): View
  {
    if r == Primary || r == Fallback then View(v.entries[TabKey(tab) := color], "Current: " + color)
    else v
  }

  function ResetEffect(v: View, tab: nat, r: Route): View
  {
    if r == Primary || r == Fallback then View(v.entries - {TabKey(tab)}, DefaultLabel)
    else v
  }

  // ---------------------------------------------------------------------
  // Properties

  /** An apply that succeeds by either path records the colour under the
      tab's key and nowhere else and shows it; a refused or failed apply
      changes neither store nor label. Both paths make the same update. */
  lemma ApplyWritesOnlyOnSuccess(v: View, tab: Tab, color: string, send: SendOutcome, insertOk: bool)
    ensures var r := ApplyRoute(tab.url, send, insertOk);
            var w := ApplyEffect(v, tab.id, color, r);
            (r == Primary || r == Fallback ==>
               Lookup(w.entries, TabKey(tab.id)) == Some(color)
               && w.entries - {TabKey(tab.id)} == v.entries - {TabKey(tab.id)}
               && w.currentColor == "Current: " + color)
            && (r == Refused || r == Failed ==> w == v)
    ensures ApplyEffect(v, tab.id, color, Primary) == ApplyEffect(v, tab.id, color, Fallback)
  {
  }

  /** A reset that succeeds by either path deletes the tab's record and no
      other, and shows the default label; otherwise nothing changes. */
  lemma ResetDeletesOnlyOnSuccess(v: View, tab: Tab, send: SendOutcome, removeOk: bool)
    ensures var r := ResetRoute(tab.url, send, removeOk);
            var w := ResetEffect(v, tab.id, r);
            (r == Primary || r == Fallback ==>
               Lookup(w.entries, TabKey(tab.id)).None?
               && w.entries - {TabKey(tab.id)} == v.entries - {TabKey(tab.id)}
               && w.currentColor == DefaultLabel)
            && (r == Refused || r == Failed ==> w == v)
  {
  }

  /** After a successful apply the label says what a reopened popup would
      show exactly when the colour is not empty: an empty colour is stored,
      but reads back as falsy and displays as "Default". */
  lemma ApplyLabelInSync(v: View, tab: nat, color: string, r: Route)
    requires r == Primary || r == Fallback
    ensures InSync(ApplyEffect(v, tab, color, r), tab) <==> color != ""
  {
  }

  /** A successful reset always leaves the label in step with the store,
      and a failed or refused action keeps whatever agreement there was. */
  lemma ResetLabelInSync(v: View, tab: nat, r: Route)
    ensures r == Primary || r == Fallback ==> InSync(ResetEffect(v, tab, r), tab)
    ensures r == Refused || r == Failed ==> (InSync(ResetEffect(v, tab, r), tab) <==> InSync(v, tab))
  {
  }

  /** What the page agent answers decides the popup's path: its reply to a
      colour or reset command takes the primary path unless its
      notification threw, and an unknown action's reply sends the popup to
      its fallback. */
  lemma AgentReplyDecidesPath(action: string, notify: Content.Notify, url: string, fallbackOk: bool)
    requires !IsPrivileged(url)
    ensures var send := Resolved(Some(Content.Reply(action, notify)));
            var handled := (action == ChangeBackground || action == ResetBackground) && !notify.Throws?;
            (ApplyRoute(Some(url), send, fallbackOk) == Primary <==> handled)
            && (ResetRoute(Some(url), send, fallbackOk) == Primary <==> handled)
  {
  }

  // ---------------------------------------------------------------------
  // The popup page: its label element and the shared store

  class Panel {
    const store: LocalStore
    var currentColor: string   // textContent of #currentColor

    ghost function Current(): View
      reads this, store
    {
      View(store.entries, currentColor)
    }

    /** The `DOMContentLoaded` handler: show the active tab's record. */
    constructor (store: LocalStore, active: Tab)
      ensures this.store == store
      ensures currentColor == InitialLabel(Lookup(store.entries, TabKey(active.id)))
      ensures InSync(Current(), active.id)
    {
      this.store := store;
      var stored := store.Get(TabKey(active.id));
      currentColor := InitialLabel(stored);
    }

    /** `changeBackgroundColor` for the active tab; returns the command it
        sends to the page agent and the toast text. `send` is the agent's
        answer and `insertOk` says whether `insertCSS` succeeded. */
    method ChangeBackgroundColor(color: string, active: Tab, send: SendOutcome, insertOk: bool)
      returns (sent: Option<Message>, feedback: string)
      modifies this, store
      ensures sent == if active.url.Some? && !IsPrivileged(active.url.value)
                      then Some(ChangeCommand(color)) else None
      ensures Current() == ApplyEffect(old(Current()), active.id, color, ApplyRoute(active.url, send, insertOk))
      ensures feedback == ApplyFeedback(ApplyRoute(active.url, send, insertOk))
    {
      sent := None;
      if active.url.Some? {
        if IsPrivileged(active.url.value) {
          feedback := ApplyFeedback(Refused);
          return;
        }
        // The script injection's failure is swallowed; only `send` matters.
        sent := Some(ChangeCommand(color));
        if Succeeded(send) {
          store.Set(TabKey(active.id), color);
          currentColor := "Current: " + color;
          feedback := ApplyFeedback(Primary);
          return;
        }
      }
      if insertOk {
        store.Set(TabKey(active.id), color);
        currentColor := "Current: " + color;
        feedback := ApplyFeedback(Fallback);
      } else {
        feedback := ApplyFeedback(Failed);
      }
    }

    /** `resetBackgroundColor` for the active tab; returns the command it
        sends to the page agent and the toast text. `removeOk` says whether
        `removeCSS` succeeded. */
    method ResetBackgroundColor(active: Tab, send: SendOutcome, removeOk: bool)
      returns (sent: Option<Message>, feedback: string)
      modifies this, store
      ensures sent == if active.url.Some? && !IsPrivileged(active.url.value)
                      then Some(ResetCommand) else None
      ensures Current() == ResetEffect(old(Current()), active.id, ResetRoute(active.url, send, removeOk))
      ensures feedback == ResetFeedback(ResetRoute(active.url, send, removeOk))
    {
      sent := None;
      if active.url.None? {
        feedback := ResetFeedback(Failed);
        return;
      }
      if IsPrivileged(active.url.value) {
        feedback := ResetFeedback(Refused);
        return;
      }
      sent := Some(ResetCommand);
      if Succeeded(send) {
        store.Remove(TabKey(active.id));
        currentColor := DefaultLabel;
        feedback := ResetFeedback(Primary);
        return;
      }
      if removeOk {
        store.Remove(TabKey(active.id));
        currentColor := DefaultLabel;
        feedback := ResetFeedback(Fallback);
      } else {
        feedback := ResetFeedback(Failed);
      }
    }
  }
}
