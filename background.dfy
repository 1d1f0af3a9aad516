/** The background script: the context menu's colour table, and the
    handlers that keep one colour record per tab in local storage and
    re-send a tab's colour after it navigates. `chrome.tabs.sendMessage`
    is a host call whose outcome each handler receives as a parameter. */
module Background {
  import opened Messaging
  import opened TabKeys
  import opened Storage

  /** One child entry of the context menu, with the colour it stands for. */
  datatype ColorItem = ColorItem(id: string, title: string, color: string)

  /** A `chrome.contextMenus.create` registration. */
  datatype MenuItem = MenuItem(id: string, title: string, parentId: Option<string>, contexts: seq<string>)

  const ParentId: string := "colorChanger"
  const ResetId: string := "reset"
  const Complete: string := "complete"

  /** The `colors` list registered on install: eight colours, then reset. */
  const Colors: seq<ColorItem> := [
    ColorItem("white", "White", "#ffffff"),
    ColorItem("light-gray", "Light Gray", "#f0f0f0"),
    ColorItem("dark-gray", "Dark Gray", "#333333"),
    ColorItem("black", "Black", "#000000"),
    ColorItem("red", "Red", "#ff6b6b"),
    ColorItem("blue", "Blue", "#45b7d1"),
    ColorItem("green", "Green", "#96ceb4"),
    ColorItem("yellow", "Yellow", "#feca57"),
    ColorItem("reset", "Reset to Original", "reset")
  ]

  /** The `colorMap` the click handler looks the clicked id up in. */
  const ColorMap: map<string, string> := map[
    "white" := "#ffffff",
    "light-gray" := "#f0f0f0",
    "dark-gray" := "#333333",
    "black" := "#000000",
    "red" := "#ff6b6b",
    "blue" := "#45b7d1",
    "green" := "#96ceb4",
    "yellow" := "#feca57"
  ]

  /** What `onInstalled` registers: the parent entry, then one child per
      item of `Colors`, all in the page context. */
  function InstalledMenu(): seq<MenuItem>
  {
    [MenuItem(ParentId, "Change Background Color", None, ["page"])]
      + seq(|Colors|, i requires 0 <= i < |Colors| =>
              MenuItem(Colors[i].id, Colors[i].title, Some(ParentId), ["page"]))
  }

  /** `onInstalled` registers the parent, then the nine entries of
      `Colors` as its children; all ten ids are distinct. */
  lemma InstalledMenuShape()
    ensures |InstalledMenu()| == 10 && InstalledMenu()[0].id == ParentId
    ensures InstalledMenu()[0].parentId.None?
    ensures forall i :: 1 <= i < 10 ==>
              InstalledMenu()[i].parentId == Some(ParentId) && InstalledMenu()[i].id == Colors[i - 1].id
    ensures forall i, j :: 0 <= i < j < |Colors| ==> Colors[i].id != Colors[j].id
    ensures forall i :: 0 <= i < |Colors| ==> Colors[i].id != ParentId
  {
  }

  /** `colorMap` agrees with the registered entries: every non-reset
      entry's colour is what `colorMap` gives for its id, and `colorMap`
      has no key that is not such an entry's id. */
  lemma ColorMapAgreesWithMenu()
    ensures forall i :: 0 <= i < |Colors| && Colors[i].id != ResetId ==>
              Colors[i].id in ColorMap && ColorMap[Colors[i].id] == Colors[i].color
    ensures forall k :: k in ColorMap ==> exists i :: 0 <= i < |Colors| - 1 && Colors[i].id == k
    ensures Colors[|Colors| - 1] == ColorItem(ResetId, "Reset to Original", "reset")
  {
    forall k | k in ColorMap
      ensures exists i :: 0 <= i < |Colors| - 1 && Colors[i].id == k
    {
      var i := if k == "white" then 0 else if k == "light-gray" then 1
               else if k == "dark-gray" then 2 else if k == "black" then 3
               else if k == "red" then 4 else if k == "blue" then 5
               else if k == "green" then 6 else 7;
      assert Colors[i].id == k;
    }
  }

  /** `colorMap` has one key per colour entry, and neither the reset entry
      nor the parent entry is among them. */
  lemma ColorMapSize()
    ensures |ColorMap| == |Colors| - 1 == 8
    ensures ResetId !in ColorMap && ParentId !in ColorMap
  {
  }

  /** The command a click on menu entry `menuItemId` sends, if any. */
  function ClickCommand(menuItemId: string): (cmd: Option<Message>)
    ensures cmd.Some? <==> menuItemId == ResetId || menuItemId in ColorMap
    ensures menuItemId == ResetId ==> cmd == Some(ResetCommand)
    ensures menuItemId in ColorMap ==> cmd == Some(ChangeCommand(ColorMap[menuItemId]))
  {
    if menuItemId == ResetId then Some(ResetCommand)
    else
      var color := Lookup(ColorMap, menuItemId);
      if Truthy(color) then Some(ChangeCommand(color.value)) else None
  }

  /** The store after a click: written only when a command was sent and its
      delivery succeeded. */
  function ClickEffect(entries: map<string, string>, menuItemId: string, tab: nat, outcome: SendOutcome)
    : map<string, string>
  {
    if ClickCommand(menuItemId).None? || outcome.Rejected? then entries
    else if menuItemId == ResetId then entries - {TabKey(tab)}
    else entries[TabKey(tab) := ColorMap[menuItemId]]
  }

  /** The record policy of a menu click. */
  lemma ClickPolicy(entries: map<string, string>, menuItemId: string, tab: nat, outcome: SendOutcome)
    ensures ClickEffect(entries, menuItemId, tab, outcome) - {TabKey(tab)} == entries - {TabKey(tab)}
    ensures outcome.Rejected? ==> ClickEffect(entries, menuItemId, tab, outcome) == entries
    ensures menuItemId != ResetId && menuItemId !in ColorMap ==>
              ClickEffect(entries, menuItemId, tab, outcome) == entries
    ensures outcome.Resolved? && menuItemId == ResetId ==>
              TabKey(tab) !in ClickEffect(entries, menuItemId, tab, outcome)
    ensures outcome.Resolved? && menuItemId in ColorMap ==>
              ClickEffect(entries, menuItemId, tab, outcome)
                == entries[TabKey(tab) := ColorMap[menuItemId]]
  {
  }

  /** Choosing "Red" on tab 7 stores `color_7 -> #ff6b6b` once the page
      agent has received the command, and nothing if it could not. */
  lemma RedOnTabSeven(entries: map<string, string>)
    ensures TabKey(7) == "color_7"
    ensures ClickEffect(entries, "red", 7, Resolved(None)) == entries["color_7" := "#ff6b6b"]
    ensures ClickEffect(entries, "red", 7, Rejected) == entries
  {
  }

  /** Closing a tab deletes its record and no other tab's. */
  lemma {:induction false} CloseOnlyRemovesOwnRecord(entries: map<string, string>, tab: nat)
    ensures Lookup(entries - {TabKey(tab)}, TabKey(tab)).None?
    ensures forall other: nat :: other != tab ==>
              Lookup(entries - {TabKey(tab)}, TabKey(other)) == Lookup(entries, TabKey(other))
  {
    forall other: nat | other != tab
      ensures Lookup(entries - {TabKey(tab)}, TabKey(other)) == Lookup(entries, TabKey(other))
    {
      TabKeyInjective(other, tab);
    }
  }

  /** The background script's answer to a runtime message: it answers a
      `colorChanged` notification with `{success: true}`, and nothing else. */
  function Acknowledge(msg: Message): (r: Option<Response>)
    ensures r.Some? <==> msg.action == ColorChanged
    ensures r.Some? ==> r.value == Response(true, None, None)
  {
    if msg.action == ColorChanged then Some(Response(true, None, None)) else None
  }

  /** `contextMenus.onClicked`: returns the command sent to tab `tab`. */
  method OnClicked(store: LocalStore, menuItemId: string, tab: nat, outcome: SendOutcome)
    returns (sent: Option<Message>)
    modifies store
    ensures sent == ClickCommand(menuItemId)
    ensures store.entries == ClickEffect(old(store.entries), menuItemId, tab, outcome)
  {
    sent := None;
    if menuItemId == ResetId {
      sent := Some(ResetCommand);
      if outcome.Resolved? {
        store.Remove(TabKey(tab));
      }
    } else {
      var color := Lookup(ColorMap, menuItemId);
      if Truthy(color) {
        sent := Some(ChangeCommand(color.value));
        if outcome.Resolved? {
          store.Set(TabKey(tab), color.value);
        }
      }
    }
  }

  /** `tabs.onRemoved`. */
  method OnRemoved(store: LocalStore, tab: nat)
    modifies store
    ensures store.entries == old(store.entries) - {TabKey(tab)}
  {
    store.Remove(TabKey(tab));
  }

  /** `tabs.onUpdated`: re-sends the stored colour once a page with a URL
      has finished loading. It only reads the store. The 500 ms delay and
      the swallowed delivery failure leave no trace in the model. */
  method OnUpdated(store: LocalStore, tab: nat, status: Option<string>, url: Option<string>)
    returns (sent: Option<Message>)
    ensures sent.Some? <==>
              status == Some(Complete) && Truthy(url) && Truthy(Lookup(store.entries, TabKey(tab)))
    ensures sent.Some? ==> sent.value == ChangeCommand(store.entries[TabKey(tab)])
  {
    sent := None;
    if status == Some(Complete) && Truthy(url) {
      var stored := store.Get(TabKey(tab));
      if Truthy(stored) {
        sent := Some(ChangeCommand(stored.value));
      }
    }
  }

  // ---------------------------------------------------------------------
  // The store under a sequence of background events

  datatype Event =
    | Clicked(menuItemId: string, tab: nat, outcome: SendOutcome)
    | Removed(tab: nat)
    | Updated(tab: nat, status: Option<string>, url: Option<string>)

  function Next(entries: map<string, string>, e: Event): map<string, string>
  {
    match e
    case Clicked(menuItemId, tab, outcome) => ClickEffect(entries, menuItemId, tab, outcome)
    case Removed(tab) => entries - {TabKey(tab)}
    case Updated(_, _, _) => entries
  }

  function Run(entries: map<string, string>, events: seq<Event>): map<string, string>
    decreases |events|
  {
    if events == [] then entries else Run(Next(entries, events[0]), events[1..])
  }

  /** Every record is keyed by some tab's `color_<id>` and holds a menu colour. */
  ghost predicate WellFormed(entries: map<string, string>)
  {
    forall k :: k in entries ==> (exists t: nat :: TabKey(t) == k) && entries[k] in ColorMap.Values
  }

  /** The background handlers keep the store well-formed. */
  lemma {:induction false} RunKeepsWellFormed(entries: map<string, string>, events: seq<Event>)
    requires WellFormed(entries)
    ensures WellFormed(Run(entries, events))
    decreases |events|
  {
    if events != [] {
      var next := Next(entries, events[0]);
      if events[0].Clicked? && events[0].outcome.Resolved? && events[0].menuItemId in ColorMap {
        var tab := events[0].tab;
        assert next == entries[TabKey(tab) := ColorMap[events[0].menuItemId]];
        assert forall k :: k in next && k != TabKey(tab) ==> k in entries && next[k] == entries[k];
      }
      assert WellFormed(next);
      RunKeepsWellFormed(next, events[1..]);
    }
  }

  /** Under background events alone, after a tab's record is gone only a
      click for that same tab can bring it back: other tabs' clicks, closes
      and navigations cannot. (The popup's apply also writes the record.) */
  lemma {:induction false} RecordStaysAbsent(entries: map<string, string>, tab: nat, events: seq<Event>)
    requires TabKey(tab) !in entries
    requires forall i :: 0 <= i < |events| ==> !(events[i].Clicked? && events[i].tab == tab)
    ensures TabKey(tab) !in Run(entries, events)
    decreases |events|
  {
    if events != [] {
      var next := Next(entries, events[0]);
      if events[0].Clicked? {
        TabKeyInjective(events[0].tab, tab);
      }
      assert TabKey(tab) !in next;
      RecordStaysAbsent(next, tab, events[1..]);
    }
  }

  /** Closing a tab leaves it without a record for as long as no menu click
      targets it again. */
  lemma ClosedTabHasNoRecord(entries: map<string, string>, tab: nat, events: seq<Event>)
    requires forall i :: 0 <= i < |events| ==> !(events[i].Clicked? && events[i].tab == tab)
    ensures TabKey(tab) !in Run(entries, [Removed(tab)] + events)
  {
    assert ([Removed(tab)] + events)[1..] == events;
    RecordStaysAbsent(entries - {TabKey(tab)}, tab, events);
  }
}
