/** The terminal host browser: the host list, the search field that filters
    it, key dispatch, the one-slot popup and host selection. The urwid widgets
    are reduced to the state they expose; calls into the core are recorded. */
module Tui {
  import opened HostFilter

  datatype Option<T> = None | Some(value: T)

  /** A host row created when the list is first loaded: name and the core's port. */
  datatype HostItem = HostItem(hostname: string, port: int)

  /** A row of the host list. Rows built at start-up are host items; rows
      rebuilt by a search are plain menu items captioned with the host name. */
  datatype Entry = HostRow(item: HostItem) | MenuRow(caption: string)

  /** What a row hands to `host_chosen` when it is activated: the host item
      itself for a start-up row, the bare host name for a rebuilt row. */
  datatype Choice = ChosenItem(item: HostItem) | ChosenName(name: string)

  /** Calls the browser makes into the core. */
  datatype CoreCall = RefreshAllowedHosts(force: bool) | InitConnection(choice: Choice)

  /** Input that reaches the unhandled-input handler. */
  datatype Key = Mouse(event: string) | Press(name: string)

  /** `Initiated`: `init_connection` was called; `NoHostnameAttribute`: reading
      `choice.hostname` raised AttributeError first, so the core was not called. */
  datatype ChosenOutcome = Initiated | NoHostnameAttribute

  /** `Handled` is the handler's `True`; `ExitMainLoop` is the exception that ends the loop. */
  datatype KeyOutcome = Handled | ExitMainLoop

  /** Which build produced the list on screen: the start-up build, a search
      with `text` as written (menu rows), or the corrected search with `text`
      (host item rows carrying the core's port, like the start-up build). */
  datatype ListView = Initial | Searched(text: string) | ItemSearched(text: string)

  const RefreshedMessage: string := "Hosts Refreshed"

  function Caption(e: Entry): (name: string)
  {
    match e
    case HostRow(item) => item.hostname
    case MenuRow(caption) => caption
  }

  /** The argument `host_chosen` receives when row `e` is activated. */
  function ChoiceOf(e: Entry): (c: Choice)
  {
    match e
    case HostRow(item) => ChosenItem(item)
    case MenuRow(caption) => ChosenName(caption)
  }

  /** Python's `choice.hostname`: a host item has the attribute, a bare string does not. */
  function HostnameAttribute(c: Choice): (h: Option<string>)
  {
    match c
    case ChosenItem(item) => Some(item.hostname)
    case ChosenName(_) => None
  }

  /** One host item row per allow-listed host, in order, each with port `port`. */
  function HostRows(hosts: seq<string>, port: int): (rows: seq<Entry>)
  {
    seq(|hosts|, i requires 0 <= i < |hosts| => HostRow(HostItem(hosts[i], port)))
  }

  /** One menu row per host name, in order. */
  function MenuRows(names: seq<string>): (rows: seq<Entry>)
  {
    seq(|names|, i requires 0 <= i < |names| => MenuRow(names[i]))
  }

  function Captions(rows: seq<Entry>): (names: seq<string>)
  {
    seq(|rows|, i requires 0 <= i < |rows| => Caption(rows[i]))
  }

  /** The list that the build `v` produces from the allow-list `hosts`. */
  function View(v: ListView, hosts: seq<string>, port: int): (rows: seq<Entry>)
  {
    match v
    case Initial => HostRows(hosts, port)
    case Searched(text) => MenuRows(Filter(text, hosts))
    case ItemSearched(text) => HostRows(Filter(text, hosts), port)
  }

  /** Whatever build produced it, the list shows allow-listed host names in
      allow-list order, and a name is shown iff it is allow-listed and contains
      the text of the build (for the start-up build: iff it is allow-listed). */
  lemma ViewIsOrderedSelection(v: ListView, hosts: seq<string>, port: int, h: string)
    ensures IsSubsequence(Captions(View(v, hosts, port)), hosts)
    ensures h in Captions(View(v, hosts, port)) <==>
              h in hosts && (!v.Initial? ==> Contains(v.text, h))
  {
    match v
    case Initial =>
      assert Captions(HostRows(hosts, port)) == hosts;
      SelfSubsequence(hosts);
    case Searched(text) =>
      assert Captions(MenuRows(Filter(text, hosts))) == Filter(text, hosts);
      FilterIsSubsequence(text, hosts);
      FilterMembership(text, hosts, h);
    case ItemSearched(text) =>
      assert Captions(HostRows(Filter(text, hosts), port)) == Filter(text, hosts);
      FilterIsSubsequence(text, hosts);
      FilterMembership(text, hosts, h);
  }

  /** What activating row `i` of a build hands to `host_chosen`: the start-up
      build hands the host item of the `i`-th allow-listed host with the core's
      port; a search build hands the bare `i`-th matching name, which is
      allow-listed and contains the search text. */
  lemma ChoiceOfView(v: ListView, hosts: seq<string>, port: int, i: nat)
    requires i < |View(v, hosts, port)|
    ensures v == Initial ==> ChoiceOf(View(v, hosts, port)[i]) == ChosenItem(HostItem(hosts[i], port))
    ensures v.Searched? ==>
              i < |Filter(v.text, hosts)| &&
              ChoiceOf(View(v, hosts, port)[i]) == ChosenName(Filter(v.text, hosts)[i]) &&
              Filter(v.text, hosts)[i] in hosts && Contains(v.text, Filter(v.text, hosts)[i])
  {
    if v.Searched? {
      assert Filter(v.text, hosts)[i] in Filter(v.text, hosts);
    }
  }

  /** As written, no row of a search build can start a connection: the bare
      name it hands over has no `hostname` attribute. */
  lemma SearchedRowHasNoHostname(text: string, hosts: seq<string>, port: int, i: nat)
    requires i < |View(Searched(text), hosts, port)|
    ensures HostnameAttribute(ChoiceOf(View(Searched(text), hosts, port)[i])) == None
  {
    ChoiceOfView(Searched(text), hosts, port, i);
  }

  /** Counterexample: after typing "db", Enter on the first row ("db1.internal")
      reaches `host_chosen` with a choice that has no `hostname`. */
  lemma DbRowCannotConnect()
    ensures View(Searched("db"), ["db1.internal", "web1.internal"], 22)[0] == MenuRow("db1.internal")
    ensures HostnameAttribute(ChoiceOf(MenuRow("db1.internal"))) == None
  {
    assert "db1.internal"[..2] == "db";
    var hosts := ["db1.internal", "web1.internal"];
    assert Filter("db", hosts)[0] == "db1.internal";
  }

  /** Corrected: when searches build host item rows, every row of every build
      the browser can show hands `host_chosen` the host item of the allow-listed
      host in its caption with the core's port, so its `hostname` read succeeds
      and `HostChosen` initiates a connection to that host. */
  lemma CorrectedRowsInitiate(v: ListView, hosts: seq<string>, port: int, i: nat)
    requires !v.Searched?
    requires i < |View(v, hosts, port)|
    ensures ChoiceOf(View(v, hosts, port)[i]) == ChosenItem(HostItem(Caption(View(v, hosts, port)[i]), port))
    ensures HostnameAttribute(ChoiceOf(View(v, hosts, port)[i])) == Some(Caption(View(v, hosts, port)[i]))
    ensures Caption(View(v, hosts, port)[i]) in hosts
  {
    if v.ItemSearched? {
      assert Filter(v.text, hosts)[i] in Filter(v.text, hosts);
    }
  }

  lemma {:induction false} SelfSubsequence(s: seq<string>)
    ensures IsSubsequence(s, s)
    decreases |s|
  {
    if s != [] {
      SelfSubsequence(s[1..]);
    }
  }

  /** The browser window. `allowedHosts` is the core user's allow-list as the
      window reads it, `corePort` the core's default port. */
  class Window {
    var allowedHosts: seq<string>
    const corePort: int
    var query: string
    var displayed: seq<Entry>
    var popupOpen: bool
    var popupMsg: string
    var exited: bool
    ghost var view: ListView
    ghost var coreCalls: seq<CoreCall>

    /** The list on screen is always the build `view` of the current allow-list. */
    ghost predicate Valid()
      reads this
    {
      displayed == View(view, allowedHosts, corePort)
    }

    /** Building the window: the start-up host list, an empty search field,
        no popup message shown. */
    constructor (allowed: seq<string>, port: int)
      ensures Valid() && view == Initial
      ensures allowedHosts == allowed && corePort == port
      ensures displayed == HostRows(allowed, port)
      ensures query == "" && !popupOpen && popupMsg == "" && !exited && coreCalls == []
    {
      allowedHosts := allowed;
      corePort := port;
      query := "";
      displayed := [];
      popupOpen := false;
      popupMsg := "";
      exited := false;
      view := Initial;
      coreCalls := [];
      new;
      displayed := RefreshHosts(allowed);
    }

    /** The start-up list: one host item per allow-listed host, in order,
        each carrying the core's default port. */
    method RefreshHosts(hosts: seq<string>) returns (body: seq<Entry>)
      ensures |body| == |hosts|
      ensures forall i :: 0 <= i < |hosts| ==> body[i] == HostRow(HostItem(hosts[i], corePort))
    {
      body := [];
      for i := 0 to |hosts|
        invariant |body| == i
        invariant forall k :: 0 <= k < i ==> body[k] == HostRow(HostItem(hosts[k], corePort))
      {
        body := body + [HostRow(HostItem(hosts[i], corePort))];
      }
    }

    /** Activating a host as written: the log line reads `choice.hostname`
        first, so a bare-name choice raises and the core is not called; a host
        item makes exactly one `init_connection` call. */
    method HostChosen(choice: Choice) returns (outcome: ChosenOutcome)
      modifies this`coreCalls
      ensures outcome == Initiated <==> choice.ChosenItem?
      ensures outcome == Initiated ==> coreCalls == old(coreCalls) + [InitConnection(choice)]
      ensures outcome == NoHostnameAttribute ==> coreCalls == old(coreCalls)
    {
      var hostname := HostnameAttribute(choice);
      if hostname.None? {
        return NoHostnameAttribute;
      }
      coreCalls := coreCalls + [InitConnection(choice)];
      outcome := Initiated;
    }

    /** A key pressed on the focused row `i`: `enter` activates it, any other
        key is handed back unhandled. */
    method RowKeypress(i: nat, key: string) returns (unhandled: Option<string>, chosen: Option<ChosenOutcome>)
      requires i < |displayed|
      modifies this`coreCalls
      ensures key == "enter" ==> unhandled == None && chosen.Some?
      ensures key == "enter" && displayed[i].HostRow? ==>
                chosen == Some(Initiated) &&
                coreCalls == old(coreCalls) + [InitConnection(ChosenItem(displayed[i].item))]
      ensures key == "enter" && displayed[i].MenuRow? ==>
                chosen == Some(NoHostnameAttribute) && coreCalls == old(coreCalls)
      ensures key != "enter" ==> unhandled == Some(key) && chosen == None && coreCalls == old(coreCalls)
    {
      if key == "enter" {
        var outcome := HostChosen(ChoiceOf(displayed[i]));
        unhandled, chosen := None, Some(outcome);
      } else {
        unhandled, chosen := Some(key), None;
      }
    }

    /** The search field changed to `text`: the list is emptied, then refilled
        with the allow-listed hosts containing `text`, in allow-list order. */
    method SearchChange(text: string)
      modifies this`displayed, this`view
      ensures Valid() && view == Searched(text)
      ensures displayed == MenuRows(Filter(text, allowedHosts))
    {
      displayed := [];
      for i := 0 to |allowedHosts|
        invariant displayed == MenuRows(Filter(text, allowedHosts[..i]))
      {
        var hostentry := allowedHosts[i];
        assert allowedHosts[..i + 1] == allowedHosts[..i] + [hostentry];
        FilterAppend(text, allowedHosts[..i], [hostentry]);
        if Contains(text, hostentry) {
          displayed := displayed + [MenuRow(hostentry)];
        }
      }
      assert allowedHosts[..|allowedHosts|] == allowedHosts;
      view := Searched(text);
    }

    /** Corrected search change: the same clear-and-refill loop, but each
        matching host becomes a host item with the core's port, as at start-up. */
    method SearchChangeWithItems(text: string)
      modifies this`displayed, this`view
      ensures Valid() && view == ItemSearched(text)
      ensures displayed == HostRows(Filter(text, allowedHosts), corePort)
    {
      displayed := [];
      for i := 0 to |allowedHosts|
        invariant displayed == HostRows(Filter(text, allowedHosts[..i]), corePort)
      {
        var hostentry := allowedHosts[i];
        assert allowedHosts[..i + 1] == allowedHosts[..i] + [hostentry];
        FilterAppend(text, allowedHosts[..i], [hostentry]);
        if Contains(text, hostentry) {
          displayed := displayed + [HostRow(HostItem(hostentry, corePort))];
        }
      }
      assert allowedHosts[..|allowedHosts|] == allowedHosts;
      view := ItemSearched(text);
    }

    /** Corrected browse-and-select: after a corrected search for `text`,
        Enter on row `i` connects to the `i`-th matching host with the core's port. */
    method SelectAfterCorrectedSearch(text: string, i: nat) returns (chosen: Option<ChosenOutcome>)
      requires i < |Filter(text, allowedHosts)|
      modifies this`displayed, this`view, this`coreCalls
      ensures Valid() && displayed == HostRows(Filter(text, allowedHosts), corePort)
      ensures chosen == Some(Initiated)
      ensures coreCalls ==
                old(coreCalls) + [InitConnection(ChosenItem(HostItem(Filter(text, allowedHosts)[i], corePort)))]
    {
      SearchChangeWithItems(text);
      var unhandled;
      unhandled, chosen := RowKeypress(i, "enter");
    }

    /** Setting the search field's text, which first signals `change` to
        `SearchChange` and then stores the text. */
    method SetEditText(text: string)
      modifies this`query, this`displayed, this`view
      ensures Valid() && view == Searched(text) && query == text
      ensures displayed == MenuRows(Filter(text, allowedHosts))
    {
      SearchChange(text);
      query := text;
    }

    /** One-slot popup: the new message replaces the old one and is shown. */
    method PopupMessage(message: string)
      modifies this`popupMsg, this`popupOpen
      ensures popupOpen && popupMsg == message
    {
      popupMsg := message;
      popupOpen := true;
    }

    /** Refresh: one `refresh_allowed_hosts(False)` call, after which the
        allow-list is whatever the core now holds (`fetched`); the list is
        rebuilt with the empty text, so it shows every host even while a query
        is typed, and the query is left as it was; then "Hosts Refreshed" pops up. */
    method FetchHostsFromIdp(fetched: seq<string>)
      modifies this`coreCalls, this`allowedHosts, this`displayed, this`view,
               this`popupMsg, this`popupOpen
      ensures Valid() && view == Searched("")
      ensures coreCalls == old(coreCalls) + [RefreshAllowedHosts(false)]
      ensures allowedHosts == fetched && displayed == MenuRows(fetched)
      ensures popupOpen && popupMsg == RefreshedMessage
    {
      coreCalls := coreCalls + [RefreshAllowedHosts(false)];
      allowedHosts := fetched;
      SearchChange("");
      EmptyQueryShowsAll(allowedHosts);
      PopupMessage(RefreshedMessage);
    }

    /** Unhandled input. `edited` is what the search field's own keypress
        handling does with a forwarded key: `Some(t)` when it sets its text to
        `t`, `None` when it leaves the text alone. `fetched` is the allow-list
        the core holds after a refresh. */
    method UpdateSearchEdit(key: Key, edited: Option<string>, fetched: seq<string>)
      returns (outcome: KeyOutcome)
      requires Valid()
      modifies this
      ensures Valid()
      ensures outcome == ExitMainLoop <==> key == Press("f9")
      ensures key.Mouse? ==> unchanged(this)
      ensures key == Press("esc") ==>
                query == "" && displayed == MenuRows(old(allowedHosts)) &&
                allowedHosts == old(allowedHosts) && coreCalls == old(coreCalls) &&
                popupOpen == old(popupOpen) && popupMsg == old(popupMsg) && exited == old(exited)
      ensures key == Press("f5") ==>
                coreCalls == old(coreCalls) + [RefreshAllowedHosts(false)] &&
                allowedHosts == fetched && displayed == MenuRows(fetched) &&
                query == old(query) && popupOpen && popupMsg == RefreshedMessage &&
                exited == old(exited)
      ensures key == Press("f9") ==>
                exited && query == old(query) && displayed == old(displayed) &&
                allowedHosts == old(allowedHosts) && coreCalls == old(coreCalls) &&
                popupOpen == old(popupOpen) && popupMsg == old(popupMsg)
      ensures key.Press? && key.name !in {"esc", "f5", "f9"} ==>
                allowedHosts == old(allowedHosts) && coreCalls == old(coreCalls) &&
                popupOpen == old(popupOpen) && popupMsg == old(popupMsg) && exited == old(exited) &&
                (edited.None? ==> query == old(query) && displayed == old(displayed)) &&
                (edited.Some? ==> query == edited.value &&
                                  displayed == MenuRows(Filter(edited.value, allowedHosts)))
    {
      outcome := Handled;
      match key
      case Mouse(_) =>
      case Press(name) =>
        if name == "esc" {
          SetEditText("");
          EmptyQueryShowsAll(allowedHosts);
        } else if name == "f5" {
          FetchHostsFromIdp(fetched);
        } else if name == "f9" {
          exited := true;
          outcome := ExitMainLoop;
        } else if edited.Some? {
          SetEditText(edited.value);
        }
    }
  }
}
