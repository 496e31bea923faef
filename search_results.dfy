/**
 * Server search results: the two producers that filter the server list by
 * the search text (country names, and server names the user's tier allows),
 * and the flat list of tree rows `FilteredList.update` builds from them.
 */
module SearchResults {
  import opened Optional
  import opened Text

  const MAX_SEARCH_RESULTS_PER_SECTION: nat := 100
  const LOAD_COLOR: string := "Grey"

  datatype Server = Server(name: string, entryCountryName: string, tier: int, load: int)

  /** One `(name, load)` pair a producer yields. */
  datatype Entry = Entry(name: Option<string>, load: Option<int>)

  /** What `list(producer(search_text))` gives: the items, or the TypeError it raised. */
  datatype Produced = Items(entries: seq<Entry>) | TypeErrorRaised

  datatype Section = Section(title: string, data: Produced)

  /**
   * A row of the tree store: name, load text, load colour and sensitivity,
   * plus the index of its parent row in the flattened list (None at the root).
   */
  datatype Row = Row(name: Option<string>, load: string, color: string, sensitive: bool, parent: Option<nat>)

  // ---------------------------------------------------------------------------
  // Rows

  /** The load column: nothing for no load, else the load followed by "%". */
  function LoadString(load: Option<int>): (s: string)
    ensures s == "" <==> load.None?
    ensures load.Some? ==> s[|s| - 1] == '%' && s[..|s| - 1] == IntString(load.value)
  {
    if load.None? then "" else IntString(load.value) + "%"
  }

  function HeaderRow(title: string, count: nat): Row {
    Row(Some(title + " (" + DecimalString(count) + ")"), "", LOAD_COLOR, false, None)
  }

  function ItemRow(e: Entry, parent: nat): Row {
    Row(e.name, LoadString(e.load), LOAD_COLOR, true, Some(parent))
  }

  const EllipsisRow: Row := Row(Some("..."), "", LOAD_COLOR, false, None)

  function ItemRows(data: seq<Entry>, parent: nat): (rows: seq<Row>)
    ensures |rows| == |data|
    ensures forall i :: 0 <= i < |data| ==> rows[i] == ItemRow(data[i], parent)
  {
    seq(|data|, i requires 0 <= i < |data| => ItemRow(data[i], parent))
  }

  /** How many items of a section are shown: the loop stops after index MAX. */
  function ShownCount(n: nat): (k: nat)
    ensures k <= n && k <= MAX_SEARCH_RESULTS_PER_SECTION + 1
    ensures k == n <==> n <= MAX_SEARCH_RESULTS_PER_SECTION + 1
    ensures n > MAX_SEARCH_RESULTS_PER_SECTION ==> k == MAX_SEARCH_RESULTS_PER_SECTION + 1
  {
    if n > MAX_SEARCH_RESULTS_PER_SECTION then MAX_SEARCH_RESULTS_PER_SECTION + 1 else n
  }

  /** The rows one section adds to a model that already holds `base` rows. */
  function SectionRows(title: string, data: seq<Entry>, base: nat): (rows: seq<Row>)
    ensures data == [] <==> rows == []
  {
    if data == [] then []
    else
      [HeaderRow(title, |data|)]
      + ItemRows(data[..ShownCount(|data|)], base)
      + (if |data| > MAX_SEARCH_RESULTS_PER_SECTION then [EllipsisRow] else [])
  }

  /**
   * A non-empty section is a header with the full count, then at most MAX + 1
   * items in their order, then "..." exactly when there were more than MAX
   * items (so also when there were exactly MAX + 1 and none was left out).
   */
  lemma SectionRowsShape(title: string, data: seq<Entry>, base: nat)
    requires data != []
    ensures var rows := SectionRows(title, data, base);
      && rows[0] == HeaderRow(title, |data|)
      && |rows| == 1 + ShownCount(|data|) + (if |data| > MAX_SEARCH_RESULTS_PER_SECTION then 1 else 0)
      && (forall i :: 0 <= i < ShownCount(|data|) ==> rows[1 + i] == ItemRow(data[i], base))
      && (rows[|rows| - 1] == EllipsisRow <==> |data| > MAX_SEARCH_RESULTS_PER_SECTION)
  {
  }

  /** No section's producer raised. */
  predicate AllProduced(sections: seq<Section>) {
    forall i :: 0 <= i < |sections| ==> sections[i].data.Items?
  }

  /** The rows of the sections, appended one after the other. */
  function Layout(sections: seq<Section>): seq<Row>
    requires AllProduced(sections)
  {
    if sections == [] then []
    else
      var prev := Layout(sections[..|sections| - 1]);
      var last := sections[|sections| - 1];
      prev + SectionRows(last.title, last.data.entries, |prev|)
  }

  /** Index of the first section whose producer raised (|sections| if none did). */
  function FirstRaise(sections: seq<Section>): (k: nat)
    ensures k <= |sections|
    ensures AllProduced(sections[..k])
    ensures k < |sections| ==> sections[k].data.TypeErrorRaised?
  {
    if sections == [] then 0
    else if sections[0].data.TypeErrorRaised? then 0
    else
      var k := FirstRaise(sections[1..]);
      assert sections[..k + 1] == [sections[0]] + sections[1..][..k];
      k + 1
  }

  lemma {:induction false} FirstRaiseAt(sections: seq<Section>, s: nat)
    requires s <= |sections| && AllProduced(sections[..s])
    requires s < |sections| ==> sections[s].data.TypeErrorRaised?
    ensures FirstRaise(sections) == s
  {
    if s > 0 {
      assert sections[1..][..s - 1] == sections[1..s];
      FirstRaiseAt(sections[1..], s - 1);
    }
  }

  /** Rows whose parent is set point back to an earlier root row. */
  ghost predicate WellFormedTree(rows: seq<Row>) {
    forall i :: 0 <= i < |rows| && rows[i].parent.Some? ==>
      rows[i].parent.value < i && rows[rows[i].parent.value].parent.None?
  }

  /** Every row is grey, and exactly the item rows (those with a parent) are sensitive. */
  ghost predicate RowsColoured(rows: seq<Row>) {
    forall i :: 0 <= i < |rows| ==>
      rows[i].color == LOAD_COLOR && (rows[i].sensitive <==> rows[i].parent.Some?)
  }

  lemma {:induction false} LayoutWellFormed(sections: seq<Section>)
    requires AllProduced(sections)
    ensures WellFormedTree(Layout(sections))
    ensures RowsColoured(Layout(sections))
  {
    if sections != [] {
      var init := sections[..|sections| - 1];
      var prev := Layout(init);
      var last := sections[|sections| - 1];
      LayoutWellFormed(init);
      var data := last.data.entries;
      var rows := SectionRows(last.title, data, |prev|);
      assert Layout(sections) == prev + rows;
      if data != [] {
        SectionRowsShape(last.title, data, |prev|);
        SectionRowsParents(last.title, data, |prev|);
      }
    }
  }

  /** Within a section only the items have a parent, the section's header. */
  lemma SectionRowsParents(title: string, data: seq<Entry>, base: nat)
    requires data != []
    ensures var rows := SectionRows(title, data, base);
      && rows[0].parent.None?
      && forall i :: 0 <= i < |rows| ==>
        && rows[i].color == LOAD_COLOR
        && (rows[i].sensitive <==> rows[i].parent.Some?)
        && (rows[i].parent.Some? ==> i > 0 && rows[i].parent == Some(base))
  {
    var rows := SectionRows(title, data, base);
    SectionRowsShape(title, data, base);
    forall i | 0 <= i < |rows|
      ensures rows[i].color == LOAD_COLOR
      ensures rows[i].sensitive <==> rows[i].parent.Some?
      ensures rows[i].parent.Some? ==> i > 0 && rows[i].parent == Some(base)
    {
      if 0 < i < 1 + ShownCount(|data|) {
        assert rows[i] == ItemRow(data[i - 1], base);
      }
    }
  }

  // ---------------------------------------------------------------------------
  // The producers

  /** `_search_input_exists`: an empty search text matches nothing. */
  function SearchInputExists(searchText: string, server: Server, entryCountryName: bool, serverName: bool): (r: bool)
    ensures r ==> searchText != "" && (entryCountryName || serverName)
    ensures entryCountryName ==> (r <==> searchText != "" && Contains(Lower(server.entryCountryName), searchText))
    ensures !entryCountryName && serverName ==> (r <==> searchText != "" && Contains(Lower(server.name), searchText))
  {
    if entryCountryName then searchText != "" && Contains(Lower(server.entryCountryName), searchText)
    else if serverName then searchText != "" && Contains(Lower(server.name), searchText)
    else false
  }

  /** A server is open to a user whose tier is at least the server's. */
  predicate UserTierAllowsAccessToServer(serverTier: int, userTier: int)
    ensures UserTierAllowsAccessToServer(serverTier, userTier) <==> serverTier <= userTier
  {
    serverTier <= userTier
  }

  /** Raising the user's tier never takes a server away, and the search results only grow. */
  lemma {:induction false} HigherTierKeepsAccess(searchText: string, userTier: int, higherTier: int, servers: seq<Server>, e: Entry)
    requires userTier <= higherTier
    requires e in MatchingServers(searchText, userTier, servers)
    ensures e in MatchingServers(searchText, higherTier, servers)
  {
    MatchingServersSound(searchText, userTier, servers, e);
    var i :| 0 <= i < |servers| && servers[i].tier <= userTier
      && searchText != "" && Contains(Lower(servers[i].name), searchText)
      && e == Entry(Some(servers[i].name), Some(servers[i].load));
    MatchingServersComplete(searchText, higherTier, servers, i);
  }

  /** The entries `countries` collects from the first `servers`. */
  ghost function MatchingCountries(searchText: string, servers: seq<Server>): set<Entry> {
    set i | 0 <= i < |servers| && SearchInputExists(searchText, servers[i], true, false)
      :: Entry(Some(servers[i].entryCountryName), None)
  }

  /** `countries(search_text)`: the distinct entry countries whose name contains the text. */
  method Countries(searchText: string, serverList: Option<seq<Server>>) returns (result: set<Entry>)
    ensures serverList.None? ==> result == {}
    ensures serverList.Some? ==> result == MatchingCountries(searchText, serverList.value)
  {
    result := {};
    if serverList.None? || serverList.value == [] {
      return;
    }
    var servers := serverList.value;
    for k := 0 to |servers|
      invariant result == MatchingCountries(searchText, servers[..k])
    {
      assert forall i :: 0 <= i < k ==> servers[..k + 1][i] == servers[..k][i];
      if SearchInputExists(searchText, servers[k], true, false) {
        result := result + {Entry(Some(servers[k].entryCountryName), None)};
      }
      assert servers[..k + 1][k] == servers[k];
    }
    assert servers[..|servers|] == servers;
  }

  /** The entries `servers` yields, in list order, from a non-empty server list. */
  function MatchingServers(searchText: string, userTier: int, servers: seq<Server>): seq<Entry> {
    if servers == [] then []
    else
      var prev := MatchingServers(searchText, userTier, servers[..|servers| - 1]);
      var s := servers[|servers| - 1];
      if UserTierAllowsAccessToServer(s.tier, userTier) && SearchInputExists(searchText, s, false, true)
      then prev + [Entry(Some(s.name), Some(s.load))]
      else prev
  }

  /** Every yielded entry comes from an allowed server whose lowercased name contains the text. */
  lemma {:induction false} MatchingServersSound(searchText: string, userTier: int, servers: seq<Server>, e: Entry)
    requires e in MatchingServers(searchText, userTier, servers)
    ensures exists i ::
      && 0 <= i < |servers| && servers[i].tier <= userTier
      && searchText != "" && Contains(Lower(servers[i].name), searchText)
      && e == Entry(Some(servers[i].name), Some(servers[i].load))
  {
    var init := servers[..|servers| - 1];
    var s := servers[|servers| - 1];
    if e in MatchingServers(searchText, userTier, init) {
      MatchingServersSound(searchText, userTier, init, e);
      var i :| 0 <= i < |init| && init[i].tier <= userTier &&
        searchText != "" && Contains(Lower(init[i].name), searchText) &&
        e == Entry(Some(init[i].name), Some(init[i].load));
      assert servers[i] == init[i];
    } else {
      assert servers[|servers| - 1] == s;
    }
  }

  /** Every allowed server whose lowercased name contains the text is yielded. */
  lemma {:induction false} MatchingServersComplete(searchText: string, userTier: int, servers: seq<Server>, i: nat)
    requires i < |servers| && servers[i].tier <= userTier
    requires searchText != "" && Contains(Lower(servers[i].name), searchText)
    ensures Entry(Some(servers[i].name), Some(servers[i].load)) in MatchingServers(searchText, userTier, servers)
  {
    var init := servers[..|servers| - 1];
    if i < |servers| - 1 {
      assert init[i] == servers[i];
      MatchingServersComplete(searchText, userTier, init, i);
    }
  }

  /** An empty search text matches no server and no country. */
  lemma {:induction false} EmptySearchMatchesNothing(userTier: int, servers: seq<Server>)
    ensures MatchingServers("", userTier, servers) == []
    ensures MatchingCountries("", servers) == {}
  {
    if servers != [] {
      EmptySearchMatchesNothing(userTier, servers[..|servers| - 1]);
    }
  }

  /** What `list(servers(search_text))` gives for the controller's server list. */
  function ServersOutput(searchText: string, userTier: int, serverList: Option<seq<Server>>): Produced {
    match serverList
    case None => TypeErrorRaised  // yields (None, None), then iterating None raises
    case Some(servers) =>
      if servers == [] then Items([Entry(None, None)])
      else Items(MatchingServers(searchText, userTier, servers))
  }

  /** `servers(search_text)`, drained into a list. */
  method Servers(searchText: string, userTier: int, serverList: Option<seq<Server>>) returns (produced: Produced)
    ensures produced == ServersOutput(searchText, userTier, serverList)
  {
    var items: seq<Entry> := [];
    if serverList.None? || serverList.value == [] {
      items := items + [Entry(None, None)];
    }
    if serverList.None? {
      return TypeErrorRaised;
    }
    var servers := serverList.value;
    ghost var lead := items;
    for k := 0 to |servers|
      invariant items == lead + MatchingServers(searchText, userTier, servers[..k])
    {
      assert servers[..k + 1][..k] == servers[..k];
      if UserTierAllowsAccessToServer(servers[k].tier, userTier) && SearchInputExists(searchText, servers[k], false, true) {
        items := items + [Entry(Some(servers[k].name), Some(servers[k].load))];
      }
    }
    assert servers[..|servers|] == servers;
    produced := Items(items);
  }

  /** `list(s)` for a set: its elements, each once, in an order the model does not fix. */
  ghost predicate IsListing(xs: seq<Entry>, s: set<Entry>) {
    |xs| == |s| && (forall e :: e in xs <==> e in s) &&
    (forall i, j :: 0 <= i < j < |xs| ==> xs[i] != xs[j])
  }

  method ListOfSet(s: set<Entry>) returns (xs: seq<Entry>)
    ensures IsListing(xs, s)
  {
    xs := [];
    var rest := s;
    while rest != {}
      invariant rest <= s
      invariant forall e :: e in xs <==> e in s - rest
      invariant |xs| + |rest| == |s|
      invariant forall i, j :: 0 <= i < j < |xs| ==> xs[i] != xs[j]
      decreases |rest|
    {
      var e :| e in rest;
      assert e !in xs;
      xs := xs + [e];
      rest := rest - {e};
    }
  }

  // ---------------------------------------------------------------------------
  // The widgets

  /** `select_function`: a row can be selected iff it exists and is sensitive. */
  function SelectFunction(rows: seq<Row>, path: int): (selectable: bool)
    ensures selectable <==> 0 <= path < |rows| && rows[path].sensitive
  {
    if 0 <= path < |rows| then rows[path].sensitive else false
  }

  /** In a built list, exactly the item rows can be selected; headers and "..." cannot. */
  lemma SelectableIffItem(sections: seq<Section>, path: int)
    requires AllProduced(sections)
    ensures SelectFunction(Layout(sections), path) <==>
      0 <= path < |Layout(sections)| && Layout(sections)[path].parent.Some?
  {
    LayoutWellFormed(sections);
  }

  class FilteredList {
    /** The tree store, flattened in insertion order. */
    var model: seq<Row>

    constructor ()
      ensures model == []
    {
      model := [];
    }

    /**
     * `update`: clears the model and appends the Countries section, then the
     * Servers section; a producer that raises stops the rebuild there.
     */
    method Update(countries: Produced, servers: Produced) returns (raised: bool)
      modifies this
      ensures var sections := [Section("Countries", countries), Section("Servers", servers)];
        raised == (FirstRaise(sections) < 2) && model == Layout(sections[..FirstRaise(sections)])
      ensures !raised ==>
        var c := SectionRows("Countries", countries.entries, 0);
        model == c + SectionRows("Servers", servers.entries, |c|)
    {
      model := [];
      raised := false;
      var sections := [Section("Countries", countries), Section("Servers", servers)];
      for s := 0 to |sections|
        invariant AllProduced(sections[..s])
        invariant model == Layout(sections[..s])
      {
        var section := sections[s];
        if section.data.TypeErrorRaised? {
          FirstRaiseAt(sections, s);
          raised := true;
          return;
        }
        LayoutSnoc(sections, s);
        AppendSection(section.title, section.data.entries);
      }
      FirstRaiseAt(sections, |sections|);
      LayoutOfTwo(sections);
    }

    /** One pass of the section loop in `update`: header, items up to index MAX, then "..." if stopped. */
    method AppendSection(title: string, data: seq<Entry>)
      modifies this
      ensures model == old(model) + SectionRows(title, data, |old(model)|)
    {
      if data == [] {
        return;
      }
      var root := |model|;
      ghost var added := [HeaderRow(title, |data|)];
      model := model + [HeaderRow(title, |data|)];
      var i := 0;
      while i < |data|
        invariant i <= |data| && i <= MAX_SEARCH_RESULTS_PER_SECTION
        invariant added == [HeaderRow(title, |data|)] + ItemRows(data[..i], root)
        invariant model == old(model) + added
      {
        ItemRowsSnoc(data, i, root);
        model := model + [ItemRow(data[i], root)];
        added := added + [ItemRow(data[i], root)];
        if i == MAX_SEARCH_RESULTS_PER_SECTION {
          model := model + [EllipsisRow];
          added := added + [EllipsisRow];
          assert ShownCount(|data|) == i + 1;
          SectionRowsUnfold(title, data, root);
          return;
        }
        i := i + 1;
      }
      assert ShownCount(|data|) == |data| && data[..|data|] == data;
      SectionRowsUnfold(title, data, root);
    }
  }

  lemma LayoutSnoc(sections: seq<Section>, s: nat)
    requires s < |sections| && AllProduced(sections[..s]) && sections[s].data.Items?
    ensures AllProduced(sections[..s + 1])
    ensures Layout(sections[..s + 1]) ==
      Layout(sections[..s]) + SectionRows(sections[s].title, sections[s].data.entries, |Layout(sections[..s])|)
  {
    assert sections[..s + 1][..s] == sections[..s];
  }

  lemma LayoutOfTwo(sections: seq<Section>)
    requires |sections| == 2 && AllProduced(sections)
    ensures sections[..|sections|] == sections
    ensures var c := SectionRows(sections[0].title, sections[0].data.entries, 0);
      Layout(sections) == c + SectionRows(sections[1].title, sections[1].data.entries, |c|)
  {
    var first := sections[..1];
    assert first == [sections[0]] && first[..0] == [];
    assert Layout(first) == SectionRows(sections[0].title, sections[0].data.entries, 0);
    assert sections[..|sections| - 1] == first;
  }

  lemma ItemRowsSnoc(data: seq<Entry>, i: nat, parent: nat)
    requires i < |data|
    ensures ItemRows(data[..i], parent) + [ItemRow(data[i], parent)] == ItemRows(data[..i + 1], parent)
  {
  }

  lemma SectionRowsUnfold(title: string, data: seq<Entry>, base: nat)
    requires data != []
    ensures SectionRows(title, data, base) ==
      [HeaderRow(title, |data|)] + ItemRows(data[..ShownCount(|data|)], base) +
      (if |data| > MAX_SEARCH_RESULTS_PER_SECTION then [EllipsisRow] else [])
  {
  }

  class Revealer {
    var revealChild: bool

    constructor ()
      ensures !revealChild
    {
      revealChild := false;
    }
  }

  /** The search result list for the rows the search text selects. */
  ghost predicate ShowsSearch(rows: seq<Row>, searchText: string, userTier: int, serverList: Option<seq<Server>>) {
    var countrySet := if serverList.None? then {} else MatchingCountries(searchText, serverList.value);
    exists countries :: IsListing(countries, countrySet) &&
      var sections := [Section("Countries", Items(countries)), Section("Servers", ServersOutput(searchText, userTier, serverList))];
      rows == Layout(sections[..FirstRaise(sections)])
  }

  class SearchResults {
    const filteredList: FilteredList
    var revealer: Revealer?
    /** `controller.server_list`. */
    var serverList: Option<seq<Server>>
    /** `controller.user_tier`. */
    var userTier: int
    /** Names emitted with "result-chosen", oldest first. */
    var resultsChosen: seq<Option<string>>

    /** Rows can only be there after a search, which stored a revealer. */
    ghost predicate Valid()
      reads this, filteredList
    {
      |filteredList.model| > 0 ==> revealer != null
    }

    constructor (serverList: Option<seq<Server>>, userTier: int)
      ensures Valid() && fresh(filteredList)
      ensures filteredList.model == [] && revealer == null && resultsChosen == []
      ensures this.serverList == serverList && this.userTier == userTier
    {
      filteredList := new FilteredList();
      revealer := null;
      this.serverList := serverList;
      this.userTier := userTier;
      resultsChosen := [];
    }

    /**
     * `on_search_changed`: lowercases the text, rebuilds the list and reveals
     * it iff the text is non-empty. With no server list at all, the servers
     * producer raises and the revealer is left as it was.
     */
    method OnSearchChanged(entryText: string, revealer: Revealer) returns (raised: bool)
      requires Valid()
      modifies this, filteredList, revealer
      ensures Valid() && this.revealer == revealer
      ensures serverList == old(serverList) && userTier == old(userTier) && resultsChosen == old(resultsChosen)
      ensures raised <==> serverList.None?
      ensures ShowsSearch(filteredList.model, Lower(entryText), userTier, serverList)
      ensures !raised ==> revealer.revealChild == (entryText != "")
      ensures raised ==> revealer.revealChild == old(revealer.revealChild)
    {
      var searchText := Lower(entryText);
      this.revealer := revealer;
      var countrySet := Countries(searchText, serverList);
      var countries := ListOfSet(countrySet);
      var servers := Servers(searchText, userTier, serverList);
      raised := filteredList.Update(Items(countries), servers);
      if raised {
        return;
      }
      revealer.revealChild := searchText != "";
    }

    /** `_on_row_activated`: hides the results and emits the activated row's name. */
    method OnRowActivated(path: int)
      requires Valid()
      modifies this`resultsChosen, revealer
      ensures 0 <= path < |filteredList.model| ==>
        revealer != null && !revealer.revealChild &&
        resultsChosen == old(resultsChosen) + [filteredList.model[path].name]
      ensures !(0 <= path < |filteredList.model|) ==>
        resultsChosen == old(resultsChosen) && (revealer != null ==> revealer.revealChild == old(revealer.revealChild))
    {
      if 0 <= path < |filteredList.model| {
        revealer.revealChild := false;
        resultsChosen := resultsChosen + [filteredList.model[path].name];
      }
    }
  }
}
