/** The functional-test library's reading of a `juju status` document: the agents it
    lists, grouped by agent state, the one-line summary it prints while
    waiting, and the decision it takes after each poll. */
module JujuPy {
  import Ordering
  import opened Text

  /** A machine or unit entry of the status document; only its string
      fields are kept. */
  type Item = map<string, string>

  /** A service of the status document; a service without a `units` field
      has no units.  The units are in the document's iteration order. */
  datatype ServiceStatus = ServiceStatus(units: seq<(string, Item)>)

  /** The status document.  The services are in the order Python's
      `sorted` puts their values in. */
  datatype StatusDoc = StatusDoc(machines: map<string, Item>, services: seq<ServiceStatus>)

  const NoAgent := "no-agent"
  const AgentStateKey := "agent-state"
  const Started := "started"

  /** `item.get('agent-state', 'no-agent')` */
  function StateOf(item: Item): string
  {
    if AgentStateKey in item then item[AgentStateKey] else NoAgent
  }

  // ---- agent_items --------------------------------------------------------------

  function MachineItems(machines: map<string, Item>): (r: seq<(string, Item)>)
  {
    var names := MachineNames(machines);
    seq(|names|, i requires 0 <= i < |names| => (names[i], machines[names[i]]))
  }

  function UnitItems(services: seq<ServiceStatus>): seq<(string, Item)>
  {
    if |services| == 0 then [] else services[0].units + UnitItems(services[1..])
  }

  function UnitCount(services: seq<ServiceStatus>): nat
  {
    if |services| == 0 then 0 else |services[0].units| + UnitCount(services[1..])
  }

  /** `agent_items`: the machines in name order, then the units of each
      service in turn. */
  function AgentItems(status: StatusDoc): seq<(string, Item)>
  {
    MachineItems(status.machines) + UnitItems(status.services)
  }

  lemma {:induction false} UnitItemsCount(services: seq<ServiceStatus>)
    ensures |UnitItems(services)| == UnitCount(services)
  {
    if |services| > 0 {
      UnitItemsCount(services[1..]);
    }
  }

  /** The machine names, in ascending order. */
  function MachineNames(machines: map<string, Item>): (names: seq<string>)
    ensures forall n :: n in names <==> n in machines
  {
    Ordering.SortedNames(machines.Keys)
  }

  /** The machine items pair each sorted machine name with its entry. */
  lemma MachineItemsPairs(machines: map<string, Item>)
    ensures var r := MachineItems(machines);
      var names := MachineNames(machines);
      |r| == |names| && forall i :: 0 <= i < |r| ==> r[i] == (names[i], machines[names[i]])
  {
  }

  /** The machine items: each machine once, with its own entry, in
      ascending name order. */
  lemma MachineItemsSorted(machines: map<string, Item>)
    ensures var r := MachineItems(machines);
      && (forall i :: 0 <= i < |r| ==> r[i].0 in machines && r[i].1 == machines[r[i].0])
      && (forall n :: n in machines ==> exists i :: 0 <= i < |r| && r[i].0 == n)
      && (forall i, j :: 0 <= i < j < |r| ==> Ordering.LexLe(r[i].0, r[j].0) && r[i].0 != r[j].0)
  {
    var names := MachineNames(machines);
    var r := MachineItems(machines);
    MachineItemsPairs(machines);
    Ordering.SortedNamesSorted(machines.Keys);
    assert Ordering.Ascending(names) && Ordering.Distinct(names);
    forall n | n in machines
      ensures exists i :: 0 <= i < |r| && r[i].0 == n
    {
      var i :| 0 <= i < |names| && names[i] == n;
      assert r[i].0 == n;
    }
  }

  /** Every machine comes first, once each, in ascending name order; the
      units follow. */
  lemma AgentItemsMachinesFirst(status: StatusDoc)
    ensures var r := AgentItems(status);
      var m := |status.machines|;
      && |r| == m + UnitCount(status.services)
      && (forall i :: 0 <= i < m ==> r[i].0 in status.machines && r[i].1 == status.machines[r[i].0])
      && (forall n :: n in status.machines ==> exists i :: 0 <= i < m && r[i].0 == n)
      && (forall i, j :: 0 <= i < j < m ==> Ordering.LexLe(r[i].0, r[j].0) && r[i].0 != r[j].0)
      && r[m..] == UnitItems(status.services)
  {
    UnitItemsCount(status.services);
    MachineItemsSorted(status.machines);
    var mi := MachineItems(status.machines);
    var r := AgentItems(status);
    assert r[..|mi|] == mi;
    assert forall i :: 0 <= i < |mi| ==> r[i] == mi[i];
  }

  // ---- agent_states -------------------------------------------------------------

  /** One key of the `defaultdict(list)` with its list. */
  datatype Entry = Entry(state: string, names: seq<string>)

  /** A dictionary of lists, in the order its keys were first inserted. */
  type Listing = seq<Entry>

  predicate DistinctStates(l: Listing)
  {
    forall i, j :: 0 <= i < j < |l| ==> l[i].state != l[j].state
  }

  /** `states[key]` of a defaultdict: the empty list for a missing key. */
  function NamesUnder(l: Listing, key: string): seq<string>
  {
    if |l| == 0 then []
    else if l[0].state == key then l[0].names
    else NamesUnder(l[1..], key)
  }

  /** `states[key].append(name)` */
  function Append(l: Listing, key: string, name: string): Listing
  {
    if |l| == 0 then [Entry(key, [name])]
    else if l[0].state == key then [Entry(key, l[0].names + [name])] + l[1..]
    else [l[0]] + Append(l[1..], key, name)
  }

  /** The listing the loop of `agent_states` builds from `items`. */
  function StatesOf(items: seq<(string, Item)>): Listing
  {
    if |items| == 0 then []
    else
      var last := items[|items| - 1];
      Append(StatesOf(items[..|items| - 1]), StateOf(last.1), last.0)
  }

  /** `agent_states` */
  method AgentStates(status: StatusDoc) returns (states: Listing)
    ensures states == StatesOf(AgentItems(status))
  {
    var items := AgentItems(status);
    states := [];
    for i := 0 to |items|
      invariant states == StatesOf(items[..i])
    {
      var (itemName, item) := items[i];
      var key := if AgentStateKey in item then item[AgentStateKey] else NoAgent;
      states := Append(states, key, itemName);
      assert items[..i + 1][..i] == items[..i];
    }
    assert items[..|items|] == items;
  }

  /** The names of `items` whose agent state is `key`, in order. */
  function NamesWithState(items: seq<(string, Item)>, key: string): seq<string>
  {
    if |items| == 0 then []
    else
      var last := items[|items| - 1];
      NamesWithState(items[..|items| - 1], key) + (if StateOf(last.1) == key then [last.0] else [])
  }

  function TotalNames(l: Listing): nat
  {
    if |l| == 0 then 0 else |l[0].names| + TotalNames(l[1..])
  }

  lemma {:induction false} AppendNames(l: Listing, key: string, name: string, k: string)
    ensures NamesUnder(Append(l, key, name), k) == NamesUnder(l, k) + (if k == key then [name] else [])
  {
    if |l| > 0 && l[0].state != key {
      AppendNames(l[1..], key, name, k);
      assert Append(l, key, name)[1..] == Append(l[1..], key, name);
    }
  }

  /** The keys of a listing. */
  function Keys(l: Listing): set<string>
  {
    set i | 0 <= i < |l| :: l[i].state
  }

  /** The agent states of some items. */
  function ItemStates(items: seq<(string, Item)>): set<string>
  {
    set j | 0 <= j < |items| :: StateOf(items[j].1)
  }

  lemma KeysCons(e: Entry, l: Listing)
    ensures Keys([e] + l) == {e.state} + Keys(l)
  {
    var c := [e] + l;
    forall k | k in Keys(c) ensures k in {e.state} + Keys(l) {
      var i :| 0 <= i < |c| && c[i].state == k;
      if i > 0 { assert l[i - 1].state == k; }
    }
    forall k | k in Keys(l) ensures k in Keys(c) {
      var i :| 0 <= i < |l| && l[i].state == k;
      assert c[i + 1].state == k;
    }
    assert c[0].state == e.state;
  }

  lemma {:induction false} AppendKeys(l: Listing, key: string, name: string)
    ensures Keys(Append(l, key, name)) == Keys(l) + {key}
  {
    if |l| == 0 {
      KeysCons(Entry(key, [name]), []);
    } else {
      assert l == [l[0]] + l[1..];
      KeysCons(l[0], l[1..]);
      if l[0].state != key {
        AppendKeys(l[1..], key, name);
        KeysCons(l[0], Append(l[1..], key, name));
      } else {
        KeysCons(Entry(key, l[0].names + [name]), l[1..]);
      }
    }
  }

  lemma {:induction false} AppendNonEmpty(l: Listing, key: string, name: string)
    requires forall i :: 0 <= i < |l| ==> |l[i].names| > 0
    ensures var a := Append(l, key, name); forall i :: 0 <= i < |a| ==> |a[i].names| > 0
  {
    if |l| > 0 && l[0].state != key {
      AppendNonEmpty(l[1..], key, name);
      var a := Append(l, key, name);
      assert a == [l[0]] + Append(l[1..], key, name);
    }
  }

  lemma {:induction false} AppendDistinct(l: Listing, key: string, name: string)
    requires DistinctStates(l)
    ensures DistinctStates(Append(l, key, name))
  {
    if |l| > 0 && l[0].state != key {
      AppendDistinct(l[1..], key, name);
      AppendKeys(l[1..], key, name);
      var a := Append(l, key, name);
      assert a == [l[0]] + Append(l[1..], key, name);
      forall j | 0 < j < |a| ensures a[0].state != a[j].state {
        assert a[j].state in Keys(Append(l[1..], key, name));
        if a[j].state != key {
          var m :| 0 <= m < |l[1..]| && l[1..][m].state == a[j].state;
          assert l[m + 1].state == a[j].state;
        }
      }
    } else if |l| > 0 {
      var a := Append(l, key, name);
      assert forall i :: 0 <= i < |l| ==> a[i].state == l[i].state;
    }
  }

  lemma {:induction false} AppendTotal(l: Listing, key: string, name: string)
    ensures TotalNames(Append(l, key, name)) == TotalNames(l) + 1
  {
    if |l| > 0 && l[0].state != key {
      AppendTotal(l[1..], key, name);
      var a := Append(l, key, name);
      assert a == [l[0]] + Append(l[1..], key, name);
      assert a[1..] == Append(l[1..], key, name);
    } else if |l| > 0 {
      var a := Append(l, key, name);
      assert a[1..] == l[1..];
    }
  }

  /** Each name goes into the list of its own agent state, in the order the
      items come. */
  lemma {:induction false} StatesOfNames(items: seq<(string, Item)>, key: string)
    ensures NamesUnder(StatesOf(items), key) == NamesWithState(items, key)
  {
    if |items| > 0 {
      var last := items[|items| - 1];
      StatesOfNames(items[..|items| - 1], key);
      AppendNames(StatesOf(items[..|items| - 1]), StateOf(last.1), last.0, key);
    }
  }

  /** The keys are exactly the agent states of the items, each once, every
      list is non-empty, and the lists hold one name per item. */
  lemma {:induction false} StatesOfShape(items: seq<(string, Item)>)
    ensures var l := StatesOf(items);
      && DistinctStates(l)
      && (forall i :: 0 <= i < |l| ==> |l[i].names| > 0)
      && Keys(l) == ItemStates(items)
      && TotalNames(l) == |items|
  {
    if |items| > 0 {
      var init := items[..|items| - 1];
      var last := items[|items| - 1];
      StatesOfShape(init);
      var l0 := StatesOf(init);
      AppendKeys(l0, StateOf(last.1), last.0);
      AppendNonEmpty(l0, StateOf(last.1), last.0);
      AppendDistinct(l0, StateOf(last.1), last.0);
      AppendTotal(l0, StateOf(last.1), last.0);
      ItemStatesSnoc(items);
    }
  }

  lemma ItemStatesSnoc(items: seq<(string, Item)>)
    requires |items| > 0
    ensures ItemStates(items) == ItemStates(items[..|items| - 1]) + {StateOf(items[|items| - 1].1)}
  {
    var init := items[..|items| - 1];
    forall k | k in ItemStates(items) ensures k in ItemStates(init) + {StateOf(items[|items| - 1].1)} {
      var j :| 0 <= j < |items| && StateOf(items[j].1) == k;
      if j < |init| { assert StateOf(init[j].1) == k; }
    }
    forall k | k in ItemStates(init) ensures k in ItemStates(items) {
      var j :| 0 <= j < |init| && StateOf(init[j].1) == k;
      assert StateOf(items[j].1) == k;
    }
    assert StateOf(items[|items| - 1].1) in ItemStates(items);
  }

  /** The lists of `agent_states` hold as many names as there are machines
      and units together. */
  lemma AgentStatesCount(status: StatusDoc)
    ensures TotalNames(StatesOf(AgentItems(status))) == |status.machines| + UnitCount(status.services)
  {
    StatesOfShape(AgentItems(status));
    AgentItemsMachinesFirst(status);
  }

  // ---- format_listing -----------------------------------------------------------

  /** `'%s: %s' % (value, ', '.join(entries))` */
  function Segment(e: Entry): string
  {
    e.state + ": " + JoinWith(", ", e.names)
  }

  /** The segments `format_listing` collects: one per entry whose key is not
      `expected`, in the listing's order. */
  function Segments(l: Listing, expected: string): seq<string>
  {
    if |l| == 0 then []
    else Segments(l[..|l| - 1], expected) + (if l[|l| - 1].state == expected then [] else [Segment(l[|l| - 1])])
  }

  /** `format_listing` */
  method FormatListing(listing: Listing, expected: string) returns (r: string)
    ensures r == JoinWith(" | ", Segments(listing, expected))
  {
    var valueListing: seq<string> := [];
    for i := 0 to |listing|
      invariant valueListing == Segments(listing[..i], expected)
    {
      assert listing[..i + 1][..i] == listing[..i];
      var e := listing[i];
      if e.state == expected {
        continue;
      }
      valueListing := valueListing + [e.state + ": " + JoinWith(", ", e.names)];
    }
    assert listing[..|listing|] == listing;
    r := JoinWith(" | ", valueListing);
  }

  /** Each segment comes from an entry whose key is not `expected`, in the
      order of the entries; there is one for each such entry. */
  lemma {:induction false} SegmentsSkipExpected(l: Listing, expected: string)
    ensures var s := Segments(l, expected);
      && (forall j :: 0 <= j < |s| ==> exists i :: 0 <= i < |l| && l[i].state != expected && s[j] == Segment(l[i]))
      && (forall i :: 0 <= i < |l| && l[i].state != expected ==> Segment(l[i]) in s)
      && (s == [] <==> forall i :: 0 <= i < |l| ==> l[i].state == expected)
  {
    if |l| > 0 {
      var init := l[..|l| - 1];
      SegmentsSkipExpected(init, expected);
      var s := Segments(l, expected);
      forall j | 0 <= j < |s|
        ensures exists i :: 0 <= i < |l| && l[i].state != expected && s[j] == Segment(l[i])
      {
        if j < |Segments(init, expected)| {
          var i :| 0 <= i < |init| && init[i].state != expected && Segments(init, expected)[j] == Segment(init[i]);
          assert l[i] == init[i];
        }
      }
      forall i | 0 <= i < |l| && l[i].state != expected
        ensures Segment(l[i]) in s
      {
        if i < |init| { assert l[i] == init[i]; }
      }
      if forall i :: 0 <= i < |l| ==> l[i].state == expected {
        assert forall i :: 0 <= i < |init| ==> init[i].state == expected by {
          forall i | 0 <= i < |init| ensures init[i].state == expected { assert l[i] == init[i]; }
        }
      }
    }
  }

  /** The summary is empty exactly when every key is `expected` (or there
      are none). */
  lemma FormatListingEmpty(l: Listing, expected: string)
    ensures JoinWith(" | ", Segments(l, expected)) == "" <==> forall i :: 0 <= i < |l| ==> l[i].state == expected
  {
    SegmentsSkipExpected(l, expected);
    var s := Segments(l, expected);
    if s != [] {
      JoinWithStartsWithFirst(" | ", s);
      var i :| 0 <= i < |l| && l[i].state != expected && s[0] == Segment(l[i]);
      assert |s[0]| >= 2;
    }
  }

  // ---- the per-poll decision of wait_for_started ----------------------------------

  /** Python's `sub in s` on strings. */
  predicate Contains(s: string, sub: string)
    decreases |s|
  {
    |sub| <= |s| && (s[..|sub|] == sub || Contains(s[1..], sub))
  }

  datatype Decision =
    | Done
    | Errored(unitName: string, state: string)
    | MissingEntry(state: string)
    | KeepWaiting

  /** The index of the first entry whose key contains "error", if any. */
  function FirstErrorState(l: Listing): (r: nat)
    ensures r <= |l|
    ensures r < |l| ==> Contains(l[r].state, "error")
    ensures forall i :: 0 <= i < r ==> !Contains(l[i].state, "error")
  {
    if |l| == 0 || Contains(l[0].state, "error") then 0 else 1 + FirstErrorState(l[1..])
  }

  /** After one poll: done when the only key is `started`; otherwise the
      first key containing `error` raises with its first entry (an empty
      list there is an `IndexError`); otherwise keep waiting. */
  function PollDecision(l: Listing): (d: Decision)
    ensures d == Done <==> |l| == 1 && l[0].state == Started
    ensures d.Errored? ==> exists i :: 0 <= i < |l| && Contains(l[i].state, "error") && d.state == l[i].state && |l[i].names| > 0 && d.unitName == l[i].names[0]
    ensures d == KeepWaiting <==> !(|l| == 1 && l[0].state == Started) && forall i :: 0 <= i < |l| ==> !Contains(l[i].state, "error")
  {
    if |l| == 1 && l[0].state == Started then Done
    else
      var i := FirstErrorState(l);
      if i == |l| then KeepWaiting
      else if |l[i].names| == 0 then MissingEntry(l[i].state)
      else Errored(l[i].names[0], l[i].state)
  }

  /** The decision loop of one poll, as `wait_for_started` runs it. */
  method Decide(states: Listing) returns (d: Decision)
    ensures d == PollDecision(states)
  {
    if |states| == 1 && states[0].state == Started {
      return Done;
    }
    for i := 0 to |states|
      invariant forall j :: 0 <= j < i ==> !Contains(states[j].state, "error")
    {
      if Contains(states[i].state, "error") {
        FirstErrorIs(states, i);
        if |states[i].names| == 0 {
          return MissingEntry(states[i].state);
        }
        return Errored(states[i].names[0], states[i].state);
      }
    }
    FirstErrorIs(states, |states|);
    return KeepWaiting;
  }

  lemma {:induction false} FirstErrorIs(l: Listing, i: nat)
    requires i <= |l|
    requires i < |l| ==> Contains(l[i].state, "error")
    requires forall j :: 0 <= j < i ==> !Contains(l[j].state, "error")
    ensures FirstErrorState(l) == i
  {
    if i > 0 {
      assert !Contains(l[0].state, "error");
      forall j | 0 <= j < i - 1 ensures !Contains(l[1..][j].state, "error") {
        assert l[1..][j] == l[j + 1];
      }
      FirstErrorIs(l[1..], i - 1);
    }
  }

  /** The agent states of a status document never leave an empty list under
      an error key, and `Done` means every machine and unit is started. */
  lemma PollOfAgentStates(status: StatusDoc)
    ensures var items := AgentItems(status);
      var d := PollDecision(StatesOf(items));
      && !d.MissingEntry?
      && (d == Done ==> |items| > 0 && forall j :: 0 <= j < |items| ==> StateOf(items[j].1) == Started)
  {
    var items := AgentItems(status);
    var l := StatesOf(items);
    StatesOfShape(items);
    if PollDecision(l) == Done {
      forall j | 0 <= j < |items| ensures StateOf(items[j].1) == Started {
        assert StateOf(items[j].1) in ItemStates(items);
      }
      assert Started in Keys(l);
    }
  }

  // ---- wait_for_started, over the polls that fit in its timeout --------------------

  datatype WaitOutcome = StartedWith(status: StatusDoc) | RaisedErrored(unitName: string, state: string)
                       | RaisedIndexError | TimedOut

  /** The outcome of polling the given status documents in turn. */
  function WaitFor(polls: seq<StatusDoc>): WaitOutcome
  {
    if |polls| == 0 then TimedOut
    else match PollDecision(StatesOf(AgentItems(polls[0])))
      case Done => StartedWith(polls[0])
      case Errored(n, st) => RaisedErrored(n, st)
      case MissingEntry(_) => RaisedIndexError
      case KeepWaiting => WaitFor(polls[1..])
  }

  /** `wait_for_started`, with the status documents it would read within its
      timeout given as `polls`. */
  method WaitForStarted(polls: seq<StatusDoc>) returns (r: WaitOutcome)
    ensures r == WaitFor(polls)
  {
    var i := 0;
    while i < |polls|
      invariant 0 <= i <= |polls|
      invariant WaitFor(polls) == WaitFor(polls[i..])
    {
      assert polls[i..][1..] == polls[i + 1..];
      var states := AgentStates(polls[i]);
      var d := Decide(states);
      match d {
        case Done => return StartedWith(polls[i]);
        case Errored(n, st) => return RaisedErrored(n, st);
        case MissingEntry(_) => return RaisedIndexError;
        case KeepWaiting =>
      }
      i := i + 1;
    }
    return TimedOut;
  }

  /** Waiting ends with a status only when it is one of the polls and every
      agent in it is started; it never fails on an empty list. */
  lemma {:induction false} WaitForStartedSound(polls: seq<StatusDoc>)
    ensures WaitFor(polls).StartedWith? ==>
      var s := WaitFor(polls).status;
      && s in polls
      && |AgentItems(s)| > 0
      && forall j :: 0 <= j < |AgentItems(s)| ==> StateOf(AgentItems(s)[j].1) == Started
    ensures !WaitFor(polls).RaisedIndexError?
  {
    if |polls| > 0 {
      PollOfAgentStates(polls[0]);
      WaitForStartedSound(polls[1..]);
    }
  }
}
