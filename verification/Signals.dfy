/** The table of DCOP signal connections. Every connection object is stored in
    the list of its signal, in the list of its receiver and, if it is volatile,
    in the list of its sender. */
module Signals {
  import opened Connections
  import opened Options
  import opened PtrLists
  import opened SignalArgs
  import opened Texts

  type SC = DCOPSignalConnection

  // ------------------------------------------------------ the table on values

  type Index = map<string, seq<SC>>
  type Lists = map<DCOPConnection, seq<SC>>

  function At(index: Index, signal: string): seq<SC> {
    if signal in index then index[signal] else []
  }

  predicate Involves(c: SC, d: DCOPConnection) {
    c.recvConn == d || c.senderConn == d
  }

  ghost predicate Filed(c: SC, index: Index, lists: Lists) {
    && c in At(index, c.signal)
    && c.recvConn in lists && c in lists[c.recvConn]
    && (c.senderConn != null ==> c.senderConn in lists && c in lists[c.senderConn])
  }

  ghost predicate NoRepeats(index: Index, lists: Lists) {
    (forall s :: NoDuplicates(At(index, s))) && (forall d | d in lists :: NoDuplicates(lists[d]))
  }

  ghost predicate SignalFiled(index: Index, lists: Lists, s: string) {
    forall c | c in At(index, s) :: c.signal == s && Filed(c, index, lists)
  }

  ghost predicate ClientFiled(index: Index, lists: Lists, d: DCOPConnection)
    requires d in lists
  {
    forall c | c in lists[d] :: Involves(c, d) && Filed(c, index, lists)
  }

  ghost predicate AllFiled(index: Index, lists: Lists) {
    (forall s :: SignalFiled(index, lists, s)) && (forall d | d in lists :: ClientFiled(index, lists, d))
  }

  /** Each object is once in each list it belongs to, and no list holds
      anything else. */
  ghost predicate Consistent(index: Index, lists: Lists) {
    NoRepeats(index, lists) && AllFiled(index, lists)
  }

  /** What is left of the table when the objects in `gone` are deleted. */
  ghost predicate Purged(index: Index, lists: Lists, gone: set<SC>, index': Index, lists': Lists) {
    && (forall s :: At(index', s) == Without(At(index, s), gone))
    && lists'.Keys == lists.Keys
    && (forall d | d in lists :: lists'[d] == Without(lists[d], gone))
  }

  lemma FiledSurvives(c: SC, index: Index, lists: Lists, gone: set<SC>, index': Index, lists': Lists)
    requires Filed(c, index, lists) && Purged(index, lists, gone, index', lists') && c !in gone
    ensures Filed(c, index', lists')
  {
    WithoutMembers(At(index, c.signal), gone, c);
    WithoutMembers(lists[c.recvConn], gone, c);
    if c.senderConn != null {
      WithoutMembers(lists[c.senderConn], gone, c);
    }
  }

  lemma PurgeKeepsDistinct(index: Index, lists: Lists, gone: set<SC>, index': Index, lists': Lists)
    requires NoRepeats(index, lists) && Purged(index, lists, gone, index', lists')
    ensures NoRepeats(index', lists')
  {
    forall s ensures NoDuplicates(At(index', s)) {
      WithoutKeepsDistinct(At(index, s), gone);
    }
    forall d | d in lists' ensures NoDuplicates(lists'[d]) {
      WithoutKeepsDistinct(lists[d], gone);
    }
  }

  lemma PurgeKeepsFiled(index: Index, lists: Lists, gone: set<SC>, index': Index, lists': Lists)
    requires AllFiled(index, lists) && Purged(index, lists, gone, index', lists')
    ensures AllFiled(index', lists')
  {
    forall s ensures SignalFiled(index', lists', s) {
      assert SignalFiled(index, lists, s);
      forall c | c in At(index', s) ensures c.signal == s && Filed(c, index', lists') {
        WithoutMembers(At(index, s), gone, c);
        FiledSurvives(c, index, lists, gone, index', lists');
      }
    }
    forall d | d in lists' ensures ClientFiled(index', lists', d) {
      assert ClientFiled(index, lists, d);
      forall c | c in lists'[d] ensures Involves(c, d) && Filed(c, index', lists') {
        WithoutMembers(lists[d], gone, c);
        FiledSurvives(c, index, lists, gone, index', lists');
      }
    }
  }

  lemma PurgeKeepsConsistent(index: Index, lists: Lists, gone: set<SC>, index': Index, lists': Lists)
    requires Consistent(index, lists) && Purged(index, lists, gone, index', lists')
    ensures Consistent(index', lists')
  {
    PurgeKeepsDistinct(index, lists, gone, index', lists');
    PurgeKeepsFiled(index, lists, gone, index', lists');
  }

  /** One object taken out of each list it belongs to. */
  ghost predicate Removed(index: Index, lists: Lists, c: SC, index': Index, lists': Lists) {
    && (forall s :: At(index', s) == if s == c.signal then RemoveRef(At(index, s), c) else At(index, s))
    && lists'.Keys == lists.Keys
    && (forall d | d in lists :: lists'[d] == if Involves(c, d) then RemoveRef(lists[d], c) else lists[d])
  }

  lemma PurgeOneMore(index0: Index, lists0: Lists, gone: set<SC>, index: Index, lists: Lists,
                     c: SC, index': Index, lists': Lists)
    requires Consistent(index0, lists0) && Purged(index0, lists0, gone, index, lists)
    requires Removed(index, lists, c, index', lists')
    ensures Purged(index0, lists0, gone + {c}, index', lists')
  {
    forall s ensures At(index', s) == Without(At(index0, s), gone + {c}) {
      assert SignalFiled(index0, lists0, s);
      if s == c.signal {
        WithoutOneMore(At(index0, s), gone, c);
      } else {
        WithoutSame(At(index0, s), gone, c);
      }
    }
    forall d | d in lists0 ensures lists'[d] == Without(lists0[d], gone + {c}) {
      assert ClientFiled(index0, lists0, d);
      if Involves(c, d) {
        WithoutOneMore(lists0[d], gone, c);
      } else {
        WithoutSame(lists0[d], gone, c);
      }
    }
  }

  /** A new object goes to the end of each list it belongs to. */
  ghost predicate Added(index: Index, lists: Lists, c: SC, index': Index, lists': Lists) {
    && (forall s :: At(index', s) == if s == c.signal then At(index, s) + [c] else At(index, s))
    && lists'.Keys == lists.Keys
    && (forall d | d in lists :: lists'[d] == if Involves(c, d) then lists[d] + [c] else lists[d])
  }

  /** A new object is added, or those in `gone` are deleted. */
  ghost predicate Changed(index: Index, lists: Lists, added: DCOPSignalConnection?, gone: set<SC>, index': Index,
                          lists': Lists)
  {
    if added != null then gone == {} && Added(index, lists, added, index', lists')
    else Purged(index, lists, gone, index', lists')
  }

  lemma AddKeepsConsistent(index: Index, lists: Lists, c: SC, index': Index, lists': Lists)
    requires Consistent(index, lists) && Added(index, lists, c, index', lists')
    requires c.recvConn in lists && (c.senderConn != null ==> c.senderConn in lists)
    requires c !in At(index, c.signal)
    ensures Consistent(index', lists')
  {
    AddKeepsDistinct(index, lists, c, index', lists');
    forall s ensures SignalFiled(index', lists', s) {
      assert SignalFiled(index, lists, s);
      forall x | x in At(index', s) ensures x.signal == s && Filed(x, index', lists') {
        if x != c {
          AddKeepsFiled(index, lists, c, index', lists', x);
        }
      }
    }
    forall d | d in lists' ensures ClientFiled(index', lists', d) {
      assert ClientFiled(index, lists, d);
      forall x | x in lists'[d] ensures Involves(x, d) && Filed(x, index', lists') {
        if x != c {
          AddKeepsFiled(index, lists, c, index', lists', x);
        }
      }
    }
  }

  lemma AddKeepsFiled(index: Index, lists: Lists, c: SC, index': Index, lists': Lists, x: SC)
    requires Added(index, lists, c, index', lists') && Filed(x, index, lists)
    ensures Filed(x, index', lists')
  {
  }

  lemma AddKeepsDistinct(index: Index, lists: Lists, c: SC, index': Index, lists': Lists)
    requires Consistent(index, lists) && Added(index, lists, c, index', lists') && c !in At(index, c.signal)
    ensures NoRepeats(index', lists')
  {
    forall d | d in lists ensures c !in lists[d] {
      assert ClientFiled(index, lists, d);
    }
  }

  // ------------------------------------------------------- selecting objects

  type Names = map<DCOPConnection, Option<string>>

  /** disconnectSignal: an empty senderObj, receiverObj or slot matches all. The
      name of a volatile sender is the one it has now. */
  predicate Matches(c: SC, senderName: Option<string>, sender: string, senderObj: string,
                    conn: DCOPConnection, receiverObj: string, slot: string)
  {
    && c.recvConn == conn
    && (if c.senderConn != null then senderName == Some(sender) else c.sender == sender)
    && (senderObj != "" ==> c.senderObj == senderObj)
    && (receiverObj != "" ==> c.recvObj == receiverObj)
    && (slot != "" ==> c.slot == slot)
  }

  function SenderName(c: SC, names: Names): Option<string> {
    if c.senderConn != null && c.senderConn in names then names[c.senderConn] else None
  }

  /** The objects of one signal that disconnectSignal is to delete. */
  function Targets(listed: seq<SC>, names: Names, sender: string, senderObj: string,
                   conn: DCOPConnection, receiverObj: string, slot: string): set<SC>
  {
    set c | c in listed && Matches(c, SenderName(c, names), sender, senderObj, conn, receiverObj, slot)
  }

  /** removeConnections: with an object name, a connection is kept if the client
      is its sender under another object name or its receiver under another one;
      so one from the client to itself goes only if both names match. */
  predicate Related(c: SC, conn: DCOPConnection, obj: string) {
    obj != "" ==>
      && (c.senderConn == conn ==> c.senderObj == obj)
      && (c.recvConn == conn ==> c.recvObj == obj)
  }

  /** The objects of a client's list that removeConnections is to delete. */
  function RelatedOf(listed: seq<SC>, conn: DCOPConnection, obj: string): set<SC> {
    set c | c in listed && Related(c, conn, obj)
  }

  // ------------------------------------------------- deleting while iterating

  /** Where a loop over `orig` that deletes as it goes stands: it has dealt with
      the first `i` items and the cursor is on the next one. */
  ghost predicate Sweeping(orig: seq<SC>, i: nat, gone: set<SC>, list: PtrList<SC>) {
    && i <= |orig| && NoDuplicates(orig)
    && (forall c | c in gone :: c in orig[..i])
    && list.items == Without(orig, gone)
    && (i < |orig| ==> list.at == |Without(orig[..i], gone)|)
  }

  lemma SweepShape(orig: seq<SC>, i: nat, gone: set<SC>)
    requires i <= |orig| && NoDuplicates(orig) && forall c | c in gone :: c in orig[..i]
    ensures Without(orig, gone) == Without(orig[..i], gone) + orig[i..]
    ensures i < |orig| ==> Without(orig[..i + 1], gone) == Without(orig[..i], gone) + [orig[i]]
  {
    assert orig == orig[..i] + orig[i..];
    WithoutConcat(orig[..i], orig[i..], gone);
    WithoutNothing(orig[i..], gone);
    if i < |orig| {
      assert orig[..i + 1] == orig[..i] + [orig[i]];
      WithoutConcat(orig[..i], [orig[i]], gone);
    }
  }

  /** Stepping over an item that stays. */
  lemma SweepKeep(orig: seq<SC>, i: nat, gone: set<SC>, list: PtrList<SC>)
    requires Sweeping(orig, i, gone, list) && i < |orig|
    ensures list.Current() == Some(orig[i])
    ensures Sweeping(orig, i + 1, gone, list.ToNext())
    ensures list.ToNext().Current() == if i + 1 < |orig| then Some(orig[i + 1]) else None
  {
    SweepShape(orig, i, gone);
    SweepShape(orig, i + 1, gone);
  }

  /** The item at the cursor is found where the cursor is. */
  lemma CursorIndex(orig: seq<SC>, i: nat, gone: set<SC>, items: seq<SC>)
    requires i < |orig| && NoDuplicates(orig) && (forall c | c in gone :: c in orig[..i])
    requires items == Without(orig, gone)
    ensures |Without(orig[..i], gone)| < |items| && IndexOf(items, orig[i]) == |Without(orig[..i], gone)|
  {
    SweepShape(orig, i, gone);
    WithoutMembers(orig[..i], gone, orig[i]);
    var k := |Without(orig[..i], gone)|;
    assert items[k] == orig[i] && items[..k] == Without(orig[..i], gone);
  }

  /** What next() followed by removeRef of the item that was current does to a list. */
  lemma NextThenRemove(list: PtrList<SC>, x: SC)
    requires 0 <= list.at < |list.items| && IndexOf(list.items, x) == list.at
    ensures var after := list.ToNext().Remove(x);
            && after.items == RemoveRef(list.items, x)
            && (list.at + 1 < |list.items| ==> after.at == list.at)
  {
    RemoveRefAtIndex(list.items, x);
  }

  /** One more item is gone, and what was dealt with is left as it was. */
  lemma SweepShrinks(orig: seq<SC>, i: nat, gone: set<SC>)
    requires i < |orig| && NoDuplicates(orig) && forall c | c in gone :: c in orig[..i]
    ensures Without(orig[..i + 1], gone + {orig[i]}) == Without(orig[..i], gone)
    ensures RemoveRef(Without(orig, gone), orig[i]) == Without(orig, gone + {orig[i]})
  {
    var x, gone' := orig[i], gone + {orig[i]};
    WithoutOneMore(orig, gone, x);
    assert orig[..i + 1] == orig[..i] + [x];
    WithoutConcat(orig[..i], [x], gone');
    WithoutSame(orig[..i], gone, x);
  }

  lemma SweepLength(orig: seq<SC>, i: nat, gone: set<SC>)
    requires i <= |orig| && NoDuplicates(orig) && forall c | c in gone :: c in orig[..i]
    ensures |Without(orig, gone)| == |Without(orig[..i], gone)| + |orig| - i
  {
    SweepShape(orig, i, gone);
  }

  /** Fetching the next item and then deleting the current one leaves the cursor
      on the item fetched. */
  lemma SweepDelete(orig: seq<SC>, i: nat, gone: set<SC>, list: PtrList<SC>)
    requires Sweeping(orig, i, gone, list) && i < |orig|
    ensures Sweeping(orig, i + 1, gone + {orig[i]}, list.ToNext().Remove(orig[i]))
  {
    CursorIndex(orig, i, gone, list.items);
    NextThenRemove(list, orig[i]);
    SweepShrinks(orig, i, gone);
    SweepLength(orig, i, gone);
  }

  lemma ListedIsFiled(index: Index, lists: Lists, signal: string, c: SC)
    requires Consistent(index, lists) && c in At(index, signal)
    ensures c.signal == signal && Filed(c, index, lists)
  {
    assert SignalFiled(index, lists, signal);
  }

  lemma OwnIsFiled(index: Index, lists: Lists, d: DCOPConnection, c: SC)
    requires Consistent(index, lists) && d in lists && c in lists[d]
    ensures Involves(c, d) && Filed(c, index, lists)
  {
    assert ClientFiled(index, lists, d);
  }

  lemma PurgeNothing(index: Index, lists: Lists)
    ensures Purged(index, lists, {}, index, lists)
  {
    forall s ensures At(index, s) == Without(At(index, s), {}) {
      WithoutNothing(At(index, s), {});
    }
    forall d | d in lists ensures lists[d] == Without(lists[d], {}) {
      WithoutNothing(lists[d], {});
    }
  }

  lemma StillIndexed(c: SC, index0: Index, lists0: Lists, gone: set<SC>, index: Index, lists: Lists)
    requires Filed(c, index0, lists0) && Purged(index0, lists0, gone, index, lists) && c !in gone
    ensures c.signal in index
  {
    WithoutMembers(At(index0, c.signal), gone, c);
  }

  /** The state of both deleting loops: of the first `i` items of `orig`, those
      in `want` are gone from every list. */
  ghost predicate Deleting(orig: seq<SC>, want: set<SC>, i: nat, gone: set<SC>, list: PtrList<SC>,
                           index0: Index, lists0: Lists, index: Index, lists: Lists) {
    && Sweeping(orig, i, gone, list)
    && gone == (set c | c in orig[..i] && c in want)
    && Purged(index0, lists0, gone, index, lists)
  }

  lemma DeletingStarts(orig: seq<SC>, want: set<SC>, list: PtrList<SC>, index: Index, lists: Lists)
    requires NoDuplicates(orig) && list.items == orig
    ensures Deleting(orig, want, 0, {}, list.ToFirst(), index, lists, index, lists)
    ensures list.ToFirst().Current() == if orig == [] then None else Some(orig[0])
  {
    PurgeNothing(index, lists);
    WithoutNothing(orig, {});
  }

  lemma DeletingKeeps(orig: seq<SC>, want: set<SC>, i: nat, gone: set<SC>, list: PtrList<SC>,
                      index0: Index, lists0: Lists, index: Index, lists: Lists)
    requires Deleting(orig, want, i, gone, list, index0, lists0, index, lists)
    requires i < |orig| && orig[i] !in want
    ensures Deleting(orig, want, i + 1, gone, list.ToNext(), index0, lists0, index, lists)
  {
    SweepKeep(orig, i, gone, list);
    assert orig[..i + 1] == orig[..i] + [orig[i]];
  }

  lemma DeletingDeletes(orig: seq<SC>, want: set<SC>, i: nat, gone: set<SC>, list: PtrList<SC>,
                        index0: Index, lists0: Lists, index: Index, lists: Lists, index': Index, lists': Lists)
    requires Consistent(index0, lists0)
    requires Deleting(orig, want, i, gone, list, index0, lists0, index, lists)
    requires i < |orig| && orig[i] in want && Removed(index, lists, orig[i], index', lists')
    ensures Deleting(orig, want, i + 1, gone + {orig[i]}, list.ToNext().Remove(orig[i]), index0, lists0, index', lists')
  {
    SweepDelete(orig, i, gone, list);
    PurgeOneMore(index0, lists0, gone, index, lists, orig[i], index', lists');
    assert orig[..i + 1] == orig[..i] + [orig[i]];
  }

  lemma DeletingAt(orig: seq<SC>, want: set<SC>, i: nat, gone: set<SC>, list: PtrList<SC>,
                   index0: Index, lists0: Lists, index: Index, lists: Lists)
    requires Deleting(orig, want, i, gone, list, index0, lists0, index, lists)
    requires i < |orig| && Filed(orig[i], index0, lists0)
    ensures list.Current() == Some(orig[i])
    ensures list.ToNext().Current() == if i + 1 < |orig| then Some(orig[i + 1]) else None
    ensures orig[i].signal in index
  {
    SweepKeep(orig, i, gone, list);
    StillIndexed(orig[i], index0, lists0, gone, index, lists);
  }

  lemma DeletingEnds(orig: seq<SC>, want: set<SC>, i: nat, gone: set<SC>, list: PtrList<SC>,
                     index0: Index, lists0: Lists, index: Index, lists: Lists)
    requires Consistent(index0, lists0)
    requires Deleting(orig, want, i, gone, list, index0, lists0, index, lists)
    requires i == |orig| && forall c | c in want :: c in orig
    ensures gone == want && Consistent(index, lists)
  {
    assert orig[..i] == orig;
    PurgeKeepsConsistent(index0, lists0, gone, index, lists);
  }

  // --------------------------------------------------------------- the table

  ghost function ListsOf(live: set<DCOPConnection>): Lists
    reads live`signalConnectionList
  {
    map d | d in live :: d.signalConnectionList.items
  }

  ghost function NamesOf(live: set<DCOPConnection>): Names
    reads live`appId
  {
    map d | d in live :: d.appId
  }

  ghost predicate NamesAre(names: Names, live: set<DCOPConnection>)
    reads live`appId
  {
    forall d | d in live :: d in names && names[d] == d.appId
  }

  /** Who gets a signal: what `emitSignal` tests for one connection object. */
  predicate Wanted(c: SC, conn: DCOPConnection?, name: Option<string>, senderObj: string, excludeSelf: bool) {
    && (if c.senderConn != null then c.senderConn == conn
        else if c.sender != "" then (conn != null && name == Some(c.sender)) || c.sender == "DCOPServer"
        else true)
    && (c.senderObj != "" ==> c.senderObj == senderObj)
    && (excludeSelf ==> conn != c.recvConn)
  }

  /** The emitting object is put in front of the signal, separated by a '#'. */
  function SenderObj(fun: string): string {
    var i := IndexOf(fun, '#');
    if i < |fun| then fun[..i] else ""
  }

  function SignalName(fun: string): string {
    var i := IndexOf(fun, '#');
    if i < |fun| then fun[i + 1..] else fun
  }

  class DCOPSignals {
    var connections: map<string, PtrList<SC>>

    constructor ()
      ensures connections == map[]
    {
      connections := map[];
    }

    ghost function Table(): Index
      reads this
    {
      map s | s in connections :: connections[s].items
    }

    ghost predicate Valid(live: set<DCOPConnection>)
      reads this, live`signalConnectionList
    {
      Consistent(Table(), ListsOf(live))
    }

    /** Filing a new object in each list it belongs to. */
    method File(current: SC, ghost live: set<DCOPConnection>)
      requires Valid(live) && current !in At(Table(), current.signal)
      requires current.recvConn in live && (current.senderConn != null ==> current.senderConn in live)
      modifies this, live`signalConnectionList
      ensures Valid(live)
      ensures Added(old(Table()), old(ListsOf(live)), current, Table(), ListsOf(live))
    {
      ghost var index, lists := Table(), ListsOf(live);
      var signal, conn, senderConn := current.signal, current.recvConn, current.senderConn;
      var list := if signal in connections then connections[signal] else Empty();
      connections := connections[signal := list.Append(current)];
      conn.signalConnectionList := conn.signalConnectionList.Append(current);
      if senderConn != null && senderConn != conn {
        senderConn.signalConnectionList := senderConn.signalConnectionList.Append(current);
      }
      AddKeepsConsistent(index, lists, current, Table(), ListsOf(live));
    }

    /** `found` is the client now registered under the name `sender`. */
    method ConnectSignal(sender: string, senderObj: string, signal: string, conn: DCOPConnection,
                         receiverObj: string, slot: string, volatileConn: bool, found: DCOPConnection?,
                         ghost live: set<DCOPConnection>)
      returns (ok: bool, ghost added: DCOPSignalConnection?)
      requires Valid(live) && conn in live && (found != null ==> found in live)
      modifies this, live`signalConnectionList
      ensures Valid(live)
      ensures ok <==> HasArgs(signal) && HasArgs(slot) && Args(ArgsOf(slot)) <= Args(ArgsOf(signal))
                      && (volatileConn ==> found != null)
      ensures !ok ==> added == null && Table() == old(Table()) && ListsOf(live) == old(ListsOf(live))
      ensures ok ==>
                && added != null && fresh(added)
                && added.sender == sender && added.senderObj == senderObj && added.signal == signal
                && added.recvConn == conn && added.recvObj == receiverObj && added.slot == slot
                && added.senderConn == (if volatileConn then found else null)
                && Added(old(Table()), old(ListsOf(live)), added, Table(), ListsOf(live))
    {
      added := null;
      if !HasArgs(signal) || !HasArgs(slot) {
        return false, null;
      }
      AcceptsIffPrefix(ArgsOf(signal), ArgsOf(slot));
      if !Accepts(ArgsOf(signal), ArgsOf(slot)) || (volatileConn && found == null) {
        return false, null;
      }
      var senderConn := if volatileConn then found else null;
      var current := new DCOPSignalConnection(sender, senderObj, senderConn, signal, conn, receiverObj, slot);
      File(current, live);
      return true, current;
    }

    /** Taking an object out of the lists of its receiver and its sender. */
    method Unlink(current: SC, ghost live: set<DCOPConnection>)
      requires current.recvConn in live && (current.senderConn != null ==> current.senderConn in live)
      modifies live`signalConnectionList
      ensures forall d | d in live :: d.signalConnectionList ==
                if Involves(current, d) then old(d.signalConnectionList).Remove(current)
                else old(d.signalConnectionList)
      ensures forall d | d in live :: ListsOf(live)[d] ==
                if Involves(current, d) then RemoveRef(old(ListsOf(live))[d], current) else old(ListsOf(live))[d]
    {
      forall d | d in live ensures d.signalConnectionList.Remove(current).items
                                   == RemoveRef(d.signalConnectionList.items, current) {
        RemoveRefAtIndex(d.signalConnectionList.items, current);
      }
      var recvConn, senderConn := current.recvConn, current.senderConn;
      if senderConn != null && senderConn != recvConn {
        senderConn.signalConnectionList := senderConn.signalConnectionList.Remove(current);
      }
      recvConn.signalConnectionList := recvConn.signalConnectionList.Remove(current);
    }

    /** Taking an object out of the list of its signal; if asked to, a signal
        without connections is forgotten. */
    method Unindex(current: SC, dropEmpty: bool)
      requires current.signal in connections
      modifies this
      ensures var signal := current.signal;
              var list := old(connections)[signal].Remove(current);
              connections == if dropEmpty && list.items == [] then old(connections) - {signal}
                             else old(connections)[signal := list]
      ensures forall s :: At(Table(), s) == if s == current.signal then RemoveRef(At(old(Table()), s), current)
                                            else At(old(Table()), s)
    {
      RemoveRefAtIndex(connections[current.signal].items, current);
      var signal := current.signal;
      var signalList := connections[signal].Remove(current);
      connections := connections[signal := signalList];
      if dropEmpty && signalList.items == [] {
        connections := connections - {signal};
      }
    }

    method Unfile(current: SC, dropEmpty: bool, ghost live: set<DCOPConnection>)
      requires current.recvConn in live && (current.senderConn != null ==> current.senderConn in live)
      requires current.signal in connections
      modifies this, live`signalConnectionList
      ensures Removed(old(Table()), old(ListsOf(live)), current, Table(), ListsOf(live))
      ensures forall d | d in live && Involves(current, d) ::
                d.signalConnectionList == old(d.signalConnectionList).Remove(current)
      ensures !dropEmpty ==>
                connections == old(connections)[current.signal := old(connections)[current.signal].Remove(current)]
    {
      Unlink(current, live);
      Unindex(current, dropEmpty);
    }

    /** Moving the cursor of a list does not change what the table holds. */
    method MoveCursor(conn: DCOPConnection, list: PtrList<SC>, ghost live: set<DCOPConnection>)
      requires list.items == conn.signalConnectionList.items
      modifies conn`signalConnectionList
      ensures conn.signalConnectionList == list && ListsOf(live) == old(ListsOf(live))
    {
      conn.signalConnectionList := list;
    }

    method MoveSignalCursor(signal: string, list: PtrList<SC>)
      requires signal in connections && list.items == connections[signal].items
      modifies this
      ensures connections == old(connections)[signal := list] && Table() == old(Table())
    {
      connections := connections[signal := list];
    }

    /** One turn of the loop of removeConnections, on the item `current`. */
    method RemoveTurn(current: SC, conn: DCOPConnection, obj: string,
                      ghost orig: seq<SC>, ghost want: set<SC>, ghost i: nat, ghost done: set<SC>,
                      ghost index: Index, ghost lists: Lists, ghost live: set<DCOPConnection>)
      returns (next: Option<SC>, ghost gone: set<SC>)
      requires conn in live && live == lists.Keys && Consistent(index, lists)
      requires i < |orig| && orig[i] == current && Involves(current, conn) && Filed(current, index, lists)
      requires current in want <==> Related(current, conn, obj)
      requires Deleting(orig, want, i, done, conn.signalConnectionList, index, lists, Table(), ListsOf(live))
      modifies this, live`signalConnectionList
      ensures Deleting(orig, want, i + 1, gone, conn.signalConnectionList, index, lists, Table(), ListsOf(live))
      ensures next == if i + 1 < |orig| then Some(orig[i + 1]) else None
    {
      ghost var list, index1, lists1 := conn.signalConnectionList, Table(), ListsOf(live);
      DeletingAt(orig, want, i, done, list, index, lists, index1, lists1);
      MoveCursor(conn, conn.signalConnectionList.ToNext(), live);
      next, gone := conn.signalConnectionList.Current(), done;
      if Related(current, conn, obj) {
        Unfile(current, true, live);
        DeletingDeletes(orig, want, i, done, list, index, lists, index1, lists1, Table(), ListsOf(live));
        gone := done + {current};
      } else {
        DeletingKeeps(orig, want, i, done, list, index, lists, index1, lists1);
      }
    }

    /** The loop of removeConnections. */
    method RemoveLoop(conn: DCOPConnection, obj: string, ghost orig: seq<SC>, ghost want: set<SC>,
                      ghost index: Index, ghost lists: Lists, ghost live: set<DCOPConnection>)
      requires conn in live && live == lists.Keys && Consistent(index, lists) && orig == lists[conn]
      requires want == RelatedOf(orig, conn, obj)
      requires Deleting(orig, want, 0, {}, conn.signalConnectionList, index, lists, Table(), ListsOf(live))
      requires conn.signalConnectionList.Current() == if orig == [] then None else Some(orig[0])
      modifies this, live`signalConnectionList
      ensures Purged(index, lists, want, Table(), ListsOf(live))
    {
      ghost var i, gone: set<SC> := 0, {};
      var current := conn.signalConnectionList.Current();
      while current.Some?
        invariant Deleting(orig, want, i, gone, conn.signalConnectionList, index, lists, Table(), ListsOf(live))
        invariant current == if i < |orig| then Some(orig[i]) else None
        decreases |orig| - i
      {
        OwnIsFiled(index, lists, conn, current.value);
        current, gone := RemoveTurn(current.value, conn, obj, orig, want, i, gone, index, lists, live);
        i := i + 1;
      }
      DeletingEnds(orig, want, i, gone, conn.signalConnectionList, index, lists, Table(), ListsOf(live));
    }

    /** removeConnections: walks the list of `conn` and deletes as it goes. */
    method RemoveConnections(conn: DCOPConnection, obj: string, ghost live: set<DCOPConnection>)
      returns (ghost gone: set<SC>)
      requires Valid(live) && conn in live
      modifies this, live`signalConnectionList
      ensures Valid(live)
      ensures gone == RelatedOf(old(conn.signalConnectionList.items), conn, obj)
      ensures Purged(old(Table()), old(ListsOf(live)), gone, Table(), ListsOf(live))
    {
      ghost var index, lists, orig := Table(), ListsOf(live), conn.signalConnectionList.items;
      gone := RelatedOf(orig, conn, obj);
      assert orig == lists[conn] && NoDuplicates(lists[conn]);
      DeletingStarts(orig, gone, conn.signalConnectionList, index, lists);
      MoveCursor(conn, conn.signalConnectionList.ToFirst(), live);
      RemoveLoop(conn, obj, orig, gone, index, lists, live);
      PurgeKeepsConsistent(index, lists, gone, Table(), ListsOf(live));
    }

    /** The test of the loop of disconnectSignal. */
    method IsTarget(current: SC, sender: string, senderObj: string, conn: DCOPConnection,
                    receiverObj: string, slot: string, ghost orig: seq<SC>, ghost names: Names)
      returns (matched: bool)
      requires current in orig
      requires current.senderConn != null ==>
                 current.senderConn in names && names[current.senderConn] == current.senderConn.appId
      ensures matched <==> current in Targets(orig, names, sender, senderObj, conn, receiverObj, slot)
    {
      var senderName := if current.senderConn != null then current.senderConn.appId else None;
      matched := Matches(current, senderName, sender, senderObj, conn, receiverObj, slot);
    }

    /** One turn of the loop of disconnectSignal, on the item `current`. */
    method DisconnectTurn(current: SC, matched: bool, signal: string, conn: DCOPConnection,
                          ghost orig: seq<SC>, ghost want: set<SC>, ghost i: nat, ghost done: set<SC>,
                          ghost index: Index, ghost lists: Lists, ghost live: set<DCOPConnection>)
      returns (next: Option<SC>, ghost gone: set<SC>)
      requires conn in live && live == lists.Keys && Consistent(index, lists) && signal in connections
      requires i < |orig| && orig[i] == current && current.signal == signal && Filed(current, index, lists)
      requires matched <==> current in want
      requires Deleting(orig, want, i, done, connections[signal], index, lists, Table(), ListsOf(live))
      modifies this, live`signalConnectionList
      ensures signal in connections
      ensures Deleting(orig, want, i + 1, gone, connections[signal], index, lists, Table(), ListsOf(live))
      ensures next == if i + 1 < |orig| then Some(orig[i + 1]) else None
      ensures gone != {} <==> done != {} || matched
    {
      ghost var list, index1, lists1 := connections[signal], Table(), ListsOf(live);
      DeletingAt(orig, want, i, done, list, index, lists, index1, lists1);
      MoveSignalCursor(signal, connections[signal].ToNext());
      next, gone := connections[signal].Current(), done;
      if matched {
        Unfile(current, false, live);
        DeletingDeletes(orig, want, i, done, list, index, lists, index1, lists1, Table(), ListsOf(live));
        gone := done + {current};
      } else {
        DeletingKeeps(orig, want, i, done, list, index, lists, index1, lists1);
      }
    }

    /** Testing the current item before its turn. */
    method DisconnectNext(current: SC, sender: string, senderObj: string, signal: string, conn: DCOPConnection,
                          receiverObj: string, slot: string, ghost orig: seq<SC>, ghost want: set<SC>,
                          ghost names: Names, ghost i: nat, ghost done: set<SC>, ghost index: Index, ghost lists: Lists,
                          ghost live: set<DCOPConnection>)
      returns (next: Option<SC>, matched: bool, ghost gone: set<SC>)
      requires conn in live && live == lists.Keys && Consistent(index, lists) && signal in connections
      requires orig == At(index, signal) && NamesAre(names, live)
      requires want == Targets(orig, names, sender, senderObj, conn, receiverObj, slot)
      requires i < |orig| && orig[i] == current
      requires Deleting(orig, want, i, done, connections[signal], index, lists, Table(), ListsOf(live))
      modifies this, live`signalConnectionList
      ensures signal in connections && NamesAre(names, live)
      ensures Deleting(orig, want, i + 1, gone, connections[signal], index, lists, Table(), ListsOf(live))
      ensures next == if i + 1 < |orig| then Some(orig[i + 1]) else None
      ensures gone != {} <==> done != {} || matched
    {
      ListedIsFiled(index, lists, signal, current);
      matched := IsTarget(current, sender, senderObj, conn, receiverObj, slot, orig, names);
      next, gone := DisconnectTurn(current, matched, signal, conn, orig, want, i, done, index, lists, live);
    }

    /** The loop of disconnectSignal; `want` are the objects it is to delete. */
    method DisconnectLoop(sender: string, senderObj: string, signal: string, conn: DCOPConnection,
                          receiverObj: string, slot: string, ghost orig: seq<SC>, ghost want: set<SC>,
                          ghost names: Names, ghost index: Index, ghost lists: Lists, ghost live: set<DCOPConnection>)
      returns (result: bool, ghost gone: set<SC>)
      requires conn in live && live == lists.Keys && Consistent(index, lists) && signal in connections
      requires orig == At(index, signal) && NamesAre(names, live)
      requires want == Targets(orig, names, sender, senderObj, conn, receiverObj, slot)
      requires Deleting(orig, want, 0, {}, connections[signal], index, lists, Table(), ListsOf(live))
      requires connections[signal].Current() == if orig == [] then None else Some(orig[0])
      modifies this, live`signalConnectionList
      ensures signal in connections
      ensures Deleting(orig, want, |orig|, gone, connections[signal], index, lists, Table(), ListsOf(live))
      ensures result <==> gone != {}
    {
      ghost var i := 0;
      gone := {};
      var current := connections[signal].Current();
      result := false;
      while current.Some?
        invariant signal in connections
        invariant Deleting(orig, want, i, gone, connections[signal], index, lists, Table(), ListsOf(live))
        invariant current == if i < |orig| then Some(orig[i]) else None
        invariant NamesAre(names, live)
        invariant result <==> gone != {}
        decreases |orig| - i
      {
        var matched;
        current, matched, gone := DisconnectNext(current.value, sender, senderObj, signal, conn, receiverObj, slot,
                                                 orig, want, names, i, gone, index, lists, live);
        result := result || matched;
        i := i + 1;
      }
    }

    /** disconnectSignal deletes exactly the objects that match. Without sender
        and signal, it is a removal by receiver object. */
    method DisconnectSignal(sender: string, senderObj: string, signal: string, conn: DCOPConnection,
                            receiverObj: string, slot: string, ghost live: set<DCOPConnection>)
      returns (result: bool, ghost gone: set<SC>)
      requires Valid(live) && conn in live
      modifies this, live`signalConnectionList
      ensures Valid(live)
      ensures Purged(old(Table()), old(ListsOf(live)), gone, Table(), ListsOf(live))
      ensures sender == "" && signal == "" ==>
                result && gone == RelatedOf(old(conn.signalConnectionList.items), conn, receiverObj)
      ensures sender != "" || signal != "" ==>
                && gone == Targets(old(At(Table(), signal)), old(NamesOf(live)), sender, senderObj, conn, receiverObj,
                                   slot)
                && (result <==> gone != {})
    {
      if sender == "" && signal == "" {
        gone := RemoveConnections(conn, receiverObj, live);
        return true, gone;
      }
      ghost var index, lists, orig := Table(), ListsOf(live), At(Table(), signal);
      gone := Targets(orig, NamesOf(live), sender, senderObj, conn, receiverObj, slot);
      if signal in connections {
        DeletingStarts(orig, gone, connections[signal], index, lists);
        MoveSignalCursor(signal, connections[signal].ToFirst());
        ghost var done;
        result, done := DisconnectLoop(sender, senderObj, signal, conn, receiverObj, slot, orig, gone,
                                       NamesOf(live), index, lists, live);
        DeletingEnds(orig, gone, |orig|, done, connections[signal], index, lists, Table(), ListsOf(live));
      } else {
        assert gone == {};
        PurgeNothing(index, lists);
        result := false;
      }
      PurgeKeepsConsistent(index, lists, gone, Table(), ListsOf(live));
    }

    /** emitSignal: the object name before a '#' is split off; the receivers are
        served in the order in which they connected. */
    method EmitSignal(conn: DCOPConnection?, fun: string, excludeSelf: bool)
      returns (receivers: seq<SC>)
      ensures receivers == Receivers(At(Table(), SignalName(fun)), conn, if conn != null then conn.appId else None,
                                     SenderObj(fun), excludeSelf)
    {
      var senderObj, signal := SenderObj(fun), SignalName(fun);
      var name := if conn != null then conn.appId else None;
      if signal in connections {
        receivers := Serve(connections[signal], conn, name, senderObj, excludeSelf);
      } else {
        receivers := [];
      }
    }
  }

  /** The loop of emitSignal over the objects of one signal. */
  method Serve(signalList: PtrList<SC>, conn: DCOPConnection?, name: Option<string>, senderObj: string,
               excludeSelf: bool) returns (receivers: seq<SC>)
    ensures receivers == Receivers(signalList.items, conn, name, senderObj, excludeSelf)
  {
    var list := signalList.ToFirst();
    receivers := [];
    ghost var items, k := list.items, 0;
    while list.Current().Some?
      invariant list.items == items && k <= |items| && list.at == (if k < |items| then k else -1)
      invariant receivers + Receivers(items[k..], conn, name, senderObj, excludeSelf) ==
                Receivers(items, conn, name, senderObj, excludeSelf)
      decreases |items| - k
    {
      var current := list.Current().value;
      ghost var rest := Receivers(items[k + 1..], conn, name, senderObj, excludeSelf);
      assert items[k..][1..] == items[k + 1..];
      if Wanted(current, conn, name, senderObj, excludeSelf) {
        assert receivers + ([current] + rest) == (receivers + [current]) + rest;
        receivers := receivers + [current];
      } else {
        assert [] + rest == rest;
      }
      list := list.ToNext();
      k := k + 1;
    }
  }

  /** Those of the listed objects that get the signal, in order. */
  function Receivers(listed: seq<SC>, conn: DCOPConnection?, name: Option<string>, senderObj: string,
                     excludeSelf: bool): seq<SC>
  {
    if listed == [] then []
    else (if Wanted(listed[0], conn, name, senderObj, excludeSelf) then [listed[0]] else [])
         + Receivers(listed[1..], conn, name, senderObj, excludeSelf)
  }

  lemma {:induction false} ReceiversMembers(listed: seq<SC>, conn: DCOPConnection?, name: Option<string>,
                                            senderObj: string, excludeSelf: bool, c: SC)
    ensures c in Receivers(listed, conn, name, senderObj, excludeSelf)
            <==> c in listed && Wanted(c, conn, name, senderObj, excludeSelf)
  {
    if listed != [] {
      ReceiversMembers(listed[1..], conn, name, senderObj, excludeSelf, c);
    }
  }

  /** A connection object that names its sender without being bound to a connection. */
  predicate ByName(c: SC) {
    c.senderConn == null && c.sender != ""
  }

  /** The emitter is the one that the name stands for: a client of that name, or the server. */
  predicate IsNamed(sender: string, conn: DCOPConnection?, name: Option<string>) {
    (conn != null && name == Some(sender)) || (conn == null && sender == "DCOPServer")
  }

  /** A by-name connection is served only for the sender it names, whoever emits, exactly
      when that sender is not the server. */
  lemma ByNameExactly(c: SC)
    requires ByName(c)
    ensures (forall conn: DCOPConnection?, name, senderObj, excludeSelf ::
               Wanted(c, conn, name, senderObj, excludeSelf) ==> IsNamed(c.sender, conn, name))
            <==> c.sender != "DCOPServer"
  {
    if c.sender == "DCOPServer" {
      assert Wanted(c, c.recvConn, None, c.senderObj, false) && !IsNamed(c.sender, c.recvConn, None);
    }
  }

  /** A client that listens to a signal of the server by name also gets the signals of that
      name from every other client. */
  lemma ServersSignalFromAnyone(listed: seq<SC>, c: SC, conn: DCOPConnection, name: Option<string>, senderObj: string)
    requires c in listed && ByName(c) && c.sender == "DCOPServer" && (c.senderObj == "" || c.senderObj == senderObj)
    requires name != Some("DCOPServer")
    ensures c in Receivers(listed, conn, name, senderObj, false) && !IsNamed(c.sender, conn, name)
  {
    ReceiversMembers(listed, conn, name, senderObj, false, c);
  }

  /** Whatever is emitted, only open connections are sent anything, and a
      receiver is served once per connection object. */
  lemma EmittedOnlyToOpen(index: Index, lists: Lists, signal: string, conn: DCOPConnection?, name: Option<string>,
                          senderObj: string, excludeSelf: bool)
    requires Consistent(index, lists)
    ensures var receivers := Receivers(At(index, signal), conn, name, senderObj, excludeSelf);
            NoDuplicates(receivers) && forall c | c in receivers :: c.recvConn in lists && c.signal == signal
  {
    ReceiversDistinct(At(index, signal), conn, name, senderObj, excludeSelf);
    forall c | c in Receivers(At(index, signal), conn, name, senderObj, excludeSelf)
      ensures c.recvConn in lists && c.signal == signal
    {
      ReceiversMembers(At(index, signal), conn, name, senderObj, excludeSelf, c);
      ListedIsFiled(index, lists, signal, c);
    }
  }

  lemma {:induction false} ReceiversDistinct(listed: seq<SC>, conn: DCOPConnection?, name: Option<string>,
                                             senderObj: string, excludeSelf: bool)
    requires NoDuplicates(listed)
    ensures NoDuplicates(Receivers(listed, conn, name, senderObj, excludeSelf))
  {
    if listed != [] {
      ReceiversDistinct(listed[1..], conn, name, senderObj, excludeSelf);
      ReceiversMembers(listed[1..], conn, name, senderObj, excludeSelf, listed[0]);
    }
  }

  lemma InvolvedIsListed(index: Index, lists: Lists, c: SC, d: DCOPConnection)
    requires Consistent(index, lists) && Filed(c, index, lists) && d in lists
    ensures c in lists[d] <==> Involves(c, d)
  {
    assert ClientFiled(index, lists, d);
  }

  /** A client nothing refers to any more can be closed. */
  lemma ConsistentWithout(index0: Index, index: Index, lists: Lists, dead: DCOPConnection)
    requires Consistent(index, lists)
    requires LostOnly(index0, dead, index)
    ensures Consistent(index, lists - {dead})
  {
    var open := lists - {dead};
    forall s ensures SignalFiled(index, open, s) {
      assert SignalFiled(index, lists, s) && LostOnlyFrom(At(index0, s), dead, At(index, s));
    }
    forall d | d in open ensures ClientFiled(index, open, d) {
      assert ClientFiled(index, lists, d);
      forall c | c in open[d] ensures Involves(c, d) && Filed(c, index, open) {
        assert c in At(index, c.signal) && LostOnlyFrom(At(index0, c.signal), dead, At(index, c.signal));
      }
    }
  }

  /** The table has lost what involves `dead`, and nothing else. */
  ghost predicate LostOnly(index: Index, dead: DCOPConnection, index': Index) {
    forall s :: LostOnlyFrom(At(index, s), dead, At(index', s))
  }

  ghost predicate LostOnlyFrom(listed: seq<SC>, dead: DCOPConnection, listed': seq<SC>) {
    && (forall c | c in listed' :: c in listed && !Involves(c, dead))
    && (forall c | c in listed && !Involves(c, dead) :: c in listed')
  }

  /** Purging everything a client is involved in takes away what involves it and
      nothing else: what is left names it neither as receiver nor as volatile
      sender, and is consistent for the other clients alone. */
  lemma PurgedOfClient(index: Index, lists: Lists, dead: DCOPConnection, index': Index, lists': Lists)
    requires Consistent(index, lists) && dead in lists
    requires Purged(index, lists, (set c | c in lists[dead]), index', lists')
    ensures LostOnly(index, dead, index')
    ensures Consistent(index', lists' - {dead})
  {
    var gone := set c | c in lists[dead];
    PurgeKeepsConsistent(index, lists, gone, index', lists');
    forall s ensures LostOnlyFrom(At(index, s), dead, At(index', s)) {
      forall c: SC ensures c in At(index', s) <==> c in At(index, s) && !Involves(c, dead) {
        WithoutMembers(At(index, s), gone, c);
        if c in At(index, s) {
          ListedIsFiled(index, lists, s, c);
          InvolvedIsListed(index, lists, c, dead);
        }
      }
    }
    ConsistentWithout(index, index', lists', dead);
  }

  /** A client that has just connected has no signal connections. */
  lemma ConsistentWith(index: Index, lists: Lists, d: DCOPConnection)
    requires Consistent(index, lists) && d !in lists
    ensures Consistent(index, lists[d := []])
  {
    var lists' := lists[d := []];
    forall s ensures SignalFiled(index, lists', s) {
      assert SignalFiled(index, lists, s);
    }
    forall e | e in lists' ensures ClientFiled(index, lists', e) {
      if e != d {
        assert ClientFiled(index, lists, e);
      }
    }
  }
}
