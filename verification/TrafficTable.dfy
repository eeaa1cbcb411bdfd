/** The grouped traffic table of the Python panel, its message buffer and its recorder. */
module TrafficTable {
  import opened Bytes
  import opened Wrappers

  datatype Message = Message(timestamp: int, timeMs: int, direction: string, canId: nat, data: seq<byte>)

  // ---- Configuration ----

  datatype Config = Config(protocol: string, hasPid: bool, pidIndex: nat)

  type Profile = map<nat, Config>

  const KNOWN_IDS: set<nat> := {0x7DF, 0x7E0, 0x7E8, 0x7E9}

  function ConfigFor(profile: Profile, canId: nat): Config {
    if canId in profile then profile[canId]
    else if canId in KNOWN_IDS then Config("OBD2", true, 2)
    else Config("Manual", false, 0)
  }

  function ProtocolDefaults(protocol: string): Config {
    if protocol == "OBD2" || protocol == "UDS" then Config(protocol, true, 2) else Config(protocol, false, 0)
  }

  // ---- What a table should show ----

  datatype Key = Key(canId: nat, pid: Option<byte>)

  datatype Cells = Cells(key: Key, protocol: string, direction: string, count: nat, data: seq<byte>)

  function KeyOf(profile: Profile, m: Message): Key {
    var config := ConfigFor(profile, m.canId);
    Key(m.canId, if config.hasPid && |m.data| > config.pidIndex then Some(m.data[config.pidIndex]) else None)
  }

  function PidValue(key: Key): int {
    if key.pid.Some? then key.pid.value else -1
  }

  predicate Before(a: Key, b: Key) {
    a.canId < b.canId || (a.canId == b.canId && PidValue(a) < PidValue(b))
  }

  /** The messages of one key, in order. */
  function Group(profile: Profile, buffer: seq<Message>, key: Key): seq<Message> {
    if buffer == [] then []
    else
      var front, last := buffer[..|buffer| - 1], buffer[|buffer| - 1];
      Group(profile, front, key) + (if KeyOf(profile, last) == key then [last] else [])
  }

  /** The row of a key shows how many messages it has and the last of them. */
  predicate Summarises(profile: Profile, group: seq<Message>, cells: Cells) {
    && group != []
    && cells.count == |group|
    && cells.direction == group[|group| - 1].direction
    && cells.data == group[|group| - 1].data
    && cells.protocol == ConfigFor(profile, cells.key.canId).protocol
  }

  ghost predicate Sorted(table: seq<Cells>) {
    forall i, j :: 0 <= i < j < |table| ==> Before(table[i].key, table[j].key)
  }

  ghost predicate HasRow(table: seq<Cells>, key: Key) {
    exists i :: 0 <= i < |table| && table[i].key == key
  }

  /** The table groups the buffer: one row for each key that occurs, in strict order. */
  ghost predicate Shows(profile: Profile, buffer: seq<Message>, table: seq<Cells>) {
    && Sorted(table)
    && (forall i :: 0 <= i < |table| ==> Summarises(profile, Group(profile, buffer, table[i].key), table[i]))
    && (forall i :: 0 <= i < |buffer| ==> HasRow(table, KeyOf(profile, buffer[i])))
  }

  // ---- One more message ----

  lemma GroupAppend(profile: Profile, buffer: seq<Message>, m: Message, key: Key)
    ensures Group(profile, buffer + [m], key) ==
            if KeyOf(profile, m) == key then Group(profile, buffer, key) + [m] else Group(profile, buffer, key)
  {
    hide KeyOf;
    assert (buffer + [m])[..|buffer|] == buffer;
  }

  lemma {:induction false} GroupNeedsMember(profile: Profile, buffer: seq<Message>, key: Key)
    requires Group(profile, buffer, key) != []
    ensures exists i :: 0 <= i < |buffer| && KeyOf(profile, buffer[i]) == key
  {
    hide KeyOf;
    var front, last := buffer[..|buffer| - 1], buffer[|buffer| - 1];
    if KeyOf(profile, last) == key {
      assert KeyOf(profile, buffer[|buffer| - 1]) == key;
    } else {
      GroupNeedsMember(profile, front, key);
      var i :| 0 <= i < |front| && KeyOf(profile, front[i]) == key;
      assert KeyOf(profile, buffer[i]) == key;
    }
  }

  function RowOf(profile: Profile, m: Message, count: nat): Cells {
    Cells(KeyOf(profile, m), ConfigFor(profile, m.canId).protocol, m.direction, count, m.data)
  }

  lemma CountedRowShows(profile: Profile, buffer: seq<Message>, m: Message, table: seq<Cells>, i: nat)
    requires Shows(profile, buffer, table) && i < |table| && table[i].key == KeyOf(profile, m)
    ensures Shows(profile, buffer + [m], table[i := RowOf(profile, m, table[i].count + 1)])
  {
    hide Group, ConfigFor, Before;
    var table' := table[i := RowOf(profile, m, table[i].count + 1)];
    assert forall j :: 0 <= j < |table| ==> table'[j].key == table[j].key;
    forall j | 0 <= j < |table'|
      ensures Summarises(profile, Group(profile, buffer + [m], table'[j].key), table'[j])
    {
      GroupAppend(profile, buffer, m, table[j].key);
      if j != i {
        KeysDiffer(table, i, j);
      }
    }
    forall j | 0 <= j < |buffer + [m]|
      ensures HasRow(table', KeyOf(profile, (buffer + [m])[j]))
    {
      var key := KeyOf(profile, (buffer + [m])[j]);
      assert HasRow(table, key);
      var k :| 0 <= k < |table| && table[k].key == key;
      assert table'[k].key == key;
    }
  }

  lemma KeysDiffer(table: seq<Cells>, i: nat, j: nat)
    requires Sorted(table) && i < |table| && j < |table| && i != j
    ensures table[i].key != table[j].key
  {
    assert Before(table[if i < j then i else j].key, table[if i < j then j else i].key);
  }

  /** The first row after the new key: everything before it comes before the key. */
  ghost predicate InsertionPoint(table: seq<Cells>, key: Key, i: nat) {
    && i <= |table|
    && (forall j :: 0 <= j < i ==> !Before(key, table[j].key))
    && (i < |table| ==> Before(key, table[i].key))
  }

  function Inserted<T>(s: seq<T>, i: nat, x: T): (r: seq<T>)
    requires i <= |s|
    ensures |r| == |s| + 1 && r[i] == x
    ensures forall j :: 0 <= j < i ==> r[j] == s[j]
    ensures forall j :: i < j < |r| ==> r[j] == s[j - 1]
  {
    s[..i] + [x] + s[i..]
  }

  lemma InsertedKeepsOrder(table: seq<Cells>, cells: Cells, i: nat)
    requires Sorted(table) && InsertionPoint(table, cells.key, i) && !HasRow(table, cells.key)
    ensures Sorted(Inserted(table, i, cells))
  {
    var table' := Inserted(table, i, cells);
    hide Inserted;
    forall j, k | 0 <= j < k < |table'|
      ensures Before(table'[j].key, table'[k].key)
    {
      if k == i {
        assert table[j].key != cells.key;
        assert !Before(cells.key, table[j].key);
      } else if j == i {
        assert Before(cells.key, table[i].key);
        assert k - 1 == i || Before(table[i].key, table[k - 1].key);
      }
    }
  }

  lemma NewKeyHasNoGroup(profile: Profile, buffer: seq<Message>, table: seq<Cells>, key: Key)
    requires Shows(profile, buffer, table) && !HasRow(table, key)
    ensures Group(profile, buffer, key) == []
  {
    hide Group, KeyOf, Sorted, HasRow, Summarises;
    if Group(profile, buffer, key) != [] {
      GroupNeedsMember(profile, buffer, key);
    }
  }

  lemma GroupOfOtherKey(profile: Profile, buffer: seq<Message>, m: Message, table: seq<Cells>, k: nat)
    requires Shows(profile, buffer, table) && k < |table| && !HasRow(table, KeyOf(profile, m))
    ensures Summarises(profile, Group(profile, buffer + [m], table[k].key), table[k])
  {
    hide Group, KeyOf, ConfigFor, Sorted, Summarises;
    GroupAppend(profile, buffer, m, table[k].key);
    assert table[k].key != KeyOf(profile, m);
  }

  lemma GroupOfNewKey(profile: Profile, buffer: seq<Message>, m: Message, table: seq<Cells>)
    requires Shows(profile, buffer, table) && !HasRow(table, KeyOf(profile, m))
    ensures Summarises(profile, Group(profile, buffer + [m], KeyOf(profile, m)), RowOf(profile, m, 1))
  {
    NewKeyHasNoGroup(profile, buffer, table, KeyOf(profile, m));
    GroupAppend(profile, buffer, m, KeyOf(profile, m));
    hide Group, ConfigFor, Shows;
  }

  lemma NewRowSummarises(profile: Profile, buffer: seq<Message>, m: Message, table: seq<Cells>, i: nat, j: nat)
    requires Shows(profile, buffer, table) && i <= |table| && j <= |table| && !HasRow(table, KeyOf(profile, m))
    ensures var cells := Inserted(table, i, RowOf(profile, m, 1))[j];
            Summarises(profile, Group(profile, buffer + [m], cells.key), cells)
  {
    hide Inserted, Group, KeyOf, Shows, HasRow, Summarises;
    if j == i {
      GroupOfNewKey(profile, buffer, m, table);
    } else {
      GroupOfOtherKey(profile, buffer, m, table, if j < i then j else j - 1);
    }
  }

  lemma InsertedHasRow(table: seq<Cells>, i: nat, cells: Cells, key: Key)
    requires i <= |table| && (key == cells.key || HasRow(table, key))
    ensures HasRow(Inserted(table, i, cells), key)
  {
    var table' := Inserted(table, i, cells);
    hide Inserted;
    if key == cells.key {
      assert table'[i].key == key;
    } else {
      var k :| 0 <= k < |table| && table[k].key == key;
      assert table'[if k < i then k else k + 1].key == key;
    }
  }

  lemma NewRowShows(profile: Profile, buffer: seq<Message>, m: Message, table: seq<Cells>, i: nat)
    requires Shows(profile, buffer, table)
    requires InsertionPoint(table, KeyOf(profile, m), i) && !HasRow(table, KeyOf(profile, m))
    ensures Shows(profile, buffer + [m], Inserted(table, i, RowOf(profile, m, 1)))
  {
    var cells := RowOf(profile, m, 1);
    assert i <= |table| && cells.key == KeyOf(profile, m);
    hide Group, KeyOf, RowOf, InsertionPoint, Inserted, Sorted, HasRow, Summarises;
    InsertedKeepsOrder(table, cells, i);
    var table' := Inserted(table, i, cells);
    forall j | 0 <= j < |table'|
      ensures Summarises(profile, Group(profile, buffer + [m], table'[j].key), table'[j])
    {
      NewRowSummarises(profile, buffer, m, table, i, j);
    }
    forall j | 0 <= j < |buffer + [m]|
      ensures HasRow(table', KeyOf(profile, (buffer + [m])[j]))
    {
      InsertedHasRow(table, i, cells, KeyOf(profile, (buffer + [m])[j]));
    }
  }

  // ---- The table is determined by buffer and configuration ----

  lemma {:induction false} GroupDependsOnOwnConfig(p: Profile, q: Profile, buffer: seq<Message>, key: Key)
    requires ConfigFor(p, key.canId) == ConfigFor(q, key.canId)
    ensures Group(p, buffer, key) == Group(q, buffer, key)
  {
    if buffer != [] {
      GroupDependsOnOwnConfig(p, q, buffer[..|buffer| - 1], key);
    }
  }

  /** A row stays the same under every configuration that agrees on its id. */
  lemma RowDependsOnOwnConfig(p: Profile, q: Profile, buffer: seq<Message>, a: seq<Cells>, b: seq<Cells>, i: nat)
    requires Shows(p, buffer, a) && Shows(q, buffer, b) && i < |a|
    requires ConfigFor(p, a[i].key.canId) == ConfigFor(q, a[i].key.canId)
    ensures a[i] in b
  {
    hide ConfigFor, Group, Sorted;
    var key := a[i].key;
    GroupDependsOnOwnConfig(p, q, buffer, key);
    assert Group(q, buffer, key) != [];
    GroupNeedsMember(q, buffer, key);
    var n :| 0 <= n < |buffer| && KeyOf(q, buffer[n]) == key;
    assert HasRow(b, KeyOf(q, buffer[n]));
    var j :| 0 <= j < |b| && b[j].key == key;
    assert Summarises(p, Group(p, buffer, key), a[i]) && Summarises(q, Group(q, buffer, key), b[j]);
    assert b[j] == a[i];
  }

  ghost predicate Includes(b: seq<Cells>, a: seq<Cells>) {
    forall cells :: cells in a ==> cells in b
  }

  lemma SortedTail(a: seq<Cells>)
    requires Sorted(a) && a != []
    ensures Sorted(a[1..]) && forall cells :: cells in a[1..] <==> cells in a && cells != a[0]
  {
    hide Before;
    forall cells | cells in a && cells != a[0]
      ensures cells in a[1..]
    {
      var i :| 0 <= i < |a| && a[i] == cells;
      assert a[1..][i - 1] == cells;
    }
    forall i | 0 <= i < |a[1..]|
      ensures a[1..][i] != a[0]
    {
      KeysDiffer(a, 0, i + 1);
    }
  }

  lemma {:induction false} SortedTablesAreEqual(a: seq<Cells>, b: seq<Cells>)
    requires Sorted(a) && Sorted(b) && Includes(b, a) && Includes(a, b)
    ensures a == b
  {
    assert (a != [] ==> a[0] in b) && (b != [] ==> b[0] in a);
    if a != [] && b != [] {
      SameFirst(a, b);
      SortedTail(a);
      SortedTail(b);
      hide Sorted;
      SortedTablesAreEqual(a[1..], b[1..]);
    }
  }

  lemma SameFirst(a: seq<Cells>, b: seq<Cells>)
    requires Sorted(a) && Sorted(b) && Includes(b, a) && Includes(a, b) && a != [] && b != []
    ensures a[0] == b[0]
  {
    assert a[0] in b && b[0] in a;
    var j :| 0 <= j < |b| && b[j] == a[0];
    var i :| 0 <= i < |a| && a[i] == b[0];
    assert (j > 0 ==> Before(b[0].key, b[j].key)) && (i > 0 ==> Before(a[0].key, a[i].key));
  }

  /** So a table kept up message by message is the table built anew, and only the configuration of ids matters. */
  lemma TableIsUnique(p: Profile, q: Profile, buffer: seq<Message>, a: seq<Cells>, b: seq<Cells>)
    requires Shows(p, buffer, a) && Shows(q, buffer, b)
    requires forall canId: nat :: ConfigFor(p, canId) == ConfigFor(q, canId)
    ensures a == b
  {
    hide ConfigFor, Shows, Sorted;
    forall cells | cells in a
      ensures cells in b
    {
      var i :| 0 <= i < |a| && a[i] == cells;
      RowDependsOnOwnConfig(p, q, buffer, a, b, i);
    }
    forall cells | cells in b
      ensures cells in a
    {
      var i :| 0 <= i < |b| && b[i] == cells;
      RowDependsOnOwnConfig(q, p, buffer, b, a, i);
    }
    assert Sorted(a) && Sorted(b) by { ShowsSorted(p, buffer, a); ShowsSorted(q, buffer, b); }
    SortedTablesAreEqual(a, b);
  }

  lemma ShowsSorted(profile: Profile, buffer: seq<Message>, table: seq<Cells>)
    requires Shows(profile, buffer, table)
    ensures Sorted(table)
  {
  }

  // ---- Every message is counted once ----

  function Total(table: seq<Cells>): nat {
    if table == [] then 0 else table[0].count + Total(table[1..])
  }

  function GroupSizes(profile: Profile, buffer: seq<Message>, table: seq<Cells>): nat {
    if table == [] then 0 else |Group(profile, buffer, table[0].key)| + GroupSizes(profile, buffer, table[1..])
  }

  function Rows(table: seq<Cells>, key: Key): nat {
    if table == [] then 0 else (if table[0].key == key then 1 else 0) + Rows(table[1..], key)
  }

  lemma {:induction false} OneMoreMessage(profile: Profile, buffer: seq<Message>, m: Message, table: seq<Cells>)
    ensures GroupSizes(profile, buffer + [m], table) ==
            GroupSizes(profile, buffer, table) + Rows(table, KeyOf(profile, m))
  {
    if table != [] {
      hide Group, KeyOf;
      GroupAppend(profile, buffer, m, table[0].key);
      OneMoreMessage(profile, buffer, m, table[1..]);
    }
  }

  lemma {:induction false} NoRows(table: seq<Cells>, key: Key)
    requires !HasRow(table, key)
    ensures Rows(table, key) == 0
  {
    if table != [] {
      forall i | 0 <= i < |table[1..]|
        ensures table[1..][i].key != key
      {
        assert table[i + 1].key != key;
      }
      NoRows(table[1..], key);
    }
  }

  lemma {:induction false} OneRow(table: seq<Cells>, key: Key)
    requires Sorted(table) && HasRow(table, key)
    ensures Rows(table, key) == 1
  {
    var i :| 0 <= i < |table| && table[i].key == key;
    if i == 0 {
      forall j | 0 <= j < |table[1..]|
        ensures table[1..][j].key != key
      {
        KeysDiffer(table, 0, j + 1);
      }
      NoRows(table[1..], key);
    } else {
      KeysDiffer(table, 0, i);
      assert table[1..][i - 1].key == key;
      OneRow(table[1..], key);
    }
  }

  lemma {:induction false} GroupSizesAddUp(profile: Profile, buffer: seq<Message>, table: seq<Cells>)
    requires Sorted(table) && forall i :: 0 <= i < |buffer| ==> HasRow(table, KeyOf(profile, buffer[i]))
    ensures GroupSizes(profile, buffer, table) == |buffer|
  {
    hide KeyOf, Sorted, HasRow;
    if buffer == [] {
      NoMessages(profile, table);
    } else {
      var front, last := buffer[..|buffer| - 1], buffer[|buffer| - 1];
      GroupSizesAddUp(profile, front, table);
      OneMoreMessage(profile, front, last, table);
      OneRow(table, KeyOf(profile, last));
      assert front + [last] == buffer;
    }
  }

  lemma {:induction false} NoMessages(profile: Profile, table: seq<Cells>)
    ensures GroupSizes(profile, [], table) == 0
  {
    if table != [] {
      NoMessages(profile, table[1..]);
    }
  }

  lemma {:induction false} TotalIsGroupSizes(profile: Profile, buffer: seq<Message>, table: seq<Cells>)
    requires forall i :: 0 <= i < |table| ==> table[i].count == |Group(profile, buffer, table[i].key)|
    ensures Total(table) == GroupSizes(profile, buffer, table)
  {
    if table != [] {
      hide Group;
      TotalIsGroupSizes(profile, buffer, table[1..]);
    }
  }

  /** The counts of all rows add up to the length of the buffer. */
  lemma CountsAddUp(profile: Profile, buffer: seq<Message>, table: seq<Cells>)
    requires Shows(profile, buffer, table)
    ensures Total(table) == |buffer|
  {
    hide Group, KeyOf;
    GroupSizesAddUp(profile, buffer, table);
    TotalIsGroupSizes(profile, buffer, table);
  }

  // ---- What the rows are, told from the messages ----

  /** The id and byte a message is grouped by: byte 2 for the four diagnostic ids, none for other ids, and what the
      configuration of its id says where there is one. */
  lemma GroupedBy(profile: Profile, m: Message)
    ensures m.canId !in profile && m.canId in {0x7DF, 0x7E0, 0x7E8, 0x7E9} ==>
              KeyOf(profile, m) == Key(m.canId, if |m.data| > 2 then Some(m.data[2]) else None)
    ensures m.canId !in profile && m.canId !in {0x7DF, 0x7E0, 0x7E8, 0x7E9} ==>
              KeyOf(profile, m) == Key(m.canId, None)
    ensures m.canId in profile && profile[m.canId].hasPid ==>
              var at := profile[m.canId].pidIndex;
              KeyOf(profile, m) == Key(m.canId, if |m.data| > at then Some(m.data[at]) else None)
    ensures m.canId in profile && !profile[m.canId].hasPid ==>
              KeyOf(profile, m) == Key(m.canId, None)
  {
  }

  /** Choosing a protocol groups the id by byte 2 for OBD2 and UDS and not at all for the others; switching the PID of
      an id off or on ends its grouping or takes it up at the byte stored for it, which is byte 0 where nothing was. */
  lemma GroupedAfterChange(profile: Profile, m: Message, protocol: string)
    ensures KeyOf(profile[m.canId := ProtocolDefaults(protocol)], m) ==
            Key(m.canId, if protocol in {"OBD2", "UDS"} && |m.data| > 2 then Some(m.data[2]) else None)
    ensures m.canId !in profile && m.canId in {0x7DF, 0x7E0, 0x7E8, 0x7E9} ==>
              KeyOf(Toggled(profile, m.canId), m) == Key(m.canId, None)
    ensures m.canId !in profile && m.canId !in {0x7DF, 0x7E0, 0x7E8, 0x7E9} ==>
              KeyOf(Toggled(profile, m.canId), m) == Key(m.canId, if |m.data| > 0 then Some(m.data[0]) else None)
    ensures m.canId in profile ==>
              var at := profile[m.canId].pidIndex;
              KeyOf(Toggled(profile, m.canId), m) ==
              Key(m.canId, if !profile[m.canId].hasPid && |m.data| > at then Some(m.data[at]) else None)
  {
  }

  /** Rows are ordered by id; in one id the row without PID comes first and the others follow by PID. */
  lemma RowsAreInOrder(profile: Profile, buffer: seq<Message>, table: seq<Cells>, i: nat, j: nat)
    requires Shows(profile, buffer, table) && i < j < |table|
    ensures var a, b := table[i].key, table[j].key;
            a.canId < b.canId ||
            (a.canId == b.canId && b.pid.Some? && (a.pid.None? || a.pid.value < b.pid.value))
  {
    hide Summarises, Group, KeyOf, HasRow;
    assert Before(table[i].key, table[j].key);
  }

  function Places(profile: Profile, buffer: seq<Message>, key: Key): set<nat> {
    set k: nat | k < |buffer| && KeyOf(profile, buffer[k]) == key
  }

  lemma PlacesAppend(profile: Profile, buffer: seq<Message>, m: Message, key: Key)
    ensures Places(profile, buffer + [m], key) ==
            Places(profile, buffer, key) + (if KeyOf(profile, m) == key then {|buffer|} else {})
  {
    hide KeyOf;
    var longer := buffer + [m];
    assert forall k :: 0 <= k < |buffer| ==> longer[k] == buffer[k];
    assert longer[|buffer|] == m;
  }

  lemma {:induction false} GroupIsPlaces(profile: Profile, buffer: seq<Message>, key: Key)
    ensures |Group(profile, buffer, key)| == |Places(profile, buffer, key)|
  {
    hide KeyOf;
    if buffer != [] {
      var front, last := buffer[..|buffer| - 1], buffer[|buffer| - 1];
      assert front + [last] == buffer;
      GroupIsPlaces(profile, front, key);
      PlacesAppend(profile, front, last, key);
      assert |front| !in Places(profile, front, key);
      hide Places;
    }
  }

  /** Message `n` has the key, and no later one does. */
  predicate IsLast(profile: Profile, buffer: seq<Message>, key: Key, n: nat) {
    && n < |buffer|
    && KeyOf(profile, buffer[n]) == key
    && forall k :: n < k < |buffer| ==> KeyOf(profile, buffer[k]) != key
  }

  lemma {:induction false} GroupEndsWithLast(profile: Profile, buffer: seq<Message>, key: Key) returns (n: nat)
    requires Group(profile, buffer, key) != []
    ensures n < |buffer| && IsLast(profile, buffer, key, n)
    ensures buffer[n] == Group(profile, buffer, key)[|Group(profile, buffer, key)| - 1]
  {
    hide KeyOf;
    var front, last := buffer[..|buffer| - 1], buffer[|buffer| - 1];
    if KeyOf(profile, last) == key {
      n := |front|;
    } else {
      n := GroupEndsWithLast(profile, front, key);
    }
  }

  /** A row counts the messages with its key and shows direction and data of the last of them, and the protocol
      configured for its id; without one the four diagnostic ids are OBD2 and all others manual. */
  lemma RowsSummariseTheBuffer(profile: Profile, buffer: seq<Message>, table: seq<Cells>, i: nat)
    requires Shows(profile, buffer, table) && i < |table|
    ensures table[i].count == |set k: nat | k < |buffer| && KeyOf(profile, buffer[k]) == table[i].key|
    ensures exists n :: 0 <= n < |buffer| && IsLast(profile, buffer, table[i].key, n) &&
                        table[i].data == buffer[n].data && table[i].direction == buffer[n].direction
    ensures table[i].protocol ==
            var canId := table[i].key.canId;
            if canId in profile then profile[canId].protocol
            else if canId in {0x7DF, 0x7E0, 0x7E8, 0x7E9} then "OBD2" else "Manual"
  {
    hide Group, KeyOf, IsLast, HasRow, Sorted;
    GroupIsPlaces(profile, buffer, table[i].key);
    assert Summarises(profile, Group(profile, buffer, table[i].key), table[i]);
    var n := GroupEndsWithLast(profile, buffer, table[i].key);
  }

  // ---- Changing the configuration ----

  /** Switching the PID grouping of an id on and off again restores the table. */
  lemma ToggleTwiceRestores(profile: Profile, canId: nat, buffer: seq<Message>, before: seq<Cells>, after: seq<Cells>)
    requires Shows(profile, buffer, before)
    requires Shows(Toggled(Toggled(profile, canId), canId), buffer, after)
    ensures after == before
  {
    hide Shows;
    TableIsUnique(profile, Toggled(Toggled(profile, canId), canId), buffer, before, after);
  }

  function Toggled(profile: Profile, canId: nat): Profile {
    var config := ConfigFor(profile, canId);
    profile[canId := config.(hasPid := !config.hasPid)]
  }

  // ---- Recorder ----

  /** `part` is `whole` with some messages left out. */
  predicate IsSubsequence(part: seq<Message>, whole: seq<Message>)
    decreases |whole|
  {
    part == [] ||
    (whole != [] &&
     (IsSubsequence(part, whole[..|whole| - 1]) ||
      (part[|part| - 1] == whole[|whole| - 1] && IsSubsequence(part[..|part| - 1], whole[..|whole| - 1]))))
  }

  /** The places in `whole` where a part of it stands, in order. */
  predicate ArePlaces(places: seq<nat>, part: seq<Message>, whole: seq<Message>) {
    && |places| == |part|
    && (forall i :: 0 <= i < |part| ==> places[i] < |whole| && whole[places[i]] == part[i])
    && forall i, j :: 0 <= i < j < |part| ==> places[i] < places[j]
  }

  lemma {:induction false} SubsequenceHasPlaces(part: seq<Message>, whole: seq<Message>) returns (places: seq<nat>)
    requires IsSubsequence(part, whole)
    ensures ArePlaces(places, part, whole)
    decreases |whole|
  {
    if part == [] {
      return [];
    }
    var front := whole[..|whole| - 1];
    if IsSubsequence(part, front) {
      places := SubsequenceHasPlaces(part, front);
    } else {
      places := SubsequenceHasPlaces(part[..|part| - 1], front);
      places := places + [|front|];
    }
  }

  lemma SubsequenceAppend(part: seq<Message>, whole: seq<Message>, m: Message)
    requires IsSubsequence(part, whole)
    ensures IsSubsequence(part, whole + [m]) && IsSubsequence(part + [m], whole + [m])
  {
    assert (whole + [m])[..|whole|] == whole && (part + [m])[..|part|] == part;
  }

  class Recorder {
    var messages: seq<Message>
    var maxMessages: nat
    var limitReached: bool

    constructor (maxMessages: nat)
      ensures messages == [] && this.maxMessages == maxMessages && !limitReached
    {
      messages := [];
      this.maxMessages := maxMessages;
      limitReached := false;
    }

    method Clear()
      modifies this`messages, this`limitReached
      ensures messages == [] && !limitReached
    {
      messages := [];
      limitReached := false;
    }

    method AddMessage(m: Message) returns (added: bool)
      modifies this`messages, this`limitReached
      ensures added <==> |old(messages)| < maxMessages
      ensures messages == if added then old(messages) + [m] else old(messages)
      ensures limitReached == (old(limitReached) || !added)
    {
      if |messages| >= maxMessages {
        limitReached := true;
        return false;
      }
      messages := messages + [m];
      return true;
    }
  }

  // ---- Panel ----

  /** A row of the tree widget, under the handle the widget gave it. */
  datatype Row = Row(item: nat, cells: Cells)

  function Table(rows: seq<Row>): (table: seq<Cells>)
    ensures |table| == |rows| && forall i :: 0 <= i < |rows| ==> table[i] == rows[i].cells
  {
    seq(|rows|, i requires 0 <= i < |rows| => rows[i].cells)
  }

  ghost predicate OwnItems(rows: seq<Row>, nextItem: nat) {
    && (forall i, j :: 0 <= i < j < |rows| ==> rows[i].item != rows[j].item)
    && (forall i :: 0 <= i < |rows| ==> rows[i].item < nextItem)
  }

  ghost predicate LeadsToRow(messagesMap: map<Key, nat>, row: Row) {
    row.cells.key in messagesMap && messagesMap[row.cells.key] == row.item
  }

  /** The map leads from exactly the keys in the table to their rows. */
  ghost predicate Linked(rows: seq<Row>, messagesMap: map<Key, nat>, nextItem: nat) {
    && OwnItems(rows, nextItem)
    && (forall row :: row in rows ==> LeadsToRow(messagesMap, row))
    && messagesMap.Keys == KeySet(rows)
  }

  function KeySet(rows: seq<Row>): set<Key> {
    set row | row in rows :: row.cells.key
  }

  lemma RecountedLinked(rows: seq<Row>, messagesMap: map<Key, nat>, nextItem: nat, i: nat, cells: Cells)
    requires Linked(rows, messagesMap, nextItem) && i < |rows| && rows[i].cells.key == cells.key
    ensures Linked(rows[i := Row(rows[i].item, cells)], messagesMap, nextItem)
    ensures Table(rows[i := Row(rows[i].item, cells)]) == Table(rows)[i := cells]
  {
    var rows' := rows[i := Row(rows[i].item, cells)];
    assert forall j :: 0 <= j < |rows| ==> rows'[j].cells.key == rows[j].cells.key && rows'[j].item == rows[j].item;
    SameKeySet(rows, rows');
    hide KeySet;
    forall row | row in rows'
      ensures LeadsToRow(messagesMap, row)
    {
      var j :| 0 <= j < |rows'| && rows'[j] == row;
      assert rows[j] in rows;
    }
  }

  lemma SameKeySet(rows: seq<Row>, rows': seq<Row>)
    requires |rows| == |rows'| && forall j :: 0 <= j < |rows| ==> rows'[j].cells.key == rows[j].cells.key
    ensures KeySet(rows') == KeySet(rows)
  {
    forall key | key in KeySet(rows)
      ensures key in KeySet(rows')
    {
      var j :| 0 <= j < |rows| && rows[j].cells.key == key;
      assert rows'[j] in rows';
    }
    forall key | key in KeySet(rows')
      ensures key in KeySet(rows)
    {
      var j :| 0 <= j < |rows| && rows'[j].cells.key == key;
      assert rows[j] in rows;
    }
  }

  lemma ChildOf(rows: seq<Row>, messagesMap: map<Key, nat>, nextItem: nat, key: Key)
    requires Linked(rows, messagesMap, nextItem) && key in messagesMap
    ensures exists j :: 0 <= j < |rows| && rows[j].item == messagesMap[key]
    ensures forall j :: 0 <= j < |rows| && rows[j].item == messagesMap[key] ==> rows[j].cells.key == key
  {
    assert key in KeySet(rows);
    var j :| 0 <= j < |rows| && rows[j].cells.key == key;
    hide KeySet;
    assert rows[j] in rows;
  }

  lemma MissingKey(rows: seq<Row>, messagesMap: map<Key, nat>, nextItem: nat, key: Key)
    requires Linked(rows, messagesMap, nextItem) && key !in messagesMap
    ensures !HasRow(Table(rows), key)
  {
    hide KeySet, OwnItems;
    assert forall i :: 0 <= i < |rows| ==> rows[i] in rows;
  }

  lemma InsertedItems(rows: seq<Row>, nextItem: nat, i: nat, cells: Cells)
    requires OwnItems(rows, nextItem) && i <= |rows|
    ensures OwnItems(Inserted(rows, i, Row(nextItem, cells)), nextItem + 1)
  {
    var rows' := Inserted(rows, i, Row(nextItem, cells));
    hide Inserted;
    forall j, k | 0 <= j < k < |rows'|
      ensures rows'[j].item != rows'[k].item
    {
      if j != i && k != i {
        assert rows[if j < i then j else j - 1].item != rows[if k < i then k else k - 1].item;
      }
    }
  }

  lemma InsertedKeys(rows: seq<Row>, i: nat, row: Row)
    requires i <= |rows|
    ensures KeySet(Inserted(rows, i, row)) == KeySet(rows) + {row.cells.key}
    ensures forall r :: r in Inserted(rows, i, row) <==> r in rows || r == row
    ensures Table(Inserted(rows, i, row)) == Inserted(Table(rows), i, row.cells)
  {
    assert rows[..i] + rows[i..] == rows;
  }

  lemma OneMoreLink(rows: seq<Row>, rows': seq<Row>, messagesMap: map<Key, nat>, row: Row)
    requires forall r :: r in rows ==> LeadsToRow(messagesMap, r)
    requires forall r :: r in rows' ==> r in rows || r == row
    requires row.cells.key !in messagesMap
    ensures forall r :: r in rows' ==> LeadsToRow(messagesMap[row.cells.key := row.item], r)
  {
    forall r | r in rows'
      ensures LeadsToRow(messagesMap[row.cells.key := row.item], r)
    {
      assert r != row ==> LeadsToRow(messagesMap, r);
    }
  }

  lemma InsertedLinked(rows: seq<Row>, messagesMap: map<Key, nat>, nextItem: nat, i: nat, cells: Cells)
    requires Linked(rows, messagesMap, nextItem) && i <= |rows| && cells.key !in messagesMap
    ensures Linked(Inserted(rows, i, Row(nextItem, cells)), messagesMap[cells.key := nextItem], nextItem + 1)
  {
    hide Inserted, KeySet, OwnItems, LeadsToRow;
    InsertedItems(rows, nextItem, i, cells);
    InsertedKeys(rows, i, Row(nextItem, cells));
    OneMoreLink(rows, Inserted(rows, i, Row(nextItem, cells)), messagesMap, Row(nextItem, cells));
  }

  class ReverseEngineeringPanel {
    const recorder: Recorder
    var profile: Profile
    var rows: seq<Row>
    var messagesMap: map<Key, nat>
    var nextItem: nat
    var displayBuffer: seq<Message>
    var loggingActive: bool

    ghost predicate Valid()
      reads this, recorder
    {
      && Shows(profile, displayBuffer, Table(rows))
      && Linked(rows, messagesMap, nextItem)
      && IsSubsequence(recorder.messages, displayBuffer)
    }

    constructor (profile: Profile)
      ensures Valid() && fresh(recorder)
      ensures this.profile == profile && rows == [] && displayBuffer == [] && recorder.messages == [] && !loggingActive
    {
      recorder := new Recorder(100000);
      this.profile := profile;
      rows, messagesMap, nextItem := [], map[], 0;
      displayBuffer := [];
      loggingActive := false;
    }

    method SetLoggingState(active: bool)
      requires Valid()
      modifies this`loggingActive
      ensures Valid() && loggingActive == active
    {
      loggingActive := active;
    }

    /** A new limit applies when logging is switched on. */
    method StartLogging(maxMessages: nat)
      requires Valid()
      modifies this`loggingActive, recorder`maxMessages, recorder`limitReached
      ensures Valid() && loggingActive && recorder.maxMessages == maxMessages && !recorder.limitReached
    {
      recorder.maxMessages := maxMessages;
      recorder.limitReached := false;
      loggingActive := true;
    }

    method OnMessage(m: Message)
      requires Valid()
      modifies this`rows, this`messagesMap, this`nextItem, this`displayBuffer, recorder`messages, recorder`limitReached
      ensures Valid()
      ensures var accepted := |old(recorder.messages)| < recorder.maxMessages;
              && displayBuffer == (if accepted then old(displayBuffer) + [m] else old(displayBuffer))
              && recorder.messages == (if accepted then old(recorder.messages) + [m] else old(recorder.messages))
              && recorder.limitReached == (old(recorder.limitReached) || !accepted)
              && (!accepted ==> rows == old(rows))
    {
      hide Shows, Linked;
      var added := recorder.AddMessage(m);
      if !added {
        return;
      }
      displayBuffer := displayBuffer + [m];
      SubsequenceAppend(old(recorder.messages), old(displayBuffer), m);
      UpdateUiRow(m, old(displayBuffer));
    }

    /** Loads the messages that could be read from the file; without a confirmation nothing happens. */
    method LoadRecording(messages: seq<Message>, confirmed: bool) returns (loaded: bool)
      requires Valid()
      modifies this`rows, this`messagesMap, this`nextItem, this`displayBuffer, recorder`messages, recorder`limitReached
      ensures Valid()
      ensures loaded == (!loggingActive && (old(displayBuffer) == [] || confirmed))
      ensures loaded ==>
                && displayBuffer == messages
                && recorder.messages ==
                     (if |messages| <= recorder.maxMessages then messages else messages[..recorder.maxMessages])
                && recorder.limitReached == (|messages| > recorder.maxMessages)
      ensures !loaded ==>
                && displayBuffer == old(displayBuffer) && rows == old(rows)
                && recorder.messages == old(recorder.messages) && recorder.limitReached == old(recorder.limitReached)
    {
      hide Shows, Linked;
      if loggingActive || (displayBuffer != [] && !confirmed) {
        return false;
      }
      ClearTable();
      hide IsSubsequence;
      for i := 0 to |messages|
        invariant Valid() && displayBuffer == messages[..i]
        invariant recorder.messages == messages[..if i <= recorder.maxMessages then i else recorder.maxMessages]
        invariant recorder.limitReached == (i > recorder.maxMessages)
      {
        LoadRow(messages[i]);
        assert messages[..i + 1] == messages[..i] + [messages[i]];
      }
      return true;
    }

    /** One row of a recording is shown whether or not it can be recorded. */
    method LoadRow(m: Message)
      requires Valid()
      modifies this`rows, this`messagesMap, this`nextItem, this`displayBuffer, recorder`messages, recorder`limitReached
      ensures Valid() && displayBuffer == old(displayBuffer) + [m]
      ensures var recorded := |old(recorder.messages)| < recorder.maxMessages;
              && recorder.messages == (if recorded then old(recorder.messages) + [m] else old(recorder.messages))
              && recorder.limitReached == (old(recorder.limitReached) || !recorded)
    {
      hide Shows, Linked;
      displayBuffer := displayBuffer + [m];
      var added := recorder.AddMessage(m);
      SubsequenceAppend(old(recorder.messages), old(displayBuffer), m);
      UpdateUiRow(m, old(displayBuffer));
    }

    method ClearTable()
      modifies this`rows, this`messagesMap, this`displayBuffer, recorder`messages, recorder`limitReached
      ensures Valid() && rows == [] && displayBuffer == [] && recorder.messages == [] && !recorder.limitReached
    {
      rows := [];
      messagesMap := map[];
      displayBuffer := [];
      recorder.Clear();
    }

    /** Builds the table anew; where it was up to date already, it comes out the same. */
    method RefreshTable()
      requires IsSubsequence(recorder.messages, displayBuffer)
      modifies this`rows, this`messagesMap, this`nextItem
      ensures Valid()
      ensures old(Shows(profile, displayBuffer, Table(rows))) ==> Table(rows) == old(Table(rows))
    {
      hide Linked;
      ghost var before := Table(rows);
      rows := [];
      messagesMap := map[];
      EmptyTable(profile, nextItem);
      assert Shows(profile, [], Table(rows)) && Linked(rows, messagesMap, nextItem);
      hide Shows;
      for i := 0 to |displayBuffer|
        invariant Shows(profile, displayBuffer[..i], Table(rows)) && Linked(rows, messagesMap, nextItem)
      {
        assert displayBuffer[..i + 1] == displayBuffer[..i] + [displayBuffer[i]];
        UpdateUiRow(displayBuffer[i], displayBuffer[..i]);
      }
      assert displayBuffer[..|displayBuffer|] == displayBuffer;
      if Shows(profile, displayBuffer, before) {
        TableIsUnique(profile, profile, displayBuffer, before, Table(rows));
      }
    }

    method SetProtocol(canId: nat, protocol: string)
      requires Valid()
      modifies this`profile, this`rows, this`messagesMap, this`nextItem
      ensures Valid() && profile == old(profile)[canId := ProtocolDefaults(protocol)]
    {
      profile := profile[canId := ProtocolDefaults(protocol)];
      RefreshTable();
    }

    method ToggleHasPid(canId: nat)
      requires Valid()
      modifies this`profile, this`rows, this`messagesMap, this`nextItem
      ensures Valid() && profile == Toggled(old(profile), canId)
    {
      var config := ConfigFor(profile, canId);
      profile := profile[canId := config.(hasPid := !config.hasPid)];
      RefreshTable();
    }

    /** The dialog returns an index or is cancelled. */
    method AskPidIndex(canId: nat, answer: Option<nat>)
      requires Valid()
      modifies this`profile, this`rows, this`messagesMap, this`nextItem
      ensures Valid()
      ensures answer.Some? ==>
              profile == old(profile)[canId := ConfigFor(old(profile), canId).(pidIndex := answer.value)]
      ensures answer.None? ==> profile == old(profile) && rows == old(rows)
    {
      var config := ConfigFor(profile, canId);
      if answer.Some? {
        profile := profile[canId := config.(pidIndex := answer.value)];
        RefreshTable();
      }
    }

    method LoadProfile(file: Option<Profile>)
      requires Valid()
      modifies this`profile, this`rows, this`messagesMap, this`nextItem
      ensures Valid()
      ensures file.Some? ==> profile == file.value
      ensures file.None? ==> profile == old(profile) && rows == old(rows)
    {
      if file.Some? {
        profile := file.value;
        RefreshTable();
      }
    }

    method UpdateUiRow(m: Message, ghost shown: seq<Message>)
      requires Shows(profile, shown, Table(rows)) && Linked(rows, messagesMap, nextItem)
      modifies this`rows, this`messagesMap, this`nextItem
      ensures Shows(profile, shown + [m], Table(rows)) && Linked(rows, messagesMap, nextItem)
    {
      hide Shows, Linked, ConfigFor;
      var config := ConfigFor(profile, m.canId);
      var pid := None;
      if config.hasPid && |m.data| > config.pidIndex {
        pid := Some(m.data[config.pidIndex]);
      }
      var key := Key(m.canId, pid);
      assert key == KeyOf(profile, m);
      if key in messagesMap {
        ChildOf(rows, messagesMap, nextItem, key);
        var i := Child(messagesMap[key]);
        var cells := Cells(key, config.protocol, m.direction, rows[i].cells.count + 1, m.data);
        CountedRowShows(profile, shown, m, Table(rows), i);
        RecountedLinked(rows, messagesMap, nextItem, i, cells);
        rows := rows[i := Row(rows[i].item, cells)];
      } else {
        InsertSorted(Cells(key, config.protocol, m.direction, 1, m.data), shown, m);
      }
    }

    method InsertSorted(cells: Cells, ghost shown: seq<Message>, ghost m: Message)
      requires Shows(profile, shown, Table(rows)) && Linked(rows, messagesMap, nextItem)
      requires cells == RowOf(profile, m, 1) && cells.key !in messagesMap
      modifies this`rows, this`messagesMap, this`nextItem
      ensures Shows(profile, shown + [m], Table(rows)) && Linked(rows, messagesMap, nextItem)
    {
      hide Shows, Linked, RowOf, Before;
      var i := 0;
      while i < |rows| && !Before(cells.key, rows[i].cells.key)
        invariant i <= |rows| && forall j :: 0 <= j < i ==> !Before(cells.key, rows[j].cells.key)
      {
        i := i + 1;
      }
      assert cells.key == KeyOf(profile, m) by { RowKey(profile, m); }
      MissingKey(rows, messagesMap, nextItem, cells.key);
      NewRowShows(profile, shown, m, Table(rows), i);
      InsertedLinked(rows, messagesMap, nextItem, i, cells);
      InsertedKeys(rows, i, Row(nextItem, cells));
      rows := rows[..i] + [Row(nextItem, cells)] + rows[i..];
      messagesMap := messagesMap[cells.key := nextItem];
      nextItem := nextItem + 1;
    }

    /** The widget finds a row by its handle. */
    method Child(item: nat) returns (i: nat)
      requires exists j :: 0 <= j < |rows| && rows[j].item == item
      ensures i < |rows| && rows[i].item == item
    {
      i := 0;
      while rows[i].item != item
        invariant i < |rows| && exists j :: i <= j < |rows| && rows[j].item == item
        decreases |rows| - i
      {
        i := i + 1;
      }
    }
  }

  lemma RowKey(profile: Profile, m: Message)
    ensures RowOf(profile, m, 1).key == KeyOf(profile, m)
  {
  }

  lemma EmptyTable(profile: Profile, nextItem: nat)
    ensures Shows(profile, [], Table([])) && Linked([], map[], nextItem)
  {
    assert Table([]) == [];
  }
}
