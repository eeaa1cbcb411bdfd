/** The sniffer's filter engine: a rule table sorted by masked id, an index into it, and the per-frame query. */
module FilterEngine {
  import opened Bytes
  import opened CanbusProtocol
  import opened FilterRules

  const MEMORY_SIZE: nat := 64000
  const MAX_RULES: nat := 2560      // MEMORY_SIZE / RULE_SIZE
  const NO_ENTRY: int := -1         // a null pointer in id_lookup

  function NumBelow(rules: seq<CanFilterRule>, id: nat): (n: nat)
    ensures n <= |rules|
  {
    if rules == [] then 0
    else NumBelow(rules[..|rules| - 1], id) + (if MaskedId(rules[|rules| - 1].canId) < id then 1 else 0)
  }

  function NumEqual(rules: seq<CanFilterRule>, id: nat): (n: nat)
    ensures n <= |rules|
  {
    if rules == [] then 0
    else NumEqual(rules[..|rules| - 1], id) + (if MaskedId(rules[|rules| - 1].canId) == id then 1 else 0)
  }

  /** What the eight-bit counter of an id shows after the table has been indexed. */
  function Counter(rules: seq<CanFilterRule>, id: nat): (count: nat)
    ensures count < 256
  {
    NumEqual(rules, id) % 256
  }

  /** Where the pointer of an id with rules ends up: it is set again each time the counter is back at zero. */
  function Pointer(rules: seq<CanFilterRule>, id: nat): nat
    requires NumEqual(rules, id) > 0
  {
    NumBelow(rules, id) + (NumEqual(rules, id) - 1) / 256 * 256
  }

  /** `id_counts[id]++` on a `uint8_t`. */
  function Increment(count: byte): byte {
    (count + 1) % 256
  }

  ghost predicate Indexed(rules: seq<CanFilterRule>, lookup: seq<int>, counts: seq<byte>) {
    && |lookup| == |counts| == IDS
    && forall id: nat :: id < IDS ==> IndexEntry(rules, id, lookup[id], counts[id])
  }

  ghost predicate IndexEntry(rules: seq<CanFilterRule>, id: nat, entry: int, count: byte) {
    count == Counter(rules, id) && (NumEqual(rules, id) > 0 ==> entry == Pointer(rules, id))
  }

  // ---- The table and its groups ----

  lemma SortedPrefix(rules: seq<CanFilterRule>, n: nat)
    requires SortedById(rules) && n <= |rules|
    ensures SortedById(rules[..n])
  {
  }

  lemma {:induction false} NumbersInSorted(rules: seq<CanFilterRule>, id: nat)
    requires SortedById(rules)
    ensures NumBelow(rules, id) + NumEqual(rules, id) <= |rules|
    ensures forall i: nat :: i < NumBelow(rules, id) ==> MaskedId(rules[i].canId) < id
    ensures forall i: nat :: NumBelow(rules, id) <= i < NumBelow(rules, id) + NumEqual(rules, id) ==>
            MaskedId(rules[i].canId) == id
    ensures forall i: nat :: NumBelow(rules, id) + NumEqual(rules, id) <= i < |rules| ==> MaskedId(rules[i].canId) > id
  {
    hide MaskedId;
    if rules != [] {
      NumbersInSorted(rules[..|rules| - 1], id);
    }
  }

  lemma {:induction false} GroupWithout(rules: seq<CanFilterRule>, id: nat)
    requires forall i :: 0 <= i < |rules| ==> MaskedId(rules[i].canId) != id
    ensures Group(rules, id) == []
  {
    hide MaskedId;
    if rules != [] {
      GroupWithout(rules[1..], id);
    }
  }

  lemma {:induction false} GroupOfOnly(rules: seq<CanFilterRule>, id: nat)
    requires forall i :: 0 <= i < |rules| ==> MaskedId(rules[i].canId) == id
    ensures Group(rules, id) == rules
  {
    hide MaskedId;
    if rules != [] {
      GroupOfOnly(rules[1..], id);
    }
  }

  /** In a sorted table the rules of an id are one contiguous run. */
  lemma GroupIsRun(rules: seq<CanFilterRule>, id: nat)
    requires SortedById(rules)
    ensures NumBelow(rules, id) + NumEqual(rules, id) <= |rules|
    ensures Group(rules, id) == rules[NumBelow(rules, id)..NumBelow(rules, id) + NumEqual(rules, id)]
  {
    hide MaskedId, NumBelow, NumEqual, Group;
    NumbersInSorted(rules, id);
    GroupOfThree(rules, NumBelow(rules, id), NumBelow(rules, id) + NumEqual(rules, id), id);
  }

  lemma GroupOfThree(rules: seq<CanFilterRule>, lo: nat, hi: nat, id: nat)
    requires lo <= hi <= |rules|
    requires forall i :: 0 <= i < lo || hi <= i < |rules| ==> MaskedId(rules[i].canId) != id
    requires forall i :: lo <= i < hi ==> MaskedId(rules[i].canId) == id
    ensures Group(rules, id) == rules[lo..hi]
  {
    hide MaskedId, Group;
    GroupWithout(rules[..lo], id);
    GroupOfOnly(rules[lo..hi], id);
    GroupWithout(rules[hi..], id);
    GroupAppend(rules[..lo], rules[lo..hi], id);
    GroupAppend(rules[..hi], rules[hi..], id);
    assert rules[..hi] == rules[..lo] + rules[lo..hi];
    assert rules == rules[..hi] + rules[hi..];
  }

  lemma {:induction false} NumEqualIsGroupSize(rules: seq<CanFilterRule>, id: nat)
    ensures NumEqual(rules, id) == |Group(rules, id)|
  {
    hide MaskedId;
    if rules != [] {
      var front := rules[..|rules| - 1];
      NumEqualIsGroupSize(front, id);
      GroupAppend(front, [rules[|rules| - 1]], id);
      assert rules == front + [rules[|rules| - 1]];
    }
  }

  // ---- The index ----

  /** Indexing one more rule of a sorted table. */
  lemma IndexNext(rules: seq<CanFilterRule>, id: nat, entry: int, count: byte)
    requires SortedById(rules) && rules != [] && id < IDS
    requires IndexEntry(rules[..|rules| - 1], id, entry, count)
    ensures var last := |rules| - 1;
            if MaskedId(rules[last].canId) == id
            then IndexEntry(rules, id, if count == 0 then last else entry, Increment(count))
            else IndexEntry(rules, id, entry, count)
  {
    var last := |rules| - 1;
    var (front, m) := (rules[..last], MaskedId(rules[last].canId));
    hide MaskedId;
    SortedPrefix(rules, last);
    NumbersInSorted(front, id);
    var n := NumEqual(front, id);
    if m == id {
      assert NumEqual(rules, id) == n + 1 && NumBelow(rules, id) == NumBelow(front, id);
      assert NumBelow(front, id) + n == last;
      if n > 0 {
        CounterSteps(n);
      }
    } else if n > 0 {
      assert MaskedId(front[NumBelow(front, id)].canId) == id;
      assert NumEqual(rules, id) == n && NumBelow(rules, id) == NumBelow(front, id);
    }
  }

  lemma EmptyIndex()
    ensures forall id: nat :: id < IDS ==> IndexEntry([], id, NO_ENTRY, 0)
  {
  }

  lemma CounterSteps(n: nat)
    requires n > 0
    ensures (n % 256 + 1) % 256 == (n + 1) % 256
    ensures n % 256 == 0 ==> n / 256 * 256 == n
    ensures n % 256 != 0 ==> n / 256 == (n - 1) / 256
  {
  }

  /** The rules a query looks at. */
  function IndexedRules(rules: seq<CanFilterRule>, id: nat): seq<CanFilterRule>
    requires SortedById(rules)
  {
    if Counter(rules, id) == 0 then []
    else
      IndexedRunInside(rules, id);
      rules[Pointer(rules, id)..Pointer(rules, id) + Counter(rules, id)]
  }

  lemma IndexedRunInside(rules: seq<CanFilterRule>, id: nat)
    requires SortedById(rules) && Counter(rules, id) > 0
    ensures Pointer(rules, id) + Counter(rules, id) == NumBelow(rules, id) + NumEqual(rules, id) <= |rules|
  {
    NumbersInSorted(rules, id);
    CounterSteps(NumEqual(rules, id));
  }

  lemma IndexedLength(rules: seq<CanFilterRule>, id: nat)
    requires SortedById(rules)
    ensures |IndexedRules(rules, id)| == Counter(rules, id)
  {
    hide NumBelow, NumEqual, SortedById;
    if Counter(rules, id) > 0 {
      IndexedRunInside(rules, id);
      hide Pointer;
    }
  }

  lemma SmallIndex(rules: seq<CanFilterRule>, id: nat)
    requires SortedById(rules) && NumEqual(rules, id) <= 255
    ensures NumBelow(rules, id) + NumEqual(rules, id) <= |rules|
    ensures IndexedRules(rules, id) == rules[NumBelow(rules, id)..NumBelow(rules, id) + NumEqual(rules, id)]
  {
    NumbersInSorted(rules, id);
    SmallCounter(rules, id);
    hide NumBelow, NumEqual, Counter, Pointer, SortedById, MaskedId;
  }

  lemma SmallCounter(rules: seq<CanFilterRule>, id: nat)
    requires NumEqual(rules, id) <= 255
    ensures Counter(rules, id) == NumEqual(rules, id)
    ensures NumEqual(rules, id) > 0 ==> Pointer(rules, id) == NumBelow(rules, id)
  {
    hide NumBelow, NumEqual;
  }

  /** The index leads to exactly the rules of an id if and only if there are at most 255 of them. */
  lemma IndexIsExactUpTo255(rules: seq<CanFilterRule>, id: nat)
    requires SortedById(rules)
    ensures IndexedRules(rules, id) == Group(rules, id) <==> NumEqual(rules, id) <= 255
  {
    hide NumBelow, NumEqual, MaskedId, SortedById, IndexedRules, Group;
    GroupIsRun(rules, id);
    if NumEqual(rules, id) <= 255 {
      SmallIndex(rules, id);
    } else {
      IndexedLength(rules, id);
      assert |IndexedRules(rules, id)| < |Group(rules, id)|;
    }
  }

  /** Then a query is the linear scan of the whole table. */
  lemma QueryIsLinearScan(rules: seq<CanFilterRule>, id: nat, source: Source, data: seq<byte>)
    requires SortedById(rules) && NumEqual(rules, id) <= 255
    ensures FirstHit(IndexedRules(rules, id), source, data) == Scan(rules, id, source, data)
  {
    hide IndexedRules, FirstHit, Group, Scan, NumEqual;
    IndexIsExactUpTo255(rules, id);
    ScanIsFirstHitInGroup(rules, id, source, data);
  }

  /** With 256, 512, ... rules for an id the counter reads zero and every frame of that id passes. */
  lemma WrappedCounterPassesEverything(rules: seq<CanFilterRule>, id: nat, source: Source, data: seq<byte>)
    requires SortedById(rules) && NumEqual(rules, id) % 256 == 0
    ensures FirstHit(IndexedRules(rules, id), source, data) == Verdict(true, data)
  {
  }

  function Copies(rule: CanFilterRule, n: nat): (rules: seq<CanFilterRule>)
    ensures |rules| == n && forall i :: 0 <= i < n ==> rules[i] == rule
  {
    seq(n, _ => rule)
  }

  lemma {:induction false} CopiesCount(rule: CanFilterRule, n: nat)
    ensures NumEqual(Copies(rule, n), MaskedId(rule.canId)) == n
  {
    hide MaskedId;
    if n > 0 {
      CopiesCount(rule, n - 1);
      assert Copies(rule, n)[..n - 1] == Copies(rule, n - 1);
    }
  }

  /** 256 times the rule to drop an id: the scan stops its frames, the index lets them pass. */
  lemma OverfullIdExample(canId: U32, source: Source, data: seq<byte>)
    ensures var rules, id := Copies(Unconditional(canId, DROP), 256), MaskedId(canId);
            && SortedById(rules)
            && !Scan(rules, id, source, data).forward
            && FirstHit(IndexedRules(rules, id), source, data).forward
  {
    hide MaskedId, NumEqual, IndexedRules;
    var rules := Copies(Unconditional(canId, DROP), 256);
    CopiesCount(Unconditional(canId, DROP), 256);
    assert rules[0] == Unconditional(canId, DROP);
    WrappedCounterPassesEverything(rules, MaskedId(canId), source, data);
    hide Copies;
  }

  lemma FirstHitOfNone(source: Source, data: seq<byte>)
    ensures FirstHit([], source, data) == Verdict(true, data)
  {
  }

  lemma FirstHitFrom(run: seq<CanFilterRule>, i: nat, source: Source, data: seq<byte>)
    requires i < |run|
    ensures FirstHit(run[i..], source, data) ==
            if Hits(run[i], source, data) then Effect(run[i], data) else FirstHit(run[i + 1..], source, data)
  {
    hide Hits, Effect;
    assert run[i..][0] == run[i] && run[i..][1..] == run[i + 1..];
  }

  // ---- The engine ----

  function Truncated(data: seq<byte>): seq<byte> {
    if |data| > MEMORY_SIZE then data[..MEMORY_SIZE] else data
  }

  class FilterEngine {
    const rules: array<CanFilterRule>       // rules_raw_memory seen through rules_ptr
    var rulesCount: nat
    const idLookup: array<int>
    const idCounts: array<byte>

    ghost predicate Shape()
      reads this
    {
      && rules.Length == MAX_RULES && idLookup.Length == IDS && idCounts.Length == IDS
      && idLookup != idCounts as object && rules != idLookup as object && rules != idCounts as object
      && rulesCount <= MAX_RULES
    }

    ghost function Table(): seq<CanFilterRule>
      requires Shape()
      reads this, rules
    {
      rules[..rulesCount]
    }

    ghost predicate Valid()
      reads this, rules, idLookup, idCounts
    {
      Shape() && SortedById(Table()) && Indexed(Table(), idLookup[..], idCounts[..])
    }

    constructor ()
      ensures Valid() && Table() == [] && fresh(rules) && fresh(idLookup) && fresh(idCounts)
    {
      rules := new CanFilterRule[MAX_RULES](_ => ZeroRule());
      rulesCount := 0;
      idLookup := new int[IDS](_ => NO_ENTRY);
      idCounts := new byte[IDS](_ => 0);
    }

    method InitInternal()
      requires Shape()
      modifies this, rules, idLookup, idCounts
      ensures Shape() && rulesCount == 0
      ensures forall id :: 0 <= id < IDS ==> idLookup[id] == NO_ENTRY && idCounts[id] == 0
    {
      rulesCount := 0;
      forall i | 0 <= i < MAX_RULES { rules[i] := ZeroRule(); }
      forall i | 0 <= i < IDS { idLookup[i] := NO_ENTRY; }
      forall i | 0 <= i < IDS { idCounts[i] := 0; }
    }

    /** `sorted` is what `std::sort` made of the rules in the payload. */
    method LoadRules(data: seq<byte>, sorted: seq<CanFilterRule>)
      requires Valid() && IsSortOf(sorted, DecodeRules(Truncated(data)))
      modifies this, rules, idLookup, idCounts
      ensures Valid() && Table() == sorted
    {
      InitInternal();
      SameSize(sorted, DecodeRules(Truncated(data)));
      var numRules := |Truncated(data)| / RULE_SIZE;
      if numRules > MAX_RULES {
        numRules := MAX_RULES;
      }
      forall i | 0 <= i < numRules { rules[i] := sorted[i]; }
      rulesCount := numRules;
      assert Table() == sorted;
      BuildLookup(sorted);
    }

    method BuildLookup(ghost sorted: seq<CanFilterRule>)
      requires Shape() && Table() == sorted && SortedById(sorted)
      requires forall id :: 0 <= id < IDS ==> idLookup[id] == NO_ENTRY && idCounts[id] == 0
      modifies idLookup, idCounts
      ensures Valid() && Table() == sorted
    {
      hide MaskedId, NumBelow, NumEqual, IndexEntry, Increment;
      EmptyIndex();
      assert sorted[..0] == [];
      for i := 0 to rulesCount
        invariant Shape() && Table() == sorted
        invariant forall id: nat :: id < IDS ==> IndexEntry(sorted[..i], id, idLookup[id], idCounts[id])
      {
        var id := MaskedId(rules[i].canId);
        assert rules[i] == sorted[i];
        forall other: nat | other < IDS
          ensures if other == id
                  then IndexEntry(sorted[..i + 1], id,
                                  if idCounts[id] == 0 then i else idLookup[id], Increment(idCounts[id]))
                  else IndexEntry(sorted[..i + 1], other, idLookup[other], idCounts[other])
        {
          SortedPrefix(sorted, i + 1);
          assert sorted[..i + 1][..i] == sorted[..i];
          IndexNext(sorted[..i + 1], other, idLookup[other], idCounts[other]);
        }
        if idCounts[id] == 0 {
          idLookup[id] := i;
        }
        idCounts[id] := Increment(idCounts[id]);
      }
      assert sorted[..rulesCount] == sorted;
    }

    /** The query: the frame's data are the `len` bytes of `buffer` from `at` on. */
    method Process(canId: U32, buffer: array<byte>, at: nat, len: nat, source: Source) returns (pass: bool)
      requires Valid() && at + len <= buffer.Length
      requires buffer != rules as object && buffer != idLookup as object && buffer != idCounts
      modifies buffer
      ensures Valid() && Table() == old(Table())
      ensures var verdict := FirstHit(IndexedRules(Table(), MaskedId(canId)), source, old(buffer[at..at + len]));
              && pass == verdict.forward
              && buffer[at..at + len] == verdict.data
      ensures buffer[..at] == old(buffer[..at]) && buffer[at + len..] == old(buffer[at + len..])
    {
      hide MaskedId, Hits, Effect, NumBelow, NumEqual, FirstHit;
      var id := MaskedId(canId);
      ghost var table, data := Table(), buffer[at..at + len];
      assert IndexEntry(table, id, idLookup[..][id], idCounts[..][id]);
      ghost var run := IndexedRules(table, id);
      FirstHitOfNone(source, data);
      if idCounts[id] == 0 {
        return true;
      }
      IndexedRunInside(table, id);
      var rule, count := idLookup[id], idCounts[id];
      for i := 0 to count
        invariant buffer[..] == old(buffer[..])
        invariant FirstHit(run, source, data) == FirstHit(run[i..], source, data)
      {
        var r := rules[rule + i];
        assert r == table[rule + i] == run[i];
        assert buffer[at..at + len] == buffer[..][at..at + len] == data;
        FirstHitFrom(run, i, source, data);
        var hits := Matches(r, buffer, at, len, source);
        if hits {
          pass := Act(r, buffer, at, len);
          return;
        }
      }
      assert |run| == count && run[count..] == [];
      assert buffer[at..at + len] == buffer[..][at..at + len] == data;
      return true;
    }
  }

  method Matches(rule: CanFilterRule, buffer: array<byte>, at: nat, len: nat, source: Source) returns (hits: bool)
    requires at + len <= buffer.Length
    ensures hits == Hits(rule, source, buffer[at..at + len])
  {
    if rule.target == TO_SYSTEM && source != CarComputer {
      return false;
    }
    if rule.target == TO_CAR && source != CarSystem {
      return false;
    }
    hits := true;
    if rule.dataMask != 0 {
      if len <= rule.dataIndex {
        hits := false;
      } else if And(buffer[at + rule.dataIndex], rule.dataMask) != rule.dataValue {
        hits := false;
      }
    }
  }

  method Act(rule: CanFilterRule, buffer: array<byte>, at: nat, len: nat) returns (pass: bool)
    requires at + len <= buffer.Length
    modifies buffer
    ensures var verdict := Effect(rule, old(buffer[at..at + len]));
            pass == verdict.forward && buffer[at..at + len] == verdict.data
    ensures buffer[..at] == old(buffer[..at]) && buffer[at + len..] == old(buffer[at + len..])
  {
    if rule.actionType == DROP {
      return false;
    }
    if rule.actionType == MODIFY {
      Modify(rule, buffer, at, len);
      return true;
    }
    return true;
  }

  /** The MODIFY loop, in place. */
  method Modify(rule: CanFilterRule, buffer: array<byte>, at: nat, len: nat)
    requires at + len <= buffer.Length
    modifies buffer
    ensures buffer[at..at + len] == Modified(rule, old(buffer[at..at + len]))
    ensures buffer[..at] == old(buffer[..at]) && buffer[at + len..] == old(buffer[at + len..])
  {
    hide Blend;
    for j := 0 to if len < 8 then len else 8
      invariant forall a :: 0 <= a < buffer.Length ==>
                  buffer[a] == if at <= a < at + j
                               then Blend(old(buffer[a]), rule.modificationData[a - at], rule.modificationMask[a - at])
                               else old(buffer[a])
    {
      buffer[at + j] := Blend(buffer[at + j], rule.modificationData[j], rule.modificationMask[j]);
    }
  }

  function ZeroRule(): CanFilterRule {
    CanFilterRule(0, 0, 0, 0, 0, 0, Zeros(8), Zeros(8))
  }

  lemma SameSize(sorted: seq<CanFilterRule>, rules: seq<CanFilterRule>)
    requires multiset(sorted) == multiset(rules)
    ensures |sorted| == |rules|
  {
    assert |multiset(sorted)| == |sorted|;
    assert |multiset(rules)| == |rules|;
  }
}
