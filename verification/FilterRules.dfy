/** What a list of filter rules means, and what sorting it by CAN id does to that meaning. */
module FilterRules {
  import opened Bytes
  import opened CanbusProtocol

  datatype Source = CarSystem | CarComputer | External

  /** Whether a frame goes on to the other bus, and with which data bytes. */
  datatype Verdict = Verdict(forward: bool, data: seq<byte>)

  const IDS: nat := 2048
  const TO_SYSTEM: byte := 1
  const TO_CAR: byte := 2
  const DROP: byte := 1
  const MODIFY: byte := 2

  function MaskedId(canId: U32): (id: nat)
    ensures id < IDS
  {
    canId % IDS
  }

  /** In the code that is `& 0x7FF` on the stored word. */
  lemma MaskedIdIsMask(s: seq<byte>)
    requires |s| == 4
    ensures MaskedId(U32At(s, 0)) == U32At(AndWords(s, [0xFF, 0x07, 0, 0]), 0)
  {
    hide And, FromLittleEndian;
    var masked := AndWords(s, [0xFF, 0x07, 0, 0]);
    AndOnByte(s[0]);
    AndOnByte(s[1]);
    AndOnByte(s[2]);
    AndOnByte(s[3]);
    FourBytes(s);
    FourBytes(masked);
    assert s[0..4] == s && masked[0..4] == masked;
    LowElevenBits(s[0], s[1], s[2], s[3]);
    hide AndWords, MaskedId;
  }

  lemma LowElevenBits(a: byte, b: byte, c: byte, d: byte)
    ensures var n := a as int + 256 * b as int + 65536 * c as int + 16777216 * d as int;
            n % IDS == a as int + 256 * (b as int % 8)
  {
    var n := a as int + 256 * b as int + 65536 * c as int + 16777216 * d as int;
    var (high, low) := (b as int / 8 + 32 * c as int + 8192 * d as int, a as int + 256 * (b as int % 8));
    assert n == IDS * high + low;
    RemainderOf(high, low);
  }

  lemma RemainderOf(high: nat, low: nat)
    requires low < IDS
    ensures (IDS * high + low) % IDS == low
  {
  }

  predicate DirectionMatches(rule: CanFilterRule, source: Source) {
    && !(rule.target == TO_SYSTEM && source != CarComputer)
    && !(rule.target == TO_CAR && source != CarSystem)
  }

  predicate ConditionMatches(rule: CanFilterRule, data: seq<byte>) {
    rule.dataMask == 0 || (rule.dataIndex < |data| && And(data[rule.dataIndex], rule.dataMask) == rule.dataValue)
  }

  predicate Hits(rule: CanFilterRule, source: Source, data: seq<byte>) {
    DirectionMatches(rule, source) && ConditionMatches(rule, data)
  }

  function ModifiedByte(rule: CanFilterRule, data: seq<byte>, j: nat): byte
    requires j < |data|
  {
    if j < 8 then Blend(data[j], rule.modificationData[j], rule.modificationMask[j]) else data[j]
  }

  function Modified(rule: CanFilterRule, data: seq<byte>): (r: seq<byte>)
    ensures |r| == |data|
  {
    seq(|data|, j requires 0 <= j < |data| => ModifiedByte(rule, data, j))
  }

  function Effect(rule: CanFilterRule, data: seq<byte>): Verdict {
    if rule.actionType == DROP then Verdict(false, data)
    else if rule.actionType == MODIFY then Verdict(true, Modified(rule, data))
    else Verdict(true, data)
  }

  /** The first rule that hits decides; without one the frame passes. */
  function FirstHit(rules: seq<CanFilterRule>, source: Source, data: seq<byte>): Verdict {
    if rules == [] then Verdict(true, data)
    else if Hits(rules[0], source, data) then Effect(rules[0], data)
    else FirstHit(rules[1..], source, data)
  }

  /** The plain linear scan of a whole table, without any index. */
  function Scan(rules: seq<CanFilterRule>, id: nat, source: Source, data: seq<byte>): Verdict {
    if rules == [] then Verdict(true, data)
    else if MaskedId(rules[0].canId) == id && Hits(rules[0], source, data) then Effect(rules[0], data)
    else Scan(rules[1..], id, source, data)
  }

  /** MODIFY replaces exactly the bits of the first eight bytes that the mask selects. */
  lemma ModifyReplacesMaskedBits(rule: CanFilterRule, data: seq<byte>, j: nat, k: nat)
    requires rule.actionType == MODIFY && j < |data| && k < 8
    ensures var r := Effect(rule, data);
            && r.forward && |r.data| == |data|
            && (j < 8 ==> Bit(r.data[j], k) == if Bit(rule.modificationMask[j], k)
                                                then Bit(rule.modificationData[j], k) else Bit(data[j], k))
            && (j >= 8 ==> r.data[j] == data[j])
  {
    hide Bit, Blend;
    if j < 8 {
      BlendBits(data[j], rule.modificationData[j], rule.modificationMask[j], k);
    }
  }

  // ---- What one rule does to a scan ----

  /** A rule's condition on a byte of the data: under the mask the byte has exactly the bits of the value. */
  ghost predicate Met(rule: CanFilterRule, data: seq<byte>) {
    rule.dataMask == 0 ||
    (rule.dataIndex < |data| &&
     forall k: nat :: k < 8 ==>
       (Bit(rule.dataValue, k) <==> Bit(rule.dataMask, k) && Bit(data[rule.dataIndex], k)))
  }

  lemma MetIsTested(rule: CanFilterRule, data: seq<byte>)
    ensures ConditionMatches(rule, data) <==> Met(rule, data)
  {
    if rule.dataMask != 0 && rule.dataIndex < |data| {
      var masked := And(data[rule.dataIndex], rule.dataMask);
      forall k: nat | k < 8
        ensures Bit(masked, k) <==> Bit(rule.dataMask, k) && Bit(data[rule.dataIndex], k)
      {
        AndBits(data[rule.dataIndex], rule.dataMask, k);
      }
      hide Bit, And;
      if Met(rule, data) {
        BitsDetermine(masked, rule.dataValue);
      }
    }
  }

  /** The first rule of a table decides a frame when it is for the frame's id, for its direction (1 means towards the
      system, so from the computer, 2 the other way, anything else both) and its condition is met: action 1 drops the
      frame, 2 passes it with its first eight bytes changed where the mask has a bit, anything else passes it as it
      is. */
  lemma FittingRuleDecides(rule: CanFilterRule, rest: seq<CanFilterRule>, source: Source, data: seq<byte>)
    requires Met(rule, data)
    requires match rule.target case 1 => source == CarComputer case 2 => source == CarSystem case _ => true
    ensures var verdict := Scan([rule] + rest, rule.canId % 2048, source, data);
            && (rule.actionType == 1 ==> verdict == Verdict(false, data))
            && (rule.actionType == 2 ==> verdict.forward && |verdict.data| == |data|)
            && (rule.actionType !in {1, 2} ==> verdict == Verdict(true, data))
            && forall j, k: nat :: 0 <= j < |verdict.data| && k < 8 ==>
                 j < |data| &&
                 Bit(verdict.data[j], k) ==
                 if rule.actionType == 2 && j < 8 && Bit(rule.modificationMask[j], k)
                 then Bit(rule.modificationData[j], k) else Bit(data[j], k)
  {
    hide Bit, Met, ConditionMatches;
    MetIsTested(rule, data);
    var verdict := Scan([rule] + rest, rule.canId % 2048, source, data);
    assert verdict == Effect(rule, data);
    if rule.actionType == 2 {
      hide Effect;
      forall j, k: nat | 0 <= j < |data| && k < 8
        ensures |verdict.data| == |data| && verdict.forward
        ensures Bit(verdict.data[j], k) ==
                 if j < 8 && Bit(rule.modificationMask[j], k) then Bit(rule.modificationData[j], k) else Bit(data[j], k)
      {
        ModifyReplacesMaskedBits(rule, data, j, k);
      }
    }
  }

  /** A rule for another id or the other direction, or whose condition is not met, is as if it were not there. */
  lemma OtherRuleIsSkipped(rule: CanFilterRule, rest: seq<CanFilterRule>, id: nat, source: Source, data: seq<byte>)
    requires rule.canId % 2048 != id || !Met(rule, data) ||
             (rule.target == 1 && source == CarSystem) || (rule.target == 2 && source == CarComputer)
    ensures Scan([rule] + rest, id, source, data) == Scan(rest, id, source, data)
  {
    hide Met, ConditionMatches;
    MetIsTested(rule, data);
    assert ([rule] + rest)[1..] == rest;
  }

  /** The rules of a table that are for frames from `source`. */
  function Aimed(rules: seq<CanFilterRule>, source: Source): seq<CanFilterRule> {
    if rules == [] then []
    else
      var away := (rules[0].target == 1 && source == CarSystem) || (rules[0].target == 2 && source == CarComputer);
      (if away then [] else [rules[0]]) + Aimed(rules[1..], source)
  }

  /** Rules for the other direction never decide anything. */
  lemma {:induction false} OnlyAimedRulesDecide(rules: seq<CanFilterRule>, id: nat, source: Source, data: seq<byte>)
    ensures Scan(Aimed(rules, source), id, source, data) == Scan(rules, id, source, data)
  {
    hide ConditionMatches, Effect;
    if rules != [] {
      OnlyAimedRulesDecide(rules[1..], id, source, data);
      var rest := Aimed(rules[1..], source);
      assert ([rules[0]] + rest)[1..] == rest && [] + rest == rest;
    }
  }

  // ---- The rules of one id ----

  function Group(rules: seq<CanFilterRule>, id: nat): seq<CanFilterRule> {
    if rules == [] then []
    else (if MaskedId(rules[0].canId) == id then [rules[0]] else []) + Group(rules[1..], id)
  }

  lemma {:induction false} ScanIsFirstHitInGroup(rules: seq<CanFilterRule>, id: nat, source: Source, data: seq<byte>)
    ensures Scan(rules, id, source, data) == FirstHit(Group(rules, id), source, data)
  {
    hide Hits, Effect, MaskedId;
    if rules != [] {
      ScanIsFirstHitInGroup(rules[1..], id, source, data);
      assert ([rules[0]] + Group(rules[1..], id))[1..] == Group(rules[1..], id);
      assert [] + Group(rules[1..], id) == Group(rules[1..], id);
    }
  }

  lemma {:induction false} GroupAppend(a: seq<CanFilterRule>, b: seq<CanFilterRule>, id: nat)
    ensures Group(a + b, id) == Group(a, id) + Group(b, id)
  {
    hide MaskedId;
    if a == [] {
      assert a + b == b;
    } else {
      GroupAppend(a[1..], b, id);
      assert (a + b)[0] == a[0] && (a + b)[1..] == a[1..] + b;
      var first := if MaskedId(a[0].canId) == id then [a[0]] else [];
      assert first + (Group(a[1..], id) + Group(b, id)) == (first + Group(a[1..], id)) + Group(b, id);
    }
  }

  // ---- Sorting ----

  ghost predicate SortedById(rules: seq<CanFilterRule>) {
    forall i, j :: 0 <= i < j < |rules| ==> MaskedId(rules[i].canId) <= MaskedId(rules[j].canId)
  }

  /** All that `std::sort` promises: the same rules, ordered by masked id; equal ids in any order. */
  ghost predicate IsSortOf(sorted: seq<CanFilterRule>, rules: seq<CanFilterRule>) {
    SortedById(sorted) && multiset(sorted) == multiset(rules)
  }

  function Insert(rule: CanFilterRule, sorted: seq<CanFilterRule>): seq<CanFilterRule> {
    if sorted == [] || MaskedId(rule.canId) <= MaskedId(sorted[0].canId) then [rule] + sorted
    else [sorted[0]] + Insert(rule, sorted[1..])
  }

  /** A stable sort: rules of one id keep their order of arrival. */
  function StableSort(rules: seq<CanFilterRule>): seq<CanFilterRule> {
    if rules == [] then [] else Insert(rules[0], StableSort(rules[1..]))
  }

  lemma {:induction false} InsertPermutes(rule: CanFilterRule, sorted: seq<CanFilterRule>)
    ensures multiset(Insert(rule, sorted)) == multiset([rule] + sorted)
  {
    hide MaskedId;
    if sorted != [] {
      InsertPermutes(rule, sorted[1..]);
      assert sorted == [sorted[0]] + sorted[1..];
    }
  }

  lemma {:induction false} InsertKeepsGroup(rule: CanFilterRule, sorted: seq<CanFilterRule>, id: nat)
    ensures Group(Insert(rule, sorted), id) == Group([rule] + sorted, id)
  {
    if sorted != [] && MaskedId(rule.canId) > MaskedId(sorted[0].canId) {
      var first, rest := [sorted[0]], sorted[1..];
      assert Insert(rule, sorted) == first + Insert(rule, rest) && sorted == first + rest;
      InsertKeepsGroup(rule, rest, id);
      OneOfTwo(rule, sorted[0], id);
      hide MaskedId, Group, Insert;
      GroupAppend(first, Insert(rule, rest), id);
      GroupAppend([rule], rest, id);
      GroupAppend([rule], sorted, id);
      GroupAppend(first, rest, id);
      assert Group([rule], id) == [] || Group(first, id) == [];
    }
  }

  lemma OneOfTwo(a: CanFilterRule, b: CanFilterRule, id: nat)
    requires MaskedId(a.canId) != MaskedId(b.canId)
    ensures Group([a], id) == [] || Group([b], id) == []
  {
    hide MaskedId;
  }

  lemma {:induction false} InsertSorts(rule: CanFilterRule, sorted: seq<CanFilterRule>)
    requires SortedById(sorted)
    ensures SortedById(Insert(rule, sorted))
  {
    hide MaskedId;
    if sorted != [] && MaskedId(rule.canId) > MaskedId(sorted[0].canId) {
      var rest := Insert(rule, sorted[1..]);
      InsertSorts(rule, sorted[1..]);
      InsertPermutes(rule, sorted[1..]);
      SameMembers(rest, [rule] + sorted[1..]);
      forall j | 0 <= j < |rest|
        ensures MaskedId(sorted[0].canId) <= MaskedId(rest[j].canId)
      {
        assert rest[j] in [rule] + sorted[1..];
      }
      hide Insert;
      SmallestFirst(sorted[0], rest);
    }
  }

  lemma SmallestFirst(first: CanFilterRule, rest: seq<CanFilterRule>)
    requires SortedById(rest) && forall j :: 0 <= j < |rest| ==> MaskedId(first.canId) <= MaskedId(rest[j].canId)
    ensures SortedById([first] + rest)
  {
    hide MaskedId;
  }

  lemma {:induction false} StableSortSorts(rules: seq<CanFilterRule>)
    ensures IsSortOf(StableSort(rules), rules)
    ensures forall id :: Group(StableSort(rules), id) == Group(rules, id)
  {
    hide MaskedId, Insert;
    if rules != [] {
      var rest := StableSort(rules[1..]);
      StableSortSorts(rules[1..]);
      InsertSorts(rules[0], rest);
      InsertPermutes(rules[0], rest);
      assert rules == [rules[0]] + rules[1..];
      forall id
        ensures Group(StableSort(rules), id) == Group(rules, id)
      {
        InsertKeepsGroup(rules[0], rest, id);
        GroupAppend([rules[0]], rest, id);
        GroupAppend([rules[0]], rules[1..], id);
      }
    }
  }

  /** With a stable sort the verdict is always that of the arrival order. */
  lemma StableSortKeepsVerdict(rules: seq<CanFilterRule>, id: nat, source: Source, data: seq<byte>)
    ensures Scan(StableSort(rules), id, source, data) == Scan(rules, id, source, data)
  {
    hide Scan, StableSort, Group, FirstHit;
    StableSortSorts(rules);
    ScanIsFirstHitInGroup(rules, id, source, data);
    ScanIsFirstHitInGroup(StableSort(rules), id, source, data);
  }

  /** No two rules of the id that hit the frame would treat it differently. */
  ghost predicate Agree(rules: seq<CanFilterRule>, id: nat, source: Source, data: seq<byte>) {
    forall a, b :: a in rules && b in rules && HitsAs(a, id, source, data) && HitsAs(b, id, source, data) ==>
      Effect(a, data) == Effect(b, data)
  }

  predicate HitsAs(rule: CanFilterRule, id: nat, source: Source, data: seq<byte>) {
    MaskedId(rule.canId) == id && Hits(rule, source, data)
  }

  /** A scan's verdict is the effect of some rule that hits, or a pass when none does. */
  lemma {:induction false} ScanOutcome(rules: seq<CanFilterRule>, id: nat, source: Source, data: seq<byte>)
    ensures (exists r ::
               r in rules && HitsAs(r, id, source, data) && Scan(rules, id, source, data) == Effect(r, data)) ||
            ((forall r :: r in rules ==> !HitsAs(r, id, source, data)) &&
             Scan(rules, id, source, data) == Verdict(true, data))
  {
    hide MaskedId, Hits, Effect;
    if rules != [] {
      ScanOutcome(rules[1..], id, source, data);
      assert forall r :: r in rules <==> r == rules[0] || r in rules[1..];
    }
  }

  lemma SameMembers(sorted: seq<CanFilterRule>, rules: seq<CanFilterRule>)
    requires multiset(sorted) == multiset(rules)
    ensures forall r :: r in sorted <==> r in rules
  {
    forall r
      ensures r in sorted <==> r in rules
    {
      assert r in sorted <==> r in multiset(sorted);
      assert r in rules <==> r in multiset(rules);
    }
  }

  lemma AgreeingRulesSurviveAnySort(sorted: seq<CanFilterRule>, rules: seq<CanFilterRule>,
                                    id: nat, source: Source, data: seq<byte>)
    requires IsSortOf(sorted, rules) && Agree(rules, id, source, data)
    ensures Scan(sorted, id, source, data) == Scan(rules, id, source, data)
  {
    hide Scan, HitsAs, Effect, SortedById;
    SameMembers(sorted, rules);
    ScanOutcome(rules, id, source, data);
    ScanOutcome(sorted, id, source, data);
  }

  /** Some result of the sort puts a given rule before all others of its id. */
  lemma AnyHitCanComeFirst(rules: seq<CanFilterRule>, k: nat, id: nat, source: Source, data: seq<byte>)
    requires k < |rules| && HitsAs(rules[k], id, source, data)
    ensures exists sorted :: IsSortOf(sorted, rules) && Scan(sorted, id, source, data) == Effect(rules[k], data)
  {
    hide StableSort, SortedById, HitsAs, Effect, Scan;
    var moved := [rules[k]] + (rules[..k] + rules[k + 1..]);
    MovingPermutes(rules, k);
    HeadDecides(moved, id, source, data);
    StableSortSorts(moved);
    StableSortKeepsVerdict(moved, id, source, data);
    assert IsSortOf(StableSort(moved), rules);
  }

  lemma MovingPermutes(rules: seq<CanFilterRule>, k: nat)
    requires k < |rules|
    ensures multiset([rules[k]] + (rules[..k] + rules[k + 1..])) == multiset(rules)
  {
    assert rules == rules[..k] + [rules[k]] + rules[k + 1..];
  }

  lemma HeadDecides(rules: seq<CanFilterRule>, id: nat, source: Source, data: seq<byte>)
    requires rules != [] && HitsAs(rules[0], id, source, data)
    ensures Scan(rules, id, source, data) == Effect(rules[0], data)
  {
    hide Effect;
  }

  /** The promise of arrival order (made for any sort) holds for a frame exactly when the rules that hit it agree. */
  lemma ArrivalOrderHoldsExactlyWhenRulesAgree(rules: seq<CanFilterRule>, id: nat, source: Source, data: seq<byte>)
    ensures (forall sorted ::
               IsSortOf(sorted, rules) ==> Scan(sorted, id, source, data) == Scan(rules, id, source, data))
            <==> Agree(rules, id, source, data)
  {
    hide Scan, HitsAs, Effect, IsSortOf;
    if Agree(rules, id, source, data) {
      forall sorted | IsSortOf(sorted, rules)
        ensures Scan(sorted, id, source, data) == Scan(rules, id, source, data)
      {
        AgreeingRulesSurviveAnySort(sorted, rules, id, source, data);
      }
    } else {
      var a, b :| a in rules && b in rules && HitsAs(a, id, source, data) && HitsAs(b, id, source, data) &&
        Effect(a, data) != Effect(b, data);
      var r := if Effect(a, data) == Scan(rules, id, source, data) then b else a;
      var k :| 0 <= k < |rules| && rules[k] == r;
      AnyHitCanComeFirst(rules, k, id, source, data);
    }
  }

  /** A rule for every frame of an id. */
  function Unconditional(canId: U32, actionType: byte): CanFilterRule {
    CanFilterRule(canId, 0, 0, 0, actionType, 0, Zeros(8), Zeros(8))
  }

  /** Two rules of one id, DROP before PASS: the sort may swap them, and then every frame it should stop goes on. */
  lemma UnstableSortExample(canId: U32, source: Source, data: seq<byte>)
    ensures var (drop, pass, id) := (Unconditional(canId, DROP), Unconditional(canId, 0), MaskedId(canId));
            && IsSortOf([pass, drop], [drop, pass])
            && !Scan([drop, pass], id, source, data).forward && Scan([pass, drop], id, source, data).forward
            && !Agree([drop, pass], id, source, data)
  {
    hide MaskedId;
    var drop, pass := Unconditional(canId, DROP), Unconditional(canId, 0);
    assert multiset([pass, drop]) == multiset{pass, drop} == multiset([drop, pass]);
    assert drop in [drop, pass] && pass in [drop, pass];
    assert Effect(drop, data) != Effect(pass, data);
  }
}
