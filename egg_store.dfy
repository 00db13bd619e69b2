/**
 * Egg instances and the pure queries the session runs over its two pools
 * (`boughtEggs`, `storedEggs`): lookup by uid, removal of the first entry with
 * a uid, grouping for the inventory grids, and the level clamps.
 */
module EggStore {
  import opened Util

  /** An egg template from the shop tabs: `{ id, title, bet }`. */
  datatype Template = Template(id: string, title: string, bet: int)

  const GoldTemplate := Template("gold", "Gold Egg", 100)
  const PremiumTemplate := Template("premium", "Premium Egg", 1000)

  /** Which pool `activeEggUid` refers to (`activeSource`). */
  datatype Source = Bought | Stored

  /**
   * The bet after a win: a positive bet doubles; otherwise a positive win
   * amount replaces it; otherwise it stays.
   */
  function BetAfterWin(bet: int, winAmount: int): (b: int)
    ensures bet > 0 ==> b == 2 * bet
    ensures bet <= 0 && winAmount > 0 ==> b == winAmount
    ensures bet <= 0 && winAmount <= 0 ==> b == bet
    ensures b > 0 <==> bet > 0 || winAmount > 0
  {
    var doubled := if bet > 0 then bet * 2 else if winAmount != 0 then winAmount else bet;
    if doubled > 0 then doubled else bet
  }

  /**
   * One purchased egg. The identity fields are never reassigned; the play
   * fields are mutated in place through every reference to the object.
   */
  class Egg {
    const id: string
    const title: string
    const uid: string
    var bet: int
    var tries: int
    var lastWinAmount: int
    var lastCrackLevel: Option<int>
    var isMaxed: bool

    /** A fresh instance of a template (`_createEggInstance`). */
    constructor Create(template: Template, uid: string)
      ensures id == template.id && title == template.title && this.uid == uid
      ensures bet == template.bet && tries == 0 && lastWinAmount == 0
      ensures lastCrackLevel == None && !isMaxed
    {
      id := template.id;
      title := template.title;
      this.uid := uid;
      bet := template.bet;
      tries := 0;
      lastWinAmount := 0;
      lastCrackLevel := None;
      isMaxed := false;
    }

    /** The try counter after a crack result: one more, capped at maxCracks. */
    method CountTry(maxCracks: int)
      modifies this
      ensures tries == Min(maxCracks, old(tries) + 1)
      ensures bet == old(bet) && lastWinAmount == old(lastWinAmount)
      ensures lastCrackLevel == old(lastCrackLevel) && isMaxed == old(isMaxed)
    {
      tries := Min(maxCracks, tries + 1);
    }

    /** A win: remember its amount and raise the bet as `BetAfterWin` says. */
    method RecordWin(winAmount: int)
      modifies this
      ensures lastWinAmount == winAmount && bet == BetAfterWin(old(bet), winAmount)
      ensures tries == old(tries) && lastCrackLevel == old(lastCrackLevel) && isMaxed == old(isMaxed)
    {
      var currentBet := bet;
      var doubled := if currentBet > 0 then currentBet * 2 else if winAmount != 0 then winAmount else currentBet;
      lastWinAmount := winAmount;
      if doubled > 0 {
        bet := doubled;
      }
    }

    /** A shallow copy (`{ ...egg }`): a new object with the same field values. */
    constructor Copy(other: Egg)
      ensures id == other.id && title == other.title && uid == other.uid
      ensures bet == other.bet && tries == other.tries && lastWinAmount == other.lastWinAmount
      ensures lastCrackLevel == other.lastCrackLevel && isMaxed == other.isMaxed
    {
      id := other.id;
      title := other.title;
      uid := other.uid;
      bet := other.bet;
      tries := other.tries;
      lastWinAmount := other.lastWinAmount;
      lastCrackLevel := other.lastCrackLevel;
      isMaxed := other.isMaxed;
    }
  }

  /** The tab's template: premium for the premium tab, gold for every other tab. */
  function SelectedTemplate(activeTabId: string): (t: Template)
    ensures t == PremiumTemplate || t == GoldTemplate
    ensures t.id == "premium" <==> activeTabId == "premium"
  {
    if activeTabId == "premium" then PremiumTemplate else GoldTemplate
  }

  /** `makeUid(prefix)`: `prefix-<clock>-<counter>`. */
  function MakeUid(prefix: string, now: nat, counter: nat): (u: string)
    ensures |u| > |prefix| + 3 && u[..|prefix|] == prefix && u[|prefix|] == '-'
  {
    prefix + "-" + NatToString(now) + "-" + NatToString(counter)
  }

  /** The counter a uid carries: the number after its last dash. */
  function UidCounter(uid: string): int {
    NumberAfterLastDash(uid)
  }

  /** The counter can be read back from a minted uid, whatever the prefix and the clock. */
  lemma MakeUidCounter(prefix: string, now: nat, counter: nat)
    ensures UidCounter(MakeUid(prefix, now, counter)) == counter
  {
    AfterLastDashOfDigits(prefix + "-" + NatToString(now), NatToString(counter));
    ParseNatToString(counter);
  }

  /** Uids minted with different counters differ, even across prefixes and clock readings. */
  lemma MakeUidDistinct(p1: string, now1: nat, c1: nat, p2: string, now2: nat, c2: nat)
    requires c1 != c2
    ensures MakeUid(p1, now1, c1) != MakeUid(p2, now2, c2)
  {
    MakeUidCounter(p1, now1, c1);
    MakeUidCounter(p2, now2, c2);
  }

  /** Every egg of the pool carries a uid minted with a counter below `counter`. */
  predicate MintedBelow(pool: seq<Egg>, counter: int) {
    forall i :: 0 <= i < |pool| ==> UidCounter(pool[i].uid) < counter
  }

  /**
   * Appending an egg minted with the next counter keeps a pool free of
   * duplicate uids and every uid minted below the advanced counter.
   */
  lemma AppendMintedKeepsFresh(pool: seq<Egg>, e: Egg, prefix: string, now: nat, counter: nat)
    requires e.uid == MakeUid(prefix, now, counter)
    ensures NoDuplicateUids(pool) && MintedBelow(pool, counter) ==>
      NoDuplicateUids(pool + [e]) && MintedBelow(pool + [e], counter + 1)
  {
    if NoDuplicateUids(pool) && MintedBelow(pool, counter) {
      FreshUidAbsent(pool, prefix, now, counter);
      AppendNewUidKeepsDistinct(pool, e);
      var r := pool + [e];
      forall i | 0 <= i < |r| ensures UidCounter(r[i].uid) < counter + 1 {
        if i < |pool| {
          assert r[i] == pool[i];
        } else {
          assert r[i] == e;
          MakeUidCounter(prefix, now, counter);
        }
      }
    }
  }

  /** A uid minted with `counter` is in no pool whose uids were all minted before it. */
  lemma FreshUidAbsent(pool: seq<Egg>, prefix: string, now: nat, counter: nat)
    requires MintedBelow(pool, counter)
    ensures !HasUid(pool, MakeUid(prefix, now, counter))
  {
    MakeUidCounter(prefix, now, counter);
  }

  // ---------------------------------------------------------------------------
  // Pools

  predicate HasUid(pool: seq<Egg>, uid: string) {
    exists i :: 0 <= i < |pool| && pool[i].uid == uid
  }

  predicate NoDuplicateUids(pool: seq<Egg>) {
    forall i, j :: 0 <= i < j < |pool| ==> pool[i].uid != pool[j].uid
  }

  /** `pool.findIndex(e => e.uid === uid)`: the first position holding uid, or -1. */
  function FirstUidIndex(pool: seq<Egg>, uid: string): (k: int)
    ensures -1 <= k < |pool|
    ensures k == -1 <==> !HasUid(pool, uid)
    ensures 0 <= k ==> pool[k].uid == uid && forall j :: 0 <= j < k ==> pool[j].uid != uid
  {
    if |pool| == 0 then -1
    else if pool[0].uid == uid then 0
    else
      var k := FirstUidIndex(pool[1..], uid);
      if k < 0 then -1 else k + 1
  }

  /** `_removeEggFromArray`: splice out the first entry with uid, if any. */
  function RemoveFirstUid(pool: seq<Egg>, uid: string): (r: seq<Egg>)
    ensures !HasUid(pool, uid) ==> r == pool
    ensures HasUid(pool, uid) ==>
      var k := FirstUidIndex(pool, uid);
      && |r| == |pool| - 1
      && (forall i :: 0 <= i < k ==> r[i] == pool[i])
      && (forall i :: k <= i < |r| ==> r[i] == pool[i + 1])
  {
    var k := FirstUidIndex(pool, uid);
    if k < 0 then pool else pool[..k] + pool[k + 1..]
  }

  /** Removal adds nothing: every egg left was in the pool. */
  lemma RemoveFirstUidSubset(pool: seq<Egg>, uid: string)
    ensures forall e :: e in RemoveFirstUid(pool, uid) ==> e in pool
  {
    var r := RemoveFirstUid(pool, uid);
    var k := FirstUidIndex(pool, uid);
    if k >= 0 {
      forall e | e in r ensures e in pool {
        var i :| 0 <= i < |r| && r[i] == e;
        if i < k { assert pool[i] == e; } else { assert pool[i + 1] == e; }
      }
    }
  }

  /** Removal drops only the first entry carrying uid: every other entry survives. */
  lemma RemoveFirstUidKeepsOthers(pool: seq<Egg>, uid: string)
    ensures forall i :: 0 <= i < |pool| && i != FirstUidIndex(pool, uid) ==> pool[i] in RemoveFirstUid(pool, uid)
  {
    var r := RemoveFirstUid(pool, uid);
    var k := FirstUidIndex(pool, uid);
    if k >= 0 {
      forall i | 0 <= i < |pool| && i != k ensures pool[i] in r {
        if i < k { assert r[i] == pool[i]; } else { assert r[i - 1] == pool[i]; }
      }
    }
  }

  /** A pool without duplicate uids stays so under removal, and loses the uid altogether. */
  lemma RemoveFirstUidKeepsDistinct(pool: seq<Egg>, uid: string)
    requires NoDuplicateUids(pool)
    ensures NoDuplicateUids(RemoveFirstUid(pool, uid)) && !HasUid(RemoveFirstUid(pool, uid), uid)
  {
    var r := RemoveFirstUid(pool, uid);
    var k := FirstUidIndex(pool, uid);
    if k >= 0 {
      forall a, b | 0 <= a < b < |r| ensures r[a].uid != r[b].uid {
        var pa := if a < k then a else a + 1;
        var pb := if b < k then b else b + 1;
        assert r[a] == pool[pa] && r[b] == pool[pb] && pa < pb;
      }
      forall i | 0 <= i < |r| ensures r[i].uid != uid {
        var pi := if i < k then i else i + 1;
        assert r[i] == pool[pi] && pi != k;
      }
    }
  }

  /** Appending an egg whose uid is not in the pool keeps the pool without duplicates. */
  lemma AppendNewUidKeepsDistinct(pool: seq<Egg>, e: Egg)
    requires NoDuplicateUids(pool) && !HasUid(pool, e.uid)
    ensures NoDuplicateUids(pool + [e]) && HasUid(pool + [e], e.uid)
  {
    var r := pool + [e];
    forall a, b | 0 <= a < b < |r| ensures r[a].uid != r[b].uid {
      if b < |pool| {
        assert r[a] == pool[a] && r[b] == pool[b];
      } else {
        assert r[a] == pool[a] && r[b] == e;
      }
    }
    assert r[|pool|] == e;
  }


  // ---------------------------------------------------------------------------
  // Grouping (`_groupEggs`)

  /** The grid key `${baseId}:${bet}`; bets are numbers, so the pair decides the key. */
  datatype GroupKey = GroupKey(id: string, bet: int)

  /** One grid card: the key, the first egg seen with it, and how many eggs share it. */
  datatype Group = Group(key: GroupKey, first: Egg, count: nat)

  /** `egg.id || egg.title || 'egg'`. */
  function BaseId(e: Egg): string {
    if e.id != "" then e.id else if e.title != "" then e.title else "egg"
  }

  function KeyOf(e: Egg): GroupKey
    reads e
  {
    GroupKey(BaseId(e), e.bet)
  }

  function KeysOf(eggs: seq<Egg>): (keys: seq<GroupKey>)
    reads set e | e in eggs
    ensures |keys| == |eggs|
    ensures forall i :: 0 <= i < |eggs| ==> keys[i] == KeyOf(eggs[i])
  {
    if |eggs| == 0 then [] else KeysOf(eggs[..|eggs| - 1]) + [KeyOf(eggs[|eggs| - 1])]
  }

  /** Positions of the first occurrence of each distinct key, in order of appearance. */
  function FirstOccurrences(keys: seq<GroupKey>): (f: seq<nat>)
    ensures forall g :: 0 <= g < |f| ==> f[g] < |keys|
  {
    if |keys| == 0 then []
    else
      var prefix := keys[..|keys| - 1];
      if keys[|keys| - 1] in prefix then FirstOccurrences(prefix)
      else FirstOccurrences(prefix) + [|keys| - 1]
  }

  /** How many times k occurs in keys. */
  function Occurrences(keys: seq<GroupKey>, k: GroupKey): nat {
    if |keys| == 0 then 0
    else Occurrences(keys[..|keys| - 1], k) + (if keys[|keys| - 1] == k then 1 else 0)
  }

  function SumCounts(groups: seq<Group>): nat {
    if |groups| == 0 then 0 else SumCounts(groups[..|groups| - 1]) + groups[|groups| - 1].count
  }

  predicate Increasing(f: seq<nat>) {
    forall a, b :: 0 <= a < b < |f| ==> f[a] < f[b]
  }

  /** Every position in f is the first position of its key in keys. */
  predicate AllFirst(keys: seq<GroupKey>, f: seq<nat>) {
    forall g, q :: 0 <= g < |f| && f[g] < |keys| && 0 <= q < f[g] ==> keys[q] != keys[f[g]]
  }

  /** The positions in f hold pairwise different keys. */
  predicate DistinctAt(keys: seq<GroupKey>, f: seq<nat>)
    requires forall g :: 0 <= g < |f| ==> f[g] < |keys|
  {
    forall a, b :: 0 <= a < |f| && 0 <= b < |f| && a != b ==> keys[f[a]] != keys[f[b]]
  }

  /** Key k sits at one of the positions in f. */
  predicate Found(keys: seq<GroupKey>, f: seq<nat>, k: GroupKey) {
    exists g :: 0 <= g < |f| && f[g] < |keys| && keys[f[g]] == k
  }

  /** Every key of keys sits at some position in f. */
  predicate Covers(keys: seq<GroupKey>, f: seq<nat>) {
    forall i :: 0 <= i < |keys| ==> Found(keys, f, keys[i])
  }

  /** Groups come out in order of first occurrence: the positions increase. */
  lemma {:induction false} FirstOccurrencesIncrease(keys: seq<GroupKey>)
    ensures Increasing(FirstOccurrences(keys))
  {
    if |keys| > 0 {
      var prefix := keys[..|keys| - 1];
      FirstOccurrencesIncrease(prefix);
      var fp := FirstOccurrences(prefix);
      if keys[|keys| - 1] !in prefix {
        var f := fp + [|keys| - 1];
        assert FirstOccurrences(keys) == f;
        forall a, b | 0 <= a < b < |f| ensures f[a] < f[b] {
          if b < |fp| {
            assert f[a] == fp[a] && f[b] == fp[b];
          } else {
            assert f[a] == fp[a] && fp[a] < |prefix|;
          }
        }
      }
    }
  }

  /** Each recorded position is the first position of its key. */
  lemma {:induction false} FirstOccurrencesAreFirst(keys: seq<GroupKey>)
    ensures AllFirst(keys, FirstOccurrences(keys))
  {
    if |keys| > 0 {
      var prefix := keys[..|keys| - 1];
      var last := keys[|keys| - 1];
      FirstOccurrencesAreFirst(prefix);
      var fp := FirstOccurrences(prefix);
      var f := FirstOccurrences(keys);
      forall g, q | 0 <= g < |f| && f[g] < |keys| && 0 <= q < f[g] ensures keys[q] != keys[f[g]] {
        if g < |fp| {
          assert f[g] == fp[g] && fp[g] < |prefix|;
          assert prefix[q] == keys[q] && prefix[fp[g]] == keys[fp[g]];
        } else {
          assert last !in prefix && f[g] == |keys| - 1;
          assert prefix[q] == keys[q];
        }
      }
    }
  }

  lemma FoundExtends(prefix: seq<GroupKey>, keys: seq<GroupKey>, fp: seq<nat>, f: seq<nat>, k: GroupKey)
    requires prefix <= keys && fp <= f
    requires Found(prefix, fp, k)
    ensures Found(keys, f, k)
  {
    var g :| 0 <= g < |fp| && fp[g] < |prefix| && prefix[fp[g]] == k;
    assert f[g] == fp[g] && keys[f[g]] == k;
  }

  /** Every key of the input has a recorded position. */
  lemma {:induction false} FirstOccurrencesCover(keys: seq<GroupKey>)
    ensures Covers(keys, FirstOccurrences(keys))
  {
    if |keys| > 0 {
      var prefix := keys[..|keys| - 1];
      var last := keys[|keys| - 1];
      FirstOccurrencesCover(prefix);
      var fp := FirstOccurrences(prefix);
      var f := FirstOccurrences(keys);
      assert fp <= f;
      forall i | 0 <= i < |keys| ensures Found(keys, f, keys[i]) {
        if i < |prefix| {
          assert prefix[i] == keys[i];
          FoundExtends(prefix, keys, fp, f, keys[i]);
        } else if last in prefix {
          var j :| 0 <= j < |prefix| && prefix[j] == last;
          FoundExtends(prefix, keys, fp, f, last);
        } else {
          assert f[|fp|] == i;
        }
      }
    }
  }

  /** Distinct recorded positions hold distinct keys. */
  lemma FirstOccurrencesDistinct(keys: seq<GroupKey>)
    ensures DistinctAt(keys, FirstOccurrences(keys))
  {
    var f := FirstOccurrences(keys);
    FirstOccurrencesIncrease(keys);
    FirstOccurrencesAreFirst(keys);
    forall a, b | 0 <= a < |f| && 0 <= b < |f| && a != b ensures keys[f[a]] != keys[f[b]] {
      if a < b { assert f[a] < f[b]; } else { assert f[b] < f[a]; }
    }
  }

  lemma {:induction false} OccurrencesAbsent(keys: seq<GroupKey>, k: GroupKey)
    requires k !in keys
    ensures Occurrences(keys, k) == 0
  {
    if |keys| > 0 {
      assert keys[..|keys| - 1] <= keys;
      OccurrencesAbsent(keys[..|keys| - 1], k);
    }
  }

  /** Index of the group with key k, or -1 (`map.has(key)` / `map.get(key)`). */
  function GroupIndex(groups: seq<Group>, k: GroupKey): (j: int)
    ensures -1 <= j < |groups|
    ensures j == -1 <==> forall g :: 0 <= g < |groups| ==> groups[g].key != k
    ensures 0 <= j ==> groups[j].key == k
  {
    if |groups| == 0 then -1
    else if groups[|groups| - 1].key == k then |groups| - 1
    else GroupIndex(groups[..|groups| - 1], k)
  }

  lemma {:induction false} SumCountsIncrement(groups: seq<Group>, j: nat)
    requires j < |groups|
    ensures SumCounts(groups[j := groups[j].(count := groups[j].count + 1)]) == SumCounts(groups) + 1
  {
    var bumped := groups[j := groups[j].(count := groups[j].count + 1)];
    if j < |groups| - 1 {
      assert bumped[..|bumped| - 1] == groups[..|groups| - 1][j := groups[j].(count := groups[j].count + 1)];
      SumCountsIncrement(groups[..|groups| - 1], j);
    } else {
      assert bumped[..|bumped| - 1] == groups[..|groups| - 1];
    }
  }

  lemma SumCountsAppend(groups: seq<Group>, g: Group)
    ensures SumCounts(groups + [g]) == SumCounts(groups) + g.count
  {
    assert (groups + [g])[..|groups|] == groups;
  }

  /** groups is the grouping of the eggs whose keys are listed in keys. */
  ghost predicate Tabulates(groups: seq<Group>, eggs: seq<Egg>, keys: seq<GroupKey>)
    requires |keys| <= |eggs|
  {
    var f := FirstOccurrences(keys);
    && |groups| == |f|
    && forall g :: 0 <= g < |groups| ==>
         && groups[g].key == keys[f[g]]
         && groups[g].first == eggs[f[g]]
         && groups[g].count == Occurrences(keys, groups[g].key)
  }

  /** A key not seen before opens a new group with count 1. */
  lemma TabulatesNewKey(groups: seq<Group>, eggs: seq<Egg>, keys: seq<GroupKey>)
    requires 0 < |keys| <= |eggs|
    requires Tabulates(groups, eggs, keys[..|keys| - 1])
    requires GroupIndex(groups, keys[|keys| - 1]) < 0
    ensures Tabulates(groups + [Group(keys[|keys| - 1], eggs[|keys| - 1], 1)], eggs, keys)
  {
    var i := |keys| - 1;
    var p := keys[..i];
    var k := keys[i];
    var f := FirstOccurrences(p);
    FirstOccurrencesCover(p);
    OccurrencesAbsent(p, k);
    assert FirstOccurrences(keys) == f + [i];
    var next := groups + [Group(k, eggs[i], 1)];
    forall g | 0 <= g < |groups| ensures next[g].count == Occurrences(keys, next[g].key) {
      assert groups[g].key == p[f[g]];
    }
  }

  /** A key seen before bumps the count of its group and changes nothing else. */
  lemma TabulatesKnownKey(groups: seq<Group>, eggs: seq<Egg>, keys: seq<GroupKey>)
    requires 0 < |keys| <= |eggs|
    requires Tabulates(groups, eggs, keys[..|keys| - 1])
    requires 0 <= GroupIndex(groups, keys[|keys| - 1])
    ensures var j := GroupIndex(groups, keys[|keys| - 1]);
      Tabulates(groups[j := groups[j].(count := groups[j].count + 1)], eggs, keys)
  {
    var i := |keys| - 1;
    var p := keys[..i];
    var k := keys[i];
    var f := FirstOccurrences(p);
    var j := GroupIndex(groups, k);
    FirstOccurrencesDistinct(p);
    assert p[f[j]] == k;
    assert FirstOccurrences(keys) == f;
    var next := groups[j := groups[j].(count := groups[j].count + 1)];
    forall g | 0 <= g < |groups| ensures next[g].count == Occurrences(keys, next[g].key) {
      if g != j {
        assert groups[g].key == p[f[g]] && p[f[g]] != p[f[j]];
      }
    }
  }

  lemma TabulatedKeysDistinct(groups: seq<Group>, eggs: seq<Egg>, keys: seq<GroupKey>)
    requires |keys| <= |eggs| && Tabulates(groups, eggs, keys)
    ensures forall a, b :: 0 <= a < b < |groups| ==> groups[a].key != groups[b].key
  {
    FirstOccurrencesDistinct(keys);
    var f := FirstOccurrences(keys);
    forall a, b | 0 <= a < b < |groups| ensures groups[a].key != groups[b].key {
      assert groups[a].key == keys[f[a]] && groups[b].key == keys[f[b]];
    }
  }

  /** One step of `_groupEggs`: a new key opens a group with count 1, a known key bumps its count. */
  function AddToGroups(groups: seq<Group>, k: GroupKey, e: Egg): (r: seq<Group>)
    ensures GroupIndex(groups, k) < 0 ==> r == groups + [Group(k, e, 1)]
    ensures 0 <= GroupIndex(groups, k) ==>
      var j := GroupIndex(groups, k);
      r == groups[j := groups[j].(count := groups[j].count + 1)]
  {
    var j := GroupIndex(groups, k);
    if j < 0 then groups + [Group(k, e, 1)]
    else groups[j := groups[j].(count := groups[j].count + 1)]
  }

  /** The groups `_groupEggs` builds from the first |keys| eggs, whose keys are keys. */
  function GroupsOf(keys: seq<GroupKey>, eggs: seq<Egg>): seq<Group>
    requires |keys| <= |eggs|
  {
    if |keys| == 0 then []
    else AddToGroups(GroupsOf(keys[..|keys| - 1], eggs), keys[|keys| - 1], eggs[|keys| - 1])
  }

  /** `GroupsOf` on one more key is one more `AddToGroups` step. */
  lemma GroupsOfStep(keys: seq<GroupKey>, eggs: seq<Egg>, i: nat)
    requires i < |keys| <= |eggs|
    ensures GroupsOf(keys[..i + 1], eggs) == AddToGroups(GroupsOf(keys[..i], eggs), keys[i], eggs[i])
  {
    assert keys[..i + 1][..i] == keys[..i];
  }

  lemma {:induction false} GroupsOfTabulates(keys: seq<GroupKey>, eggs: seq<Egg>)
    requires |keys| <= |eggs|
    ensures Tabulates(GroupsOf(keys, eggs), eggs, keys)
  {
    if |keys| > 0 {
      var n := |keys| - 1;
      GroupsOfTabulates(keys[..n], eggs);
      var groups := GroupsOf(keys[..n], eggs);
      assert GroupsOf(keys, eggs) == AddToGroups(groups, keys[n], eggs[n]);
      if GroupIndex(groups, keys[n]) < 0 {
        TabulatesNewKey(groups, eggs, keys);
      } else {
        TabulatesKnownKey(groups, eggs, keys);
      }
    }
  }

  lemma {:induction false} GroupsOfCount(keys: seq<GroupKey>, eggs: seq<Egg>)
    requires |keys| <= |eggs|
    ensures SumCounts(GroupsOf(keys, eggs)) == |keys|
  {
    if |keys| > 0 {
      var n := |keys| - 1;
      GroupsOfCount(keys[..n], eggs);
      var groups := GroupsOf(keys[..n], eggs);
      var j := GroupIndex(groups, keys[n]);
      if j < 0 {
        SumCountsAppend(groups, Group(keys[n], eggs[n], 1));
        assert GroupsOf(keys, eggs) == groups + [Group(keys[n], eggs[n], 1)];
      } else {
        SumCountsIncrement(groups, j);
        assert GroupsOf(keys, eggs) == groups[j := groups[j].(count := groups[j].count + 1)];
      }
    }
  }

  /**
   * `GroupsOf` is the grouping it promises to be: one group per distinct key,
   * in order of first occurrence, each with the first egg carrying the key and
   * the number of eggs sharing it; no two groups share a key, and the counts
   * add up to the number of keys.
   */
  lemma GroupsOfIsGrouping(keys: seq<GroupKey>, eggs: seq<Egg>)
    requires |keys| <= |eggs|
    ensures var groups := GroupsOf(keys, eggs); var f := FirstOccurrences(keys);
      && |groups| == |f|
      && (forall g :: 0 <= g < |groups| ==>
            && groups[g].key == keys[f[g]]
            && groups[g].first == eggs[f[g]]
            && groups[g].count == Occurrences(keys, groups[g].key))
    ensures var groups := GroupsOf(keys, eggs);
      forall a, b :: 0 <= a < b < |groups| ==> groups[a].key != groups[b].key
    ensures SumCounts(GroupsOf(keys, eggs)) == |keys|
    ensures var f := FirstOccurrences(keys);
      Increasing(f) && AllFirst(keys, f) && Covers(keys, f)
  {
    FirstOccurrencesIncrease(keys);
    FirstOccurrencesAreFirst(keys);
    FirstOccurrencesCover(keys);
    GroupsOfTabulates(keys, eggs);
    GroupsOfCount(keys, eggs);
    TabulatedKeysDistinct(GroupsOf(keys, eggs), eggs, keys);
  }

  /**
   * `_groupEggs`: the groups of `GroupsOf` for the eggs' keys, which
   * `GroupsOfIsGrouping` shows to be one group per distinct `id:bet` key, in
   * order of first occurrence, with the first egg and the count of each.
   */
  method GroupEggs(eggs: seq<Egg>) returns (groups: seq<Group>)
    ensures groups == GroupsOf(KeysOf(eggs), eggs)
  {
    ghost var keys := KeysOf(eggs);
    groups := [];
    var i := 0;
    while i < |eggs|
      invariant 0 <= i <= |eggs|
      invariant groups == GroupsOf(keys[..i], eggs)
    {
      var e := eggs[i];
      var k := GroupKey(BaseId(e), e.bet);
      assert k == keys[i];
      GroupsOfStep(keys, eggs, i);
      groups := AddToGroups(groups, k, e);
      i := i + 1;
    }
    assert keys[..i] == keys;
  }

  /**
   * `_pickEggFromGroup`: the first egg of the list whose raw id and bet match
   * the group, else the list's first egg, else null.
   */
  function PickEggFromGroup(list: seq<Egg>, group: Option<Group>): (r: Egg?)
    reads set e | e in list
    ensures r == null <==> |list| == 0
    ensures r != null ==> r in list
    ensures group.None? && |list| > 0 ==> r == list[0]
    ensures group.Some? && |list| > 0 &&
      (forall i :: 0 <= i < |list| ==> !(list[i].id == group.value.key.id && list[i].bet == group.value.key.bet))
      ==> r == list[0]
    ensures group.Some? ==>
      forall i :: 0 <= i < |list| && list[i].id == group.value.key.id && list[i].bet == group.value.key.bet ==>
        exists j :: 0 <= j <= i && r == list[j] && r.id == group.value.key.id && r.bet == group.value.key.bet
  {
    if |list| == 0 then null
    else if group.None? then list[0]
    else
      var m := FirstMatch(list, group.value.key);
      if m < 0 then list[0] else list[m]
  }

  /** `list.find(e => e.id === key.id && e.bet === key.bet)` as a position, or -1. */
  function FirstMatch(list: seq<Egg>, key: GroupKey): (m: int)
    reads set e | e in list
    ensures -1 <= m < |list|
    ensures m == -1 <==> forall i :: 0 <= i < |list| ==> !(list[i].id == key.id && list[i].bet == key.bet)
    ensures 0 <= m ==> list[m].id == key.id && list[m].bet == key.bet
    ensures 0 <= m ==> forall i :: 0 <= i < m ==> !(list[i].id == key.id && list[i].bet == key.bet)
  {
    if |list| == 0 then -1
    else if list[0].id == key.id && list[0].bet == key.bet then 0
    else
      var m := FirstMatch(list[1..], key);
      if m < 0 then -1 else m + 1
  }

  // ---------------------------------------------------------------------------
  // Levels

  /** `_getEggLevel`: the level of the next crack, `min(tries + 1, maxCracks)`. */
  function EggLevel(tries: int, maxCracks: int): (level: int)
    ensures level <= maxCracks
    ensures tries < maxCracks ==> level == tries + 1
    ensures tries >= maxCracks ==> level == maxCracks
    ensures 0 <= tries && 1 <= maxCracks ==> 1 <= level
  {
    Min(tries + 1, maxCracks)
  }

  /** The level `_getEggSpriteUrls` draws: `max(1, min(level || 1, maxCracks))`. */
  function SpriteLevel(level: int, maxCracks: int): (safe: int)
    ensures 1 <= maxCracks ==> 1 <= safe <= maxCracks
    ensures 1 <= level <= maxCracks ==> safe == level
    ensures level <= 0 ==> safe == 1
    ensures 1 <= maxCracks < level ==> safe == maxCracks
  {
    Max(1, Min(if level == 0 then 1 else level, maxCracks))
  }

  /** The art set of an egg: premium art for premium eggs, gold art for every other egg. */
  datatype SpriteUrls = SpriteUrls(fullUrl: string, brokenUrl: string, key: string)

  function SpriteType(egg: Egg?): (t: string)
    ensures t == "premium" || t == "gold"
    ensures t == "premium" <==> egg != null && egg.id == "premium"
  {
    if egg != null && egg.id == "premium" then "premium" else "gold"
  }

  /** The art files and cache key of one art type at one level. */
  function ArtUrls(t: string, level: nat): SpriteUrls {
    var s := NatToString(level);
    SpriteUrls("/assets/" + t + "_egg" + s + ".png", "/assets/" + t + "_egg_broken" + s + ".png", t + "-" + s)
  }

  /** The cache key names the level it was built for. */
  lemma ArtKeyLevel(t: string, level: nat)
    ensures NumberAfterLastDash(ArtUrls(t, level).key) == level
  {
    AfterLastDashOfDigits(t, NatToString(level));
    ParseNatToString(level);
  }

  /**
   * `_getEggSpriteUrls`: always the art of the egg's type at some level
   * in 1..maxCracks; an in-range level is drawn as it is, a missing or
   * negative one as level 1, and one above the cap as the cap.
   */
  function EggSpriteUrls(egg: Egg?, level: int, maxCracks: int): (r: SpriteUrls)
    requires 1 <= maxCracks
    ensures exists l: nat :: 1 <= l <= maxCracks && r == ArtUrls(SpriteType(egg), l)
    ensures 1 <= level <= maxCracks ==> r == ArtUrls(SpriteType(egg), level)
    ensures level <= 0 ==> r == ArtUrls(SpriteType(egg), 1)
    ensures maxCracks < level ==> r == ArtUrls(SpriteType(egg), maxCracks)
  {
    ArtUrls(SpriteType(egg), SpriteLevel(level, maxCracks))
  }
}
