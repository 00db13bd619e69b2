/**
 * The client session of the egg game (`AppGame`), without its rendering: the
 * two egg pools, the active egg, the lock flag, the tab, and the two
 * histories, with every operation that changes them.
 *
 * `_handleBuy` puts the same `Egg` object into both pools and results mutate
 * that object in place, so eggs are objects and the pools are sequences of
 * references. The storage cap is kept by the operations that check it (buy,
 * tab switch, move to storage), not by every operation: a win appends to
 * `storedEggs` unchecked, and `setConfig` may lower `maxStored`.
 */
module Game {
  import opened Util
  import opened EggStore

  /** The two views the session switches between (`mode`). */
  datatype Mode = Home | Play

  /** One `history` entry: `status` 1 win, 0 lose, 2 cashout. */
  datatype HistoryEntry = HistoryEntry(
    status: int,
    eggId: Option<string>,
    eggType: Option<string>,
    betAmount: Option<int>,
    time: int,
    winAmount: Option<int>)

  /** One `cashoutHistory` entry. */
  datatype CashoutEntry = CashoutEntry(title: string, amount: int, time: int)

  /** What the session hands to `onAction` when the player cracks or cashes out. */
  datatype ActionRequest = ActionRequest(action: string, betAmount: int, eggId: string, tryIndex: int)

  /** The `result` strings `showResult` tells apart; every other string is `OtherOutcome`. */
  datatype Outcome = StoredOutcome | CashoutOutcome | WinOutcome | LoseOutcome | OtherOutcome

  function OutcomeOf(s: string): (o: Outcome)
    ensures o == StoredOutcome <==> s == "stored"
    ensures o == CashoutOutcome <==> s == "cashout"
    ensures o == WinOutcome <==> s == "win"
    ensures o == LoseOutcome <==> s == "lose"
  {
    if s == "stored" then StoredOutcome
    else if s == "cashout" then CashoutOutcome
    else if s == "win" then WinOutcome
    else if s == "lose" then LoseOutcome
    else OtherOutcome
  }

  /** The fields of a server result that `showResult` reads, its `result` string already classified. */
  datatype ActionResult = ActionResult(
    outcome: Outcome,
    winAmount: int,
    balance: Option<int>,
    eggId: Option<string>,
    bonus: bool)

  /** The fields of the init config that `setConfig` reads. */
  datatype Config = Config(currency: Option<string>, maxStored: Option<int>)

  /** A snapshot of every session field, so that a contract can say what did not change. */
  datatype Session = Session(
    mode: Mode,
    boughtEggs: seq<Egg>,
    storedEggs: seq<Egg>,
    maxStored: int,
    currency: string,
    balance: Option<int>,
    activeEggUid: Option<string>,
    activeSource: Source,
    isLocked: bool,
    isCracked: bool,
    lastBonus: bool,
    history: seq<HistoryEntry>,
    cashoutHistory: seq<CashoutEntry>,
    activeTabId: string,
    uidCounter: nat)

  const CashoutHistoryLimit: nat := 20

  /**
   * The session after `_removeActiveEgg`: with a truthy active uid, its first
   * entry leaves both pools and the uid is cleared; otherwise nothing changes.
   */
  ghost function WithoutActive(s: Session): Session {
    if Truthy(s.activeEggUid) then
      s.(boughtEggs := RemoveFirstUid(s.boughtEggs, s.activeEggUid.value),
         storedEggs := RemoveFirstUid(s.storedEggs, s.activeEggUid.value),
         activeEggUid := None)
    else s
  }

  /** The pool a source names in a session. */
  ghost function PoolOf(s: Session, source: Source): seq<Egg> {
    if source == Stored then s.storedEggs else s.boughtEggs
  }

  /** The egg `_getActiveEgg` finds in a session: the first of the active pool with the (truthy) active uid. */
  ghost function ActiveIn(s: Session): Egg? {
    if !Truthy(s.activeEggUid) then null
    else
      var pool := PoolOf(s, s.activeSource);
      var k := FirstUidIndex(pool, s.activeEggUid.value);
      if k < 0 then null else pool[k]
  }

  /** There is an active egg to show. */
  ghost predicate ShowsEgg(s: Session) {
    ActiveIn(s) != null
  }

  /** The session after `_renderPlay`: with no egg to show, the crack and bonus flags are reset. */
  ghost function Rendered(s: Session): Session {
    if ShowsEgg(s) then s else s.(isCracked := false, lastBonus := false)
  }

  /** The entry `_recordHistory` builds from the egg as it is at that moment. */
  function EntryFor(status: int, egg: Egg?, winAmount: Option<int>, now: int): HistoryEntry
    reads egg
  {
    if egg == null then HistoryEntry(status, None, None, None, now, winAmount)
    else HistoryEntry(status, Some(egg.uid), Some(egg.id), Some(egg.bet), now, winAmount)
  }

  /** c is a field-for-field copy of e. */
  predicate SameFields(e: Egg, c: Egg)
    reads e, c
  {
    && c.id == e.id && c.title == e.title && c.uid == e.uid
    && c.bet == e.bet && c.tries == e.tries && c.lastWinAmount == e.lastWinAmount
    && c.lastCrackLevel == e.lastCrackLevel && c.isMaxed == e.isMaxed
  }

  class AppGame {
    var mode: Mode
    var boughtEggs: seq<Egg>
    var storedEggs: seq<Egg>
    var maxStored: int
    var currency: string
    var balance: Option<int>
    var activeEggUid: Option<string>
    var activeSource: Source
    var isLocked: bool
    var isCracked: bool
    var lastBonus: bool
    var history: seq<HistoryEntry>
    var cashoutHistory: seq<CashoutEntry>
    var activeTabId: string
    /** The counter inside `makeUid`. */
    var uidCounter: nat
    const maxCracks: int

    ghost function State(): Session
      reads this
    {
      Session(mode, boughtEggs, storedEggs, maxStored, currency, balance, activeEggUid,
              activeSource, isLocked, isCracked, lastBonus, history, cashoutHistory,
              activeTabId, uidCounter)
    }

    constructor ()
      ensures maxCracks == 5
      ensures State() == Session(Home, [], [], 3, "", None, None, Bought, false, false, false,
                                 [], [], "gold", 0)
    {
      mode := Home;
      boughtEggs := [];
      storedEggs := [];
      maxStored := 3;
      currency := "";
      balance := None;
      activeEggUid := None;
      activeSource := Bought;
      isLocked := false;
      isCracked := false;
      lastBonus := false;
      history := [];
      cashoutHistory := [];
      activeTabId := "gold";
      uidCounter := 0;
      maxCracks := 5;
    }

    // -------------------------------------------------------------------------
    // Lookup

    function Pool(source: Source): seq<Egg>
      reads this
    {
      if source == Stored then storedEggs else boughtEggs
    }

    /**
     * `_findEggByUid`: null for a missing or empty uid, otherwise the first egg
     * of the chosen pool carrying that uid, or null if there is none.
     */
    function FindEggByUid(uid: Option<string>, source: Source): (r: Egg?)
      reads this
      ensures r == null <==> !Truthy(uid) || !HasUid(Pool(source), uid.value)
      ensures r != null ==> r in Pool(source) && r.uid == uid.value
      ensures r != null ==>
        var k := FirstUidIndex(Pool(source), uid.value);
        r == Pool(source)[k] && forall j :: 0 <= j < k ==> Pool(source)[j].uid != uid.value
    {
      if !Truthy(uid) then null
      else
        var pool := Pool(source);
        var k := FirstUidIndex(pool, uid.value);
        if k < 0 then null else pool[k]
    }

    /** `_getActiveEgg`: the active uid's egg in the active pool, null if there is none. */
    function ActiveEgg(): (r: Egg?)
      reads this
      ensures r == null <==> !Truthy(activeEggUid) || !HasUid(Pool(activeSource), activeEggUid.value)
      ensures r != null ==> r in Pool(activeSource) && activeEggUid == Some(r.uid)
      ensures r == ActiveIn(State())
    {
      FindEggByUid(activeEggUid, activeSource)
    }

    /** The egg `showResult` applies a result to: by the result's eggId, else the active egg. */
    function ResultEgg(result: ActionResult): (r: Egg?)
      reads this
      ensures r != null ==> r in Pool(activeSource)
      ensures Truthy(result.eggId) ==>
        && (r == null <==> !HasUid(Pool(activeSource), result.eggId.value))
        && (r != null ==> r.uid == result.eggId.value)
      ensures !Truthy(result.eggId) ==> r == ActiveEgg()
    {
      if Truthy(result.eggId) then FindEggByUid(result.eggId, activeSource) else ActiveEgg()
    }

    /**
     * `_findLatestStoredById`: null for an empty id, otherwise the last stored
     * egg whose template id is id, or null if there is none.
     */
    method FindLatestStoredById(id: string) returns (r: Egg?)
      ensures r == null <==> id == "" || forall i :: 0 <= i < |storedEggs| ==> storedEggs[i].id != id
      ensures r != null ==> exists i :: 0 <= i < |storedEggs| && r == storedEggs[i] && r.id == id &&
                                        forall j :: i < j < |storedEggs| ==> storedEggs[j].id != id
    {
      if id == "" {
        return null;
      }
      var i := |storedEggs|;
      while i > 0
        invariant 0 <= i <= |storedEggs|
        invariant forall j :: i <= j < |storedEggs| ==> storedEggs[j].id != id
      {
        i := i - 1;
        if storedEggs[i].id == id {
          return storedEggs[i];
        }
      }
      return null;
    }

    // -------------------------------------------------------------------------
    // Small state steps

    /** `lockUI`: only the flag; the button styling is presentation. */
    method LockUI(locked: bool)
      modifies this
      ensures State() == old(State()).(isLocked := locked)
    {
      isLocked := locked;
    }

    /** `_recordHistory`: the newest entry goes first. */
    method RecordHistory(status: int, egg: Egg?, winAmount: Option<int>, now: int)
      modifies this
      ensures State() == old(State()).(history := [EntryFor(status, egg, winAmount, now)] + old(history))
    {
      history := [EntryFor(status, egg, winAmount, now)] + history;
    }

    /**
     * The session part of `_renderPlay`: when no active egg resolves, the
     * crack and bonus flags are reset; the drawing itself is presentation.
     */
    method RenderPlay()
      modifies this
      ensures !ShowsEgg(old(State())) ==> State() == old(State()).(isCracked := false, lastBonus := false)
      ensures ShowsEgg(old(State())) ==> State() == old(State())
    {
      if ActiveEgg() == null {
        isCracked := false;
        lastBonus := false;
      }
    }

    /**
     * `_enterPlay`: make egg the active one, from the given pool, and show the
     * play view; if the pool has no egg with that uid, rendering also resets
     * the bonus flag.
     */
    method EnterPlay(egg: Egg?, source: Source)
      modifies this
      ensures egg == null ==> State() == old(State())
      ensures egg != null ==>
        State() == Rendered(old(State()).(activeEggUid := Some(egg.uid), activeSource := source,
                                          isCracked := false, mode := Play))
      ensures egg != null && egg.uid != "" && HasUid(old(Pool(source)), egg.uid) ==>
        State() == old(State()).(activeEggUid := Some(egg.uid), activeSource := source,
                                 isCracked := false, mode := Play)
    {
      if egg == null {
        return;
      }
      activeEggUid := Some(egg.uid);
      activeSource := source;
      isCracked := false;
      mode := Play;
      RenderPlay();
    }

    /** The home button (disabled while locked) and `_goHome`. */
    method GoHome()
      modifies this
      ensures old(isLocked) ==> State() == old(State())
      ensures !old(isLocked) ==>
        State() == old(State()).(activeEggUid := None, isCracked := false, mode := Home)
    {
      if isLocked {
        return;
      }
      activeEggUid := None;
      isCracked := false;
      mode := Home;
    }

    /**
     * `_retrieveStoredEgg`, with the lock test of a stored slot's Retrieve
     * button folded in. Whether the button is shown at all (not for the
     * active egg, not for a maxed one) is rendering and is not modelled.
     */
    method RetrieveStoredEgg(egg: Egg?)
      modifies this
      ensures old(isLocked) || egg == null || (ActiveIn(old(State())) != null && ActiveIn(old(State())).uid == egg.uid)
        ==> State() == old(State())
      ensures !(old(isLocked) || egg == null || (ActiveIn(old(State())) != null && ActiveIn(old(State())).uid == egg.uid))
        ==> State() == Rendered(old(State()).(activeEggUid := Some(egg.uid), activeSource := Stored,
                                              isCracked := false, mode := Play))
    {
      if isLocked || egg == null {
        return;
      }
      var current := ActiveEgg();
      if current != null && current.uid == egg.uid {
        return;
      }
      EnterPlay(egg, Stored);
    }

    /**
     * `_removeActiveEgg`: with a truthy active uid, drop its first entry from
     * both pools and clear it; otherwise change nothing.
     */
    method RemoveActiveEgg() returns (removed: bool)
      modifies this
      ensures removed == Truthy(old(activeEggUid))
      ensures State() == WithoutActive(old(State()))
      ensures NoDuplicateUids(old(storedEggs)) ==> NoDuplicateUids(storedEggs)
    {
      if !Truthy(activeEggUid) {
        return false;
      }
      var uid := activeEggUid.value;
      if NoDuplicateUids(storedEggs) {
        RemoveFirstUidKeepsDistinct(storedEggs, uid);
      }
      boughtEggs := RemoveFirstUid(boughtEggs, uid);
      storedEggs := RemoveFirstUid(storedEggs, uid);
      activeEggUid := None;
      return true;
    }

    // -------------------------------------------------------------------------
    // Storage

    /** Append a shallow copy of egg to `storedEggs` (`storedEggs.push({ ...egg })`). */
    method StoreCopy(egg: Egg) returns (copy: Egg)
      modifies this
      ensures fresh(copy) && SameFields(egg, copy)
      ensures State() == old(State()).(storedEggs := old(storedEggs) + [copy])
      ensures NoDuplicateUids(old(storedEggs)) && !HasUid(old(storedEggs), egg.uid) ==> NoDuplicateUids(storedEggs)
    {
      copy := new Egg.Copy(egg);
      if NoDuplicateUids(storedEggs) && !HasUid(storedEggs, egg.uid) {
        AppendNewUidKeepsDistinct(storedEggs, copy);
      }
      storedEggs := storedEggs + [copy];
    }

    /**
     * `_moveActiveToStored`: nothing without an active egg or with storage
     * full; otherwise a copy of the active egg is appended unless its uid is
     * already stored, its first entry leaves `boughtEggs`, and it stops being
     * active.
     */
    method MoveActiveToStored()
      modifies this
      ensures var e := ActiveIn(old(State()));
        e == null || old(|storedEggs|) >= maxStored ==> State() == old(State())
      ensures var e := ActiveIn(old(State()));
        e != null && old(|storedEggs|) < maxStored ==>
          State() == old(State()).(boughtEggs := RemoveFirstUid(old(boughtEggs), e.uid),
                                   storedEggs := storedEggs, activeEggUid := None)
      ensures var e := ActiveIn(old(State()));
        e != null && old(|storedEggs|) < maxStored && HasUid(old(storedEggs), e.uid) ==>
          storedEggs == old(storedEggs)
      ensures var e := ActiveIn(old(State()));
        e != null && old(|storedEggs|) < maxStored && !HasUid(old(storedEggs), e.uid) ==>
          && |storedEggs| == |old(storedEggs)| + 1
          && storedEggs[..|old(storedEggs)|] == old(storedEggs)
          && fresh(storedEggs[|old(storedEggs)|])
          && SameFields(e, storedEggs[|old(storedEggs)|])
      ensures old(|storedEggs|) <= maxStored ==> |storedEggs| <= maxStored
      ensures NoDuplicateUids(old(storedEggs)) ==> NoDuplicateUids(storedEggs)
    {
      var egg := ActiveEgg();
      if egg == null {
        return;
      }
      if |storedEggs| >= maxStored {
        return;
      }
      var alreadyStored := HasUid(storedEggs, egg.uid);
      if !alreadyStored {
        var copy := StoreCopy(egg);
      }
      boughtEggs := RemoveFirstUid(boughtEggs, egg.uid);
      activeEggUid := None;
    }

    /**
     * `_selectEggTab`: an active egg that is not stored yet is stored first;
     * with storage full the switch is refused and nothing changes. Otherwise
     * the active egg is cleared and the tab becomes tabId.
     */
    method SelectEggTab(tabId: string)
      modifies this
      ensures var e := ActiveIn(old(State()));
        (e != null && !HasUid(old(storedEggs), e.uid) && old(|storedEggs|) >= maxStored) ==>
          State() == old(State())
      ensures ActiveIn(old(State())) == null ==>
        State() == old(State()).(activeTabId := tabId, isCracked := false, lastBonus := false)
      ensures var e := ActiveIn(old(State()));
        e != null && (HasUid(old(storedEggs), e.uid) || old(|storedEggs|) < maxStored) ==>
          State() == old(State()).(
            storedEggs := old(storedEggs) + (if HasUid(old(storedEggs), e.uid) then [] else [e]),
            activeEggUid := None, isCracked := false, lastBonus := false, activeTabId := tabId)
      ensures old(|storedEggs|) <= maxStored ==> |storedEggs| <= maxStored
      ensures NoDuplicateUids(old(storedEggs)) ==> NoDuplicateUids(storedEggs)
    {
      var current := ActiveEgg();
      if current != null {
        var alreadyStored := HasUid(storedEggs, current.uid);
        if !alreadyStored && |storedEggs| >= maxStored {
          return;
        }
        if !alreadyStored {
          if NoDuplicateUids(storedEggs) {
            AppendNewUidKeepsDistinct(storedEggs, current);
          }
          storedEggs := storedEggs + [current];
        }
        activeEggUid := None;
        isCracked := false;
      }
      activeTabId := tabId;
      RenderPlay();
    }

    // -------------------------------------------------------------------------
    // Player actions

    /**
     * The buy button (ignored while locked) and `_handleBuy`: refused while an
     * egg is active or storage is full; otherwise one fresh egg of the tab's
     * template goes into both pools as the same object and becomes active,
     * sourced from storage.
     */
    method HandleBuy(now: nat)
      modifies this
      ensures old(isLocked) || Truthy(old(activeEggUid)) || old(|storedEggs|) >= maxStored
        ==> State() == old(State())
      ensures !(old(isLocked) || Truthy(old(activeEggUid)) || old(|storedEggs|) >= maxStored) ==>
        && |storedEggs| == old(|storedEggs|) + 1
        && var e := storedEggs[|storedEggs| - 1];
           var t := SelectedTemplate(old(activeTabId));
           && fresh(e)
           && e.id == t.id && e.title == t.title && e.bet == t.bet
           && e.tries == 0 && e.lastWinAmount == 0 && e.lastCrackLevel == None && !e.isMaxed
           && e.uid == MakeUid(t.id, now, old(uidCounter))
           && State() == old(State()).(boughtEggs := old(boughtEggs) + [e],
                                       storedEggs := old(storedEggs) + [e],
                                       activeEggUid := Some(e.uid), activeSource := Stored,
                                       isCracked := false, mode := Play,
                                       uidCounter := old(uidCounter) + 1)
      ensures old(|storedEggs|) <= maxStored ==> |storedEggs| <= maxStored
      ensures NoDuplicateUids(old(storedEggs)) && MintedBelow(old(storedEggs), old(uidCounter)) ==>
        NoDuplicateUids(storedEggs) && MintedBelow(storedEggs, uidCounter)
    {
      if isLocked || Truthy(activeEggUid) {
        return;
      }
      if |storedEggs| >= maxStored {
        return;
      }
      var template := SelectedTemplate(activeTabId);
      var prefix := if template.id != "" then template.id else "egg";
      var newEgg := new Egg.Create(template, MakeUid(prefix, now, uidCounter));
      AppendMintedKeepsFresh(storedEggs, newEgg, prefix, now, uidCounter);
      uidCounter := uidCounter + 1;
      boughtEggs := boughtEggs + [newEgg];
      storedEggs := storedEggs + [newEgg];
      assert storedEggs[|storedEggs| - 1] == newEgg;
      EnterPlay(newEgg, Stored);
    }

    /**
     * The crack button (ignored while locked) and `_handleCrack`: nothing is
     * dispatched without an active egg or handler, or once the egg has had
     * `maxCracks` tries. Otherwise the egg remembers the level of this crack,
     * the session locks, and the request carries the egg's bet, uid and tries.
     */
    method HandleCrack(hasHandler: bool) returns (request: Option<ActionRequest>)
      modifies this, Pool(activeSource)
      ensures var e := ActiveIn(old(State()));
        old(isLocked) || e == null || !hasHandler || old(e.tries) >= maxCracks ==>
          request == None && State() == old(State()) && (e != null ==> unchanged(e))
      ensures var e := ActiveIn(old(State()));
        !(old(isLocked) || e == null || !hasHandler || old(e.tries) >= maxCracks) ==>
          && request == Some(ActionRequest("crack", old(e.bet), e.uid, old(e.tries)))
          && e.lastCrackLevel == Some(EggLevel(old(e.tries), maxCracks))
          && e.bet == old(e.bet) && e.tries == old(e.tries) && e.lastWinAmount == old(e.lastWinAmount)
          && e.isMaxed == old(e.isMaxed)
          && State() == old(State()).(isLocked := true)
      ensures forall x :: x in old(Pool(activeSource)) && x != ActiveIn(old(State())) ==> unchanged(x)
    {
      if isLocked {
        return None;
      }
      var egg := ActiveEgg();
      if egg == null || !hasHandler {
        return None;
      }
      var tries := egg.tries;
      if tries >= maxCracks {
        return None;
      }
      egg.lastCrackLevel := Some(EggLevel(tries, maxCracks));
      LockUI(true);
      request := Some(ActionRequest("crack", egg.bet, egg.uid, egg.tries));
    }

    /**
     * The cashout button (ignored while locked) and `_handleCashout`: nothing
     * without an active egg; otherwise the session locks and the request
     * carries the egg's bet, uid and tries.
     */
    method HandleCashout() returns (request: Option<ActionRequest>)
      modifies this
      ensures var e := ActiveIn(old(State()));
        old(isLocked) || e == null ==> request == None && State() == old(State())
      ensures var e := ActiveIn(old(State()));
        !(old(isLocked) || e == null) ==>
          && request == Some(ActionRequest("cashout", e.bet, e.uid, e.tries))
          && State() == old(State()).(isLocked := true)
    {
      if isLocked {
        return None;
      }
      var egg := ActiveEgg();
      if egg == null {
        return None;
      }
      LockUI(true);
      request := Some(ActionRequest("cashout", egg.bet, egg.uid, egg.tries));
    }

    // -------------------------------------------------------------------------
    // Applying a server result

    /**
     * The `'stored'` branch of `showResult`: store the active egg, then
     * reselect the current tab (or "gold"). With room, the egg is stored and
     * the tab reselected; with storage full, an egg already stored is only
     * deactivated, and one not stored stays active on its tab.
     */
    method ApplyStored()
      modifies this
      ensures var t := if old(activeTabId) != "" then old(activeTabId) else "gold";
        ActiveIn(old(State())) == null ==>
          State() == old(State()).(lastBonus := false, isCracked := false, activeTabId := t)
      ensures var e := ActiveIn(old(State())); var t := if old(activeTabId) != "" then old(activeTabId) else "gold";
        e != null && old(|storedEggs|) < maxStored ==>
          State() == old(State()).(lastBonus := false, isCracked := false,
                                   boughtEggs := RemoveFirstUid(old(boughtEggs), e.uid),
                                   storedEggs := storedEggs, activeEggUid := None, activeTabId := t)
      ensures var e := ActiveIn(old(State()));
        e != null && old(|storedEggs|) < maxStored && HasUid(old(storedEggs), e.uid) ==>
          storedEggs == old(storedEggs)
      ensures var e := ActiveIn(old(State()));
        e != null && old(|storedEggs|) < maxStored && !HasUid(old(storedEggs), e.uid) ==>
          && |storedEggs| == |old(storedEggs)| + 1
          && storedEggs[..|old(storedEggs)|] == old(storedEggs)
          && fresh(storedEggs[|old(storedEggs)|])
          && SameFields(e, storedEggs[|old(storedEggs)|])
      ensures var e := ActiveIn(old(State())); var t := if old(activeTabId) != "" then old(activeTabId) else "gold";
        e != null && old(|storedEggs|) >= maxStored && HasUid(old(storedEggs), e.uid) ==>
          State() == old(State()).(lastBonus := false, activeEggUid := None, isCracked := false,
                                   activeTabId := t)
      ensures var e := ActiveIn(old(State()));
        e != null && old(|storedEggs|) >= maxStored && !HasUid(old(storedEggs), e.uid) ==>
          State() == old(State()).(lastBonus := false)
      ensures old(|storedEggs|) <= maxStored ==> |storedEggs| <= maxStored
      ensures NoDuplicateUids(old(storedEggs)) ==> NoDuplicateUids(storedEggs)
    {
      // The source clears lastBonus first and picks the tab after storing; neither step
      // reads the flag or changes the tab, and rendering only ever sets the flag false,
      // so this order has the same effect.
      var tab := if activeTabId != "" then activeTabId else "gold";
      MoveActiveToStored();
      SelectEggTab(tab);
      lastBonus := false;
    }

    /**
     * The `'cashout'` branch of `showResult`: the active egg leaves both pools;
     * with a result egg, a cashout entry for its last win goes in front of
     * `cashoutHistory`, which keeps at most 20 entries; one status-2 entry
     * with that amount goes in front of `history`.
     */
    method ApplyCashout(egg: Egg?, now: int)
      modifies this
      ensures var amount := if egg != null then egg.lastWinAmount else 0;
        State() == WithoutActive(old(State())).(
          lastBonus := false, isCracked := false,
          cashoutHistory := if egg != null
                            then Truncate([CashoutEntry(egg.title, amount, now)] + old(cashoutHistory), CashoutHistoryLimit)
                            else old(cashoutHistory),
          history := [EntryFor(2, egg, Some(amount), now)] + old(history),
          mode := Play)
      ensures |cashoutHistory| <= Max(old(|cashoutHistory|), CashoutHistoryLimit)
      ensures NoDuplicateUids(old(storedEggs)) ==> NoDuplicateUids(storedEggs)
    {
      lastBonus := false;
      var _ := RemoveActiveEgg();
      var amount := if egg != null then egg.lastWinAmount else 0;
      if egg != null {
        cashoutHistory := Truncate([CashoutEntry(egg.title, amount, now)] + cashoutHistory, CashoutHistoryLimit);
      }
      RecordHistory(2, egg, Some(amount), now);
      mode := Play;
      assert !ShowsEgg(State());
      RenderPlay();
    }

    /**
     * The `'win'` branch of `showResult` and the stored push of
     * `_showResultModalAndReset`: the result egg's tries go up by one, capped
     * at `maxCracks`, it takes the win amount as its last win and raises its
     * bet; one status-1 entry is recorded, and the egg is stored unless its
     * uid is already stored.
     */
    method ApplyWin(winAmount: int, bonus: bool, egg: Egg?, now: int)
      modifies this, if egg == null then {} else {egg}
      ensures egg != null ==>
        && egg.tries == Min(maxCracks, old(egg.tries) + 1)
        && egg.lastWinAmount == winAmount && egg.bet == BetAfterWin(old(egg.bet), winAmount)
        && egg.isMaxed == old(egg.isMaxed) && egg.lastCrackLevel == old(egg.lastCrackLevel)
      ensures State() == old(State()).(
        isCracked := true, lastBonus := bonus,
        history := [EntryFor(1, egg, Some(winAmount), now)] + old(history),
        storedEggs := old(storedEggs) + (if egg != null && !HasUid(old(storedEggs), egg.uid) then [egg] else []))
      ensures egg != null ==> HasUid(storedEggs, egg.uid)
      ensures NoDuplicateUids(old(storedEggs)) ==> NoDuplicateUids(storedEggs)
    {
      isCracked := true;
      lastBonus := bonus;
      if egg != null {
        egg.CountTry(maxCracks);
        egg.RecordWin(winAmount);
      }
      RecordHistory(1, egg, Some(winAmount), now);
      if egg != null && !HasUid(storedEggs, egg.uid) {
        if NoDuplicateUids(storedEggs) {
          AppendNewUidKeepsDistinct(storedEggs, egg);
        }
        assert (storedEggs + [egg])[|storedEggs|] == egg;
        storedEggs := storedEggs + [egg];
      }
    }

    /**
     * The `'lose'` branch of `showResult`: the result egg's tries go up by
     * one, capped at `maxCracks`; the active egg leaves both pools, and one
     * status-0 entry is recorded.
     */
    method ApplyLose(egg: Egg?, now: int)
      modifies this, if egg == null then {} else {egg}
      ensures egg != null ==>
        && egg.tries == Min(maxCracks, old(egg.tries) + 1)
        && egg.lastWinAmount == old(egg.lastWinAmount) && egg.bet == old(egg.bet)
        && egg.isMaxed == old(egg.isMaxed) && egg.lastCrackLevel == old(egg.lastCrackLevel)
      ensures State() == WithoutActive(old(State())).(
        isCracked := true, lastBonus := false,
        history := [EntryFor(0, egg, None, now)] + old(history))
      ensures NoDuplicateUids(old(storedEggs)) ==> NoDuplicateUids(storedEggs)
    {
      isCracked := true;
      lastBonus := false;
      if egg != null {
        egg.CountTry(maxCracks);
      }
      var _ := RemoveActiveEgg();
      lastBonus := false;
      RecordHistory(0, egg, None, now);
    }

    /**
     * The rest of `showResult`: a win or a lose is applied to the egg, any
     * other outcome only clears the bonus flag, and the play view is
     * rendered, which resets the flags when no egg is left to show.
     */
    method ApplyCrackOrOther(result: ActionResult, egg: Egg?, now: int)
      modifies this, if egg != null && (result.outcome == WinOutcome || result.outcome == LoseOutcome) then {egg} else {}
      ensures result.outcome == WinOutcome ==>
        && (egg != null ==>
              && egg.tries == Min(maxCracks, old(egg.tries) + 1)
              && egg.lastWinAmount == result.winAmount && egg.bet == BetAfterWin(old(egg.bet), result.winAmount)
              && egg.isMaxed == old(egg.isMaxed) && egg.lastCrackLevel == old(egg.lastCrackLevel))
        && State() == Rendered(old(State()).(
             isCracked := true, lastBonus := result.bonus,
             history := [EntryFor(1, egg, Some(result.winAmount), now)] + old(history),
             storedEggs := old(storedEggs) + (if egg != null && !HasUid(old(storedEggs), egg.uid) then [egg] else [])))
      ensures result.outcome == LoseOutcome ==>
        && (egg != null ==>
              && egg.tries == Min(maxCracks, old(egg.tries) + 1)
              && egg.lastWinAmount == old(egg.lastWinAmount) && egg.bet == old(egg.bet)
              && egg.isMaxed == old(egg.isMaxed) && egg.lastCrackLevel == old(egg.lastCrackLevel))
        && State() == WithoutActive(old(State())).(
             isCracked := false, lastBonus := false,
             history := [EntryFor(0, egg, None, now)] + old(history))
      ensures result.outcome != WinOutcome && result.outcome != LoseOutcome ==>
        State() == Rendered(old(State()).(lastBonus := false))
      ensures balance == old(balance) && isLocked == old(isLocked)
      ensures result.outcome == LoseOutcome ==> !Truthy(activeEggUid) && !isCracked && !lastBonus
      ensures ActiveEgg() == null ==> !isCracked && !lastBonus
      ensures NoDuplicateUids(old(storedEggs)) ==> NoDuplicateUids(storedEggs)
    {
      if result.outcome == WinOutcome {
        ApplyWin(result.winAmount, result.bonus, egg, now);
      } else if result.outcome == LoseOutcome {
        ApplyLose(egg, now);
      } else {
        lastBonus := false;
      }
      RenderPlay();
    }

    /**
     * `showResult` as one atomic step: find the result egg, record the
     * balance, apply the branch for the outcome (whose whole effect the
     * `Apply` method of that branch states), and unlock. An outcome other than
     * stored, cashout, win or lose (the server's `'redeemed'` among them) only
     * clears the bonus flag.
     */
    method ShowResult(result: ActionResult, now: int)
      modifies this, Pool(activeSource)
      ensures !isLocked
      ensures balance == if result.balance.Some? then result.balance else old(balance)
      ensures NoDuplicateUids(old(storedEggs)) ==> NoDuplicateUids(storedEggs)
      ensures result.outcome == CashoutOutcome || result.outcome == LoseOutcome ==>
        !Truthy(activeEggUid) && !isCracked && !lastBonus
    {
      var egg := ResultEgg(result);
      if result.balance.Some? {
        balance := result.balance;
      }
      if result.outcome == StoredOutcome {
        ApplyStored();
      } else if result.outcome == CashoutOutcome {
        ApplyCashout(egg, now);
      } else {
        ApplyCrackOrOther(result, egg, now);
      }
      isLocked := false;
    }

    /**
     * The Confirm button of the result modal: a lose clears the active egg; a
     * win that used the last try marks the egg maxed and clears the active egg.
     */
    method ConfirmResult(didWin: bool, egg: Egg?)
      modifies this, if egg == null then {} else {egg}
      ensures var maxedOut := didWin && egg != null && old(egg.tries) >= maxCracks;
        && (egg != null ==> egg.isMaxed == (old(egg.isMaxed) || maxedOut))
        && State() == old(State()).(isCracked := false, lastBonus := false,
                                    activeEggUid := if !didWin || maxedOut then None else old(activeEggUid))
      ensures egg != null ==> egg.tries == old(egg.tries) && egg.bet == old(egg.bet)
                              && egg.lastWinAmount == old(egg.lastWinAmount)
                              && egg.lastCrackLevel == old(egg.lastCrackLevel)
    {
      isCracked := false;
      lastBonus := false;
      if !didWin {
        activeEggUid := None;
      }
      if didWin && egg != null && egg.tries >= maxCracks {
        egg.isMaxed := true;
        activeEggUid := None;
      }
      RenderPlay();
    }

    // -------------------------------------------------------------------------
    // Configuration

    /** `_initTabEggs`: empty the bought pool and return to the gold tab with nothing active. */
    method InitTabEggs()
      modifies this
      ensures State() == old(State()).(boughtEggs := [], activeTabId := "gold",
                                       activeEggUid := None, activeSource := Bought)
    {
      boughtEggs := [];
      activeTabId := "gold";
      activeEggUid := None;
      activeSource := Bought;
    }

    /**
     * `setConfig`: reset the tab state, keep a non-empty configured currency,
     * and take a configured storage cap, else 3. The stored pool is kept.
     */
    method SetConfig(config: Config)
      modifies this
      ensures State() == old(State()).(
        boughtEggs := [], activeTabId := "gold", activeEggUid := None, activeSource := Bought,
        currency := if Truthy(config.currency) then config.currency.value else old(currency),
        maxStored := config.maxStored.GetOr(3),
        isCracked := false, lastBonus := false)
    {
      InitTabEggs();
      currency := if Truthy(config.currency) then config.currency.value else currency;
      maxStored := if config.maxStored.Some? then config.maxStored.value else 3;
      RenderPlay();
    }
  }
}
