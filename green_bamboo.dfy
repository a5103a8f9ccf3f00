/**
 * "Green Bamboo Music" (main_2.py): the Game class and its key mapping.
 *
 * The state of one Game object is the class below; `Snapshot` is the same
 * state as a value, and each method of the class is specified by a pure
 * transition on snapshots (`Setup`, `Tap`, `Resolve`, `Hint`, `Expire`, ...).
 * `Inv` is the invariant every method keeps; the lemmas prove that each
 * transition keeps it.
 */
module GreenBamboo {
  import opened Board

  const NOTES: seq<Note> := [
    "A2", "A3", "A4", "A5", "B2", "B3", "B4", "B5", "C2", "C3", "C4", "C5", "C6",
    "D2", "D3", "D4", "D5", "E2", "E3", "E4", "E5", "F2", "F3", "F4", "F5",
    "G2", "G3", "G4", "G5"
  ]

  const WIDTH := 800
  const HEIGHT := 600
  const CARD_MARGIN := 10
  /** All cards use the enlarged 90 x 90 picture. */
  const CARD_SIZE := 90
  const SPACING := CARD_SIZE + CARD_MARGIN

  const WAIT_DURATION := 1000
  const MESSAGE_DURATION := 1000
  const HINT_DURATION := 3000
  const HINTS_PER_GAME := 5

  /** The grid sizes of the "10 Pairs" and "20 Pairs" buttons. */
  const SMALL_GRID := 20
  const LARGE_GRID := 40

  // ---------------------------------------------------------------------
  // Deck

  function Rows(gridSize: int): int
  {
    if gridSize == 20 then 4 else 5
  }

  /** `grid_size // rows`; Python's floor division and Dafny's `/` agree for a positive divisor. */
  function Cols(gridSize: int): int
  {
    gridSize / Rows(gridSize)
  }

  /** `(extent - (count * card_spacing - CARD_MARGIN)) // 2`: the first cell's pixel. */
  function Origin(extent: int, count: int): int
  {
    (extent - (count * SPACING - CARD_MARGIN)) / 2
  }

  /** The cards setup_game builds from the random deal for `gridSize`. */
  function Dealt(gridSize: int, deal: Deal): seq<Card>
  {
    var rows, cols := Rows(gridSize), Cols(gridSize);
    Layout(deal.shuffled, rows, cols, Origin(WIDTH, cols), Origin(HEIGHT, rows), SPACING)
  }

  /** `deal` is what `random.sample(NOTES, grid_size // 2)` and `random.shuffle` can produce. */
  predicate DealFits(deal: Deal, gridSize: int)
  {
    IsDealOf(deal, NOTES, gridSize / 2)
  }

  /** The random deal a setup needs, if the selection (`mode`, `gridSize`) starts one. */
  predicate Fits(deal: Deal, mode: Option<Mode>, gridSize: Option<int>)
  {
    Ready(mode, gridSize) ==> DealFits(deal, gridSize.value)
  }

  /**
   * Both menu grid sizes fill their grid exactly: 20 cards in 4 rows of 5 or
   * 40 cards in 5 rows of 8, each sampled note exactly twice, all face down.
   * This holds whatever list of notes the pairs are sampled from.
   */
  lemma PresetDeck(gridSize: int, deal: Deal, pool: seq<Note>)
    requires gridSize == SMALL_GRID || gridSize == LARGE_GRID
    requires IsDealOf(deal, pool, gridSize / 2)
    ensures |Dealt(gridSize, deal)| == gridSize
    ensures forall n :: multiset(NotesOf(Dealt(gridSize, deal)))[n] == if n in deal.selected then 2 else 0
    ensures forall k :: 0 <= k < gridSize ==>
      !Dealt(gridSize, deal)[k].isFlipped && !Dealt(gridSize, deal)[k].isMatched && !Dealt(gridSize, deal)[k].isHint
  {
    var rows, cols := Rows(gridSize), Cols(gridSize);
    var dealt := Dealt(gridSize, deal);
    PairedNotes(deal, pool, gridSize / 2, "");
    assert Cells(rows, cols) == gridSize;
    LayoutKeepsNotes(deal.shuffled, rows, cols, Origin(WIDTH, cols), Origin(HEIGHT, rows), SPACING);
    assert NotesOf(dealt) == deal.shuffled;
    forall n ensures multiset(NotesOf(dealt))[n] == if n in deal.selected then 2 else 0 {
      PairedNotes(deal, pool, gridSize / 2, n);
    }
  }

  // ---------------------------------------------------------------------
  // Game state

  /**
   * A reference to a card object: the index into `cards` and the setup that
   * built that list. setup_game replaces the list but not `hint_card`, which
   * then refers to a card that is no longer on the table.
   */
  datatype CardRef = CardRef(deck: nat, index: nat)

  /** The fields of a Game object, as a value. `deck` counts the calls of setup_game. */
  datatype Snapshot = Snapshot(
    state: Screen, mode: Option<Mode>, gridSize: Option<int>,
    cards: seq<Card>, flipped: seq<nat>,
    currentPlayer: int, scores: map<int, int>,
    waiting: bool, waitStartTime: int,
    message: string, messageTimer: int,
    hintsRemaining: int, hintTimer: int, hintCard: Option<CardRef>,
    deck: nat)

  /**
   * What holds of a game between events, except possibly right after the
   * second card of a turn is flipped and before check_match has run.
   */
  ghost predicate Consistent(v: Snapshot)
  {
    && (v.currentPlayer == 1 || v.currentPlayer == 2)
    && v.scores.Keys == {1, 2} && v.scores[1] >= 0 && v.scores[2] >= 0
    && v.hintsRemaining >= 0
    // flipped_cards holds at most two distinct cards: exactly the face-up unmatched ones
    && |v.flipped| <= 2
    && (|v.flipped| >= 1 ==> v.flipped[0] < |v.cards|)
    && (|v.flipped| == 2 ==> v.flipped[1] < |v.cards| && v.flipped[0] != v.flipped[1])
    && (forall k :: 0 <= k < |v.cards| ==> (v.cards[k].isFlipped && !v.cards[k].isMatched <==> k in v.flipped))
    && (v.state != Menu ==> v.mode.Some? && v.gridSize.Some?)
    // every point scored is one matched pair
    && 2 * (v.scores[1] + v.scores[2]) == MatchedCount(v.cards)
    // game over exactly when the whole deck is matched
    && (v.state == GameOver ==> AllMatched(v.cards))
    && (v.state == Playing && v.cards != [] ==> !AllMatched(v.cards))
    // a single player never hands the turn over
    && (v.state != Menu && v.mode == Some(Single) ==> v.currentPlayer == 1 && v.scores[2] == 0)
    && (v.hintCard.Some? ==> v.hintCard.value.deck <= v.deck)
    && (v.hintCard.Some? && v.hintCard.value.deck == v.deck ==> v.hintCard.value.index < |v.cards|)
  }

  /** The game invariant: also, a second flipped card has been resolved into a wait. */
  ghost predicate Inv(v: Snapshot)
  {
    Consistent(v) && (|v.flipped| == 2 ==> v.waiting)
  }

  /** The state `Game()` starts in. */
  function Initial(): Snapshot
  {
    Snapshot(Menu, None, None, [], [], 1, map[1 := 0, 2 := 0], false, 0, "", 0, HINTS_PER_GAME, 0, None, 0)
  }

  lemma InitialInv()
    ensures Inv(Initial())
  {
  }

  // ---------------------------------------------------------------------
  // Menu selections and setup

  /**
   * setup_game: a fresh deal, scores 0:0, player 1, five hints, 'playing'.
   * It leaves `waiting`, `message` and `hint_card` (and their timers) as they were.
   */
  function Setup(v: Snapshot, m: Mode, gridSize: int, deal: Deal): (r: Snapshot)
    ensures r.state == Playing && r.mode == Some(m) && r.gridSize == Some(gridSize)
    ensures r.flipped == [] && r.scores == map[1 := 0, 2 := 0] && r.currentPlayer == 1
    ensures r.hintsRemaining == HINTS_PER_GAME
    ensures r.cards == Dealt(gridSize, deal) && r.deck == v.deck + 1
    ensures r.waiting == v.waiting && r.message == v.message && r.hintCard == v.hintCard
    ensures r.waitStartTime == v.waitStartTime && r.messageTimer == v.messageTimer && r.hintTimer == v.hintTimer
  {
    v.(mode := Some(m), gridSize := Some(gridSize), cards := Dealt(gridSize, deal), flipped := [],
       scores := map[1 := 0, 2 := 0], currentPlayer := 1, hintsRemaining := HINTS_PER_GAME,
       state := Playing, deck := v.deck + 1)
  }

  lemma SetupInv(v: Snapshot, m: Mode, gridSize: int, deal: Deal)
    requires Inv(v)
    ensures Inv(Setup(v, m, gridSize, deal))
  {
    var r := Setup(v, m, gridSize, deal);
    MatchedCountNone(r.cards);
    assert r.cards != [] ==> !r.cards[0].isMatched;
  }

  /** set_mode: record the mode, and start a game once a grid size is chosen too. */
  function SelectMode(v: Snapshot, m: Mode, deal: Deal): (r: Snapshot)
    requires v.state == Menu
    ensures r.mode == Some(m) && r.gridSize == v.gridSize
    ensures r.state == Playing <==> Ready(Some(m), v.gridSize)
    ensures !Ready(Some(m), v.gridSize) ==> r == v.(mode := Some(m))
    ensures Ready(Some(m), v.gridSize) ==> r == Setup(v.(mode := Some(m)), m, v.gridSize.value, deal)
  {
    var u := v.(mode := Some(m));
    if Ready(u.mode, u.gridSize) then Setup(u, m, u.gridSize.value, deal) else u
  }

  /** set_grid_size: record the size, and start a game once a mode is chosen too. */
  function SelectGridSize(v: Snapshot, size: int, deal: Deal): (r: Snapshot)
    requires v.state == Menu
    ensures r.gridSize == Some(size) && r.mode == v.mode
    ensures r.state == Playing <==> Ready(v.mode, Some(size))
    ensures !Ready(v.mode, Some(size)) ==> r == v.(gridSize := Some(size))
    ensures Ready(v.mode, Some(size)) ==> r == Setup(v.(gridSize := Some(size)), v.mode.value, size, deal)
  {
    var u := v.(gridSize := Some(size));
    if Ready(u.mode, u.gridSize) then Setup(u, u.mode.value, size, deal) else u
  }

  lemma SelectModeInv(v: Snapshot, m: Mode, deal: Deal)
    requires Inv(v) && v.state == Menu
    ensures Inv(SelectMode(v, m, deal))
  {
    var u := v.(mode := Some(m));
    assert Inv(u);
    if Ready(u.mode, u.gridSize) {
      SetupInv(u, m, u.gridSize.value, deal);
    }
  }

  lemma SelectGridSizeInv(v: Snapshot, size: int, deal: Deal)
    requires Inv(v) && v.state == Menu
    ensures Inv(SelectGridSize(v, size, deal))
  {
    var u := v.(gridSize := Some(size));
    assert Inv(u);
    if Ready(u.mode, u.gridSize) {
      SetupInv(u, u.mode.value, size, deal);
    }
  }

  /** back_to_menu: the menu again, with neither mode nor grid size chosen. */
  function Back(v: Snapshot): (r: Snapshot)
    ensures r.state == Menu && r.mode == None && r.gridSize == None
    ensures r.cards == v.cards && r.flipped == v.flipped && r.scores == v.scores && r.currentPlayer == v.currentPlayer
    ensures r.waiting == v.waiting && r.waitStartTime == v.waitStartTime
    ensures r.message == v.message && r.hintCard == v.hintCard && r.hintsRemaining == v.hintsRemaining
    ensures r.(state := v.state, mode := v.mode, gridSize := v.gridSize) == v
  {
    v.(state := Menu, mode := None, gridSize := None)
  }

  lemma BackInv(v: Snapshot)
    requires Inv(v)
    ensures Inv(Back(v))
  {
  }

  /** restart_game: setup_game again with the current mode and grid size. */
  function Restart(v: Snapshot, deal: Deal): Snapshot
    requires v.mode.Some? && v.gridSize.Some?
  {
    Setup(v, v.mode.value, v.gridSize.value, deal)
  }

  // ---------------------------------------------------------------------
  // Flipping a card and resolving the pair

  /** A press on card `k` flips it: playing, not waiting, fewer than two up, and card k face down and unmatched. */
  predicate CanFlip(v: Snapshot, k: int)
  {
    && v.state == Playing && !v.waiting && |v.flipped| < 2
    && 0 <= k < |v.cards| && !v.cards[k].isFlipped && !v.cards[k].isMatched
  }

  /** `card.is_flipped = True; self.flipped_cards.append(card)`. */
  function TurnUp(v: Snapshot, k: int): Snapshot
    requires 0 <= k < |v.cards|
  {
    v.(cards := v.cards[k := v.cards[k].(isFlipped := true)], flipped := v.flipped + [k])
  }

  /** The two flipped cards show the same note. */
  predicate IsPair(v: Snapshot)
    requires |v.flipped| == 2 && v.flipped[0] < |v.cards| && v.flipped[1] < |v.cards|
  {
    v.cards[v.flipped[0]].note == v.cards[v.flipped[1]].note
  }

  /**
   * check_match: a pair is matched and scores one point for the player on turn,
   * ending the game if it was the last; a mismatch starts the wait.
   */
  function Resolve(v: Snapshot, now: int): (r: Snapshot)
    requires |v.flipped| == 2 && v.flipped[0] < |v.cards| && v.flipped[1] < |v.cards|
    requires v.currentPlayer in v.scores && v.state == Playing
    ensures IsPair(v) ==>
      && |r.cards| == |v.cards|
      && r.cards[v.flipped[0]] == v.cards[v.flipped[0]].(isMatched := true)
      && r.cards[v.flipped[1]] == v.cards[v.flipped[1]].(isMatched := true)
      && (forall j :: 0 <= j < |v.cards| && j != v.flipped[0] && j != v.flipped[1] ==> r.cards[j] == v.cards[j])
      && r.scores == v.scores[v.currentPlayer := v.scores[v.currentPlayer] + 1]
      && r.currentPlayer == v.currentPlayer && r.flipped == [] && r.waiting == v.waiting
      && r.message == "Match!" && r.messageTimer == now
      && (r.state == GameOver <==> AllMatched(r.cards)) && (r.state != GameOver ==> r.state == Playing)
    ensures IsPair(v) ==>
      r.(cards := v.cards, scores := v.scores, flipped := v.flipped, message := v.message,
         messageTimer := v.messageTimer, state := v.state) == v
    ensures !IsPair(v) ==>
      && r.cards == v.cards && r.scores == v.scores && r.currentPlayer == v.currentPlayer
      && r.flipped == v.flipped && r.waiting && r.waitStartTime == now
      && r.message == "No Match!" && r.messageTimer == now && r.state == v.state
    ensures !IsPair(v) ==>
      r.(waiting := v.waiting, waitStartTime := v.waitStartTime, message := v.message, messageTimer := v.messageTimer) == v
  {
    var a, b := v.flipped[0], v.flipped[1];
    if v.cards[a].note == v.cards[b].note then
      var cards := v.cards[a := v.cards[a].(isMatched := true)][b := v.cards[b].(isMatched := true)];
      v.(cards := cards, scores := v.scores[v.currentPlayer := v.scores[v.currentPlayer] + 1], flipped := [],
         message := "Match!", messageTimer := now, state := if AllMatched(cards) then GameOver else Playing)
    else
      v.(waiting := true, waitStartTime := now, message := "No Match!", messageTimer := now)
  }

  /**
   * The card part of handle_click while playing: a press on card `k` flips it
   * if it can, and the second card of a turn is resolved at once. A press that
   * cannot flip changes nothing.
   */
  function Tap(v: Snapshot, k: int, now: int): (r: Snapshot)
    requires Inv(v) && v.state == Playing
    ensures !CanFlip(v, k) ==> r == v
    ensures CanFlip(v, k) ==> 0 <= k < |r.cards| && r.cards[k].isFlipped
    ensures CanFlip(v, k) && v.flipped == [] ==> r.flipped == [k] && r.scores == v.scores && r == TurnUp(v, k)
    ensures CanFlip(v, k) && |v.flipped| == 1 ==> r == Resolve(TurnUp(v, k), now)
  {
    if CanFlip(v, k) then
      var u := TurnUp(v, k);
      if |u.flipped| == 2 then Resolve(u, now) else u
    else v
  }

  /** The note a press plays: `NOTE_SOUNDS[card.note].play()` when the card flips. */
  function Tone(v: Snapshot, k: int): (t: Option<Note>)
    ensures t.Some? <==> CanFlip(v, k)
    ensures t.Some? ==> t.value == v.cards[k].note
  {
    if CanFlip(v, k) then Some(v.cards[k].note) else None
  }

  lemma ResolveInv(v: Snapshot, now: int)
    requires Consistent(v) && |v.flipped| == 2 && v.state == Playing
    ensures Inv(Resolve(v, now))
  {
    if IsPair(v) {
      MatchPairInv(v, now);
    }
  }

  /** A matched pair leaves no card flipped and scores exactly the two newly matched cards. */
  lemma MatchPairInv(v: Snapshot, now: int)
    requires Consistent(v) && |v.flipped| == 2 && v.state == Playing && IsPair(v)
    ensures Inv(Resolve(v, now))
  {
    var r := Resolve(v, now);
    var a, b := v.flipped[0], v.flipped[1];
    assert !v.cards[a].isMatched && !v.cards[b].isMatched;
    var c1 := v.cards[a := v.cards[a].(isMatched := true)];
    MatchedCountSet(v.cards, a, v.cards[a].(isMatched := true));
    MatchedCountSet(c1, b, c1[b].(isMatched := true));
    assert r.cards == c1[b := c1[b].(isMatched := true)];
    forall k | 0 <= k < |r.cards|
      ensures !(r.cards[k].isFlipped && !r.cards[k].isMatched)
    {
      if k != a && k != b {
        assert r.cards[k] == v.cards[k] && k !in v.flipped;
      }
    }
  }

  /** Flipping a card keeps everything but the resolved-wait part of the invariant. */
  lemma TurnUpConsistent(v: Snapshot, k: int)
    requires Inv(v) && CanFlip(v, k)
    ensures Consistent(TurnUp(v, k))
    ensures Inv(TurnUp(v, k)) || |TurnUp(v, k).flipped| == 2
  {
    var u := TurnUp(v, k);
    assert !u.cards[k].isMatched;
    MatchedCountSet(v.cards, k, v.cards[k].(isFlipped := true));
    assert forall j :: 0 <= j < |u.cards| && j != k ==> u.cards[j] == v.cards[j];
  }

  lemma TapInv(v: Snapshot, k: int, now: int)
    requires Inv(v) && v.state == Playing
    ensures Inv(Tap(v, k, now))
  {
    if CanFlip(v, k) {
      TurnUpConsistent(v, k);
      var u := TurnUp(v, k);
      if |u.flipped| == 2 {
        ResolveInv(u, now);
      }
    }
  }

  // ---------------------------------------------------------------------
  // Hints

  /** Card `k` can serve as the hint for the flipped card `sel`: same note, another card, unmatched. */
  predicate IsPartner(cards: seq<Card>, sel: int, k: int)
    requires 0 <= sel < |cards| && 0 <= k < |cards|
  {
    cards[k].note == cards[sel].note && k != sel && !cards[k].isMatched
  }

  /** The first card from index `from` on that can serve as the hint for `sel`. */
  function PartnerFrom(cards: seq<Card>, sel: int, from: nat): (r: Option<nat>)
    requires 0 <= sel < |cards|
    decreases |cards| - from
    ensures r.Some? ==> from <= r.value < |cards| && IsPartner(cards, sel, r.value)
    ensures forall k :: from <= k < |cards| && (r.None? || k < r.value) ==> !IsPartner(cards, sel, k)
  {
    if from >= |cards| then None
    else if IsPartner(cards, sel, from) then Some(from)
    else PartnerFrom(cards, sel, from + 1)
  }

  /** The scan of use_hint: the first card that can serve as the hint for `sel`, if any. */
  method FindPartner(cards: seq<Card>, sel: nat) returns (r: Option<nat>)
    requires sel < |cards|
    ensures r == PartnerFrom(cards, sel, 0)
  {
    r := None;
    for i := 0 to |cards|
      invariant r == None
      invariant PartnerFrom(cards, sel, 0) == PartnerFrom(cards, sel, i)
    {
      if cards[i].note == cards[sel].note && i != sel && !cards[i].isMatched {
        r := Some(i);
        break;
      }
    }
  }

  /**
   * use_hint: with hints left and exactly one card flipped, mark the first
   * unmatched card with the same note as hinted and spend one hint. An earlier
   * hinted card keeps its mark.
   */
  function Hint(v: Snapshot, now: int): (r: Snapshot)
    requires Consistent(v)
    ensures !(v.hintsRemaining > 0 && |v.flipped| == 1) ==> r == v
    ensures r.hintsRemaining == v.hintsRemaining ==> r == v
    ensures r.hintsRemaining != v.hintsRemaining <==>
      v.hintsRemaining > 0 && |v.flipped| == 1 && PartnerFrom(v.cards, v.flipped[0], 0).Some?
    ensures r.hintsRemaining != v.hintsRemaining ==>
      r.hintCard == Some(CardRef(v.deck, PartnerFrom(v.cards, v.flipped[0], 0).value))
    ensures r.hintsRemaining != v.hintsRemaining ==>
      && v.hintsRemaining > 0 && |v.flipped| == 1
      && r.hintsRemaining == v.hintsRemaining - 1
      && r.hintCard.Some? && r.hintCard.value.deck == v.deck && r.hintTimer == now
      && var k := r.hintCard.value.index;
         && k < |v.cards| && IsPartner(v.cards, v.flipped[0], k)
         && (forall j :: 0 <= j < k ==> !IsPartner(v.cards, v.flipped[0], j))
         && r.cards == v.cards[k := v.cards[k].(isHint := true)]
    ensures r.(cards := v.cards, hintCard := v.hintCard, hintTimer := v.hintTimer, hintsRemaining := v.hintsRemaining) == v
  {
    if v.hintsRemaining > 0 && |v.flipped| == 1 then
      match PartnerFrom(v.cards, v.flipped[0], 0)
      case None => v
      case Some(k) =>
        v.(cards := v.cards[k := v.cards[k].(isHint := true)], hintCard := Some(CardRef(v.deck, k)),
           hintTimer := now, hintsRemaining := v.hintsRemaining - 1)
    else v
  }

  lemma HintInv(v: Snapshot, now: int)
    requires Inv(v)
    ensures Inv(Hint(v, now))
  {
    var r := Hint(v, now);
    if r != v {
      var k := r.hintCard.value.index;
      MatchedCountSet(v.cards, k, v.cards[k].(isHint := true));
      assert forall j :: 0 <= j < |r.cards| ==>
        r.cards[j].isFlipped == v.cards[j].isFlipped && r.cards[j].isMatched == v.cards[j].isMatched;
      MatchedCountSameFlags(r.cards, v.cards);
    }
  }

  // ---------------------------------------------------------------------
  // The per-frame update

  /** More than the mismatch wait has passed since the wait began. */
  predicate WaitOver(v: Snapshot, now: int)
  {
    v.waiting && now - v.waitStartTime > WAIT_DURATION
  }

  predicate MessageOver(v: Snapshot, now: int)
  {
    v.message != "" && now - v.messageTimer > MESSAGE_DURATION
  }

  predicate HintOver(v: Snapshot, now: int)
  {
    v.hintCard.Some? && now - v.hintTimer > HINT_DURATION
  }

  /** The first step of update: when the wait is over, the pair turns back and the turn may pass. */
  function EndWait(v: Snapshot, now: int): (r: Snapshot)
    requires Consistent(v)
    ensures !WaitOver(v, now) ==> r == v
    ensures WaitOver(v, now) ==>
      && !r.waiting && r.flipped == []
      && (forall k :: 0 <= k < |r.cards| ==> !r.cards[k].isFlipped || r.cards[k].isMatched)
      && r.currentPlayer == if v.mode == Some(Multi) then Other(v.currentPlayer) else v.currentPlayer
    ensures r.state == v.state && r.scores == v.scores && r.hintsRemaining == v.hintsRemaining
    ensures r.message == v.message && r.messageTimer == v.messageTimer
    ensures r.hintCard == v.hintCard && r.hintTimer == v.hintTimer && r.deck == v.deck
    ensures r.mode == v.mode && r.gridSize == v.gridSize
    ensures |r.cards| == |v.cards|
    ensures forall k :: 0 <= k < |v.cards| ==>
      && r.cards[k].note == v.cards[k].note && r.cards[k].isMatched == v.cards[k].isMatched
      && r.cards[k].isHint == v.cards[k].isHint
    // only the cards of the pair turn back; nothing else about any card changes
    ensures forall k :: 0 <= k < |v.cards| ==>
      r.cards[k] == if WaitOver(v, now) && k in v.flipped then v.cards[k].(isFlipped := false) else v.cards[k]
    ensures r.(cards := v.cards, flipped := v.flipped, waiting := v.waiting, currentPlayer := v.currentPlayer) == v
  {
    if WaitOver(v, now) then
      v.(cards := Unflipped(v.cards, v.flipped), flipped := [], waiting := false,
         currentPlayer := if v.mode == Some(Multi) then Other(v.currentPlayer) else v.currentPlayer)
    else v
  }

  /** The second step of update: the message disappears once its second is over. */
  function ClearMessage(v: Snapshot, now: int): (r: Snapshot)
    ensures r.message == (if MessageOver(v, now) then "" else v.message)
    ensures r.(message := v.message) == v
  {
    if MessageOver(v, now) then v.(message := "") else v
  }

  /**
   * The third step of update: once the hint's time is over the hinted card loses
   * its mark (which shows only if it is still on the table) and the hint is forgotten.
   */
  function ClearHint(v: Snapshot, now: int): (r: Snapshot)
    requires v.hintCard.Some? && v.hintCard.value.deck == v.deck ==> v.hintCard.value.index < |v.cards|
    ensures r.hintCard == if HintOver(v, now) then None else v.hintCard
    ensures r.(cards := v.cards, hintCard := v.hintCard) == v
    ensures HintOver(v, now) && v.hintCard.value.deck == v.deck ==>
      var i := v.hintCard.value.index; r.cards == v.cards[i := v.cards[i].(isHint := false)]
    ensures !(HintOver(v, now) && v.hintCard.value.deck == v.deck) ==> r.cards == v.cards
    ensures |r.cards| == |v.cards|
    ensures forall k :: 0 <= k < |v.cards| ==>
      && r.cards[k].note == v.cards[k].note && r.cards[k].isMatched == v.cards[k].isMatched
      && r.cards[k].isFlipped == v.cards[k].isFlipped
  {
    if HintOver(v, now) then
      var ref := v.hintCard.value;
      v.(cards := if ref.deck == v.deck then v.cards[ref.index := v.cards[ref.index].(isHint := false)] else v.cards,
         hintCard := None)
    else v
  }

  /**
   * update: each of the three deadlines expires only once strictly more than
   * its duration has passed. The end of the wait turns the pair back and, in
   * multiplayer only, hands the turn over; the hinted card loses its mark if it
   * is still on the table.
   */
  function Expire(v: Snapshot, now: int): (r: Snapshot)
    requires Consistent(v)
    ensures r.waiting == (v.waiting && !WaitOver(v, now))
    ensures WaitOver(v, now) ==>
      && r.flipped == []
      && (forall k :: 0 <= k < |r.cards| ==> !r.cards[k].isFlipped || r.cards[k].isMatched)
      && r.currentPlayer == if v.mode == Some(Multi) then Other(v.currentPlayer) else v.currentPlayer
    ensures !WaitOver(v, now) ==> r.flipped == v.flipped && r.currentPlayer == v.currentPlayer
    ensures r.message == if MessageOver(v, now) then "" else v.message
    ensures r.hintCard == if HintOver(v, now) then None else v.hintCard
    ensures r.state == v.state && r.scores == v.scores && r.hintsRemaining == v.hintsRemaining
    ensures |r.cards| == |v.cards|
    ensures forall k :: 0 <= k < |v.cards| ==>
      r.cards[k].note == v.cards[k].note && r.cards[k].isMatched == v.cards[k].isMatched
    // only the card the expired hint refers to, if it is still on the table, loses its mark
    ensures forall k :: 0 <= k < |v.cards| ==>
      r.cards[k].isHint ==
        (v.cards[k].isHint && !(HintOver(v, now) && v.hintCard.value.deck == v.deck && k == v.hintCard.value.index))
    ensures !WaitOver(v, now) ==> forall k :: 0 <= k < |v.cards| ==> r.cards[k].isFlipped == v.cards[k].isFlipped
    // apart from the hint mark, only the cards of an ended wait change, and only by turning back
    ensures forall k :: 0 <= k < |v.cards| ==>
      r.cards[k].(isHint := v.cards[k].isHint)
        == if WaitOver(v, now) && k in v.flipped then v.cards[k].(isFlipped := false) else v.cards[k]
    // update touches no timer, the mode, the grid size or the deck count
    ensures r.(cards := v.cards, flipped := v.flipped, waiting := v.waiting, currentPlayer := v.currentPlayer,
               message := v.message, hintCard := v.hintCard) == v
  {
    var ended := EndWait(v, now);
    var cleared := ClearMessage(ended, now);
    assert cleared.cards == ended.cards && cleared.hintCard == v.hintCard && cleared.deck == v.deck;
    ClearHint(cleared, now)
  }

  lemma ExpireInv(v: Snapshot, now: int)
    requires Inv(v)
    ensures Inv(Expire(v, now))
  {
    EndWaitInv(v, now);
    var v2 := ClearMessage(EndWait(v, now), now);
    assert Inv(v2);
    ClearHintInv(v2, now);
  }

  lemma EndWaitInv(v: Snapshot, now: int)
    requires Inv(v)
    ensures Inv(EndWait(v, now))
  {
    var r := EndWait(v, now);
    MatchedCountSameFlags(r.cards, v.cards);
  }

  lemma ClearHintInv(v: Snapshot, now: int)
    requires Inv(v)
    ensures Inv(ClearHint(v, now))
  {
    var r := ClearHint(v, now);
    MatchedCountSameFlags(r.cards, v.cards);
  }

  // ---------------------------------------------------------------------
  // Input routing

  /** The buttons of the three screens, Exit left aside. */
  datatype Button = SinglePlayer | Multiplayer | TenPairs | TwentyPairs | HintButton | BackButton | PlayAgain

  /** A mouse press, on a button or on the card with the given index (any other index is a press on no card). */
  datatype Click = Press(button: Button) | Touch(card: int)

  datatype Key = Key1 | Key2 | Key3 | Key4 | KeyR | OtherKey

  /** handle_click: the buttons of the current screen, and cards while playing. */
  function OnClick(v: Snapshot, c: Click, now: int, deal: Deal): Snapshot
    requires Inv(v)
  {
    match v.state
    case Menu =>
      (match c
       case Press(SinglePlayer) => SelectMode(v, Single, deal)
       case Press(Multiplayer) => SelectMode(v, Multi, deal)
       case Press(TenPairs) => SelectGridSize(v, SMALL_GRID, deal)
       case Press(TwentyPairs) => SelectGridSize(v, LARGE_GRID, deal)
       case _ => v)
    case Playing =>
      (match c
       case Press(HintButton) => Hint(v, now)
       case Press(BackButton) => Back(v)
       case Touch(k) => Tap(v, k, now)
       case _ => v)
    case GameOver =>
      if c == Press(PlayAgain) then Restart(v, deal) else v
  }

  /** The key mapping of `main`: 1-4 choose mode and size in the menu, R restarts after a game. */
  function OnKey(v: Snapshot, key: Key, deal: Deal): Snapshot
    requires Inv(v)
  {
    match v.state
    case Menu =>
      (match key
       case Key1 => SelectMode(v, Single, deal)
       case Key2 => SelectMode(v, Multi, deal)
       case Key3 => SelectGridSize(v, SMALL_GRID, deal)
       case Key4 => SelectGridSize(v, LARGE_GRID, deal)
       case _ => v)
    case Playing => v
    case GameOver =>
      if key == KeyR then Restart(v, deal) else v
  }

  /** `deal` fits every setup that the press `c` would start. */
  predicate ClickDeal(v: Snapshot, c: Click, deal: Deal)
  {
    match v.state
    case Menu =>
      && (c == Press(SinglePlayer) ==> Fits(deal, Some(Single), v.gridSize))
      && (c == Press(Multiplayer) ==> Fits(deal, Some(Multi), v.gridSize))
      && (c == Press(TenPairs) ==> Fits(deal, v.mode, Some(SMALL_GRID)))
      && (c == Press(TwentyPairs) ==> Fits(deal, v.mode, Some(LARGE_GRID)))
    case Playing => true
    case GameOver => c == Press(PlayAgain) ==> v.gridSize.Some? && DealFits(deal, v.gridSize.value)
  }

  /** `deal` fits every setup that the key `key` would start. */
  predicate KeyDeal(v: Snapshot, key: Key, deal: Deal)
  {
    match v.state
    case Menu =>
      && (key == Key1 ==> Fits(deal, Some(Single), v.gridSize))
      && (key == Key2 ==> Fits(deal, Some(Multi), v.gridSize))
      && (key == Key3 ==> Fits(deal, v.mode, Some(SMALL_GRID)))
      && (key == Key4 ==> Fits(deal, v.mode, Some(LARGE_GRID)))
    case Playing => true
    case GameOver => key == KeyR ==> v.gridSize.Some? && DealFits(deal, v.gridSize.value)
  }

  // ---------------------------------------------------------------------
  // Properties over several calls

  /** After back_to_menu a single selection, of either kind, does not start a game. */
  lemma BackNeedsTwoSelections(v: Snapshot, m: Mode, size: int, deal: Deal)
    ensures SelectMode(Back(v), m, deal).state == Menu
    ensures SelectGridSize(Back(v), size, deal).state == Menu
  {
  }

  /**
   * A mismatch wait pending when Back is pressed is still pending in the game
   * the next two menu choices start, since neither back_to_menu nor
   * setup_game clears `waiting`.
   */
  lemma WaitSurvivesBack(v: Snapshot, m: Mode, size: int, deal: Deal)
    requires v.waiting && size != 0
    ensures SelectGridSize(SelectMode(Back(v), m, deal), size, deal).state == Playing
    ensures SelectGridSize(SelectMode(Back(v), m, deal), size, deal).waiting
  {
  }

  /**
   * At the end of a game the two scores add up to the number of pairs, and a
   * single player's score is all of them.
   */
  lemma FinalTally(v: Snapshot)
    requires Inv(v) && v.state == GameOver
    ensures 2 * (v.scores[1] + v.scores[2]) == |v.cards|
    ensures v.mode == Some(Single) ==> Announce(v.mode, v.scores[1], v.scores[2]) == Score(|v.cards| / 2)
  {
    MatchedCountFull(v.cards);
  }

  // ---------------------------------------------------------------------
  // The Game object

  class Game {
    var state: Screen
    var mode: Option<Mode>
    var gridSize: Option<int>
    var cards: seq<Card>
    var flipped: seq<nat>
    var currentPlayer: int
    var scores: map<int, int>
    var waiting: bool
    var waitStartTime: int
    var message: string
    var messageTimer: int
    var hintsRemaining: int
    var hintTimer: int
    var hintCard: Option<CardRef>
    var deck: nat

    /** The object's fields as a value. */
    function View(): Snapshot
      reads this
    {
      Snapshot(state, mode, gridSize, cards, flipped, currentPlayer, scores, waiting, waitStartTime,
               message, messageTimer, hintsRemaining, hintTimer, hintCard, deck)
    }

    ghost predicate Valid()
      reads this
    {
      Inv(View())
    }

    /** The object is valid when its fields hold a snapshot that keeps the invariant. */
    lemma ValidWhen(r: Snapshot)
      requires Inv(r) && View() == r
      ensures Valid()
    {
    }

    constructor()
      ensures Valid() && View() == Initial()
    {
      state := Menu;
      mode := None;
      gridSize := None;
      cards := [];
      flipped := [];
      currentPlayer := 1;
      scores := map[1 := 0, 2 := 0];
      waiting := false;
      waitStartTime := 0;
      message := "";
      messageTimer := 0;
      hintsRemaining := HINTS_PER_GAME;
      hintTimer := 0;
      hintCard := None;
      deck := 0;
      InitialInv();
    }

    method SetMode(m: Mode, deal: Deal)
      requires Valid() && state == Menu && Fits(deal, Some(m), gridSize)
      modifies this
      ensures Valid() && View() == SelectMode(old(View()), m, deal)
    {
      SelectModeInv(View(), m, deal);
      mode := Some(m);
      if Ready(mode, gridSize) {
        SetupGame(mode.value, gridSize.value, deal);
      }
    }

    method SetGridSize(size: int, deal: Deal)
      requires Valid() && state == Menu && Fits(deal, mode, Some(size))
      modifies this
      ensures Valid() && View() == SelectGridSize(old(View()), size, deal)
    {
      SelectGridSizeInv(View(), size, deal);
      gridSize := Some(size);
      if Ready(mode, gridSize) {
        SetupGame(mode.value, gridSize.value, deal);
      }
    }

    /** setup_game; SetupInv shows that it keeps the invariant. */
    method SetupGame(m: Mode, size: int, deal: Deal)
      requires DealFits(deal, size)
      modifies this
      ensures View() == Setup(old(View()), m, size, deal)
    {
      mode := Some(m);
      gridSize := Some(size);
      NewRound();

      var rows := Rows(size);
      var cols := size / rows;
      cards := PlaceCards(deal.shuffled, rows, cols, Origin(WIDTH, cols), Origin(HEIGHT, rows), SPACING);
    }

    /**
     * The part of setup_game that starts a round: nothing flipped, scores 0:0,
     * player 1, five hints, 'playing', and a new deck about to be laid out.
     */
    method NewRound()
      modifies this
      ensures View() == old(View()).(flipped := [], scores := map[1 := 0, 2 := 0], currentPlayer := 1,
                                     hintsRemaining := HINTS_PER_GAME, state := Playing, deck := old(deck) + 1)
    {
      flipped := [];
      scores := map[1 := 0, 2 := 0];
      currentPlayer := 1;
      hintsRemaining := HINTS_PER_GAME;
      state := Playing;
      deck := deck + 1;
    }

    /** The card part of handle_click; the screen is 'playing'. */
    method ClickCard(k: int, now: int) returns (tone: Option<Note>)
      requires Valid() && state == Playing
      modifies this
      ensures Valid() && View() == Tap(old(View()), k, now)
      ensures tone == Tone(old(View()), k)
    {
      ghost var v := View();
      TapInv(v, k, now);
      tone := None;
      if !waiting && |flipped| < 2 && 0 <= k < |cards| && !cards[k].isFlipped && !cards[k].isMatched {
        cards := cards[k := cards[k].(isFlipped := true)];
        tone := Some(cards[k].note);
        flipped := flipped + [k];
        assert View() == TurnUp(v, k);
        TurnUpConsistent(v, k);
        if |flipped| == 2 {
          CheckMatch(now);
        }
      }
    }

    method CheckMatch(now: int)
      requires Consistent(View()) && |flipped| == 2 && state == Playing
      modifies this
      ensures Valid() && View() == Resolve(old(View()), now)
    {
      ghost var r := Resolve(View(), now);
      ResolveInv(View(), now);
      var a, b := flipped[0], flipped[1];
      if cards[a].note == cards[b].note {
        ScorePair(now);
      } else {
        StartWait(now);
      }
      ValidWhen(r);
    }

    method ScorePair(now: int)
      requires |flipped| == 2 && flipped[0] < |cards| && flipped[1] < |cards|
      requires currentPlayer in scores && state == Playing
      requires cards[flipped[0]].note == cards[flipped[1]].note
      modifies this
      ensures View() == Resolve(old(View()), now)
    {
      var a, b := flipped[0], flipped[1];
      cards := cards[a := cards[a].(isMatched := true)][b := cards[b].(isMatched := true)];
      scores := scores[currentPlayer := scores[currentPlayer] + 1];
      flipped := [];
      Show("Match!", now);
      if AllMatched(cards) {
        state := GameOver;
      }
    }

    method StartWait(now: int)
      requires |flipped| == 2 && flipped[0] < |cards| && flipped[1] < |cards|
      requires currentPlayer in scores && state == Playing
      requires cards[flipped[0]].note != cards[flipped[1]].note
      modifies this
      ensures View() == Resolve(old(View()), now)
    {
      waiting := true;
      waitStartTime := now;
      Show("No Match!", now);
    }

    /** Show a message, timed from `now`. */
    method Show(text: string, now: int)
      modifies this
      ensures View() == old(View()).(message := text, messageTimer := now)
    {
      message := text;
      messageTimer := now;
    }

    method UseHint(now: int)
      requires Valid()
      modifies this
      ensures Valid() && View() == Hint(old(View()), now)
    {
      ghost var r := Hint(View(), now);
      HintInv(View(), now);
      if hintsRemaining > 0 && |flipped| == 1 {
        var partner := FindPartner(cards, flipped[0]);
        if partner.Some? {
          var k := partner.value;
          cards := cards[k := cards[k].(isHint := true)];
          hintCard := Some(CardRef(deck, k));
          hintTimer := now;
          hintsRemaining := hintsRemaining - 1;
        }
      }
      ValidWhen(r);
    }

    method BackToMenu()
      requires Valid()
      modifies this
      ensures Valid() && View() == Back(old(View()))
    {
      BackInv(View());
      state := Menu;
      mode := None;
      gridSize := None;
    }

    method RestartGame(deal: Deal)
      requires Valid() && mode.Some? && gridSize.Some? && DealFits(deal, gridSize.value)
      modifies this
      ensures Valid() && View() == Restart(old(View()), deal)
    {
      SetupInv(View(), mode.value, gridSize.value, deal);
      SetupGame(mode.value, gridSize.value, deal);
    }

    /** update: the three deadlines, in the order the source checks them. */
    method Update(now: int)
      requires Valid()
      modifies this
      ensures Valid() && View() == Expire(old(View()), now)
    {
      ExpireInv(View(), now);
      FinishWait(now);
      FadeMessage(now);
      FadeHint(now);
    }

    /** The first step of update. */
    method FinishWait(now: int)
      requires Consistent(View())
      modifies this
      ensures View() == EndWait(old(View()), now)
    {
      if waiting && now - waitStartTime > WAIT_DURATION {
        cards := TurnBack(cards, flipped);
        flipped := [];
        waiting := false;
        if mode == Some(Multi) {
          currentPlayer := if currentPlayer == 1 then 2 else 1;
        }
      }
    }

    /** The second step of update. */
    method FadeMessage(now: int)
      modifies this
      ensures View() == ClearMessage(old(View()), now)
    {
      if message != "" && now - messageTimer > MESSAGE_DURATION {
        message := "";
      }
    }

    /** The third step of update. */
    method FadeHint(now: int)
      requires hintCard.Some? && hintCard.value.deck == deck ==> hintCard.value.index < |cards|
      modifies this
      ensures View() == ClearHint(old(View()), now)
    {
      if hintCard.Some? && now - hintTimer > HINT_DURATION {
        if hintCard.value.deck == deck {
          var i := hintCard.value.index;
          cards := cards[i := cards[i].(isHint := false)];
        }
        hintCard := None;
      }
    }

    method HandleClick(c: Click, now: int, deal: Deal) returns (tone: Option<Note>)
      requires Valid() && ClickDeal(View(), c, deal)
      modifies this
      ensures Valid() && View() == OnClick(old(View()), c, now, deal)
      ensures tone == if old(state) == Playing && c.Touch? then Tone(old(View()), c.card) else None
    {
      tone := None;
      match state
      case Menu =>
        match c {
          case Press(SinglePlayer) => SetMode(Single, deal);
          case Press(Multiplayer) => SetMode(Multi, deal);
          case Press(TenPairs) => SetGridSize(SMALL_GRID, deal);
          case Press(TwentyPairs) => SetGridSize(LARGE_GRID, deal);
          case _ =>
        }
      case Playing =>
        match c {
          case Press(HintButton) => UseHint(now);
          case Press(BackButton) => BackToMenu();
          case Touch(k) => tone := ClickCard(k, now);
          case _ =>
        }
      case GameOver =>
        if c == Press(PlayAgain) {
          RestartGame(deal);
        }
    }

    method HandleKey(key: Key, deal: Deal)
      requires Valid() && KeyDeal(View(), key, deal)
      modifies this
      ensures Valid() && View() == OnKey(old(View()), key, deal)
    {
      match state
      case Menu =>
        match key {
          case Key1 => SetMode(Single, deal);
          case Key2 => SetMode(Multi, deal);
          case Key3 => SetGridSize(SMALL_GRID, deal);
          case Key4 => SetGridSize(LARGE_GRID, deal);
          case _ =>
        }
      case Playing =>
      case GameOver =>
        if key == KeyR {
          RestartGame(deal);
        }
    }
  }
}
