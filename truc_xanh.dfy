/**
 * "Truc Xanh Music" (main.py): the Game class and its key mapping.
 *
 * The same design as GreenBamboo: the fields of a Game object form a
 * `Snapshot`, every method of the class is specified by a pure transition on
 * snapshots, and `Inv` is the invariant those transitions keep. This version
 * has no hints, no Back button and no "Play Again": R on the game-over screen
 * returns to the menu. Its seven notes cap every deck at fourteen cards.
 */
module TrucXanh {
  import opened Board

  const NOTES: seq<Note> := ["C", "D", "E", "F", "G", "A", "B"]

  const WIDTH := 800
  const HEIGHT := 600
  const CARD_MARGIN := 10
  /** Cards are 60 x 60 pixels. */
  const CARD_SIZE := 60
  const SPACING := CARD_SIZE + CARD_MARGIN
  const ROWS := 5

  const WAIT_DURATION := 1000
  const MESSAGE_DURATION := 1000

  /** The grid sizes of the "15 Pairs" and "25 Pairs" buttons. */
  const SMALL_GRID := 30
  const LARGE_GRID := 50

  /** Every deck this version deals: each of the seven notes twice. */
  const DECK_SIZE := 14

  // ---------------------------------------------------------------------
  // Deck

  predicate IsGridOption(gridSize: int)
  {
    gridSize == SMALL_GRID || gridSize == LARGE_GRID
  }

  /** `min(grid_size // 2, len(pool))`: the pairs sampled for a grid. */
  function Pairs(gridSize: int, pool: seq<Note>): int
  {
    Min(gridSize / 2, |pool|)
  }

  /** `grid_size // 5` columns of five rows. */
  function Cols(gridSize: int): int
  {
    gridSize / ROWS
  }

  /** `(extent - (count * (CARD + CARD_MARGIN) - CARD_MARGIN)) // 2`: the first cell's pixel. */
  function Origin(extent: int, count: int): int
  {
    (extent - (count * SPACING - CARD_MARGIN)) / 2
  }

  /** The cards setup_game builds from the random deal for `gridSize`. */
  function Dealt(gridSize: int, deal: Deal): seq<Card>
  {
    var cols := Cols(gridSize);
    Layout(deal.shuffled, ROWS, cols, Origin(WIDTH, cols), Origin(HEIGHT, ROWS), SPACING)
  }

  /** `deal` is what `random.sample(NOTES, min(grid_size // 2, 7))` and `random.shuffle` can produce. */
  predicate DealFits(deal: Deal, gridSize: int)
  {
    IsDealOf(deal, NOTES, Pairs(gridSize, NOTES))
  }

  /** The random deal a setup needs, if the selection (`mode`, `gridSize`) starts one. */
  predicate Fits(deal: Deal, mode: Option<Mode>, gridSize: Option<int>)
  {
    Ready(mode, gridSize) ==> DealFits(deal, gridSize.value)
  }

  /**
   * For both menu grid sizes the deck is `2 * min(grid_size // 2, len(pool))`
   * cards in the first cells of the 5-row grid, row by row, each sampled note
   * exactly twice, all face down; this holds for any pool of at most 15 notes.
   */
  lemma PresetDeck(gridSize: int, deal: Deal, pool: seq<Note>)
    requires IsGridOption(gridSize) && |pool| <= 15
    requires IsDealOf(deal, pool, Pairs(gridSize, pool))
    ensures |Dealt(gridSize, deal)| == 2 * Pairs(gridSize, pool) == 2 * |pool|
    ensures NotesOf(Dealt(gridSize, deal)) == deal.shuffled
    ensures forall n :: multiset(NotesOf(Dealt(gridSize, deal)))[n] == if n in deal.selected then 2 else 0
    ensures forall k :: 0 <= k < |Dealt(gridSize, deal)| ==>
      !Dealt(gridSize, deal)[k].isFlipped && !Dealt(gridSize, deal)[k].isMatched && !Dealt(gridSize, deal)[k].isHint
  {
    var cols := Cols(gridSize);
    var dealt := Dealt(gridSize, deal);
    PairedNotes(deal, pool, Pairs(gridSize, pool), "");
    assert Cells(ROWS, cols) >= 30;
    LayoutKeepsNotes(deal.shuffled, ROWS, cols, Origin(WIDTH, cols), Origin(HEIGHT, ROWS), SPACING);
    forall n ensures multiset(NotesOf(dealt))[n] == if n in deal.selected then 2 else 0 {
      PairedNotes(deal, pool, Pairs(gridSize, pool), n);
    }
  }

  /** The notes of a sequence, as a set. */
  function Elements(s: seq<Note>): set<Note>
  {
    set i | 0 <= i < |s| :: s[i]
  }

  lemma {:induction false} ElementsAtMost(s: seq<Note>)
    ensures |Elements(s)| <= |s|
  {
    if s != [] {
      ElementsAtMost(s[..|s| - 1]);
      assert Elements(s) == Elements(s[..|s| - 1]) + {s[|s| - 1]};
    }
  }

  lemma {:induction false} ElementsOfDistinct(s: seq<Note>)
    requires Distinct(s)
    ensures |Elements(s)| == |s|
  {
    if s != [] {
      var t := s[..|s| - 1];
      assert Distinct(t);
      ElementsOfDistinct(t);
      assert Elements(s) == Elements(t) + {s[|s| - 1]};
      assert s[|s| - 1] !in Elements(t);
    }
  }

  /** A sample of `|pool|` distinct notes of `pool` takes every note of `pool`. */
  lemma SampleCoversPool(s: seq<Note>, pool: seq<Note>)
    requires Distinct(s) && |s| == |pool|
    requires forall i :: 0 <= i < |s| ==> s[i] in pool
    ensures forall n :: n in pool ==> n in s
  {
    ElementsOfDistinct(s);
    ElementsAtMost(pool);
    var a, b := Elements(s), Elements(pool);
    assert a <= b;
    assert b == a + (b - a) && a * (b - a) == {};
    assert a == b;
    forall n | n in pool ensures n in s {
      assert n in b;
    }
  }

  /**
   * Both menu grid sizes deal the same deck: fourteen cards, every one of the
   * seven notes exactly twice, all face down.
   */
  lemma SevenPairs(gridSize: int, deal: Deal)
    requires IsGridOption(gridSize) && DealFits(deal, gridSize)
    ensures |Dealt(gridSize, deal)| == DECK_SIZE
    ensures forall n :: multiset(NotesOf(Dealt(gridSize, deal)))[n] == if n in NOTES then 2 else 0
  {
    PresetDeck(gridSize, deal, NOTES);
    SampleCoversPool(deal.selected, NOTES);
  }

  // ---------------------------------------------------------------------
  // Game state

  /** The fields of a Game object, as a value. */
  datatype Snapshot = Snapshot(
    state: Screen, mode: Option<Mode>, gridSize: Option<int>,
    cards: seq<Card>, flipped: seq<nat>,
    currentPlayer: int, scores: map<int, int>,
    waiting: bool, waitStartTime: int,
    message: string, messageTimer: int)

  /**
   * What holds of a game between events, except possibly right after the
   * second card of a turn is flipped and before check_match has run.
   */
  ghost predicate Consistent(v: Snapshot)
  {
    && (v.currentPlayer == 1 || v.currentPlayer == 2)
    && v.scores.Keys == {1, 2} && v.scores[1] >= 0 && v.scores[2] >= 0
    // flipped_cards holds at most two distinct cards: exactly the face-up unmatched ones
    && |v.flipped| <= 2
    && (|v.flipped| >= 1 ==> v.flipped[0] < |v.cards|)
    && (|v.flipped| == 2 ==> v.flipped[1] < |v.cards| && v.flipped[0] != v.flipped[1])
    && (forall k :: 0 <= k < |v.cards| ==> (v.cards[k].isFlipped && !v.cards[k].isMatched <==> k in v.flipped))
    // this version's cards have no hint flag
    && (forall k :: 0 <= k < |v.cards| ==> !v.cards[k].isHint)
    // only the two menu options are ever chosen, and a game is always the fourteen-card deck
    && (v.gridSize.Some? ==> IsGridOption(v.gridSize.value))
    && (v.state != Menu ==> v.mode.Some? && v.gridSize.Some? && |v.cards| == DECK_SIZE)
    // the menu starts a game as soon as both choices are made
    && (v.state == Menu ==> !Ready(v.mode, v.gridSize))
    // outside a game nothing is flipped and nobody waits
    && (v.state != Playing ==> v.flipped == [] && !v.waiting)
    // every point scored is one matched pair
    && 2 * (v.scores[1] + v.scores[2]) == MatchedCount(v.cards)
    // game over exactly when the whole deck is matched
    && (v.state == GameOver ==> AllMatched(v.cards))
    && (v.state == Playing ==> !AllMatched(v.cards))
    // a single player never hands the turn over
    && (v.state != Menu && v.mode == Some(Single) ==> v.currentPlayer == 1 && v.scores[2] == 0)
  }

  /** The game invariant: also, a second flipped card has been resolved into a wait. */
  ghost predicate Inv(v: Snapshot)
  {
    Consistent(v) && (|v.flipped| == 2 ==> v.waiting)
  }

  /** The state `Game()` starts in. */
  function Initial(): Snapshot
  {
    Snapshot(Menu, None, None, [], [], 1, map[1 := 0, 2 := 0], false, 0, "", 0)
  }

  lemma InitialInv()
    ensures Inv(Initial())
  {
  }

  // ---------------------------------------------------------------------
  // Menu selections and setup

  /**
   * setup_game: a fresh deal, nothing flipped, scores 0:0, player 1, 'playing'.
   * It leaves `waiting` and `message` (and their timers) as they were.
   */
  function Setup(v: Snapshot, m: Mode, gridSize: int, deal: Deal): (r: Snapshot)
    ensures r.state == Playing && r.mode == Some(m) && r.gridSize == Some(gridSize)
    ensures r.flipped == [] && r.scores == map[1 := 0, 2 := 0] && r.currentPlayer == 1
    ensures r.cards == Dealt(gridSize, deal)
    ensures r.waiting == v.waiting && r.message == v.message
    ensures r.waitStartTime == v.waitStartTime && r.messageTimer == v.messageTimer
  {
    v.(mode := Some(m), gridSize := Some(gridSize), cards := Dealt(gridSize, deal), flipped := [],
       scores := map[1 := 0, 2 := 0], currentPlayer := 1, state := Playing)
  }

  /** A setup with one of the menu's grid sizes establishes the invariant, whatever the game was before. */
  lemma SetupInv(v: Snapshot, m: Mode, gridSize: int, deal: Deal)
    requires IsGridOption(gridSize) && DealFits(deal, gridSize)
    ensures Inv(Setup(v, m, gridSize, deal))
  {
    var r := Setup(v, m, gridSize, deal);
    PresetDeck(gridSize, deal, NOTES);
    MatchedCountNone(r.cards);
    assert !r.cards[0].isMatched;
  }

  /** A menu input: a mode, a grid size, or (any other key) nothing. */
  datatype Choice = ChooseMode(m: Mode) | ChooseGrid(size: int) | NoChoice

  /** Only the two grid sizes of the menu can be chosen. */
  predicate Offered(c: Choice)
  {
    c.ChooseGrid? ==> IsGridOption(c.size)
  }

  /** The assignment a menu input makes. */
  function Pick(v: Snapshot, c: Choice): Snapshot
  {
    match c
    case ChooseMode(m) => v.(mode := Some(m))
    case ChooseGrid(size) => v.(gridSize := Some(size))
    case NoChoice => v
  }

  /**
   * A menu button or key: record the choice, then start a game once both a
   * mode and a grid size are chosen.
   */
  function Choose(v: Snapshot, c: Choice, deal: Deal): (r: Snapshot)
    requires v.state == Menu
    ensures r.mode == Pick(v, c).mode && r.gridSize == Pick(v, c).gridSize
    ensures r.state == Playing <==> Ready(r.mode, r.gridSize)
    ensures r.state != Playing ==> r == Pick(v, c)
    ensures r.state == Playing ==> r.flipped == [] && r.scores == map[1 := 0, 2 := 0] && r.currentPlayer == 1
    ensures r.state == Playing ==> r == Setup(Pick(v, c), r.mode.value, r.gridSize.value, deal)
  {
    var u := Pick(v, c);
    if Ready(u.mode, u.gridSize) then Setup(u, u.mode.value, u.gridSize.value, deal) else u
  }

  lemma ChooseInv(v: Snapshot, c: Choice, deal: Deal)
    requires Inv(v) && v.state == Menu && Offered(c)
    requires Fits(deal, Pick(v, c).mode, Pick(v, c).gridSize)
    ensures Inv(Choose(v, c, deal))
  {
    var u := Pick(v, c);
    if Ready(u.mode, u.gridSize) {
      SetupInv(u, u.mode.value, u.gridSize.value, deal);
    } else {
      assert Inv(u);
    }
  }

  /** R on the game-over screen: the menu again, with neither mode nor grid size chosen. */
  function ToMenu(v: Snapshot): (r: Snapshot)
    ensures r.state == Menu && r.mode == None && r.gridSize == None
    ensures r.cards == v.cards && r.scores == v.scores && r.flipped == v.flipped && r.waiting == v.waiting
    ensures r.(state := v.state, mode := v.mode, gridSize := v.gridSize) == v
  {
    v.(state := Menu, mode := None, gridSize := None)
  }

  lemma ToMenuInv(v: Snapshot)
    requires Inv(v) && v.state == GameOver
    ensures Inv(ToMenu(v))
  {
  }

  // ---------------------------------------------------------------------
  // Flipping a card and resolving the pair

  /**
   * A press on card `k` flips it: playing, not waiting, and card k face down
   * and unmatched. Unlike main_2.py there is no test on the number of flipped
   * cards; the invariant shows that two flipped cards always mean a wait.
   */
  predicate CanFlip(v: Snapshot, k: int)
  {
    && v.state == Playing && !v.waiting
    && 0 <= k < |v.cards| && !v.cards[k].isFlipped && !v.cards[k].isMatched
  }

  /** `card.is_flipped = True; self.flipped_cards.append(card)`. */
  function TurnUp(v: Snapshot, k: int): Snapshot
    requires 0 <= k < |v.cards|
  {
    v.(cards := v.cards[k := v.cards[k].(isFlipped := true)], flipped := v.flipped + [k])
  }

  /** The two flipped cards show the same note. */
  predicate IsPair(v: Snapshot)
    requires |v.flipped| == 2 && v.flipped[0] < |v.cards| && v.flipped[1] < |v.cards|
  {
    v.cards[v.flipped[0]].note == v.cards[v.flipped[1]].note
  }

  /**
   * check_match: a pair is matched and scores one point for the player on turn,
   * ending the game if it was the last; a mismatch starts the wait.
   */
  function Resolve(v: Snapshot, now: int): (r: Snapshot)
    requires |v.flipped| == 2 && v.flipped[0] < |v.cards| && v.flipped[1] < |v.cards|
    requires v.currentPlayer in v.scores && v.state == Playing
    ensures IsPair(v) ==>
      && |r.cards| == |v.cards|
      && r.cards[v.flipped[0]] == v.cards[v.flipped[0]].(isMatched := true)
      && r.cards[v.flipped[1]] == v.cards[v.flipped[1]].(isMatched := true)
      && (forall j :: 0 <= j < |v.cards| && j != v.flipped[0] && j != v.flipped[1] ==> r.cards[j] == v.cards[j])
      && r.scores == v.scores[v.currentPlayer := v.scores[v.currentPlayer] + 1]
      && r.currentPlayer == v.currentPlayer && r.flipped == [] && r.waiting == v.waiting
      && r.message == "Match!" && r.messageTimer == now
      && (r.state == GameOver <==> AllMatched(r.cards)) && (r.state != GameOver ==> r.state == Playing)
    ensures IsPair(v) ==>
      r.(cards := v.cards, scores := v.scores, flipped := v.flipped, message := v.message,
         messageTimer := v.messageTimer, state := v.state) == v
    ensures !IsPair(v) ==>
      && r.cards == v.cards && r.scores == v.scores && r.currentPlayer == v.currentPlayer
      && r.flipped == v.flipped && r.waiting && r.waitStartTime == now
      && r.message == "No Match!" && r.messageTimer == now && r.state == v.state
    ensures !IsPair(v) ==>
      r.(waiting := v.waiting, waitStartTime := v.waitStartTime, message := v.message, messageTimer := v.messageTimer) == v
  {
    var a, b := v.flipped[0], v.flipped[1];
    if v.cards[a].note == v.cards[b].note then
      var cards := v.cards[a := v.cards[a].(isMatched := true)][b := v.cards[b].(isMatched := true)];
      v.(cards := cards, scores := v.scores[v.currentPlayer := v.scores[v.currentPlayer] + 1], flipped := [],
         message := "Match!", messageTimer := now, state := if AllMatched(cards) then GameOver else Playing)
    else
      v.(waiting := true, waitStartTime := now, message := "No Match!", messageTimer := now)
  }

  /**
   * The card part of handle_click while playing: a press on card `k` flips it
   * if it can, and the second card of a turn is resolved at once. A press that
   * cannot flip changes nothing.
   */
  function Tap(v: Snapshot, k: int, now: int): (r: Snapshot)
    requires Inv(v) && v.state == Playing
    ensures !CanFlip(v, k) ==> r == v
    ensures CanFlip(v, k) ==> 0 <= k < |r.cards| && r.cards[k].isFlipped
    ensures CanFlip(v, k) && v.flipped == [] ==> r.flipped == [k] && r.scores == v.scores && r == TurnUp(v, k)
    ensures CanFlip(v, k) && |v.flipped| == 1 ==> r == Resolve(TurnUp(v, k), now)
  {
    if CanFlip(v, k) then
      var u := TurnUp(v, k);
      if |u.flipped| == 2 then Resolve(u, now) else u
    else v
  }

  /** The note a press plays: `NOTE_SOUNDS[card.note].play()` when the card flips. */
  function Tone(v: Snapshot, k: int): (t: Option<Note>)
    ensures t.Some? <==> CanFlip(v, k)
    ensures t.Some? ==> t.value == v.cards[k].note
  {
    if CanFlip(v, k) then Some(v.cards[k].note) else None
  }

  lemma ResolveInv(v: Snapshot, now: int)
    requires Consistent(v) && |v.flipped| == 2 && v.state == Playing && !v.waiting
    ensures Inv(Resolve(v, now))
  {
    if IsPair(v) {
      MatchPairInv(v, now);
    }
  }

  /** A matched pair leaves no card flipped and scores exactly the two newly matched cards. */
  lemma MatchPairInv(v: Snapshot, now: int)
    requires Consistent(v) && |v.flipped| == 2 && v.state == Playing && !v.waiting && IsPair(v)
    ensures Inv(Resolve(v, now))
  {
    var r := Resolve(v, now);
    var a, b := v.flipped[0], v.flipped[1];
    assert !v.cards[a].isMatched && !v.cards[b].isMatched;
    var c1 := v.cards[a := v.cards[a].(isMatched := true)];
    MatchedCountSet(v.cards, a, v.cards[a].(isMatched := true));
    MatchedCountSet(c1, b, c1[b].(isMatched := true));
    assert r.cards == c1[b := c1[b].(isMatched := true)];
    forall k | 0 <= k < |r.cards|
      ensures !(r.cards[k].isFlipped && !r.cards[k].isMatched) && !r.cards[k].isHint
    {
      if k != a && k != b {
        assert r.cards[k] == v.cards[k] && k !in v.flipped;
      }
    }
  }

  /** Flipping a card keeps everything but the resolved-wait part of the invariant. */
  lemma TurnUpConsistent(v: Snapshot, k: int)
    requires Inv(v) && CanFlip(v, k)
    ensures Consistent(TurnUp(v, k))
    ensures Inv(TurnUp(v, k)) || |TurnUp(v, k).flipped| == 2
  {
    var u := TurnUp(v, k);
    assert |v.flipped| < 2;
    assert !u.cards[k].isMatched;
    MatchedCountSet(v.cards, k, v.cards[k].(isFlipped := true));
    assert forall j :: 0 <= j < |u.cards| && j != k ==> u.cards[j] == v.cards[j];
  }

  lemma TapInv(v: Snapshot, k: int, now: int)
    requires Inv(v) && v.state == Playing
    ensures Inv(Tap(v, k, now))
  {
    if CanFlip(v, k) {
      TurnUpConsistent(v, k);
      var u := TurnUp(v, k);
      if |u.flipped| == 2 {
        ResolveInv(u, now);
      }
    }
  }

  // ---------------------------------------------------------------------
  // The per-frame update

  /** More than the mismatch wait has passed since the wait began. */
  predicate WaitOver(v: Snapshot, now: int)
  {
    v.waiting && now - v.waitStartTime > WAIT_DURATION
  }

  predicate MessageOver(v: Snapshot, now: int)
  {
    v.message != "" && now - v.messageTimer > MESSAGE_DURATION
  }

  /** The first step of update: when the wait is over, the pair turns back and the turn may pass. */
  function EndWait(v: Snapshot, now: int): (r: Snapshot)
    requires Consistent(v)
    ensures !WaitOver(v, now) ==> r == v
    ensures WaitOver(v, now) ==>
      && !r.waiting && r.flipped == []
      && (forall k :: 0 <= k < |r.cards| ==> !r.cards[k].isFlipped || r.cards[k].isMatched)
      && r.currentPlayer == if v.mode == Some(Multi) then Other(v.currentPlayer) else v.currentPlayer
    ensures r.state == v.state && r.scores == v.scores && r.mode == v.mode && r.gridSize == v.gridSize
    ensures r.message == v.message && r.messageTimer == v.messageTimer
    ensures |r.cards| == |v.cards|
    ensures forall k :: 0 <= k < |v.cards| ==>
      && r.cards[k].note == v.cards[k].note && r.cards[k].isMatched == v.cards[k].isMatched
      && r.cards[k].isHint == v.cards[k].isHint
    // only the cards of the pair turn back; nothing else about any card changes
    ensures forall k :: 0 <= k < |v.cards| ==>
      r.cards[k] == if WaitOver(v, now) && k in v.flipped then v.cards[k].(isFlipped := false) else v.cards[k]
    ensures r.(cards := v.cards, flipped := v.flipped, waiting := v.waiting, currentPlayer := v.currentPlayer) == v
  {
    if WaitOver(v, now) then
      v.(cards := Unflipped(v.cards, v.flipped), flipped := [], waiting := false,
         currentPlayer := if v.mode == Some(Multi) then Other(v.currentPlayer) else v.currentPlayer)
    else v
  }

  /** The second step of update: the message disappears once its second is over. */
  function ClearMessage(v: Snapshot, now: int): (r: Snapshot)
    ensures r.message == (if MessageOver(v, now) then "" else v.message)
    ensures r.(message := v.message) == v
  {
    if MessageOver(v, now) then v.(message := "") else v
  }

  /**
   * update: both deadlines expire only once strictly more than their duration
   * has passed. The end of the wait turns the pair back and, in multiplayer
   * only, hands the turn over.
   */
  function Expire(v: Snapshot, now: int): (r: Snapshot)
    requires Consistent(v)
    ensures r.waiting == (v.waiting && !WaitOver(v, now))
    ensures WaitOver(v, now) ==>
      && r.flipped == []
      && (forall k :: 0 <= k < |r.cards| ==> !r.cards[k].isFlipped || r.cards[k].isMatched)
      && r.currentPlayer == if v.mode == Some(Multi) then Other(v.currentPlayer) else v.currentPlayer
    ensures !WaitOver(v, now) ==> r.flipped == v.flipped && r.currentPlayer == v.currentPlayer && r.cards == v.cards
    ensures r.message == if MessageOver(v, now) then "" else v.message
    ensures r.state == v.state && r.scores == v.scores
    ensures |r.cards| == |v.cards|
    ensures forall k :: 0 <= k < |v.cards| ==>
      r.cards[k].note == v.cards[k].note && r.cards[k].isMatched == v.cards[k].isMatched
    ensures forall k :: 0 <= k < |v.cards| ==>
      r.cards[k] == if WaitOver(v, now) && k in v.flipped then v.cards[k].(isFlipped := false) else v.cards[k]
    // update touches no timer, the mode or the grid size
    ensures r.(cards := v.cards, flipped := v.flipped, waiting := v.waiting, currentPlayer := v.currentPlayer,
               message := v.message) == v
  {
    ClearMessage(EndWait(v, now), now)
  }

  lemma ExpireInv(v: Snapshot, now: int)
    requires Inv(v)
    ensures Inv(Expire(v, now))
  {
    var r := EndWait(v, now);
    MatchedCountSameFlags(r.cards, v.cards);
    assert Inv(r);
  }

  // ---------------------------------------------------------------------
  // Input routing

  /** The four menu buttons. */
  datatype Button = OnePlayer | TwoPlayers | TwentyFivePairs | FifteenPairs

  /** A mouse press, on a menu button or on the card with the given index (any other index is a press on no card). */
  datatype Click = Press(button: Button) | Touch(card: int)

  datatype Key = Key1 | Key2 | Key3 | Key4 | KeyR | OtherKey

  /** What each menu button chooses: "25 Pairs" is grid size 50 and "15 Pairs" grid size 30. */
  function ButtonChoice(b: Button): (c: Choice)
    ensures Offered(c) && c != NoChoice
    ensures c == ChooseMode(Single) <==> b == OnePlayer
    ensures c == ChooseMode(Multi) <==> b == TwoPlayers
    ensures c == ChooseGrid(LARGE_GRID) <==> b == TwentyFivePairs
    ensures c == ChooseGrid(SMALL_GRID) <==> b == FifteenPairs
  {
    match b
    case OnePlayer => ChooseMode(Single)
    case TwoPlayers => ChooseMode(Multi)
    case TwentyFivePairs => ChooseGrid(LARGE_GRID)
    case FifteenPairs => ChooseGrid(SMALL_GRID)
  }

  /** What each key chooses in the menu: 1 to 4 as the four buttons, any other key nothing. */
  function KeyChoice(key: Key): (c: Choice)
    ensures Offered(c)
    ensures c == NoChoice <==> key == KeyR || key == OtherKey
    ensures key == Key1 ==> c == ButtonChoice(OnePlayer)
    ensures key == Key2 ==> c == ButtonChoice(TwoPlayers)
    ensures key == Key3 ==> c == ButtonChoice(TwentyFivePairs)
    ensures key == Key4 ==> c == ButtonChoice(FifteenPairs)
  {
    match key
    case Key1 => ChooseMode(Single)
    case Key2 => ChooseMode(Multi)
    case Key3 => ChooseGrid(LARGE_GRID)
    case Key4 => ChooseGrid(SMALL_GRID)
    case _ => NoChoice
  }

  /** handle_click: the menu buttons in the menu, the cards while playing, nothing after the game. */
  function OnClick(v: Snapshot, c: Click, now: int, deal: Deal): Snapshot
    requires Inv(v)
  {
    match v.state
    case Menu =>
      (match c
       case Press(b) => Choose(v, ButtonChoice(b), deal)
       case Touch(_) => v)
    case Playing =>
      (match c
       case Touch(k) => Tap(v, k, now)
       case Press(_) => v)
    case GameOver => v
  }

  /**
   * The key mapping of `main`: in the menu every key is a menu input (1-4 a
   * choice, any other none) followed by the start test; R ends the game-over screen.
   */
  function OnKey(v: Snapshot, key: Key, deal: Deal): Snapshot
    requires Inv(v)
  {
    match v.state
    case Menu => Choose(v, KeyChoice(key), deal)
    case Playing => v
    case GameOver => if key == KeyR then ToMenu(v) else v
  }

  /** `deal` fits the setup that the menu input `c` would start. */
  predicate ChoiceDeal(v: Snapshot, c: Choice, deal: Deal)
  {
    Fits(deal, Pick(v, c).mode, Pick(v, c).gridSize)
  }

  predicate ClickDeal(v: Snapshot, c: Click, deal: Deal)
  {
    v.state == Menu && c.Press? ==> ChoiceDeal(v, ButtonChoice(c.button), deal)
  }

  predicate KeyDeal(v: Snapshot, key: Key, deal: Deal)
  {
    v.state == Menu ==> ChoiceDeal(v, KeyChoice(key), deal)
  }

  // ---------------------------------------------------------------------
  // Properties over several calls

  lemma OnClickInv(v: Snapshot, c: Click, now: int, deal: Deal)
    requires Inv(v) && ClickDeal(v, c, deal)
    ensures Inv(OnClick(v, c, now, deal))
  {
    match v.state
    case Menu =>
      if c.Press? {
        ChooseInv(v, ButtonChoice(c.button), deal);
      }
    case Playing =>
      if c.Touch? {
        TapInv(v, c.card, now);
      }
    case GameOver =>
  }

  lemma OnKeyInv(v: Snapshot, key: Key, deal: Deal)
    requires Inv(v) && KeyDeal(v, key, deal)
    ensures Inv(OnKey(v, key, deal))
  {
    if v.state == Menu {
      ChooseInv(v, KeyChoice(key), deal);
    } else if v.state == GameOver && key == KeyR {
      ToMenuInv(v);
    }
  }

  /**
   * In the menu a key other than 1-4 changes nothing: the start test it runs
   * never passes, since a game starts as soon as both choices are made.
   */
  lemma IdleKeyInMenu(v: Snapshot, key: Key, deal: Deal)
    requires Inv(v) && v.state == Menu && (key == KeyR || key == OtherKey)
    ensures OnKey(v, key, deal) == v
  {
  }

  /**
   * A game started from the menu starts without a pending wait, with nothing
   * flipped and scores 0:0: a wait never outlives the game it began in.
   */
  lemma FreshStart(v: Snapshot, c: Choice, deal: Deal)
    requires Inv(v) && v.state == Menu
    requires Choose(v, c, deal).state == Playing
    ensures !Choose(v, c, deal).waiting
    ensures Choose(v, c, deal).flipped == [] && Choose(v, c, deal).scores == map[1 := 0, 2 := 0]
  {
  }

  /** After R a single choice, of either kind, does not start a game; the other one then does. */
  lemma RestartNeedsTwoChoices(v: Snapshot, m: Mode, size: int, deal: Deal)
    requires size != 0
    ensures Choose(ToMenu(v), ChooseMode(m), deal).state == Menu
    ensures Choose(ToMenu(v), ChooseGrid(size), deal).state == Menu
    ensures Choose(Choose(ToMenu(v), ChooseMode(m), deal), ChooseGrid(size), deal).state == Playing
  {
  }

  /**
   * At the end of a game the two scores add up to the seven pairs of the deck.
   * Seven is odd, so a two-player game never ends in a tie.
   */
  lemma FinalTally(v: Snapshot)
    requires Inv(v) && v.state == GameOver
    ensures v.scores[1] + v.scores[2] == DECK_SIZE / 2
    ensures v.mode == Some(Single) ==> Announce(v.mode, v.scores[1], v.scores[2]) == Score(DECK_SIZE / 2)
    ensures Announce(v.mode, v.scores[1], v.scores[2]) != Tie
  {
    MatchedCountFull(v.cards);
  }

  // ---------------------------------------------------------------------
  // The Game object

  class Game {
    var state: Screen
    var mode: Option<Mode>
    var gridSize: Option<int>
    var cards: seq<Card>
    var flipped: seq<nat>
    var currentPlayer: int
    var scores: map<int, int>
    var waiting: bool
    var waitStartTime: int
    var message: string
    var messageTimer: int

    /** The object's fields as a value. */
    function View(): Snapshot
      reads this
    {
      Snapshot(state, mode, gridSize, cards, flipped, currentPlayer, scores, waiting, waitStartTime,
               message, messageTimer)
    }

    ghost predicate Valid()
      reads this
    {
      Inv(View())
    }

    /** The object is valid when its fields hold a snapshot that keeps the invariant. */
    lemma ValidWhen(r: Snapshot)
      requires Inv(r) && View() == r
      ensures Valid()
    {
    }

    constructor()
      ensures Valid() && View() == Initial()
    {
      state := Menu;
      mode := None;
      gridSize := None;
      cards := [];
      flipped := [];
      currentPlayer := 1;
      scores := map[1 := 0, 2 := 0];
      waiting := false;
      waitStartTime := 0;
      message := "";
      messageTimer := 0;
      InitialInv();
    }

    /** setup_game; SetupInv shows that it keeps the invariant. */
    method SetupGame(m: Mode, size: int, deal: Deal)
      modifies this
      ensures View() == Setup(old(View()), m, size, deal)
    {
      mode := Some(m);
      gridSize := Some(size);
      NewRound();

      var cols := size / ROWS;
      cards := PlaceCards(deal.shuffled, ROWS, cols, Origin(WIDTH, cols), Origin(HEIGHT, ROWS), SPACING);
    }

    /** The part of setup_game that starts a round: nothing flipped, scores 0:0, player 1, 'playing'. */
    method NewRound()
      modifies this
      ensures View() == old(View()).(flipped := [], scores := map[1 := 0, 2 := 0], currentPlayer := 1,
                                     state := Playing)
    {
      flipped := [];
      scores := map[1 := 0, 2 := 0];
      currentPlayer := 1;
      state := Playing;
    }

    /** A menu button or key: record the choice, and start a game once both are made. */
    method Select(c: Choice, deal: Deal)
      requires Valid() && state == Menu && Offered(c) && ChoiceDeal(View(), c, deal)
      modifies this
      ensures Valid() && View() == Choose(old(View()), c, deal)
    {
      ghost var r := Choose(View(), c, deal);
      ChooseInv(View(), c, deal);
      match c {
        case ChooseMode(m) => mode := Some(m);
        case ChooseGrid(size) => gridSize := Some(size);
        case NoChoice =>
      }
      if Ready(mode, gridSize) {
        SetupGame(mode.value, gridSize.value, deal);
      }
      ValidWhen(r);
    }

    /** The card part of handle_click; the screen is 'playing'. */
    method ClickCard(k: int, now: int) returns (tone: Option<Note>)
      requires Valid() && state == Playing
      modifies this
      ensures Valid() && View() == Tap(old(View()), k, now)
      ensures tone == Tone(old(View()), k)
    {
      ghost var v := View();
      TapInv(v, k, now);
      tone := None;
      if !waiting && 0 <= k < |cards| && !cards[k].isFlipped && !cards[k].isMatched {
        cards := cards[k := cards[k].(isFlipped := true)];
        tone := Some(cards[k].note);
        flipped := flipped + [k];
        assert View() == TurnUp(v, k);
        TurnUpConsistent(v, k);
        if |flipped| == 2 {
          CheckMatch(now);
        }
      }
    }

    method CheckMatch(now: int)
      requires Consistent(View()) && |flipped| == 2 && state == Playing && !waiting
      modifies this
      ensures Valid() && View() == Resolve(old(View()), now)
    {
      ghost var r := Resolve(View(), now);
      ResolveInv(View(), now);
      var a, b := flipped[0], flipped[1];
      if cards[a].note == cards[b].note {
        ScorePair(now);
      } else {
        StartWait(now);
      }
      ValidWhen(r);
    }

    method ScorePair(now: int)
      requires |flipped| == 2 && flipped[0] < |cards| && flipped[1] < |cards|
      requires currentPlayer in scores && state == Playing
      requires cards[flipped[0]].note == cards[flipped[1]].note
      modifies this
      ensures View() == Resolve(old(View()), now)
    {
      var a, b := flipped[0], flipped[1];
      cards := cards[a := cards[a].(isMatched := true)][b := cards[b].(isMatched := true)];
      scores := scores[currentPlayer := scores[currentPlayer] + 1];
      flipped := [];
      Show("Match!", now);
      if AllMatched(cards) {
        state := GameOver;
      }
    }

    method StartWait(now: int)
      requires |flipped| == 2 && flipped[0] < |cards| && flipped[1] < |cards|
      requires currentPlayer in scores && state == Playing
      requires cards[flipped[0]].note != cards[flipped[1]].note
      modifies this
      ensures View() == Resolve(old(View()), now)
    {
      waiting := true;
      waitStartTime := now;
      Show("No Match!", now);
    }

    /** Show a message, timed from `now`. */
    method Show(text: string, now: int)
      modifies this
      ensures View() == old(View()).(message := text, messageTimer := now)
    {
      message := text;
      messageTimer := now;
    }

    /** R on the game-over screen. */
    method ReturnToMenu()
      requires Valid() && state == GameOver
      modifies this
      ensures Valid() && View() == ToMenu(old(View()))
    {
      ToMenuInv(View());
      state := Menu;
      mode := None;
      gridSize := None;
    }

    /** update: the two deadlines, in the order the source checks them. */
    method Update(now: int)
      requires Valid()
      modifies this
      ensures Valid() && View() == Expire(old(View()), now)
    {
      ExpireInv(View(), now);
      FinishWait(now);
      FadeMessage(now);
    }

    /** The first step of update. */
    method FinishWait(now: int)
      requires Consistent(View())
      modifies this
      ensures View() == EndWait(old(View()), now)
    {
      if waiting && now - waitStartTime > WAIT_DURATION {
        cards := TurnBack(cards, flipped);
        flipped := [];
        waiting := false;
        if mode == Some(Multi) {
          currentPlayer := if currentPlayer == 1 then 2 else 1;
        }
      }
    }

    /** The second step of update. */
    method FadeMessage(now: int)
      modifies this
      ensures View() == ClearMessage(old(View()), now)
    {
      if message != "" && now - messageTimer > MESSAGE_DURATION {
        message := "";
      }
    }

    method HandleClick(c: Click, now: int, deal: Deal) returns (tone: Option<Note>)
      requires Valid() && ClickDeal(View(), c, deal)
      modifies this
      ensures Valid() && View() == OnClick(old(View()), c, now, deal)
      ensures tone == if old(state) == Playing && c.Touch? then Tone(old(View()), c.card) else None
    {
      tone := None;
      match state
      case Menu =>
        if c.Press? {
          Select(ButtonChoice(c.button), deal);
        }
      case Playing =>
        if c.Touch? {
          tone := ClickCard(c.card, now);
        }
      case GameOver =>
    }

    /** The key events of `main`. */
    method HandleKey(key: Key, deal: Deal)
      requires Valid() && KeyDeal(View(), key, deal)
      modifies this
      ensures Valid() && View() == OnKey(old(View()), key, deal)
    {
      match state
      case Menu =>
        Select(KeyChoice(key), deal);
      case Playing =>
      case GameOver =>
        if key == KeyR {
          ReturnToMenu();
        }
    }
  }
}
