/**
 * Vocabulary shared by the two versions of the note-matching game
 * (main.py, "Truc Xanh Music", and main_2.py, "Green Bamboo Music"): the
 * card record, the row-major placement of a shuffled deck, the count of
 * matched cards, the un-flip loop of `update` and the game-over verdict.
 */
module Board {

  datatype Option<T> = None | Some(value: T)

  /** A note name such as "C" or "A4"; it selects a card's face and its tone. */
  type Note = string

  datatype Mode = Single | Multi

  /** The three screens of the game's state machine: 'menu', 'playing', 'game_over'. */
  datatype Screen = Menu | Playing | GameOver

  /**
   * One card: its note, the top-left pixel of its rectangle and its flags.
   * Only main_2.py ever sets `isHint`.
   */
  datatype Card = Card(note: Note, x: int, y: int, isFlipped: bool, isMatched: bool, isHint: bool)

  /** A card as `Card(note, x, y)` creates it: face down, unmatched, not hinted. */
  function FaceDown(note: Note, x: int, y: int): Card
  {
    Card(note, x, y, false, false, false)
  }

  function Min(a: int, b: int): int
  {
    if a <= b then a else b
  }

  /** The player whose turn follows `p`'s: `2 if p == 1 else 1`. */
  function Other(p: int): int
  {
    if p == 1 then 2 else 1
  }

  /** Python truthiness of the pending menu selection: `mode and grid_size`. */
  predicate Ready(mode: Option<Mode>, gridSize: Option<int>)
  {
    mode.Some? && gridSize.Some? && gridSize.value != 0
  }

  // ---------------------------------------------------------------------
  // The random inputs of setup_game

  predicate Distinct(s: seq<Note>)
  {
    forall i, j :: 0 <= i < j < |s| ==> s[i] != s[j]
  }

  /** What the random number generator hands one call of setup_game. */
  datatype Deal = Deal(selected: seq<Note>, shuffled: seq<Note>)

  /**
   * `deal.selected` is a possible result of `random.sample(pool, pairs)`
   * (distinct entries of `pool`), and `deal.shuffled` a possible state of the
   * list `selected * 2` after `random.shuffle` (the same multiset).
   */
  predicate IsDealOf(deal: Deal, pool: seq<Note>, pairs: int)
  {
    && |deal.selected| == pairs
    && Distinct(deal.selected)
    && (forall i :: 0 <= i < |deal.selected| ==> deal.selected[i] in pool)
    && multiset(deal.shuffled) == multiset(deal.selected + deal.selected)
  }

  lemma {:induction false} DistinctOccursOnce(s: seq<Note>, n: Note)
    requires Distinct(s)
    ensures multiset(s)[n] == if n in s then 1 else 0
  {
    if s != [] {
      assert s == [s[0]] + s[1..];
      assert Distinct(s[1..]) by {
        forall i, j | 0 <= i < j < |s[1..]| ensures s[1..][i] != s[1..][j] {
          assert s[1..][i] == s[i + 1] && s[1..][j] == s[j + 1];
        }
      }
      DistinctOccursOnce(s[1..], n);
      assert s[0] !in s[1..] by {
        forall i | 0 <= i < |s[1..]| ensures s[1..][i] != s[0] {
          assert s[1..][i] == s[i + 1];
        }
      }
    }
  }

  /** Every note of a deal's sample sits exactly twice in the shuffled deck; no other note does. */
  lemma PairedNotes(deal: Deal, pool: seq<Note>, pairs: int, n: Note)
    requires IsDealOf(deal, pool, pairs)
    ensures |deal.shuffled| == 2 * pairs
    ensures multiset(deal.shuffled)[n] == if n in deal.selected then 2 else 0
  {
    DistinctOccursOnce(deal.selected, n);
    assert |multiset(deal.shuffled)| == |deal.shuffled|;
  }

  // ---------------------------------------------------------------------
  // Placing the deck on the grid

  /** Number of cells visited by `for i in range(rows): for j in range(cols)`. */
  function Cells(rows: int, cols: int): nat
  {
    if rows <= 0 || cols <= 0 then 0 else rows * cols
  }

  /**
   * The deck as setup_game lays it out: note k of the shuffled list becomes a
   * face-down card in row k / cols and column k % cols of the grid, `step`
   * pixels apart from (x0, y0). Notes beyond the grid's cells are dropped and
   * cells beyond the notes stay empty.
   */
  function Layout(notes: seq<Note>, rows: int, cols: int, x0: int, y0: int, step: int): seq<Card>
  {
    var n := Min(Cells(rows, cols), |notes|);
    seq(n, k requires 0 <= k < n => FaceDown(notes[k], x0 + (k % cols) * step, y0 + (k / cols) * step))
  }

  /** The notes of a row of cards, in order. */
  function NotesOf(cards: seq<Card>): (ns: seq<Note>)
    ensures |ns| == |cards|
    ensures forall k :: 0 <= k < |cards| ==> ns[k] == cards[k].note
  {
    seq(|cards|, k requires 0 <= k < |cards| => cards[k].note)
  }

  lemma MulAtLeast(a: int, c: int)
    requires a >= 1 && c >= 0
    ensures a * c >= c
  {
  }

  /** Cell (i, j) of a row-major grid with `cols` columns has index i * cols + j. */
  lemma RowMajor(i: int, j: int, cols: int)
    requires 0 <= i && 0 <= j < cols
    ensures (i * cols + j) / cols == i && (i * cols + j) % cols == j
  {
    var q, r := (i * cols + j) / cols, (i * cols + j) % cols;
    assert (q - i) * cols == j - r;
    if q > i {
      MulAtLeast(q - i, cols);
      assert false;
    } else if q < i {
      MulAtLeast(i - q, cols);
      assert false;
    }
  }

  /** The first |cards| cards are those of Layout: note k in row k / cols, column k % cols. */
  ghost predicate Placed(cards: seq<Card>, notes: seq<Note>, cols: int, x0: int, y0: int, step: int)
  {
    |cards| <= |notes| &&
    (cards != [] ==> cols > 0) &&
    forall k :: 0 <= k < |cards| ==>
      cards[k] == FaceDown(notes[k], x0 + (k % cols) * step, y0 + (k / cols) * step)
  }

  /** Appending the card of cell (i, j), whose index is the next one, keeps the prefix placed. */
  lemma PlaceNext(cards: seq<Card>, notes: seq<Note>, i: int, j: int, cols: int, x0: int, y0: int, step: int)
    requires Placed(cards, notes, cols, x0, y0, step)
    requires 0 <= i && 0 <= j < cols && |cards| == i * cols + j < |notes|
    ensures Placed(cards + [FaceDown(notes[i * cols + j], x0 + j * step, y0 + i * step)], notes, cols, x0, y0, step)
  {
    RowMajor(i, j, cols);
  }

  /** A placed prefix as long as the grid allows is the layout itself. */
  lemma PlacedIsLayout(cards: seq<Card>, notes: seq<Note>, rows: int, cols: int, x0: int, y0: int, step: int)
    requires Placed(cards, notes, cols, x0, y0, step)
    requires |cards| == Min(Cells(rows, cols), |notes|)
    ensures cards == Layout(notes, rows, cols, x0, y0, step)
  {
  }

  /**
   * The nested loops of setup_game: visit the grid row by row and append a
   * card for every cell whose row-major index is below the number of notes.
   */
  method PlaceCards(notes: seq<Note>, rows: int, cols: int, x0: int, y0: int, step: int)
    returns (cards: seq<Card>)
    ensures cards == Layout(notes, rows, cols, x0, y0, step)
  {
    cards := [];
    var i := 0;
    while i < rows
      invariant 0 <= i <= if rows < 0 then 0 else rows
      invariant |cards| == Min(Cells(i, cols), |notes|)
      invariant Placed(cards, notes, cols, x0, y0, step)
    {
      var j := 0;
      while j < cols
        invariant 0 <= j <= if cols < 0 then 0 else cols
        invariant |cards| == Min(Cells(i, cols) + j, |notes|)
        invariant Placed(cards, notes, cols, x0, y0, step)
      {
        var idx := i * cols + j;
        if idx < |notes| {
          PlaceNext(cards, notes, i, j, cols, x0, y0, step);
          cards := cards + [FaceDown(notes[idx], x0 + j * step, y0 + i * step)];
        }
        j := j + 1;
      }
      assert Cells(i + 1, cols) == Cells(i, cols) + j by {
        if cols > 0 {
          assert Cells(i, cols) == i * cols;
          assert (i + 1) * cols == i * cols + cols;
        }
      }
      i := i + 1;
    }
    assert Cells(i, cols) == Cells(rows, cols);
    PlacedIsLayout(cards, notes, rows, cols, x0, y0, step);
  }

  /** When the grid has room for every note, the deck holds exactly the notes, in order. */
  lemma LayoutKeepsNotes(notes: seq<Note>, rows: int, cols: int, x0: int, y0: int, step: int)
    requires |notes| <= Cells(rows, cols)
    ensures NotesOf(Layout(notes, rows, cols, x0, y0, step)) == notes
    ensures forall k :: 0 <= k < |notes| ==>
      var c := Layout(notes, rows, cols, x0, y0, step)[k]; !c.isFlipped && !c.isMatched && !c.isHint
  {
  }

  // ---------------------------------------------------------------------
  // Matched cards

  /** `all(card.is_matched for card in cards)`. */
  predicate AllMatched(cards: seq<Card>)
  {
    forall k :: 0 <= k < |cards| ==> cards[k].isMatched
  }

  function Bit(b: bool): nat
  {
    if b then 1 else 0
  }

  /** How many cards are matched. */
  function MatchedCount(cards: seq<Card>): nat
  {
    if cards == [] then 0 else Bit(cards[0].isMatched) + MatchedCount(cards[1..])
  }

  /** Every card is matched exactly when the matched count reaches the deck size. */
  lemma {:induction false} MatchedCountFull(cards: seq<Card>)
    ensures MatchedCount(cards) <= |cards|
    ensures MatchedCount(cards) == |cards| <==> AllMatched(cards)
  {
    if cards != [] {
      MatchedCountFull(cards[1..]);
      assert AllMatched(cards) <==> cards[0].isMatched && AllMatched(cards[1..]) by {
        if cards[0].isMatched && AllMatched(cards[1..]) {
          forall k | 0 <= k < |cards| ensures cards[k].isMatched {
            if k > 0 { assert cards[k] == cards[1..][k - 1]; }
          }
        }
        if AllMatched(cards) {
          forall k | 0 <= k < |cards[1..]| ensures cards[1..][k].isMatched {
            assert cards[1..][k] == cards[k + 1];
          }
        }
      }
    }
  }

  /** A deck in which no card is matched has a matched count of zero. */
  lemma {:induction false} MatchedCountNone(cards: seq<Card>)
    requires forall k :: 0 <= k < |cards| ==> !cards[k].isMatched
    ensures MatchedCount(cards) == 0
  {
    if cards != [] {
      assert forall k :: 0 <= k < |cards[1..]| ==> cards[1..][k] == cards[k + 1];
      MatchedCountNone(cards[1..]);
    }
  }

  /** Replacing one card changes the matched count by the change of that card's flag. */
  lemma {:induction false} MatchedCountSet(cards: seq<Card>, i: int, c: Card)
    requires 0 <= i < |cards|
    ensures MatchedCount(cards[i := c]) == MatchedCount(cards) - Bit(cards[i].isMatched) + Bit(c.isMatched)
  {
    if i == 0 {
      assert cards[i := c][1..] == cards[1..];
    } else {
      assert cards[i := c][1..] == cards[1..][i - 1 := c];
      MatchedCountSet(cards[1..], i - 1, c);
    }
  }

  /** Two decks with the same matched flags, card by card, have the same matched count. */
  lemma {:induction false} MatchedCountSameFlags(a: seq<Card>, b: seq<Card>)
    requires |a| == |b|
    requires forall k :: 0 <= k < |a| ==> a[k].isMatched == b[k].isMatched
    ensures MatchedCount(a) == MatchedCount(b)
    ensures AllMatched(a) <==> AllMatched(b)
  {
    if a != [] {
      assert forall k :: 0 <= k < |a[1..]| ==> a[1..][k] == a[k + 1] && b[1..][k] == b[k + 1];
      MatchedCountSameFlags(a[1..], b[1..]);
    }
  }

  // ---------------------------------------------------------------------
  // Turning the unmatched pair back after the mismatch wait

  /** The deck after `card.is_flipped = False` for every card whose index is in `picks`. */
  function Unflipped(cards: seq<Card>, picks: seq<nat>): seq<Card>
  {
    seq(|cards|, k requires 0 <= k < |cards| =>
      if k in picks then cards[k].(isFlipped := false) else cards[k])
  }

  /** The loop `for card in self.flipped_cards: card.is_flipped = False` of `update`. */
  method TurnBack(cards: seq<Card>, picks: seq<nat>) returns (r: seq<Card>)
    requires forall i :: 0 <= i < |picks| ==> picks[i] < |cards|
    ensures r == Unflipped(cards, picks)
  {
    r := cards;
    for i := 0 to |picks|
      invariant |r| == |cards|
      invariant forall k :: 0 <= k < |r| ==>
        r[k] == if k in picks[..i] then cards[k].(isFlipped := false) else cards[k]
    {
      assert picks[..i + 1] == picks[..i] + [picks[i]];
      r := r[picks[i] := r[picks[i]].(isFlipped := false)];
    }
    assert picks[..|picks|] == picks;
  }

  /** Turning cards back touches neither the notes, the positions nor the matched and hint flags. */
  lemma UnflippedKeepsMatches(cards: seq<Card>, picks: seq<nat>)
    ensures |Unflipped(cards, picks)| == |cards|
    ensures MatchedCount(Unflipped(cards, picks)) == MatchedCount(cards)
    ensures AllMatched(Unflipped(cards, picks)) <==> AllMatched(cards)
  {
    MatchedCountSameFlags(Unflipped(cards, picks), cards);
  }

  // ---------------------------------------------------------------------
  // The game-over screen

  /** `1 if s1 > s2 else 2 if s2 > s1 else 0`, where 0 stands for a tie. */
  function Winner(s1: int, s2: int): (w: int)
    ensures w == 1 <==> s1 > s2
    ensures w == 2 <==> s2 > s1
    ensures w == 0 <==> s1 == s2
  {
    if s1 > s2 then 1 else if s2 > s1 then 2 else 0
  }

  /** What the game-over screen announces. */
  datatype Verdict = Score(points: int) | Wins(player: int) | Tie

  /**
   * Single mode shows player 1's score; any other mode names the player with
   * strictly more pairs, or a tie.
   */
  function Announce(mode: Option<Mode>, s1: int, s2: int): (v: Verdict)
    ensures mode == Some(Single) ==> v == Score(s1)
    ensures mode != Some(Single) ==> (v == Tie <==> s1 == s2)
    ensures mode != Some(Single) ==> !v.Score?
    ensures mode != Some(Single) && v.Wins? ==> (v.player == 1 && s1 > s2) || (v.player == 2 && s2 > s1)
  {
    if mode == Some(Single) then Score(s1)
    else
      var w := Winner(s1, s2);
      if w != 0 then Wins(w) else Tie
  }
}
