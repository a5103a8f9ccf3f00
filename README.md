# Note-matching game engine, in Dafny

This project models the game engine of the two versions of the "Truc Xanh
Music" memory game. In both versions a deck of face-down cards, each showing
a musical note, is laid out on a grid. A player flips two cards per turn. A
pair of equal notes is matched and scores a point. A mismatch stays visible
for a wait of one second, then turns back; in two-player mode the turn then
passes to the other player. The game is over when every card is matched.

- `board.dfy` (module `Board`) holds what the two versions share:
  - the card record;
  - the random deal as an input;
  - the row-major placement loop of `setup_game` (`PlaceCards`);
  - the un-flip loop of `update` (`TurnBack`);
  - the count of matched cards;
  - the game-over verdict.
- `green_bamboo.dfy` (module `GreenBamboo`) models `main_2.py`, "Green Bamboo
  Music". It has 29 notes, decks of 20 or 40 cards of 90 x 90 pixels, five
  hints per game, a Back button and a Play Again button.
- `truc_xanh.dfy` (module `TrucXanh`) models `main.py`. It has seven notes
  and 60 x 60 cards. There are no hints. R on the game-over screen returns to
  the menu. The "25 Pairs" and "15 Pairs" buttons ask for 50 and 30 cards,
  but `min(grid_size // 2, 7)` caps the sample at the seven notes. Both
  therefore deal the same fourteen notes, each twice, though in grids of
  5 x 10 and 5 x 6 cells (`TrucXanh.SevenPairs`), and a
  two-player game can never end in a tie (`TrucXanh.FinalTally`).

Each `Game` object is a Dafny `class` with the fields of the Python object.
The methods assign those fields in the same steps as the source. Cards are
values in a `seq<Card>` field. `flipped_cards` is a sequence of indices into
that field. `hint_card` is a `CardRef`: an index together with the setup
count `deck`, so that a reference that survives `setup_game` points to a deck
that is no longer on the table.

Each class has `View()`, which is its fields as a `Snapshot` value. Every
method is proved against a pure transition on snapshots (`Setup`, `Tap`,
`Resolve`, `Hint`, `Expire`, `OnClick`, `OnKey`, ...). `Inv` is the invariant
every method keeps. It says:
- at most two cards are flipped, and they are exactly the face-up unmatched cards;
- two flipped cards mean a wait;
- each point is one matched pair;
- the game is over exactly when the deck is fully matched;
- a single player keeps the turn, so player 2 never scores;
- (main.py) nothing is flipped and nobody waits outside a game;
- (main.py) the menu never holds both choices at once.

The inputs the Python code gets from its libraries become parameters:
- the result of `random.sample` and `random.shuffle` is a `Deal`, checked by `IsDealOf`;
- the clock `pygame.time.get_ticks()` is an integer `now`;
- a mouse press is the button or card index it hits (`Click`);
- a key press is a `Key`;
- the tone a flip plays is the method's `Option<Note>` result.

Every deadline expires only when strictly more than its duration has passed.

Four behaviours of the code are modelled as written, even where they look
unintended:
- `main_2.py`'s `setup_game` leaves `waiting`, `message` and `hint_card` as they were.
- `use_hint` does not clear the mark of an earlier hinted card, so two cards can carry `is_hint`.
- `main.py` flips a card without testing `len(flipped_cards) < 2`. The invariant shows that the test is never needed.
- `main_2.py`'s Play Again and R restart the game, while `main.py`'s R returns to the menu.

## Model

| member | source | states |
|---|---|---|
| Board.PairedNotes | main_2.py:155-158 | a deal of `pairs` distinct notes shuffled twice has `2*pairs` notes, each sampled note exactly twice and no other note |
| Board.PlaceCards | main_2.py:167-173 | the nested row/column loop appends, row-major, one face-down card per cell whose index is below the number of notes; result equals `Layout` |
| Board.LayoutKeepsNotes | main.py:121-127 | when the grid has room for every note, the laid-out deck holds exactly the shuffled notes in order, all face down, unmatched and unhinted |
| Board.MatchedCountFull | main_2.py:253 | `all(card.is_matched ...)` holds exactly when the matched count equals the deck size |
| Board.MatchedCountSet | main_2.py:248 | setting one card's flags changes the matched count by exactly that card's change |
| Board.TurnBack | main_2.py:282-283 | the loop over `flipped_cards` clears `is_flipped` of exactly those cards and changes nothing else |
| Board.UnflippedKeepsMatches | main.py:213-214 | turning cards back keeps the deck size, the matched count and whether all are matched |
| Board.Winner | main_2.py:214 | the winner is 1 exactly when s1 > s2, 2 exactly when s2 > s1, and 0 exactly on equal scores |
| Board.Announce | main_2.py:215-218 | single mode shows player 1's score; otherwise never a score, a tie exactly on equal scores, else the player with strictly more pairs |
| GreenBamboo.PresetDeck | main_2.py:145-173 | for 20 and 40 cards the deck fills the grid exactly, each sampled note exactly twice, every card face down and unmatched |
| GreenBamboo.InitialInv | main_2.py:99-115 | the initial menu state satisfies the invariant |
| GreenBamboo.Setup | main_2.py:145-173 | setup_game gives 'playing', the chosen mode and size, the deck dealt from the deal (`Dealt`) under a new setup count, nothing flipped, scores 0:0, player 1, five hints, and keeps `waiting`, `message`, `hint_card` and the three timers |
| GreenBamboo.SetupInv | main_2.py:145-173 | a setup from any valid state yields a valid state |
| GreenBamboo.SelectMode | main_2.py:135-138 | the mode is recorded; a game starts exactly when a grid size is chosen too, and then the result is exactly `Setup` with that mode and size; otherwise only the mode changes |
| GreenBamboo.SelectGridSize | main_2.py:140-143 | the grid size is recorded; a game starts exactly when a mode is chosen too, and then the result is exactly `Setup` with that mode and size; otherwise only the size changes |
| GreenBamboo.SelectModeInv | main_2.py:135-138 | choosing a mode in the menu keeps the invariant |
| GreenBamboo.SelectGridSizeInv | main_2.py:140-143 | choosing a grid size in the menu keeps the invariant |
| GreenBamboo.Back | main_2.py:272-275 | back_to_menu gives the menu with neither mode nor grid size chosen and changes no other field: the cards, flipped list, scores, player, a pending wait, the message, the hint and the timers stay |
| GreenBamboo.BackInv | main_2.py:272-275 | back_to_menu keeps the invariant |
| GreenBamboo.BackNeedsTwoSelections | main_2.py:272-275 | after Back a single choice of mode or of grid size never starts a game |
| GreenBamboo.WaitSurvivesBack | main_2.py:145-153 | a wait pending at Back is still pending in the game the next two choices start |
| GreenBamboo.Resolve | main_2.py:245-259 | a pair marks exactly those two cards matched and changes no other card, adds exactly 1 to the player's score, empties `flipped_cards`, keeps the player, mode, grid size, hints and hint reference, and ends the game exactly when all are matched; a mismatch keeps cards, scores and the flipped pair, starts the wait and changes nothing else but the message |
| GreenBamboo.MatchPairInv | main_2.py:246-254 | a matched pair keeps every point equal to one matched pair and leaves no card face up and unmatched |
| GreenBamboo.ResolveInv | main_2.py:245-259 | check_match restores the full invariant after the second flip |
| GreenBamboo.Tap | main_2.py:232-239 | a press on a card that cannot flip changes nothing; the first card of a turn is only turned up and becomes the only flipped card; the second is turned up and check_match runs at once |
| GreenBamboo.Tone | main_2.py:234-236 | a tone plays exactly when the card flips, and it is that card's note |
| GreenBamboo.TurnUpConsistent | main_2.py:235-237 | flipping a card keeps at most two, distinct, in-range flipped cards that are exactly the face-up unmatched ones |
| GreenBamboo.TapInv | main_2.py:232-239 | a press on a card keeps the invariant |
| GreenBamboo.PartnerFrom | main_2.py:264-265 | the result is a same-note unmatched other card, and no earlier index is one; none means there is none |
| GreenBamboo.FindPartner | main_2.py:264-270 | the scan with `break` returns the first partner card, or none |
| GreenBamboo.Hint | main_2.py:261-270 | without a hint left or with other than one card flipped nothing changes; a hint is spent exactly when one is left, one card is flipped and a partner exists; then the first partner is marked and referenced, the timer starts, exactly one hint is spent, earlier marks stay, and no other field changes |
| GreenBamboo.HintInv | main_2.py:261-270 | use_hint keeps the invariant, so hints never go negative |
| GreenBamboo.EndWait | main_2.py:281-287 | once strictly more than 1000 ms have passed in a wait, exactly the cards in `flipped_cards` turn face down, the list empties, the wait ends and the player toggles in multi mode only; every other card, every other field of a card, and every other field of the game, timers included, stay |
| GreenBamboo.ClearMessage | main_2.py:288-289 | the message is emptied exactly when it is non-empty and strictly more than 1000 ms old; no other field changes |
| GreenBamboo.ClearHint | main_2.py:290-292 | the hint reference is dropped exactly when strictly more than 3000 ms have passed; then the referenced card, if still on the table, loses its mark and no other card changes; otherwise no card changes |
| GreenBamboo.Expire | main_2.py:280-292 | update: the wait, the message and the hint each expire only after strictly more than their duration; only the expired hint's card, if still on the table, loses its mark; apart from that mark, only the cards of an ended wait change, and only by turning face down; the timers, mode, grid size, scores, state, hints and setup count are untouched |
| GreenBamboo.EndWaitInv | main_2.py:281-287 | the end of the wait keeps the invariant |
| GreenBamboo.ClearHintInv | main_2.py:290-292 | clearing the hint keeps the invariant |
| GreenBamboo.ExpireInv | main_2.py:280-292 | update keeps the invariant |
| GreenBamboo.FinalTally | main_2.py:213-218 | at game over the scores add up to the number of pairs, and a single player's announced score is all of them |
| GreenBamboo.Game.constructor | main_2.py:99-115 | a new game is the initial menu state and is valid |
| GreenBamboo.Game.SetMode | main_2.py:135-138 | set_mode performs `SelectMode` and keeps the invariant |
| GreenBamboo.Game.SetGridSize | main_2.py:140-143 | set_grid_size performs `SelectGridSize` and keeps the invariant |
| GreenBamboo.Game.SetupGame | main_2.py:145-173 | setup_game's assignments and placement loop produce `Setup` |
| GreenBamboo.Game.NewRound | main_2.py:148-153 | the reset assignments of setup_game, nothing else changed |
| GreenBamboo.Game.ClickCard | main_2.py:232-239 | the card loop of handle_click performs `Tap`, returns the tone and keeps the invariant |
| GreenBamboo.Game.CheckMatch | main_2.py:245-259 | check_match performs `Resolve` and restores the invariant |
| GreenBamboo.Game.ScorePair | main_2.py:246-254 | the match branch performs `Resolve` |
| GreenBamboo.Game.StartWait | main_2.py:255-259 | the mismatch branch performs `Resolve` |
| GreenBamboo.Game.Show | main_2.py:251-252 | a message and its timer are set, nothing else |
| GreenBamboo.Game.UseHint | main_2.py:261-270 | use_hint performs `Hint` and keeps the invariant |
| GreenBamboo.Game.BackToMenu | main_2.py:272-275 | back_to_menu performs `Back` and keeps the invariant |
| GreenBamboo.Game.RestartGame | main_2.py:277-278 | restart_game sets up again with the current mode and grid size and keeps the invariant |
| GreenBamboo.Game.Update | main_2.py:280-292 | update performs `Expire` and keeps the invariant |
| GreenBamboo.Game.FinishWait | main_2.py:281-287 | the wait step of update performs `EndWait` |
| GreenBamboo.Game.FadeMessage | main_2.py:288-289 | the message step of update |
| GreenBamboo.Game.FadeHint | main_2.py:290-292 | the hint step of update performs `ClearHint` |
| GreenBamboo.Game.HandleClick | main_2.py:223-243 | handle_click dispatches the buttons of the current screen and the cards while playing, keeps the invariant, and returns the tone of a flip |
| GreenBamboo.Game.HandleKey | main_2.py:314-325 | keys 1-4 choose in the menu and R restarts after a game; the invariant is kept |
| TrucXanh.PresetDeck | main.py:108-127 | for 50 and 30 grid cells the deck is `2*min(grid_size//2, len(pool))` cards in the first cells row by row, each sampled note exactly twice, all face down |
| TrucXanh.SampleCoversPool | main.py:110 | a sample of as many distinct notes as the pool has takes every note of the pool |
| TrucXanh.SevenPairs | main.py:108-127 | both menu grid sizes deal the same 14 cards, each of the seven notes exactly twice |
| TrucXanh.InitialInv | main.py:79-91 | the initial menu state satisfies the invariant |
| TrucXanh.Setup | main.py:99-127 | setup_game gives 'playing', the chosen mode and size, the deck dealt from the deal (`Dealt`), nothing flipped, scores 0:0, player 1, and keeps `waiting`, `message` and both timers |
| TrucXanh.SetupInv | main.py:99-127 | a setup with a menu grid size yields a valid state whatever came before |
| TrucXanh.Choose | main.py:176-185 | a menu choice is recorded; a game starts exactly when both mode and grid size are chosen, and then the result is exactly `Setup` with them; else nothing but the choice changes |
| TrucXanh.ChooseInv | main.py:174-185 | a menu choice keeps the invariant |
| TrucXanh.ToMenu | main.py:248-251 | R gives the menu with neither choice and changes no other field |
| TrucXanh.ToMenuInv | main.py:248-251 | R after a game keeps the invariant |
| TrucXanh.Resolve | main.py:195-209 | a pair marks exactly those two cards matched and changes no other card, adds exactly 1 to the player's score, empties `flipped_cards`, keeps the player, mode and grid size, and ends the game exactly when all are matched; a mismatch keeps cards, scores and the flipped pair, starts the wait and changes nothing else but the message |
| TrucXanh.MatchPairInv | main.py:196-204 | a matched pair keeps every point equal to one matched pair and leaves no card face up and unmatched |
| TrucXanh.ResolveInv | main.py:195-209 | check_match restores the full invariant after the second flip |
| TrucXanh.Tap | main.py:186-193 | a press on a card that cannot flip changes nothing; the first card of a turn is only turned up and becomes the only flipped card; the second is turned up and check_match runs at once |
| TrucXanh.Tone | main.py:188-190 | a tone plays exactly when the card flips, and it is that card's note |
| TrucXanh.TurnUpConsistent | main.py:188-191 | without a count test, flipping still keeps at most two, distinct, in-range flipped cards, because two flipped cards always mean a wait |
| TrucXanh.TapInv | main.py:186-193 | a press on a card keeps the invariant |
| TrucXanh.EndWait | main.py:212-218 | once strictly more than 1000 ms have passed in a wait, exactly the cards in `flipped_cards` turn face down, the list empties, the wait ends and the player toggles in multi mode only; every other card, every other field of a card, and every other field of the game, timers included, stay |
| TrucXanh.ClearMessage | main.py:219-220 | the message is emptied exactly when it is non-empty and strictly more than 1000 ms old; no other field changes |
| TrucXanh.Expire | main.py:211-220 | update: the wait and the message expire only after strictly more than 1000 ms; only the cards of an ended wait change, and only by turning face down; the timers, mode, grid size, scores and state are untouched |
| TrucXanh.ExpireInv | main.py:211-220 | update keeps the invariant |
| TrucXanh.ButtonChoice | main.py:176-183 | "1 Player" chooses single, "2 Players" multi, "25 Pairs" grid size 50 and "15 Pairs" 30, each exactly |
| TrucXanh.KeyChoice | main.py:238-245 | keys 1-4 choose as the buttons "1 Player", "2 Players", "25 Pairs" and "15 Pairs" do; exactly R and any other key choose nothing |
| TrucXanh.OnClickInv | main.py:172-193 | every mouse press keeps the invariant |
| TrucXanh.OnKeyInv | main.py:236-251 | every key press keeps the invariant |
| TrucXanh.IdleKeyInMenu | main.py:246-247 | in the menu a key other than 1-4 changes nothing, because the start test never passes there |
| TrucXanh.FreshStart | main.py:99-106 | a game started from the menu starts without a pending wait, nothing flipped and scores 0:0 |
| TrucXanh.RestartNeedsTwoChoices | main.py:248-251 | after R one choice does not start a game, and the second choice does |
| TrucXanh.FinalTally | main.py:162-167 | at game over the scores add up to 7, a single player's score is 7, and no tie can be announced |
| TrucXanh.Game.constructor | main.py:79-91 | a new game is the initial menu state and is valid |
| TrucXanh.Game.SetupGame | main.py:99-127 | setup_game's assignments and placement loop produce `Setup` |
| TrucXanh.Game.NewRound | main.py:103-106 | the reset assignments of setup_game, nothing else changed |
| TrucXanh.Game.Select | main.py:174-185 | a menu button or key performs `Choose` and keeps the invariant |
| TrucXanh.Game.ClickCard | main.py:186-193 | the card loop of handle_click performs `Tap`, returns the tone and keeps the invariant |
| TrucXanh.Game.CheckMatch | main.py:195-209 | check_match performs `Resolve` and restores the invariant |
| TrucXanh.Game.ScorePair | main.py:197-204 | the match branch performs `Resolve` |
| TrucXanh.Game.StartWait | main.py:205-209 | the mismatch branch performs `Resolve` |
| TrucXanh.Game.Show | main.py:201-202 | a message and its timer are set, nothing else |
| TrucXanh.Game.ReturnToMenu | main.py:248-251 | R performs `ToMenu` and keeps the invariant |
| TrucXanh.Game.Update | main.py:211-220 | update performs `Expire` and keeps the invariant |
| TrucXanh.Game.FinishWait | main.py:212-218 | the wait step of update performs `EndWait` |
| TrucXanh.Game.FadeMessage | main.py:219-220 | the message step of update |
| TrucXanh.Game.HandleClick | main.py:172-193 | handle_click dispatches menu buttons or cards by screen, keeps the invariant, and returns the tone of a flip |
| TrucXanh.Game.HandleKey | main.py:236-251 | in the menu every key is a choice followed by the start test; R after a game returns to the menu; the invariant is kept |

## Left out

- Rendering is not modelled. This covers `draw`, `Button.draw`, fonts, colours and card images, and the hover state of buttons (`check_hover`). The winner expression of `draw` is kept as `Board.Winner` and `Board.Announce`.
- Sound is not modelled. This covers loading the note images and sounds with their file-error fallback, `create_note_sound`'s floating-point synthesis, and `.play()`. A flip returns the note it would play.
- The frame loop is not modelled. This covers `asyncio`, `clock.tick`, the Emscripten start-up and the QUIT event. The model keeps the key mapping and one `update` per call.
- The Exit buttons, which call `pygame.quit`, are not modelled.
- The random number generator is not modelled. Its results are the `Deal` parameter, which is constrained to what `random.sample` and `random.shuffle` can return.
- Pixel hit-testing with `Rect.collidepoint` is not modelled. A press is given as the button or card index it hits. In `main_2.py` the Hint and Back buttons lie below every card row, so no press hits a button and a card at once.
- The card rectangles are kept only as their top-left pixel.
- Cards are values in a sequence, not shared objects. `flipped_cards` and `hint_card` are indices into it. A reference to a card of an earlier deck is a `CardRef` whose `deck` is stale; clearing its mark changes nothing in the current deck.
- `check_match` and `update` read `pygame.time.get_ticks()` up to three times; the model reads one `now` per call. The readings of one call differ by at most the time the call itself takes, which is far below the 1000 ms and 3000 ms durations.
- GreenBamboo.Game.SetupGame: does not itself promise the invariant; its callers (`SetMode`, `SetGridSize`, `RestartGame`) prove it through `SetupInv`.
