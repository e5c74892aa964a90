/// The premade-character screen of src/State/NewGame.cpp: three premade
/// dudes, a cyclic selection among them, and starting the game with the
/// selected one.
module NewGame {
  import opened Objects
  import Game
  import Seqs

  /** `_selectedCharacter`: an index into the three premade characters. */
  type Selection = s: int | 0 <= s < 3

  /** `doNext`'s step: up by one, from the last back to the first. */
  function NextSelection(s: Selection): (r: Selection)
    ensures r == (s + 1) % 3
  {
    if s < 2 then s + 1 else 0
  }

  /** `doPrev`'s step: down by one, from the first to the last. */
  function PrevSelection(s: Selection): (r: Selection)
    ensures r == (s + 2) % 3
  {
    if s > 0 then s - 1 else 2
  }

  /** Previous undoes next and next undoes previous; three nexts (or three previouses) come back to the start, and no fewer do. */
  lemma SelectionCycle(s: Selection)
    ensures PrevSelection(NextSelection(s)) == s && NextSelection(PrevSelection(s)) == s
    ensures NextSelection(NextSelection(NextSelection(s))) == s
    ensures PrevSelection(PrevSelection(PrevSelection(s))) == s
    ensures NextSelection(s) != s && NextSelection(NextSelection(s)) != s
  {
  }

  /** `State::NewGame`. */
  class NewGame {
    /** The `State` part of the screen, as the game's state stack sees it. */
    const state: Game.State
    /** `_characters`: combat, stealth, diplomat once initialised. */
    var characters: seq<GameObject>
    var selectedCharacter: Selection
    /** The dude `_changeCharacter` displays. */
    var shown: GameObject?

    /** Before initialisation there are no characters; afterwards exactly three, and the displayed one is the selected one. */
    ghost predicate Valid()
      reads this, state
    {
      && state.kind == Game.NewGameState
      && (!state.initialized ==> characters == [])
      && (state.initialized ==> |characters| == 3 && shown == characters[selectedCharacter])
    }

    constructor ()
      ensures Valid() && fresh(state) && state.kind == Game.NewGameState && !state.initialized
      ensures characters == [] && selectedCharacter == 0 && shown == null
    {
      state := new Game.State(Game.NewGameState);
      characters, selectedCharacter, shown := [], 0, null;
    }

    /**
     * `init`: the first call makes the screen fullscreen and modal and creates
     * the three premade dudes (combat, stealth, diplomat, in that order),
     * displaying the selected one; later calls do nothing.
     */
    method Init()
      requires Valid()
      modifies this`characters, this`shown, state`initialized, state`fullscreen, state`modal
      ensures Valid() && state.initialized && |characters| == 3
      ensures state.active == old(state.active) && state.events == old(state.events)
      ensures old(state.initialized) ==>
        && characters == old(characters) && shown == old(shown)
        && state.fullscreen == old(state.fullscreen) && state.modal == old(state.modal)
      ensures !old(state.initialized) ==>
        && state.fullscreen && state.modal
        && (forall i :: 0 <= i < 3 ==> fresh(characters[i]) && characters[i].kind == DudeObject)
        && characters[0] != characters[1] && characters[1] != characters[2] && characters[0] != characters[2]
      ensures selectedCharacter == old(selectedCharacter)
    {
      if state.initialized {
        return;
      }
      state.Init();
      var combat := new GameObject(DudeObject);
      characters := characters + [combat];
      var stealth := new GameObject(DudeObject);
      characters := characters + [stealth];
      var diplomat := new GameObject(DudeObject);
      characters := characters + [diplomat];
      shown := characters[selectedCharacter];
    }

    /** `doNext`: the next character, cyclically, is selected and displayed. */
    method DoNext()
      requires Valid() && state.initialized
      modifies this`selectedCharacter, this`shown
      ensures Valid()
      ensures selectedCharacter == NextSelection(old(selectedCharacter))
    {
      if selectedCharacter < 2 {
        selectedCharacter := selectedCharacter + 1;
      } else {
        selectedCharacter := 0;
      }
      shown := characters[selectedCharacter];
    }

    /** `doPrev`: the previous character, cyclically, is selected and displayed. */
    method DoPrev()
      requires Valid() && state.initialized
      modifies this`selectedCharacter, this`shown
      ensures Valid()
      ensures selectedCharacter == PrevSelection(old(selectedCharacter))
    {
      if selectedCharacter > 0 {
        selectedCharacter := selectedCharacter - 1;
      } else {
        selectedCharacter := 2;
      }
      shown := characters[selectedCharacter];
    }

    /**
     * `doBeginGame`: the selected character becomes the player, and the
     * game's state stack is replaced by a single new location state.
     */
    method DoBeginGame(game: Game.Game)
      requires Valid() && state.initialized && game.Valid()
      modifies game`player, game`states, game`statesForDelete, game.states`active, game.states`events
      ensures game.Valid() && game.player == characters[selectedCharacter]
      ensures |game.states| == 1 && fresh(game.states[0])
      ensures game.states[0].kind == Game.LocationState && game.states[0].active && game.states[0].initialized
      ensures game.states[0].fullscreen && game.states[0].modal && game.states[0].events == [Game.Activate]
      ensures game.statesForDelete == old(game.statesForDelete) + Seqs.Reverse(old(game.states))
      ensures forall s :: s in old(game.states) ==> Game.Popped(s)
    {
      var player := characters[selectedCharacter];
      game.SetPlayer(player);
      var location := new Game.State(Game.LocationState);
      game.SetState(location);
    }
  }
}
