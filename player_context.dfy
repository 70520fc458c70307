/**
  The player context as an object: the five state fields that the React
  state hooks hold, the two derived guards, and one method per operation.
  Each method overwrites the fields in one step and is specified by the
  matching transition of module PlayerModel, whose properties are proved
  there.
 */
module PlayerContext {
  import opened PlayerModel

  class PlayerContextProvider {
    var episodeList: seq<Episode>
    var currentEpisodeIndex: int
    var isPlaying: bool
    var isLooping: bool
    var isShufling: bool

    /** The fields read as one value of the state model. */
    function State(): PlayerState
      reads this
    {
      PlayerState(episodeList, currentEpisodeIndex, isPlaying, isLooping, isShufling)
    }

    /** The initial values of the five state hooks. */
    constructor ()
      ensures State() == Initial
      ensures Inv(State())
    {
      episodeList := [];
      currentEpisodeIndex := 0;
      isPlaying := false;
      isLooping := false;
      isShufling := false;
    }

    function HasPrevious(): (b: bool)
      reads this
      ensures b == PlayerModel.HasPrevious(State())
    {
      (currentEpisodeIndex + 1) < |episodeList|
    }

    function HasNext(): (b: bool)
      reads this
      ensures b == PlayerModel.HasNext(State())
    {
      isShufling || currentEpisodeIndex > 0
    }

    method Play(episode: Episode)
      modifies this
      ensures State() == PlayerModel.Play(old(State()), episode)
    {
      episodeList := [episode];
      currentEpisodeIndex := 0;
      isPlaying := true;
    }

    method PlayList(list: seq<Episode>, index: int)
      modifies this
      ensures State() == PlayerModel.PlayList(old(State()), list, index)
    {
      episodeList := list;
      currentEpisodeIndex := index;
      isPlaying := true;
    }

    method ClearPlayerState()
      modifies this
      ensures State() == PlayerModel.ClearPlayerState(old(State()))
    {
      episodeList := [];
      currentEpisodeIndex := 0;
    }

    method TogglePlaying()
      modifies this
      ensures State() == PlayerModel.TogglePlaying(old(State()))
    {
      isPlaying := !isPlaying;
    }

    method ToggleLooping()
      modifies this
      ensures State() == PlayerModel.ToggleLooping(old(State()))
    {
      isLooping := !isLooping;
    }

    method ToggleShufling()
      modifies this
      ensures State() == PlayerModel.ToggleShufling(old(State()))
    {
      isShufling := !isShufling;
    }

    method SetPlayingState(state: bool)
      modifies this
      ensures State() == PlayerModel.SetPlayingState(old(State()), state)
    {
      isPlaying := state;
    }

    /** `random` is the value `Math.random()` returned for this call. */
    method Shuffle(random: real)
      requires IsRandom(random)
      modifies this
      ensures State() == PlayerModel.Shuffle(old(State()), random)
    {
      var nextRandomEpisodeIndex := ShuffleIndex(random, |episodeList|);
      currentEpisodeIndex := nextRandomEpisodeIndex;
    }

    method PlayPrevious(random: real)
      requires IsRandom(random)
      modifies this
      ensures State() == PlayerModel.PlayPrevious(old(State()), random)
    {
      var previousEpisodeIndex := currentEpisodeIndex + 1;
      if !HasPrevious() {
        return;
      } else if isShufling {
        Shuffle(random);
      } else {
        currentEpisodeIndex := previousEpisodeIndex;
      }
    }

    method PlayNext(random: real)
      requires IsRandom(random)
      modifies this
      ensures State() == PlayerModel.PlayNext(old(State()), random)
    {
      var nextEpisodeIndex := currentEpisodeIndex - 1;
      if !HasNext() {
        return;
      } else if isShufling {
        Shuffle(random);
      } else {
        currentEpisodeIndex := nextEpisodeIndex;
      }
    }
  }
}
