/**
  The playback queue of the podcast player as a value: the five pieces of
  state the player context keeps, the two guards derived from them, and
  every operation of the context as a function from the old state to the
  new one. Each operation is one atomic transition: all of its setter
  calls read the pre-state and together write the post-state.
 */
module PlayerModel {

  datatype Option<T> = None | Some(value: T)

  /** A playable item of the queue. */
  datatype Episode = Episode(
    title: string,
    members: string,
    thumbnail: string,
    duration: int,
    url: string)

  /** The state held by the player context. The index is unconstrained:
      `playList` stores whatever index it is given. */
  datatype PlayerState = PlayerState(
    episodeList: seq<Episode>,
    currentEpisodeIndex: int,
    isPlaying: bool,
    isLooping: bool,
    isShufling: bool)

  /** The state before any operation: empty queue, index 0, all flags off. */
  const Initial: PlayerState := PlayerState([], 0, false, false, false)

  /** The queue invariant: either nothing is loaded and the index is 0, or
      the index points into the queue. */
  ghost predicate Inv(s: PlayerState) {
    (s.episodeList == [] && s.currentEpisodeIndex == 0)
    || (0 <= s.currentEpisodeIndex < |s.episodeList|)
  }

  /** "Previous" moves towards the END of the queue: there is one when the
      next higher index is still inside the queue. */
  predicate HasPrevious(s: PlayerState) {
    s.currentEpisodeIndex + 1 < |s.episodeList|
  }

  /** "Next" moves towards the HEAD of the queue; in shuffle mode there is
      always a next episode, even when the queue is empty. */
  predicate HasNext(s: PlayerState) {
    s.isShufling || s.currentEpisodeIndex > 0
  }

  /** The episode the view shows and plays: `episodeList[currentEpisodeIndex]`,
      which is undefined (here None) when the index is outside the queue. */
  function CurrentEpisode(s: PlayerState): (r: Option<Episode>)
    ensures r.Some? <==> 0 <= s.currentEpisodeIndex < |s.episodeList|
    ensures r.Some? ==> r.value in s.episodeList
  {
    if 0 <= s.currentEpisodeIndex < |s.episodeList| then
      Some(s.episodeList[s.currentEpisodeIndex])
    else
      None
  }

  /** A value `Math.random()` may return. */
  predicate IsRandom(random: real) {
    0.0 <= random < 1.0
  }

  /** `Math.floor(Math.random() * len)`, computed on exact reals: an index
      into a queue of length `len`, or 0 when the queue is empty. */
  function ShuffleIndex(random: real, len: nat): (r: int)
    requires IsRandom(random)
    ensures len > 0 ==> 0 <= r < len
    ensures len == 0 ==> r == 0
  {
    var product := random * (len as real);
    assert 0.0 <= product;
    assert product < len as real || len == 0 by {
      if len > 0 {
        assert random * (len as real) < 1.0 * (len as real);
      }
    }
    product.Floor
  }

  /** Every index of a non-empty queue is chosen by some value of
      `Math.random()`, so the shuffle may land anywhere in the queue. */
  lemma ShuffleReachesEvery(len: nat, i: nat)
    requires i < len
    ensures IsRandom(i as real / len as real)
    ensures ShuffleIndex(i as real / len as real, len) == i
  {
    var random := i as real / len as real;
    QuotientBelowOne(i as real, len as real);
    assert random * (len as real) == i as real;
    assert (i as real).Floor == i;
  }

  /** A fraction k / n with 0 <= k < n lies in [0, 1). */
  lemma QuotientBelowOne(k: real, n: real)
    requires 0.0 <= k < n
    ensures 0.0 <= k / n < 1.0
  {
    var q := k / n;
    assert q * n == k;
    var d := 1.0 - q;
    assert d * n == n - k;
    assert d > 0.0 by {
      assert d * n > 0.0;
    }
  }

  /** Start playing a single episode. */
  function Play(s: PlayerState, episode: Episode): (r: PlayerState)
    ensures r.episodeList == [episode] && CurrentEpisode(r) == Some(episode)
    ensures r.isPlaying
    ensures r.isLooping == s.isLooping && r.isShufling == s.isShufling
    ensures Inv(r) && !HasPrevious(r) && (HasNext(r) <==> s.isShufling)
  {
    s.(episodeList := [episode], currentEpisodeIndex := 0, isPlaying := true)
  }

  /** Load a whole queue and start at `index`; the index is not checked. */
  function PlayList(s: PlayerState, list: seq<Episode>, index: int): (r: PlayerState)
    ensures r.episodeList == list && r.currentEpisodeIndex == index
    ensures r.isPlaying
    ensures r.isLooping == s.isLooping && r.isShufling == s.isShufling
    ensures Inv(r) <==> (0 <= index < |list| || (list == [] && index == 0))
    ensures 0 <= index < |list| ==> CurrentEpisode(r) == Some(list[index])
    ensures !(0 <= index < |list|) ==> CurrentEpisode(r) == None
  {
    s.(episodeList := list, currentEpisodeIndex := index, isPlaying := true)
  }

  /** Unload the queue. The three flags keep their values, so a player that
      was playing stays "playing" with nothing to play. */
  function ClearPlayerState(s: PlayerState): (r: PlayerState)
    ensures r.episodeList == [] && r.currentEpisodeIndex == 0
    ensures r.isPlaying == s.isPlaying && r.isLooping == s.isLooping
    ensures r.isShufling == s.isShufling
    ensures Inv(r) && CurrentEpisode(r) == None && !HasPrevious(r)
    ensures HasNext(r) <==> s.isShufling
  {
    s.(episodeList := [], currentEpisodeIndex := 0)
  }

  function TogglePlaying(s: PlayerState): (r: PlayerState)
    ensures r.isPlaying == !s.isPlaying
    ensures r.(isPlaying := s.isPlaying) == s
  {
    s.(isPlaying := !s.isPlaying)
  }

  function ToggleLooping(s: PlayerState): (r: PlayerState)
    ensures r.isLooping == !s.isLooping
    ensures r.(isLooping := s.isLooping) == s
  {
    s.(isLooping := !s.isLooping)
  }

  /** Toggling shuffle changes `HasNext` whenever the index is 0 or below. */
  function ToggleShufling(s: PlayerState): (r: PlayerState)
    ensures r.isShufling == !s.isShufling
    ensures r.(isShufling := s.isShufling) == s
    ensures s.currentEpisodeIndex <= 0 ==> HasNext(r) != HasNext(s)
  {
    s.(isShufling := !s.isShufling)
  }

  function SetPlayingState(s: PlayerState, state: bool): (r: PlayerState)
    ensures r.isPlaying == state
    ensures r.(isPlaying := s.isPlaying) == s
  {
    s.(isPlaying := state)
  }

  /** Jump to a random index of the queue; only the index changes. Whatever
      the old index was, the new one satisfies the queue invariant. */
  function Shuffle(s: PlayerState, random: real): (r: PlayerState)
    requires IsRandom(random)
    ensures r.(currentEpisodeIndex := s.currentEpisodeIndex) == s
    ensures s.episodeList != [] ==> 0 <= r.currentEpisodeIndex < |s.episodeList|
    ensures s.episodeList == [] ==> r.currentEpisodeIndex == 0
    ensures Inv(r)
  {
    s.(currentEpisodeIndex := ShuffleIndex(random, |s.episodeList|))
  }

  /** "Previous": one step towards the end of the queue, or a random index in
      shuffle mode. Unlike `PlayNext`, shuffle mode does not lift the guard. */
  function PlayPrevious(s: PlayerState, random: real): (r: PlayerState)
    requires IsRandom(random)
    ensures r.(currentEpisodeIndex := s.currentEpisodeIndex) == s
    ensures !HasPrevious(s) ==> r == s
    ensures HasPrevious(s) && !s.isShufling ==>
              r.currentEpisodeIndex == s.currentEpisodeIndex + 1
    ensures HasPrevious(s) && s.isShufling && s.episodeList != [] ==>
              0 <= r.currentEpisodeIndex < |s.episodeList|
    ensures HasPrevious(s) && s.isShufling && s.episodeList == [] ==>
              r.currentEpisodeIndex == 0
    ensures Inv(s) ==> Inv(r)
  {
    var previousEpisodeIndex := s.currentEpisodeIndex + 1;
    if !HasPrevious(s) then s
    else if s.isShufling then Shuffle(s, random)
    else s.(currentEpisodeIndex := previousEpisodeIndex)
  }

  /** "Next": one step towards the head of the queue, or a random index in
      shuffle mode, where there always is a next episode. */
  function PlayNext(s: PlayerState, random: real): (r: PlayerState)
    requires IsRandom(random)
    ensures r.(currentEpisodeIndex := s.currentEpisodeIndex) == s
    ensures !HasNext(s) ==> r == s
    ensures HasNext(s) && !s.isShufling ==>
              r.currentEpisodeIndex == s.currentEpisodeIndex - 1
    ensures s.isShufling && s.episodeList != [] ==>
              0 <= r.currentEpisodeIndex < |s.episodeList|
    ensures s.isShufling && s.episodeList == [] ==> r.currentEpisodeIndex == 0
    ensures Inv(s) ==> Inv(r)
  {
    var nextEpisodeIndex := s.currentEpisodeIndex - 1;
    if !HasNext(s) then s
    else if s.isShufling then Shuffle(s, random)
    else s.(currentEpisodeIndex := nextEpisodeIndex)
  }

  /** The initial state satisfies the queue invariant and has nothing to
      play, no previous and no next episode. */
  lemma InitialIsEmpty()
    ensures Inv(Initial) && CurrentEpisode(Initial) == None
    ensures !HasPrevious(Initial) && !HasNext(Initial)
  {
  }

  /** Each toggle undoes itself. */
  lemma TogglesAreInvolutions(s: PlayerState)
    ensures TogglePlaying(TogglePlaying(s)) == s
    ensures ToggleLooping(ToggleLooping(s)) == s
    ensures ToggleShufling(ToggleShufling(s)) == s
  {
  }

  /** Outside shuffle mode, "previous" undoes "next" on a state satisfying
      the invariant. */
  lemma PreviousUndoesNext(s: PlayerState, random1: real, random2: real)
    requires IsRandom(random1) && IsRandom(random2)
    requires Inv(s) && !s.isShufling && HasNext(s)
    ensures PlayPrevious(PlayNext(s, random1), random2) == s
  {
  }

  /** Outside shuffle mode, "next" undoes "previous". */
  lemma NextUndoesPrevious(s: PlayerState, random1: real, random2: real)
    requires IsRandom(random1) && IsRandom(random2)
    requires Inv(s) && !s.isShufling && HasPrevious(s)
    ensures PlayNext(PlayPrevious(s, random1), random2) == s
  {
  }
}
