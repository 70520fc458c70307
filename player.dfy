/**
  The player view's one piece of queue logic, the handler for "the episode
  has ended", and the sessions a user drives through the view: any sequence
  of the context's operations, applied one after another.
 */
module Player {
  import opened PlayerModel
  import opened PlayerContext

  /** When an episode ends: go to the next one if there is one, otherwise
      unload the queue. */
  function EpisodeEnded(s: PlayerState, random: real): (r: PlayerState)
    requires IsRandom(random)
    ensures r.isPlaying == s.isPlaying && r.isLooping == s.isLooping
    ensures r.isShufling == s.isShufling
    ensures HasNext(s) ==> r.episodeList == s.episodeList
    ensures !HasNext(s) ==> r.episodeList == [] && r.currentEpisodeIndex == 0
    ensures !s.isShufling && s.currentEpisodeIndex > 0 ==>
              r.currentEpisodeIndex == s.currentEpisodeIndex - 1
    ensures s.isShufling && s.episodeList != [] ==>
              0 <= r.currentEpisodeIndex < |s.episodeList|
    ensures s.isShufling && s.episodeList == [] ==> r.currentEpisodeIndex == 0
    ensures Inv(s) ==> Inv(r)
  {
    if HasNext(s) then PlayNext(s, random) else ClearPlayerState(s)
  }

  /** `handleEpisodeEnded`, run against the context object. */
  method HandleEpisodeEnded(player: PlayerContextProvider, random: real)
    requires IsRandom(random)
    modifies player
    ensures player.State() == EpisodeEnded(old(player.State()), random)
  {
    if player.HasNext() {
      player.PlayNext(random);
    } else {
      player.ClearPlayerState();
    }
  }

  /** One call into the player context, with the value `Math.random()`
      returns where the operation may shuffle. */
  datatype Action =
    | PlayEpisode(episode: Episode)
    | PlayEpisodes(list: seq<Episode>, index: int)
    | Clear
    | TogglePlay
    | ToggleLoop
    | ToggleShuffle
    | SetPlaying(state: bool)
    | Previous(random: real)
    | Next(random: real)
    | Ended(random: real)

  /** The actions the invariant lemmas range over: random values lie in
      [0, 1), and `playList` is given an index into its list (or index 0
      for an empty list). The source itself does not check that index. */
  predicate WellFormed(a: Action) {
    match a
    case PlayEpisodes(list, index) => 0 <= index < |list| || (list == [] && index == 0)
    case Previous(random) => IsRandom(random)
    case Next(random) => IsRandom(random)
    case Ended(random) => IsRandom(random)
    case _ => true
  }

  /** Every action of the sequence is well formed. */
  predicate AllWellFormed(actions: seq<Action>) {
    forall i :: 0 <= i < |actions| ==> WellFormed(actions[i])
  }

  /** The state after one action: the context operation it names. */
  function Step(s: PlayerState, a: Action): PlayerState
    requires WellFormed(a)
  {
    match a
    case PlayEpisode(e) => Play(s, e)
    case PlayEpisodes(list, index) => PlayList(s, list, index)
    case Clear => ClearPlayerState(s)
    case TogglePlay => TogglePlaying(s)
    case ToggleLoop => ToggleLooping(s)
    case ToggleShuffle => ToggleShufling(s)
    case SetPlaying(state) => SetPlayingState(s, state)
    case Previous(random) => PlayPrevious(s, random)
    case Next(random) => PlayNext(s, random)
    case Ended(random) => EpisodeEnded(s, random)
  }

  /** The state after applying the actions in order. */
  function Run(s: PlayerState, actions: seq<Action>): PlayerState
    requires AllWellFormed(actions)
    decreases |actions|
  {
    if actions == [] then s
    else
      assert WellFormed(actions[0]);
      Run(Step(s, actions[0]), actions[1..])
  }

  /** Every well-formed action keeps the queue invariant. */
  lemma StepPreservesInv(s: PlayerState, a: Action)
    requires WellFormed(a) && Inv(s)
    ensures Inv(Step(s, a))
  {
  }

  /** A sequence of well-formed actions keeps the queue invariant. */
  lemma {:induction false} RunPreservesInv(s: PlayerState, actions: seq<Action>)
    requires AllWellFormed(actions) && Inv(s)
    ensures Inv(Run(s, actions))
    decreases |actions|
  {
    if actions != [] {
      assert WellFormed(actions[0]);
      StepPreservesInv(s, actions[0]);
      assert AllWellFormed(actions[1..]);
      RunPreservesInv(Step(s, actions[0]), actions[1..]);
    }
  }

  /** Every state reachable from the initial one through well-formed actions
      (so every `playList` index lies in its list) satisfies the invariant:
      the index is 0 on an empty queue and points into a non-empty one. */
  lemma ReachableInv(actions: seq<Action>)
    requires AllWellFormed(actions)
    ensures Inv(Run(Initial, actions))
  {
    RunPreservesInv(Initial, actions);
  }

  /** Every action of the sequence is an episode ending with a valid random value. */
  predicate AllEnded(actions: seq<Action>) {
    forall i :: 0 <= i < |actions| ==> actions[i].Ended? && IsRandom(actions[i].random)
  }

  /** Outside shuffle mode, the queue plays from the current index down to
      index 0 and is then unloaded: after `currentEpisodeIndex + 1` endings
      the player is in the state `clearPlayerState` leaves. */
  lemma {:induction false} EndingsDrainQueue(s: PlayerState, actions: seq<Action>)
    requires Inv(s) && !s.isShufling
    requires AllEnded(actions) && |actions| == s.currentEpisodeIndex + 1
    ensures AllWellFormed(actions)
    ensures Run(s, actions) == ClearPlayerState(s)
    decreases |actions|
  {
    assert AllWellFormed(actions) by {
      forall i | 0 <= i < |actions| ensures WellFormed(actions[i]) {
        assert actions[i].Ended?;
      }
    }
    var a := actions[0];
    assert a.Ended? && IsRandom(a.random);
    var t := Step(s, a);
    if s.currentEpisodeIndex == 0 {
      assert t == ClearPlayerState(s);
      assert actions[1..] == [];
    } else {
      assert t == s.(currentEpisodeIndex := s.currentEpisodeIndex - 1);
      assert AllEnded(actions[1..]);
      EndingsDrainQueue(t, actions[1..]);
      assert ClearPlayerState(t) == ClearPlayerState(s);
    }
  }

  /** In shuffle mode there is always a next episode, so no number of
      endings ever unloads the queue or touches the flags. */
  lemma {:induction false} ShuffledEndingsKeepQueue(s: PlayerState, actions: seq<Action>)
    requires s.isShufling && AllEnded(actions)
    ensures AllWellFormed(actions)
    ensures Run(s, actions).(currentEpisodeIndex := s.currentEpisodeIndex) == s
    decreases |actions|
  {
    assert AllWellFormed(actions) by {
      forall i | 0 <= i < |actions| ensures WellFormed(actions[i]) {
        assert actions[i].Ended?;
      }
    }
    if actions != [] {
      var a := actions[0];
      assert a.Ended? && IsRandom(a.random);
      assert AllEnded(actions[1..]);
      ShuffledEndingsKeepQueue(Step(s, a), actions[1..]);
    }
  }
}
