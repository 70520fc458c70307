# Podcast player playback queue, modelled in Dafny

This project models the playback state of a small podcast-player widget.
The player context keeps five pieces of state:

- the queue `episodeList`;
- the position `currentEpisodeIndex`;
- the flags `isPlaying`, `isLooping` and `isShufling` (the source's spelling).

From these it derives two guards, `hasPrevious` and `hasNext`. It offers the
operations `play`, `playList`, `clearPlayerState`, the three toggles,
`setPlayingState`, `shuffle`, `playPrevious` and `playNext`. The player
view adds one transition: when an episode ends, it plays the next one if
there is one and otherwise unloads the queue.

The model keeps the source's direction. "Next" moves **down** the
queue (index − 1) and "previous" moves **up** (index + 1). In shuffle mode
`hasNext` is always true, but `playPrevious` still checks `hasPrevious`.

Files and modules:

- `player_model.dfy`, module `PlayerModel`: the state as a datatype
  `PlayerState`, the queue invariant `Inv`, the guards, and every operation
  as a function from the old state to the new one. Each function's contract
  states what the operation guarantees.
- `player_context.dfy`, module `PlayerContext`: class
  `PlayerContextProvider` with the five fields and one method per operation.
  Each method overwrites the fields in one atomic step. Its postcondition
  equates the new state with the matching `PlayerModel` function applied to
  the old state.
- `player.dfy`, module `Player`: the view's episode-ended handler, and
  sessions. A session is a sequence of actions (`Action`, `Run`). Inductive
  lemmas cover the invariant over every state reachable through operations
  whose `playList` index lies in the list, and what repeated episode endings
  do.

`Math.random()` is a parameter `random` with `0 <= random < 1`, supplied by
the caller of each operation that may shuffle.

## Model

| member | source | states |
|---|---|---|
| `PlayerModel.CurrentEpisode` | src/components/Player/index.tsx:29 | the shown episode exists exactly when the index is inside the queue, and it is an element of the queue |
| `PlayerModel.ShuffleIndex` | src/contexts/PlayerContext.tsx:83 | `floor(random * len)` is an index in `[0, len)` for a non-empty queue and 0 for an empty one |
| `PlayerModel.Play` | src/contexts/PlayerContext.tsx:48-52 | the queue becomes exactly `[episode]`, the current episode is that episode, playing is on, looping and shuffling are unchanged; the invariant holds, there is no previous episode, and there is a next one only in shuffle mode |
| `PlayerModel.ShuffleReachesEvery` | src/contexts/PlayerContext.tsx:83 | every index `i` of a queue of length `len` is picked by the random value `i / len`, so the shuffle can reach each episode |
| `PlayerModel.PlayList` | src/contexts/PlayerContext.tsx:54-58 | the queue and index become exactly the given ones, with no range check; playing is on and the other flags are unchanged; the invariant holds iff the index is inside the list (or the list is empty and the index is 0); the current episode is `list[index]` when the index is in range and none otherwise |
| `PlayerModel.ClearPlayerState` | src/contexts/PlayerContext.tsx:60-64 | the queue is empty and the index 0; all three flags, including `isPlaying`, keep their values; nothing is shown, there is no previous episode, and there is a next one exactly in shuffle mode |
| `PlayerModel.TogglePlaying` | src/contexts/PlayerContext.tsx:66-68 | `isPlaying` is negated and every other field is unchanged |
| `PlayerModel.ToggleLooping` | src/contexts/PlayerContext.tsx:70-72 | `isLooping` is negated and every other field is unchanged |
| `PlayerModel.ToggleShufling` | src/contexts/PlayerContext.tsx:74-76 | `isShufling` is negated and every other field is unchanged; at index 0 or below this flips `hasNext` |
| `PlayerModel.SetPlayingState` | src/contexts/PlayerContext.tsx:78-80 | `isPlaying` equals the given value and every other field is unchanged |
| `PlayerModel.Shuffle` | src/contexts/PlayerContext.tsx:82-85 | only the index changes; it lands in `[0, len)` for a non-empty queue and on 0 for an empty one, so the invariant holds afterwards whatever held before |
| `PlayerModel.PlayPrevious` | src/contexts/PlayerContext.tsx:86-95 | only the index can change; it is a no-op without `hasPrevious`, even in shuffle mode; otherwise the index goes up by one, or to a random index when shuffling; the invariant is preserved |
| `PlayerModel.PlayNext` | src/contexts/PlayerContext.tsx:97-107 | only the index can change; it is a no-op without `hasNext`; otherwise the index goes down by one, or to a random index (0 on an empty queue) when shuffling; the invariant is preserved |
| `PlayerModel.InitialIsEmpty` | src/contexts/PlayerContext.tsx:38-45 | the initial state satisfies the invariant, shows nothing, and has neither a previous nor a next episode |
| `PlayerModel.TogglesAreInvolutions` | src/contexts/PlayerContext.tsx:66-76 | applying any toggle twice restores the original state |
| `PlayerModel.PreviousUndoesNext` | src/contexts/PlayerContext.tsx:86-107 | outside shuffle mode, on a state satisfying the invariant that has a next episode, "previous" after "next" restores the state |
| `PlayerModel.NextUndoesPrevious` | src/contexts/PlayerContext.tsx:86-107 | outside shuffle mode, on a state satisfying the invariant that has a previous episode, "next" after "previous" restores the state |
| `PlayerContext.PlayerContextProvider.constructor` | src/contexts/PlayerContext.tsx:38-42 | the fields start as the empty queue, index 0 and all flags off, which satisfies the invariant |
| `PlayerContext.PlayerContextProvider.HasPrevious` | src/contexts/PlayerContext.tsx:44 | the object's guard agrees with the state model's `HasPrevious` |
| `PlayerContext.PlayerContextProvider.HasNext` | src/contexts/PlayerContext.tsx:45 | the object's guard agrees with the state model's `HasNext` |
| `PlayerContext.PlayerContextProvider.Play` | src/contexts/PlayerContext.tsx:48-52 | the new field values are `PlayerModel.Play` of the old ones |
| `PlayerContext.PlayerContextProvider.PlayList` | src/contexts/PlayerContext.tsx:54-58 | the new field values are `PlayerModel.PlayList` of the old ones |
| `PlayerContext.PlayerContextProvider.ClearPlayerState` | src/contexts/PlayerContext.tsx:60-64 | the new field values are `PlayerModel.ClearPlayerState` of the old ones |
| `PlayerContext.PlayerContextProvider.TogglePlaying` | src/contexts/PlayerContext.tsx:66-68 | the new field values are `PlayerModel.TogglePlaying` of the old ones |
| `PlayerContext.PlayerContextProvider.ToggleLooping` | src/contexts/PlayerContext.tsx:70-72 | the new field values are `PlayerModel.ToggleLooping` of the old ones |
| `PlayerContext.PlayerContextProvider.ToggleShufling` | src/contexts/PlayerContext.tsx:74-76 | the new field values are `PlayerModel.ToggleShufling` of the old ones |
| `PlayerContext.PlayerContextProvider.SetPlayingState` | src/contexts/PlayerContext.tsx:78-80 | the new field values are `PlayerModel.SetPlayingState` of the old ones |
| `PlayerContext.PlayerContextProvider.Shuffle` | src/contexts/PlayerContext.tsx:82-85 | the new field values are `PlayerModel.Shuffle` of the old ones |
| `PlayerContext.PlayerContextProvider.PlayPrevious` | src/contexts/PlayerContext.tsx:86-95 | the new field values are `PlayerModel.PlayPrevious` of the old ones |
| `PlayerContext.PlayerContextProvider.PlayNext` | src/contexts/PlayerContext.tsx:97-107 | the new field values are `PlayerModel.PlayNext` of the old ones |
| `Player.EpisodeEnded` | src/components/Player/index.tsx:46-50 | the flags are unchanged; with a next episode the queue stays and the index goes down by one, or, in shuffle mode, to an index in `[0, len)` (0 on an empty queue) from any state; without one the queue is unloaded to index 0; the invariant is preserved |
| `Player.HandleEpisodeEnded` | src/components/Player/index.tsx:46-50 | calling `playNext` or `clearPlayerState` on the context object leaves exactly the state `EpisodeEnded` describes |
| `Player.StepPreservesInv` | src/contexts/PlayerContext.tsx:48-107 | every operation keeps the queue invariant; `playList` keeps it when its index is in range |
| `Player.RunPreservesInv` | src/contexts/PlayerContext.tsx:48-107 | any sequence of such operations keeps the queue invariant |
| `Player.ReachableInv` | src/contexts/PlayerContext.tsx:38-107 | every state reachable from the initial state through operations whose `playList` index lies in the list satisfies the queue invariant; `playList` itself does not check the index, so an out-of-range index breaks it |
| `Player.EndingsDrainQueue` | src/components/Player/index.tsx:46-50 | outside shuffle mode, `currentEpisodeIndex + 1` episode endings walk the queue down to index 0 and then leave exactly the state `clearPlayerState` produces |
| `Player.ShuffledEndingsKeepQueue` | src/components/Player/index.tsx:46-50 | in shuffle mode, any number of episode endings leaves the queue and all flags unchanged; only the index moves |

## Left out

- The rendering of the view is out of scope: markup, styles, the thumbnail image, the slider widget and the buttons' `disabled` conditions. It is presentation and third-party components.
- The `<audio>` element is out of scope: the play/pause effect, the `timeupdate` listener, seeking and `currentTime` writes. This is browser media I/O. Because of it, the model does not capture that `loop` on the element stops the ended event from firing.
- `convertDurationToTimeString` is not part of this model. It only formats time.
- `PlayerModel.ShuffleIndex`: `Math.random()` is a caller-supplied real in `[0, 1)`, and `Math.floor(random * length)` is computed on exact reals. IEEE double rounding is not modelled.
- `currentEpisodeIndex` is a Dafny `int`. The source's JavaScript `number` could also hold a non-integer index passed to `playList`; callers pass integers.
- `Episode.duration` is an `int`. It is carried but never used by the queue logic.
- React plumbing is out of scope: `createContext`, `useContext`, `usePlayer`, and hook batching and re-rendering. Each operation is one atomic transition from the state its closure saw.
