# music-bot: command routing and the playlist loop

A Dafny model of the two parts of the Discord music bot (`main.go`) that carry logic
of their own:

- **Command routing.** The chat session hands every message to four handlers
  (`playAll`, `playURL`, `playPlaylist`, `nextTrack`). Each handler ignores the bot's
  own messages. It splits the text on single spaces (Go's `strings.Split`). It ignores
  the message unless the first word is `!bot`. It then acts on the verb in the second
  word: `play all`, `play <id>`, `playlist <id>`, `next` or `prev`. The guards read
  `args[1]` and `args[2]` without a length check. A message that is too short
  therefore makes the handler panic. The model returns an `IndexPanic` effect for it
  (module `Commands`, on top of `Words`, which models `strings.Split`).
- **The media cache scan.** A track `<id>` is cached when the folder listing, read
  once, holds `<id>.mp4`. The scan stops at the first match (module `Cache`, which also
  models the hit-or-download decision of the single-video handler).
- **The playlist loop of `playPlaylist`** (module `Playlist`). The loop index `i`
  walks the playlist. A cached track is played and the loop `continue`s; otherwise the
  track is downloaded and then played. After each playback, a "prev" value in the
  package-level `direction` rewinds `i` and is cleared. The rewind is
  `i = min(-1, i-2)` in the cached branch and `i = i-2` in the download branch; the
  loop's `i++` then follows. The method `Bot.PlayPlaylist` keeps the imperative shape:
  a `while` loop, the mutable field `direction`, the inner scan, and a ghost trace of
  the indices played (with hit/download). Its postcondition ties the outcome, the trace
  and the final `direction` to the specification function `Playlist.Run`. The lemmas
  about `Run` state the traversal properties.

Audio playback is replaced by an oracle `prevs: seq<bool>`. `prevs[k]` says whether a
`prev` command set `direction` to "prev" after the direction check that followed
playback k-1 (or, for k = 0, after the session started) and before the check that
follows playback k. Because `nextTrack` writes `direction` (main.go:90) before its
blocking send (main.go:91), this includes a `prev` typed while track k was being
scanned or downloaded. Past the end of `prevs`, no `prev` was set. Within one
session the loop itself writes only `""` into `direction` (main.go:275, 305) and
`nextTrack` writes only "prev" (main.go:90). So at the check after playback k,
`direction` is "prev" when it already was "prev" or when `prevs[k]` holds. A `next` command just ends a playback early. The
model cannot see that: it changes nothing the loop reads. The model describes one
session at a time (see Left out for concurrent sessions).

Strings are `seq<char>`. Go splits bytes, not characters. A space is one byte, and no
multi-byte UTF-8 sequence contains that byte, so splitting on the character gives the
same words.

### Behaviour of the code worth knowing

- A `prev` during the first track drives the index to -1: both rewinds give -2 at
  index 0 (main.go:274, 304), the loop's `i++` makes the next index -1, and
  `playlist.Videos[i]` (main.go:261) then panics. The same happens when a
  `prev` was left pending in `direction` before the session started. The session stops
  after one playback and never disconnects (`Playlist.PrevAtFirstTrack`).
- A `prev` moves back one track only after a downloaded track (main.go:304). After a
  cached track, `i = min(-1, i-2)` (main.go:274) restarts the loop at index 0
  (`Playlist.PrevAfterCached`).
- The folder listing is read once (main.go:253), and the files created at main.go:288
  are never added to it. A track downloaded earlier in the session is downloaded again
  when it is revisited (`Playlist.RevisitDownloadsAgain`, `Playlist.TraceWellFormed`).
- A failed download ends the process through `check` or `panic` (main.go:286-298).
  The handler returns without `vc.Close()` when the playlist or an entry cannot be
  resolved (main.go:256-257, 263-264). None of these paths is in the model (see Left out).

## Model

| member | source | states |
|---|---|---|
| Words.Split | main.go:80 | `strings.Split(m.Content, " ")`: exactly one more piece than the text has spaces, and no piece contains a space |
| Words.JoinSplit | main.go:80 | joining the words with single spaces gives back the message text |
| Words.SplitJoin | main.go:80 | splitting words joined by single spaces gives back those words, so a typed command's `args` are its words |
| Commands.Args | main.go:80 | a message always has a first word, so `args[0]` never panics |
| Commands.NextTrack | main.go:75-93 | nextTrack acts only on a message from someone else whose first word is `!bot`; it signals stop on `next`, and on `prev` it also sets direction; a message with no second word panics reading `args[1]` |
| Commands.PlayAll | main.go:95-105 | playAll acts only on an addressed message and plays the folder only for `play all`; `!bot play` panics reading `args[2]` |
| Commands.PlayURL | main.go:145-155 | playURL acts only on an addressed message and plays video `args[2]` only for `play <x>` with x not `all` |
| Commands.PlayPlaylist | main.go:218-228 | playPlaylist acts only on an addressed message and walks playlist `args[2]` only for `playlist <id>`; without an id it panics reading `args[2]` (line 255) |
| Commands.Route | main.go:47-50 | the four handlers' effects in registration order; a handler that reacts is always one the message was addressed to |
| Commands.Gating | main.go:76-83 | some handler reacts iff the author is not the bot, the first word is `!bot`, and the message has no second word or one of the four verbs; otherwise all four return with no effect |
| Commands.OwnMessagesIgnored | main.go:76-78 | the bot's own messages reach no handler's logic |
| Commands.AtMostOneHandler | main.go:47-50 | of the four registered handlers, two react to the same message only when both panic |
| Commands.PlayGuardsExclusive | main.go:105-155 | for `play <x>` exactly one of playAll and playURL acts, and it is playAll iff x is `all` |
| Commands.NextCommand | main.go:85-87 | `!bot next ...` reaches only nextTrack, which signals stop without setting direction |
| Commands.PrevCommand | main.go:89-92 | `!bot prev ...` reaches only nextTrack, which sets direction to "prev" and signals stop |
| Commands.PlayAllCommand | main.go:105 | `!bot play all ...` reaches only playAll |
| Commands.PlayVideoCommand | main.go:155 | `!bot play <id> ...` with id not `all` reaches only playURL, with that id |
| Commands.PlaylistCommand | main.go:228 | `!bot playlist <id> ...` reaches only playPlaylist, with that id |
| Commands.ShortCommands | main.go:85-105 | `!bot` alone makes all four handlers panic on `args[1]`; `!bot play` makes playAll and playURL panic on `args[2]`; `!bot playlist` makes playPlaylist panic on `args[2]` (line 255) |
| Cache.FindCached | main.go:267-279 | the scan finds a match iff the snapshot holds `<id>.mp4`, and it stops at the first such entry |
| Cache.PlayVideo | main.go:184-211 | for the resolved video id, the single-video handler downloads iff the snapshot lacks `<id>.mp4`, and either way it plays `music/<id>.mp4` |
| Playlist.Advance | main.go:273-306 | the next index processed: i+1 without prev; i-1 after a prev on a downloaded track; 0 after a prev on a cached track at i >= 1; -1 after a prev at index 0; it moves back iff direction was "prev" |
| Playlist.Bot.constructor | main.go:36 | direction starts as "" |
| Playlist.Bot.NextTrack | main.go:75-93 | the handler's effect is `Commands.NextTrack`, and direction becomes "prev" exactly on the `prev` command, otherwise it is unchanged |
| Playlist.Bot.AwaitPlayback | main.go:271-301 | either playback on the stop channel (the cached one at line 271, the downloaded one at line 301) returns with direction "prev" when a `prev` set it since the previous direction check, and otherwise with direction unchanged |
| Playlist.Run | main.go:260-311 | the session from index i with direction dir: outcome, trace of played indices, final direction; a session that finishes has at least N-i plays before the disconnect |
| Playlist.FinishCovers | main.go:260-311 | a session from index i that finishes has played every index from i (0 when i is negative) to N-1 |
| Playlist.Bot.PlayPlaylist | main.go:253-311 | the loop's outcome, its trace of played indices (cached or downloaded) ending in the disconnect, and the final direction are those of `Run` from index 0 |
| Playlist.NoNavigation | main.go:260-311 | with no prev pending or arriving, indices 0..N-1 are played once each in order, then the session disconnects; an empty playlist plays nothing |
| Playlist.TraceWellFormed | main.go:253-311 | every played index is in the playlist; a track is a hit iff the snapshot read before the loop has its file; the session disconnects iff the loop runs out; the only out-of-range index is -1 |
| Playlist.DirectionConsumed | main.go:273-305 | the loop consumes every prev it observes: once a track has been played, the session leaves direction not "prev" |
| Playlist.PrevAfterDownload | main.go:303-306 | a prev during a downloaded track at i >= 1 makes i-1 the next track, with direction reset to "" |
| Playlist.PrevAfterCached | main.go:273-276 | a prev during a cached track at i >= 1 makes 0 the next track (a restart), with direction reset to "" |
| Playlist.PrevAtFirstTrack | main.go:260-261 | a prev during the first track (or pending before the session) drives the index to -1; the session ends out of range after one playback and without disconnecting |
| Playlist.RevisitDownloadsAgain | main.go:253-304 | a track downloaded at i and revisited through a prev at i+1 is downloaded again, because the snapshot is not refreshed |

## Left out

- Session setup, intents, token loading and waiting for OS signals (main.go:32-67): process and I/O plumbing.
- Channel, guild and voice-state lookups and `ChannelVoiceJoin` (main.go:107-128, 157-175, 230-251): calls into the chat library. Each handler's effect is the one it has once these lookups succeed. `vc.Close()`/`vc.Disconnect()` appear only as the final `Disconnect` event of a playlist session.
- `dgvoice.PlayAudioFile` and the unbuffered `stop` channel (main.go:86, 91, 137, 187, 211, 271, 301): audio rendering and goroutine hand-off. The oracle `prevs` replaces them. That `nextTrack` blocks on the send until a playlist playback receives it is not modelled.
- Concurrent sessions and late commands: handlers run concurrently, so two playlist sessions can run at once and share the package-level `direction` and `stop` (main.go:28-29), each clearing `direction` at main.go:275 and 305. A `prev` whose write lands after a session's last check (main.go:273, 303) stays pending into a later session. The oracle `prevs` describes one session alone and cannot express either.
- The YouTube client (`GetVideo`, `GetPlaylist`, `VideoFromPlaylistEntry`, `WithAudioChannels`, `GetStream`, `formats[0]`; main.go:178, 194-195, 255, 262, 284-285): foreign calls. Track ids are given. The early returns when the playlist or an entry cannot be resolved (main.go:256-257, 263-264) are not modelled. On those paths the voice connection is not closed.
- Logging with `fmt.Println` (main.go:136, 186, 210, 270, 300): output only; nothing reads it.
- File creation and copying, `defer file.Close()` inside the loop, `check`/`log.Fatal`/`panic` on I/O errors (main.go:69-73, 196-208, 286-298): I/O and process termination. A download adds nothing to the snapshot the loop scans, which is what the code does.
- The directory-listing loop of `playAll` (main.go:130-138): it only plays each listed file in order. Its guard is modelled in `Commands.PlayAll`.
- `math.Min` over `float64` (main.go:274): modelled as integer `Min`. The conversion is exact for playlist-sized integers.
