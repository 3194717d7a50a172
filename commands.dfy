/**
 Command routing of the bot. The chat session hands every incoming message to
 each of four registered handlers (playAll, playURL, playPlaylist, nextTrack, in
 that order of registration). Each handler ignores the bot's own messages, splits
 the text on single spaces, ignores the message unless the first word is the
 prefix `!bot`, and then looks at the verb in the second word (and, for the play
 commands, the argument in the third). A guard that reads a word the message does
 not have is an index out of range: the handler panics.

 Each handler is modelled as a function from (the author is the bot, the message
 text) to the effect it has once the platform lookups it performs succeed.
 */
module Commands {
  import opened Words

  const Prefix: string := "!bot"
  const Space: char := ' '

  /** What one handler does with one message. */
  datatype Effect =
    | Ignored                 // the handler returns without doing anything
    | IndexPanic(index: nat)  // the handler reads args[index] and there is no such word
    | SendStop(setPrev: bool) // nextTrack: sets direction to "prev" when setPrev, then signals stop
    | PlayFolder              // playAll: plays every file of the music folder
    | PlayVideo(id: string)   // playURL: plays the video `id` (args[2], an id or URL for GetVideo)
    | PlayList(id: string)    // playPlaylist: walks the playlist `id`

  /** The words of a message: `strings.Split(m.Content, " ")`. */
  function Args(content: string): (args: seq<string>)
    ensures |args| >= 1
  {
    Split(content, Space)
  }

  /** A message gets past the two guards every handler starts with. */
  predicate Addressed(fromBot: bool, content: string)
  {
    !fromBot && Args(content)[0] == Prefix
  }

  /** The four verbs that some handler acts on. */
  predicate IsVerb(w: string)
  {
    w == "next" || w == "prev" || w == "play" || w == "playlist"
  }

  /** nextTrack: `next` signals stop; `prev` sets direction to "prev" and signals stop. */
  function NextTrack(fromBot: bool, content: string): (e: Effect)
    ensures e != Ignored ==> Addressed(fromBot, content)
    ensures e.SendStop? ==>
      |Args(content)| >= 2 && Args(content)[1] == (if e.setPrev then "prev" else "next")
  {
    if !Addressed(fromBot, content) then Ignored
    else
      var args := Args(content);
      if |args| < 2 then IndexPanic(1)
      else if args[1] == "next" then SendStop(false)
      else if args[1] == "prev" then SendStop(true)
      else Ignored
  }

  /** playAll: acts on `play all`. Go's `&&` reads args[2] only when args[1] is `play`. */
  function PlayAll(fromBot: bool, content: string): (e: Effect)
    ensures e != Ignored ==> Addressed(fromBot, content)
    ensures e == PlayFolder ==>
      |Args(content)| >= 3 && Args(content)[1] == "play" && Args(content)[2] == "all"
  {
    if !Addressed(fromBot, content) then Ignored
    else
      var args := Args(content);
      if |args| < 2 then IndexPanic(1)
      else if args[1] != "play" then Ignored
      else if |args| < 3 then IndexPanic(2)
      else if args[2] == "all" then PlayFolder
      else Ignored
  }

  /** playURL: acts on `play <id>` for every id other than `all`. */
  function PlayURL(fromBot: bool, content: string): (e: Effect)
    ensures e != Ignored ==> Addressed(fromBot, content)
    ensures e.PlayVideo? ==>
      |Args(content)| >= 3 && Args(content)[1] == "play" && e.id == Args(content)[2] != "all"
  {
    if !Addressed(fromBot, content) then Ignored
    else
      var args := Args(content);
      if |args| < 2 then IndexPanic(1)
      else if args[1] != "play" then Ignored
      else if |args| < 3 then IndexPanic(2)
      else if args[2] != "all" then PlayVideo(args[2])
      else Ignored
  }

  /** playPlaylist: acts on `playlist <id>`; without an id it panics when it reads args[2]. */
  function PlayPlaylist(fromBot: bool, content: string): (e: Effect)
    ensures e != Ignored ==> Addressed(fromBot, content)
    ensures e.PlayList? ==>
      |Args(content)| >= 3 && Args(content)[1] == "playlist" && e.id == Args(content)[2]
  {
    if !Addressed(fromBot, content) then Ignored
    else
      var args := Args(content);
      if |args| < 2 then IndexPanic(1)
      else if args[1] != "playlist" then Ignored
      else if |args| < 3 then IndexPanic(2)
      else PlayList(args[2])
  }

  /** The effects of one message on the four handlers, in registration order. */
  function Route(fromBot: bool, content: string): (r: seq<Effect>)
    ensures |r| == 4
    ensures forall h :: 0 <= h < |r| && r[h] != Ignored ==> Addressed(fromBot, content)
  {
    [PlayAll(fromBot, content), PlayURL(fromBot, content),
     PlayPlaylist(fromBot, content), NextTrack(fromBot, content)]
  }

  /** Message gating: some handler reacts exactly when the message is addressed to the
      bot by someone else and either has no verb (every guard then panics) or has one
      of the four verbs. */
  lemma Gating(fromBot: bool, content: string)
    ensures (exists h :: 0 <= h < 4 && Route(fromBot, content)[h] != Ignored)
        <==> Addressed(fromBot, content)
             && (|Args(content)| < 2 || IsVerb(Args(content)[1]))
  {
    var r, args := Route(fromBot, content), Args(content);
    if Addressed(fromBot, content) && (|args| < 2 || IsVerb(args[1])) {
      if |args| < 2 {
        assert r[0] != Ignored;
      } else if args[1] == "playlist" {
        assert r[2] != Ignored;
      } else if args[1] == "play" {
        assert r[0] != Ignored || r[1] != Ignored;
      } else {
        assert r[3] != Ignored;
      }
    }
  }

  /** Verb dispatch: two handlers react to the same message only when both panic, so a
      well-formed command reaches one handler. */
  lemma AtMostOneHandler(fromBot: bool, content: string, h: int, g: int)
    requires 0 <= h < g < 4
    requires Route(fromBot, content)[h] != Ignored && Route(fromBot, content)[g] != Ignored
    ensures Route(fromBot, content)[h].IndexPanic? && Route(fromBot, content)[g].IndexPanic?
  {
  }

  /** `play <x>` reaches exactly one of playAll and playURL, and it is playAll iff x is `all`. */
  lemma PlayGuardsExclusive(fromBot: bool, content: string)
    requires Addressed(fromBot, content)
    requires |Args(content)| >= 3 && Args(content)[1] == "play"
    ensures (PlayAll(fromBot, content) != Ignored) != (PlayURL(fromBot, content) != Ignored)
    ensures PlayAll(fromBot, content) != Ignored <==> Args(content)[2] == "all"
  {
  }

  /** None of the words contains a space. */
  predicate SpaceFree(words: seq<string>)
  {
    forall k :: 0 <= k < |words| ==> Space !in words[k]
  }

  /** The words of a command typed with single spaces are exactly the words joined. */
  lemma {:induction false} ArgsOfCommand(words: seq<string>)
    requires |words| >= 1 && SpaceFree(words)
    ensures Args(Join(words, Space)) == words
  {
    SplitJoin(words, Space);
  }

  /** `!bot next ...` reaches only nextTrack, which signals stop without touching direction. */
  lemma NextCommand(rest: seq<string>)
    requires SpaceFree(rest)
    ensures Route(false, Join([Prefix, "next"] + rest, Space))
         == [Ignored, Ignored, Ignored, SendStop(false)]
  {
    ArgsOfCommand([Prefix, "next"] + rest);
  }

  /** `!bot prev ...` reaches only nextTrack, which sets direction to "prev" before it signals. */
  lemma PrevCommand(rest: seq<string>)
    requires SpaceFree(rest)
    ensures Route(false, Join([Prefix, "prev"] + rest, Space))
         == [Ignored, Ignored, Ignored, SendStop(true)]
  {
    ArgsOfCommand([Prefix, "prev"] + rest);
  }

  /** `!bot play all ...` reaches only playAll. */
  lemma PlayAllCommand(rest: seq<string>)
    requires SpaceFree(rest)
    ensures Route(false, Join([Prefix, "play", "all"] + rest, Space))
         == [PlayFolder, Ignored, Ignored, Ignored]
  {
    ArgsOfCommand([Prefix, "play", "all"] + rest);
  }

  /** `!bot play <id> ...` with id other than `all` reaches only playURL, with that id. */
  lemma PlayVideoCommand(id: string, rest: seq<string>)
    requires Space !in id && id != "all"
    requires SpaceFree(rest)
    ensures Route(false, Join([Prefix, "play", id] + rest, Space))
         == [Ignored, PlayVideo(id), Ignored, Ignored]
  {
    ArgsOfCommand([Prefix, "play", id] + rest);
  }

  /** `!bot playlist <id> ...` reaches only playPlaylist, with that id. */
  lemma PlaylistCommand(id: string, rest: seq<string>)
    requires Space !in id
    requires SpaceFree(rest)
    ensures Route(false, Join([Prefix, "playlist", id] + rest, Space))
         == [Ignored, Ignored, PlayList(id), Ignored]
  {
    ArgsOfCommand([Prefix, "playlist", id] + rest);
  }

  /** A message that is just `!bot` makes every handler read the missing args[1]; `!bot play`
      makes playAll and playURL read the missing args[2]; `!bot playlist` makes playPlaylist
      read the missing args[2] when it asks for the playlist. */
  lemma ShortCommands()
    ensures Route(false, Prefix) == [IndexPanic(1), IndexPanic(1), IndexPanic(1), IndexPanic(1)]
    ensures Route(false, Join([Prefix, "play"], Space))
         == [IndexPanic(2), IndexPanic(2), Ignored, Ignored]
    ensures Route(false, Join([Prefix, "playlist"], Space))
         == [Ignored, Ignored, IndexPanic(2), Ignored]
  {
    SplitWithoutSeparator(Prefix, Space);
    ArgsOfCommand([Prefix, "play"]);
    ArgsOfCommand([Prefix, "playlist"]);
  }

  /** Messages written by the bot itself never reach any handler's logic. */
  lemma OwnMessagesIgnored(content: string)
    ensures Route(true, content) == [Ignored, Ignored, Ignored, Ignored]
  {
  }
}
