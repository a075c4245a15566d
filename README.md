# RandomTeamGen in Dafny

RandomTeamGen is a chat bot that splits the people in a voice channel into two
random teams. `/game` shuffles the human occupants of the requester's voice
channel (Fisher–Yates), cuts the shuffled list at ceil(N/2) into team A and
team B, posts the teams and stores a session for the guild. The "Create game"
button creates two voice channels, records them on the session and moves each
team into its channel. `/end` moves everyone back to the original channel,
deletes the team channels and forgets the session. Before the button and `/end`
act, `ensurePerms` checks that the bot holds ManageChannels, MoveMembers,
ViewChannel and Connect.

The model has four modules:

- `Types` (types.dfy): identifiers, voice occupants, channels, permissions and
  the `Session` record.
- `Shuffler` (shuffler.dfy): the shuffle as a method over an `array`. The random
  index drawn at each step becomes a nondeterministic choice of `j` in `[0, i]`.
  The choices are kept as a ghost record, so the result equals
  `Apply(input, choices)`, and `Apply` is proved to give a permutation. The
  module also holds the team split (`CeilHalf`, `Split`) and its lemmas.
- `Permissions` (permissions.dfy): `ensurePerms` as the filter of missing
  permissions and the resulting pass/fail.
- `Sessions` (sessions.dfy): the guild-to-session map as a class
  `SessionStore`, with one method per handler. The class also has the
  `Valid()` invariant: balanced teams of at least two players with nobody on
  both teams, and the two team channels set or unset together. The module also holds the occupant filter
  and the best-effort move loops.

`Scenario` (scenario.dfy) is a client that runs one game through the store:
refused `/game`, drafting, refused and failing button presses, the successful
button, then `/end`. It is checked only against the contracts above.

What each handler learns from the chat platform is a parameter:

- `StartGame`: the requester's voice channel (absent when the member is not in
  voice or cannot be fetched) and the reference of the posted announcement.
- `CreateGame`: the permissions the bot holds, the result of each channel
  creation (absent when it failed), and the set of team members whose fetch
  succeeds and who are in voice.
- `EndGame`: the permissions the bot holds and the guild's channel cache.

Where the code and the design notes differ, the model follows the code:

- `/game` replaces a live session for the guild without checking.
- `/end` checks only the guild-wide permissions of `ensurePerms`. It does not
  check permissions in the destination and does not create a fallback "Lobby"
  channel. It deletes every team channel found in the cache as a voice channel,
  whether or not members are still in it. It always removes the session once
  the permission check passes.
- When only one of the two channel creations succeeds, the button reports the
  failure and records neither channel. The one that was created is neither
  recorded nor deleted.

## Model

| member | source | states |
|---|---|---|
| `Shuffler.Swap` | index.js:42 | exchanging two positions keeps the length and the multiset of elements and touches no other position |
| `Shuffler.Apply` | index.js:40-43 | applying any legal record of swap choices (step k swaps position n-1-k with some index in [0, n-1-k]) gives a list of the same length that is a permutation of the input |
| `Shuffler.Shuffle` | index.js:38-45 | returns a new array of the input's length that is a permutation of it; the argument is unchanged; every swap index was in [0, i], one step for each i from n-1 down to 1, and the result is the specification `Apply` of those choices; each loop step keeps the working array a permutation of the input |
| `Shuffler.CeilHalf` | index.js:94 | the cut point is the ceiling of N/2: the least h with 2h >= N |
| `Shuffler.Split` | index.js:93-95 | the two teams concatenate back to the shuffled list; team A has ceil(N/2) players and team B has the rest; the sizes are equal or A has one more |
| `Shuffler.SplitPartitions` | index.js:93-95 | for a list without duplicates, the two teams are disjoint and their union is exactly the set of players |
| `Shuffler.PermutationKeepsNoDuplicates` | index.js:38-45 | shuffling distinct players gives distinct players |
| `Permissions.Missing` | index.js:74 | a permission is reported missing exactly when it is needed and not held |
| `Permissions.EnsurePerms` | index.js:66-78 | passes exactly when ManageChannels, MoveMembers, ViewChannel and Connect are all held; otherwise fails with MISSING_PERMS |
| `Sessions.Participants` | index.js:90 | an id is a participant exactly when a non-bot occupant with that id is in the channel; never more participants than occupants |
| `Sessions.ParticipantsCount` | index.js:90 | each id occurs among the participants exactly as often as a non-bot occupant with that id occurs in the channel: every human contributes one id, bots none |
| `Sessions.ParticipantsDistinct` | index.js:90 | occupants with distinct ids, as the platform's id-keyed member collection guarantees, give a participant list without duplicates |
| `Sessions.DraftTeams` | index.js:93-95 | the two teams together are a permutation of the participants; team A has ceil(N/2) and team B N - ceil(N/2) players; with distinct participants nobody is on both teams |
| `Sessions.AttemptMoves` | index.js:159-167 | a player is asked to move exactly when on the roster and in voice; never more requests than players |
| `Sessions.MoveBack` | index.js:188-199 | an unset, missing or non-voice team channel is skipped; otherwise every occupant is asked to move back and the channel is deleted regardless of who remains |
| `Sessions.SessionStore.constructor` | index.js:21-27 | the store starts with no sessions, and the invariant holds |
| `Sessions.SessionStore.StartGame` | index.js:85-117 | not in voice or fewer than two humans: refused, map unchanged; otherwise the guild's entry becomes a new session with the original channel, both drafted teams (a permutation of the players, ceil/floor sizes, no player twice and nobody on both teams, given that the platform keys the occupants by id), no team channels and the announcement reference, replacing any old entry; other guilds untouched; invariant kept |
| `Sessions.SessionStore.CreateGame` | index.js:123-170 | no session: refused, map unchanged; permissions missing: error before any change; a channel creation failed: channels stay as they were; otherwise both channels are set, everything else in the session is unchanged, and exactly the in-voice members of each team are asked to move; other guilds untouched; invariant kept |
| `Sessions.SessionStore.EndGame` | index.js:176-221 | no session: refused, map unchanged; permissions missing: the entry stays; otherwise each team channel present in the cache as a voice channel is emptied towards the original channel and deleted while a skipped channel has nobody asked to move, and the guild's entry is removed while every other guild's entry is kept; invariant kept |

## Left out

- deploy-commands.js: a one-time registration of the two slash commands, with no logic.
- Gateway login, intents and presence (index.js:13-19, 29-36, 243): they are calls into the client library.
- The embed and button builders (index.js:47-64) and the voice channel's name they display (index.js:97), and the texts of the reply, defer and edit calls: they are presentation only; replies are modelled as result values.
- Uniform randomness of `Math.random` (index.js:41): the model quantifies over every choice of `j` in `[0, i]`, so it proves no statement about the distribution.
- The real member moves, the channel deletions and their swallowed failures (index.js:160-167, 189-199): the model returns the moves attempted and the channels deleted, and has no platform state for them to change.
- The edit of the announcement message on `/end` (index.js:202-217): it is best-effort, its errors are swallowed, and it does not touch the session map.
- The parent category of the new team channels (index.js:136): it is passed only to the platform's channel creation.
- Failures of other platform calls (fetchMe, reply, deferReply, editReply) and the top-level catch that turns them into a generic reply (index.js:223-236): only the MISSING_PERMS error is modelled. Each handler is one atomic step, so async interleaving between handlers is not modelled. The process-level error handlers (index.js:240-241) are left out too.
- The Administrator override of the client library's permission test: `held` stands for the set of permissions that test reports as held.
- In the source, `session.chanA`/`chanB` are assigned in place (index.js:156-157). The model writes an updated record back into the map instead. The two are equivalent only because each handler is modelled as one atomic step. Between index.js:124 and 156 the source awaits four platform calls; a `/game` or `/end` for the same guild in that window replaces or removes the map entry. The source's in-place write then lands on the orphaned record and the map is unaffected, whereas a write-back would store the record again.
- Sessions.Participants: states which ids are kept and how often (with `ParticipantsCount`), not that the filter also keeps the occupants' order.
- Sessions.AttemptMoves: states which players are asked to move, not the order of the requests.
