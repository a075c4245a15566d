/** The per-guild session store and the three interaction handlers that change
    it: `/game` drafts teams, the "Create game" button creates the two team
    channels, `/end` moves everyone back and forgets the session.

    Everything the handlers learn from the chat platform arrives as a
    parameter: the requester's voice channel, the reference of the posted
    announcement, the permissions the bot holds, whether each channel creation
    succeeded, who is in voice, and the guild's channel cache. */
module Sessions {
  import opened Types
  import opened Shuffler
  import opened Permissions

  /** The ids of the human occupants of a voice channel, in channel order. */
  function Participants(occupants: seq<Member>): (ids: seq<UserId>)
    ensures |ids| <= |occupants|
    ensures forall id :: id in ids <==> Member(id, false) in occupants
  {
    if occupants == [] then []
    else
      var rest := Participants(occupants[1..]);
      assert forall m :: m in occupants <==> m == occupants[0] || m in occupants[1..];
      if occupants[0].bot then rest else [occupants[0].id] + rest
  }

  /** Each human occupant contributes its id exactly once; bots contribute nothing. */
  lemma {:induction false} ParticipantsCount(occupants: seq<Member>, id: UserId)
    ensures multiset(Participants(occupants))[id] == multiset(occupants)[Member(id, false)]
  {
    if occupants != [] {
      var head := occupants[0];
      ParticipantsCount(occupants[1..], id);
      assert occupants == [head] + occupants[1..];
      if !head.bot {
        assert Participants(occupants) == [head.id] + Participants(occupants[1..]);
      }
    }
  }

  /** Occupants with distinct ids give distinct participants. */
  lemma {:induction false} ParticipantsDistinct(occupants: seq<Member>)
    requires DistinctIds(occupants)
    ensures NoDuplicates(Participants(occupants))
  {
    if occupants != [] {
      var tail := occupants[1..];
      assert DistinctIds(tail) by {
        forall i, j | 0 <= i < j < |tail| ensures tail[i].id != tail[j].id {
          assert tail[i] == occupants[i + 1] && tail[j] == occupants[j + 1];
        }
      }
      ParticipantsDistinct(tail);
      if !occupants[0].bot {
        HeadNotInTail(occupants);
        ConsNoDuplicates(occupants[0].id, Participants(tail));
      }
    }
  }

  lemma HeadNotInTail(occupants: seq<Member>)
    requires DistinctIds(occupants) && occupants != []
    ensures occupants[0].id !in Participants(occupants[1..])
  {
  }

  lemma ConsNoDuplicates<T>(x: T, r: seq<T>)
    requires x !in r && NoDuplicates(r)
    ensures NoDuplicates([x] + r)
  {
    var ids := [x] + r;
    forall i, j | 0 <= i < j < |ids| ensures ids[i] != ids[j] {
      assert ids[j] == r[j - 1];
      if i > 0 { assert ids[i] == r[i - 1]; }
    }
  }

  /** Shuffle the players and cut the shuffled list at ceil(N/2): the teams
      hold exactly the players, team A gets the ceiling half, and players
      that are all distinct land in exactly one team. */
  method DraftTeams(ids: seq<UserId>) returns (teamA: seq<UserId>, teamB: seq<UserId>)
    ensures multiset(teamA + teamB) == multiset(ids)
    ensures |teamA| == CeilHalf(|ids|) && |teamB| == |ids| - CeilHalf(|ids|)
    ensures NoDuplicates(ids) ==> NoDuplicates(teamA + teamB)
    ensures NoDuplicates(ids) ==> (set x | x in teamA) !! (set x | x in teamB)
  {
    var members := new UserId[|ids|](k requires 0 <= k < |ids| => ids[k]);
    assert members[..] == ids;
    var shuffled, choices := Shuffle(members);
    var teams := Split(shuffled[..]);
    if NoDuplicates(ids) {
      PermutationKeepsNoDuplicates(ids, shuffled[..]);
      SplitPartitions(shuffled[..]);
    }
    assert teams.0 + teams.1 == shuffled[..];
    teamA, teamB := teams.0, teams.1;
  }

  /** The roster loop of the "Create game" button: every player whose member
      record can be fetched and who is in a voice channel (`inVoice`) is asked
      to move; a move that fails is ignored. */
  method AttemptMoves(team: seq<UserId>, inVoice: set<UserId>) returns (attempted: seq<UserId>)
    ensures |attempted| <= |team|
    ensures forall id :: id in attempted <==> id in team && id in inVoice
  {
    attempted := [];
    for k := 0 to |team|
      invariant |attempted| <= k
      invariant forall id :: id in attempted <==> id in team[..k] && id in inVoice
    {
      assert team[..k + 1] == team[..k] + [team[k]];
      if team[k] in inVoice {
        attempted := attempted + [team[k]];
      }
    }
    assert team[..|team|] == team;
  }

  /** What `/end` did with one team channel: whom it asked to move back and
      whether it deleted the channel. */
  datatype Teardown = Teardown(moved: seq<UserId>, deleted: bool)

  /** The channel id is set and names a voice channel in the guild's cache. */
  predicate IsVoiceChannel(cache: map<ChannelId, Channel>, chanId: Option<ChannelId>)
  {
    chanId.Some? && chanId.value in cache && cache[chanId.value].kind == GuildVoice
  }

  /** `moveBack`: a team channel that is unset, gone from the cache or not a
      voice channel is skipped; otherwise every occupant is asked to move back
      and the channel is deleted, whether or not anyone is left in it. */
  method MoveBack(cache: map<ChannelId, Channel>, chanId: Option<ChannelId>) returns (t: Teardown)
    ensures !IsVoiceChannel(cache, chanId) ==> t == Teardown([], false)
    ensures IsVoiceChannel(cache, chanId) ==> t.moved == cache[chanId.value].members && t.deleted
  {
    if !IsVoiceChannel(cache, chanId) {
      return Teardown([], false);
    }
    var occupants := cache[chanId.value].members;
    var moved := [];
    for k := 0 to |occupants|
      invariant moved == occupants[..k]
    {
      assert occupants[..k + 1] == occupants[..k] + [occupants[k]];
      moved := moved + [occupants[k]];
    }
    assert occupants[..|occupants|] == occupants;
    t := Teardown(moved, true);
  }

  /** What the session invariant promises of one record: two balanced teams
      drawn from at least two distinct players, team A the larger, nobody on
      both teams, and the two team channels set or unset together. */
  predicate WellFormed(s: Session)
  {
    && |s.teamA| + |s.teamB| >= 2
    && NoDuplicates(s.teamA + s.teamB)
    && |s.teamA| == CeilHalf(|s.teamA| + |s.teamB|)
    && (s.chanA.Some? <==> s.chanB.Some?)
  }

  /** Every guild other than `guild` has the same entry (or none) in both maps. */
  ghost predicate OthersUnchanged(before: map<GuildId, Session>, after: map<GuildId, Session>, guild: GuildId)
  {
    forall g | g != guild :: (g in after <==> g in before) && (g in before ==> after[g] == before[g])
  }

  datatype GameReply = NotInVoice | TooFewPlayers | Drafted(teamA: seq<UserId>, teamB: seq<UserId>)

  /** A reply of `InteractionFailed` is the generic error message the outer
      handler sends when a step throws (here: MISSING_PERMS). */
  datatype CreateReply = NoSession | InteractionFailed | ChannelsNotCreated | Created(movedA: seq<UserId>, movedB: seq<UserId>)

  datatype EndReply = NoSession | InteractionFailed | Ended(backTo: ChannelId, teamA: Teardown, teamB: Teardown)

  /** The process-wide map from guild id to its game session. */
  class SessionStore {
    var sessions: map<GuildId, Session>

    ghost predicate Valid()
      reads this
    {
      forall g | g in sessions :: WellFormed(sessions[g])
    }

    constructor ()
      ensures Valid() && sessions == map[]
    {
      sessions := map[];
    }

    /** `/game`: needs the requester to be in a voice channel holding at least
        two human players; then shuffles them, splits them into two teams and
        stores a fresh session for the guild, replacing any session already
        there. `sent` is the announcement the handler posted; the platform
        gives the channel's members distinct ids. */
    method StartGame(guild: GuildId, voice: Option<VoiceChannel>, sent: MessageRef) returns (reply: GameReply)
      requires Valid()
      requires voice.Some? ==> DistinctIds(voice.value.members)
      modifies this
      ensures Valid()
      ensures voice.None? ==> reply == NotInVoice && sessions == old(sessions)
      ensures voice.Some? && |Participants(voice.value.members)| < 2 ==>
        reply == TooFewPlayers && sessions == old(sessions)
      ensures voice.Some? && |Participants(voice.value.members)| >= 2 ==>
        var ids := Participants(voice.value.members);
        && reply.Drafted?
        && guild in sessions
        && sessions[guild] == Session(voice.value.id, reply.teamA, reply.teamB, None, None, sent.messageId, sent.channelId)
        && multiset(reply.teamA + reply.teamB) == multiset(ids)
        && |reply.teamA| == CeilHalf(|ids|) && |reply.teamB| == |ids| - CeilHalf(|ids|)
        && NoDuplicates(reply.teamA + reply.teamB)
        && (set x | x in reply.teamA) !! (set x | x in reply.teamB)
      ensures OthersUnchanged(old(sessions), sessions, guild)
    {
      if voice.None? {
        return NotInVoice;
      }
      var v := voice.value;
      var ids := Participants(v.members);
      if |ids| < 2 {
        return TooFewPlayers;
      }
      ParticipantsDistinct(v.members);
      var teamA, teamB := DraftTeams(ids);
      sessions := sessions[guild := Session(v.id, teamA, teamB, None, None, sent.messageId, sent.channelId)];
      reply := Drafted(teamA, teamB);
    }

    /** The "Create game" button: needs a session for the guild and the needed
        permissions; `createdA`/`createdB` are the results of creating the two
        team channels. Only when both exist are they recorded on the session;
        the rosters then are asked to move into them. */
    method CreateGame(guild: GuildId, held: set<Permission>, createdA: Option<ChannelId>, createdB: Option<ChannelId>,
                      inVoice: set<UserId>) returns (reply: CreateReply)
      requires Valid()
      modifies this
      ensures Valid()
      ensures guild !in old(sessions) ==> reply == CreateReply.NoSession && sessions == old(sessions)
      ensures guild in old(sessions) && EnsurePerms(held).Fail? ==>
        reply == CreateReply.InteractionFailed && sessions == old(sessions)
      ensures guild in old(sessions) && EnsurePerms(held).Pass? && (createdA.None? || createdB.None?) ==>
        reply == ChannelsNotCreated && sessions == old(sessions)
      ensures guild in old(sessions) && EnsurePerms(held).Pass? && createdA.Some? && createdB.Some? ==>
        var s := old(sessions)[guild];
        && reply.Created?
        && sessions == old(sessions)[guild := s.(chanA := createdA, chanB := createdB)]
        && (forall id :: id in reply.movedA <==> id in s.teamA && id in inVoice)
        && (forall id :: id in reply.movedB <==> id in s.teamB && id in inVoice)
      ensures OthersUnchanged(old(sessions), sessions, guild)
    {
      if guild !in sessions {
        return CreateReply.NoSession;
      }
      var session := sessions[guild];
      if EnsurePerms(held).Fail? {
        return CreateReply.InteractionFailed;
      }
      if createdA.None? || createdB.None? {
        return ChannelsNotCreated;
      }
      session := session.(chanA := createdA, chanB := createdB);
      sessions := sessions[guild := session];
      var movedA := AttemptMoves(session.teamA, inVoice);
      var movedB := AttemptMoves(session.teamB, inVoice);
      reply := Created(movedA, movedB);
    }

    /** `/end`: needs a session for the guild and the needed permissions; then
        empties and deletes both team channels towards the original channel and
        removes the guild's session. `cache` is the guild's channel cache. */
    method EndGame(guild: GuildId, held: set<Permission>, cache: map<ChannelId, Channel>) returns (reply: EndReply)
      requires Valid()
      modifies this
      ensures Valid()
      ensures guild !in old(sessions) ==> reply == EndReply.NoSession && sessions == old(sessions)
      ensures guild in old(sessions) && EnsurePerms(held).Fail? ==>
        reply == EndReply.InteractionFailed && sessions == old(sessions)
      ensures guild in old(sessions) && EnsurePerms(held).Pass? ==>
        var s := old(sessions)[guild];
        && reply.Ended?
        && reply.backTo == s.originalChannelId
        && (IsVoiceChannel(cache, s.chanA) <==> reply.teamA.deleted)
        && (IsVoiceChannel(cache, s.chanB) <==> reply.teamB.deleted)
        && (reply.teamA.deleted ==> reply.teamA.moved == cache[s.chanA.value].members)
        && (reply.teamB.deleted ==> reply.teamB.moved == cache[s.chanB.value].members)
        && (!reply.teamA.deleted ==> reply.teamA.moved == [])
        && (!reply.teamB.deleted ==> reply.teamB.moved == [])
        && guild !in sessions
        && sessions == old(sessions) - {guild}
      ensures OthersUnchanged(old(sessions), sessions, guild)
    {
      if guild !in sessions {
        return EndReply.NoSession;
      }
      var session := sessions[guild];
      if EnsurePerms(held).Fail? {
        return EndReply.InteractionFailed;
      }
      var backId := session.originalChannelId;
      var a := MoveBack(cache, session.chanA);
      var b := MoveBack(cache, session.chanB);
      sessions := sessions - {guild};
      reply := Ended(backId, a, b);
    }
  }
}
