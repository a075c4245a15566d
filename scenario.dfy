/** The lifecycle of one game, as a client of the store sees it: two players
    and a bot in the voice channel "squad", then the button, then `/end`. */
module Scenario {
  import opened Types
  import opened Permissions
  import opened Sessions

  /** `/game` from outside voice is refused and stores nothing. */
  method NotInVoice()
  {
    var store := new SessionStore();
    var refused := store.StartGame("g", None, MessageRef("m", "text"));
    assert refused == GameReply.NotInVoice && store.sessions == map[];
  }

  /** Two players and a bot. */
  const SquadOccupants: seq<Member> := [Member("a", false), Member("b", true), Member("c", false)]

  lemma SquadPlayers()
    ensures |Participants(SquadOccupants)| == 2
  {
    assert SquadOccupants[2..] == [Member("c", false)];
    assert SquadOccupants[1..] == [Member("b", true), Member("c", false)];
    assert Participants(SquadOccupants[2..]) == ["c"];
    assert Participants(SquadOccupants[1..]) == ["c"];
  }

  lemma SquadDistinct()
    ensures DistinctIds(SquadOccupants)
  {
    assert "a"[0] != "b"[0] && "a"[0] != "c"[0] && "b"[0] != "c"[0];
  }

  /** `/game` from "squad" drafts one player per team. */
  method Draft() returns (store: SessionStore, teams: GameReply)
    ensures fresh(store) && store.Valid()
    ensures teams.Drafted? && |teams.teamA| == 1 && |teams.teamB| == 1
    ensures "g" in store.sessions && forall g | g in store.sessions :: g == "g"
    ensures store.sessions["g"] == Session("squad", teams.teamA, teams.teamB, None, None, "m", "text")
  {
    store := new SessionStore();
    SquadPlayers();
    SquadDistinct();
    teams := store.StartGame("g", Some(VoiceChannel("squad", SquadOccupants)), MessageRef("m", "text"));
  }

  /** The button is refused without all four permissions, and leaves the
      session as drafted when a channel could not be created. */
  method ButtonRefused()
  {
    var store, teams := Draft();
    var r3 := store.CreateGame("g", {ManageChannels, MoveMembers, ViewChannel}, Some("ta"), Some("tb"), {});
    assert r3 == CreateReply.InteractionFailed && store.sessions["g"].chanA == None;
    var r4 := store.CreateGame("g", {ManageChannels, MoveMembers, ViewChannel, Connect}, Some("ta"), None, {});
    assert r4 == ChannelsNotCreated && store.sessions["g"].chanA == None;
  }

  /** The button with both channels created, then `/end`, which returns the
      guild to having no session; a second `/end` finds none. */
  method PlayAndEnd()
  {
    var store, teams := Draft();
    var held := {ManageChannels, MoveMembers, ViewChannel, Connect};
    var r5 := store.CreateGame("g", held, Some("ta"), Some("tb"), {"a", "c"});
    assert r5.Created? && store.sessions["g"].chanA == Some("ta") && store.sessions["g"].chanB == Some("tb");

    var cache := map["ta" := Channel(GuildVoice, teams.teamA), "tb" := Channel(GuildVoice, teams.teamB)];
    var r6 := store.EndGame("g", held, cache);
    assert r6.Ended? && r6.backTo == "squad" && r6.teamA.deleted && r6.teamB.deleted;
    assert store.sessions == map[];

    var r7 := store.EndGame("g", held, cache);
    assert r7 == EndReply.NoSession;
  }
}
