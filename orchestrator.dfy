/**
 * The real-time party orchestrator: the store rows the socket handlers read and write,
 * the idle-timer map, the reveal callbacks still waiting to fire, and an append-only log
 * of what was broadcast. Each handler is one atomic step; the two deferred callbacks are
 * steps of their own that the environment may take once they are enabled.
 */
module Orchestrator {
  import opened Types
  import opened VoteTable
  import opened Ranker

  /** What the server emits, to one socket or to a party's room. */
  datatype Broadcast =
    | PartyStateSent(socket: SocketId, partyId: PartyId, found: bool)
    | ParticipantJoined(partyId: PartyId, participant: Option<ParticipantId>)
    | PlaybackStarted(partyId: PartyId, songId: SongId, song: SongRow, startTime: int)
    | PlaybackReveal(partyId: PartyId, songId: SongId, score: real, votes: seq<Vote>)
    | QueueIdle(partyId: PartyId, timeoutAt: int)
    | QueueIdleCancel(partyId: PartyId)
    | SongAdded(partyId: PartyId, songId: SongId, song: SongRow)
    | PartyEnding(partyId: PartyId)
    | PartyEnded(partyId: PartyId, results: seq<ResultEntry>)
    | PartyEndedByScore(partyId: PartyId, scores: seq<ScoreEntry>)
    | ParticipantLeft(partyId: PartyId, participantId: ParticipantId)

  /** The whole server state as one value, for stating what a step changes. */
  datatype State = State(
    parties: map<PartyId, PartyRow>,
    participants: map<ParticipantId, ParticipantRow>,
    songs: map<SongId, SongRow>,
    votes: seq<Vote>,
    idleTimers: map<PartyId, int>,
    pendingReveals: multiset<PartyId>,
    log: seq<Broadcast>)

  /** The party exists and the caller is its host. */
  predicate IsHostCall(parties: map<PartyId, PartyRow>, partyId: PartyId, participantId: ParticipantId) {
    partyId in parties && parties[partyId].hostId == participantId
  }

  predicate IsQueuedIn(songs: map<SongId, SongRow>, partyId: PartyId, id: SongId) {
    id in songs && songs[id].partyId == partyId && songs[id].status == SongStatus.Queued
  }

  predicate IsPlayingIn(songs: map<SongId, SongRow>, partyId: PartyId, id: SongId) {
    id in songs && songs[id].partyId == partyId && songs[id].status == SongStatus.Playing
  }

  predicate IsPlayedIn(songs: map<SongId, SongRow>, partyId: PartyId, id: SongId) {
    id in songs && songs[id].partyId == partyId && songs[id].status == SongStatus.Played
  }

  predicate HasQueued(songs: map<SongId, SongRow>, partyId: PartyId) {
    exists id :: id in songs && IsQueuedIn(songs, partyId, id)
  }

  predicate HasPlaying(songs: map<SongId, SongRow>, partyId: PartyId) {
    exists id :: id in songs && IsPlayingIn(songs, partyId, id)
  }

  /** id is a queued song of the party with the smallest position (ties: any of them). */
  predicate IsNextQueued(songs: map<SongId, SongRow>, partyId: PartyId, id: SongId) {
    IsQueuedIn(songs, partyId, id) &&
    forall j :: j in songs && IsQueuedIn(songs, partyId, j) ==> songs[id].position <= songs[j].position
  }

  /** `song.count({ where: { partyId, status: "queued" } })`. */
  function QueueLength(songs: map<SongId, SongRow>, partyId: PartyId): nat {
    |set id | id in songs && IsQueuedIn(songs, partyId, id)|
  }

  /** The participant's name, or "unknown" when there is no such participant. */
  function AddedByName(participants: map<ParticipantId, ParticipantRow>, participantId: ParticipantId): string {
    if participantId in participants then participants[participantId].name else "unknown"
  }

  /** The row a song gets when it starts playing at `now`. */
  function Started(row: SongRow, now: int): SongRow {
    row.(status := SongStatus.Playing, playedAt := Some(now))
  }

  /** The party row after a first play: `lobby` becomes `playing`, any other status stays. */
  function LeaveLobby(p: PartyRow): PartyRow {
    if p.status == Lobby then p.(status := PartyStatus.Playing) else p
  }

  /** fetched lists each played song of the party exactly once, in the store's order. */
  ghost predicate ListsPlayed(songs: map<SongId, SongRow>, partyId: PartyId, fetched: seq<SongId>) {
    (forall i :: 0 <= i < |fetched| ==> IsPlayedIn(songs, partyId, fetched[i])) &&
    (forall i, j :: 0 <= i < j < |fetched| ==> fetched[i] != fetched[j]) &&
    (forall id :: IsPlayedIn(songs, partyId, id) ==> id in fetched)
  }

  /** `song.findMany({ where: { partyId, status: "played" }, include: { votes: true } })`. */
  function PlayedSongs(songs: map<SongId, SongRow>, votes: seq<Vote>, fetched: seq<SongId>): (r: seq<SongWithVotes>)
    requires forall i :: 0 <= i < |fetched| ==> fetched[i] in songs
    ensures |r| == |fetched|
  {
    seq(|fetched|, i requires 0 <= i < |fetched| => SongWithVotes(fetched[i], songs[fetched[i]], VotesOf(votes, fetched[i])))
  }

  /**
   * What a closing party ranks: every entry is a played song of the party with its own row,
   * every played song of the party is in exactly one entry, and each entry carries exactly
   * that song's votes.
   */
  lemma PlayedSongsOfParty(songs: map<SongId, SongRow>, votes: seq<Vote>, partyId: PartyId, fetched: seq<SongId>)
    requires ListsPlayed(songs, partyId, fetched)
    ensures
      var r := PlayedSongs(songs, votes, fetched);
      (forall i :: 0 <= i < |r| ==> IsPlayedIn(songs, partyId, r[i].id) && r[i].row == songs[r[i].id]) &&
      (forall id :: IsPlayedIn(songs, partyId, id) ==> exists i :: 0 <= i < |r| && r[i].id == id) &&
      (forall i, j :: 0 <= i < j < |r| ==> r[i].id != r[j].id) &&
      (forall i, w :: 0 <= i < |r| ==> (w in r[i].votes <==> w in votes && w.songId == r[i].id))
  {
    var r := PlayedSongs(songs, votes, fetched);
    assert |r| == |fetched|;
    forall id | IsPlayedIn(songs, partyId, id) ensures exists i :: 0 <= i < |r| && r[i].id == id {
      var i :| 0 <= i < |fetched| && fetched[i] == id;
      assert r[i].id == id;
    }
  }

  /** A party with a queued song has a queued song of least position. */
  lemma NextQueuedExists(songs: map<SongId, SongRow>, partyId: PartyId)
    requires HasQueued(songs, partyId)
    ensures exists id :: id in songs && IsNextQueued(songs, partyId, id)
  {
    var queued := set id | id in songs && IsQueuedIn(songs, partyId, id);
    var w :| w in songs && IsQueuedIn(songs, partyId, w);
    assert w in queued;
    var m := LeastPosition(songs, queued);
    assert IsNextQueued(songs, partyId, m);
  }

  lemma {:induction false} LeastPosition(songs: map<SongId, SongRow>, ids: set<SongId>) returns (m: SongId)
    requires ids != {} && ids <= songs.Keys
    ensures m in ids && forall j :: j in ids ==> songs[m].position <= songs[j].position
    decreases |ids|
  {
    var x :| x in ids;
    if ids == {x} {
      m := x;
    } else {
      var rest := ids - {x};
      var m' := LeastPosition(songs, rest);
      m := if songs[x].position < songs[m'].position then x else m';
    }
  }

  class Server {
    var parties: map<PartyId, PartyRow>
    var participants: map<ParticipantId, ParticipantRow>
    var songs: map<SongId, SongRow>
    var votes: seq<Vote>
    /** `idleTimers`: the parties whose idle countdown is armed, each with its deadline. */
    var idleTimers: map<PartyId, int>
    /** One entry per `playback:next` whose 3-second reveal delay has not yet elapsed. */
    var pendingReveals: multiset<PartyId>
    var log: seq<Broadcast>

    function Snapshot(): State
      reads this
    {
      State(parties, participants, songs, votes, idleTimers, pendingReveals, log)
    }

    /** At most one vote per pair; timers and pending reveals belong to existing parties. */
    ghost predicate Valid()
      reads this
    {
      KeysUnique(votes) &&
      (forall p :: p in pendingReveals ==> p in parties) &&
      (forall p :: p in idleTimers ==> p in parties)
    }

    /** The server starts from the rows the REST routes created, with no timers and nothing sent. */
    constructor (parties: map<PartyId, PartyRow>, participants: map<ParticipantId, ParticipantRow>,
                 songs: map<SongId, SongRow>, votes: seq<Vote>)
      requires KeysUnique(votes)
      ensures Valid()
      ensures Snapshot() == State(parties, participants, songs, votes, map[], multiset{}, [])
    {
      this.parties := parties;
      this.participants := participants;
      this.songs := songs;
      this.votes := votes;
      this.idleTimers := map[];
      this.pendingReveals := multiset{};
      this.log := [];
    }

    /** `party:join`: record the socket, send the snapshot to it, announce the participant to the room. */
    method Join(partyId: PartyId, participantId: ParticipantId, socket: SocketId)
      requires Valid()
      modifies this
      ensures Valid()
      ensures participantId !in old(participants) ==> Snapshot() == old(Snapshot())
      ensures participantId in old(participants) ==>
        var p := old(participants)[participantId];
        var found := partyId in old(parties);
        Snapshot() == old(Snapshot()).(
          participants := old(participants)[participantId := p.(socketId := Some(socket))],
          log := old(log) + [PartyStateSent(socket, partyId, found),
                             ParticipantJoined(partyId, if found && p.partyId == partyId then Some(participantId) else None)])
    {
      if participantId !in participants {
        return;
      }
      var p := participants[participantId];
      participants := participants[participantId := p.(socketId := Some(socket))];
      var found := partyId in parties;
      var joined := if found && p.partyId == partyId then Some(participantId) else None;
      log := log + [PartyStateSent(socket, partyId, found), ParticipantJoined(partyId, joined)];
    }

    /** `playback:play`: the host starts a queued song of least position. */
    method Play(partyId: PartyId, participantId: ParticipantId, now: int) returns (started: Option<SongId>)
      requires Valid()
      modifies this
      ensures Valid()
      ensures !IsHostCall(old(parties), partyId, participantId) || !HasQueued(old(songs), partyId) ==>
        started == None && Snapshot() == old(Snapshot())
      ensures IsHostCall(old(parties), partyId, participantId) && HasQueued(old(songs), partyId) ==>
        started.Some? && IsNextQueued(old(songs), partyId, started.value) &&
        var row := Started(old(songs)[started.value], now);
        Snapshot() == old(Snapshot()).(
          songs := old(songs)[started.value := row],
          parties := old(parties)[partyId := LeaveLobby(old(parties)[partyId])],
          log := old(log) + [PlaybackStarted(partyId, started.value, row, now)])
    {
      if !IsHostCall(parties, partyId, participantId) || !HasQueued(songs, partyId) {
        return None;
      }
      NextQueuedExists(songs, partyId);
      var id :| id in songs && IsNextQueued(songs, partyId, id);
      var row := Started(songs[id], now);
      songs := songs[id := row];
      parties := parties[partyId := LeaveLobby(parties[partyId])];
      log := log + [PlaybackStarted(partyId, id, row, now)];
      started := Some(id);
    }

    /** `song:vote`: upsert the (song, participant) row with whatever value was sent. */
    method CastVote(songId: SongId, participantId: ParticipantId, value: int)
      requires Valid()
      modifies this
      ensures Valid()
      ensures Snapshot() == old(Snapshot()).(votes := Upsert(old(votes), Vote(songId, participantId, value)))
      ensures Lookup(votes, songId, participantId) == Some(value)
      ensures forall s, p :: (s != songId || p != participantId) ==> Lookup(votes, s, p) == Lookup(old(votes), s, p)
    {
      var v := Vote(songId, participantId, value);
      UpsertKeepsUnique(votes, v);
      UpsertStoresLatest(votes, v);
      forall s, p | s != songId || p != participantId
        ensures Lookup(Upsert(votes, v), s, p) == Lookup(votes, s, p)
      {
        UpsertKeepsOthers(votes, v, s, p);
      }
      votes := Upsert(votes, v);
    }

    /** `playback:next`: the host ends a playing song, reveals its score and arms the reveal delay. */
    method Next(partyId: PartyId, participantId: ParticipantId) returns (finished: Option<SongId>)
      requires Valid()
      modifies this
      ensures Valid()
      ensures !IsHostCall(old(parties), partyId, participantId) || !HasPlaying(old(songs), partyId) ==>
        finished == None && Snapshot() == old(Snapshot())
      ensures IsHostCall(old(parties), partyId, participantId) && HasPlaying(old(songs), partyId) ==>
        finished.Some? && IsPlayingIn(old(songs), partyId, finished.value) &&
        var id := finished.value;
        var cast := VotesOf(old(votes), id);
        Snapshot() == old(Snapshot()).(
          songs := old(songs)[id := old(songs)[id].(status := SongStatus.Played)],
          pendingReveals := old(pendingReveals) + multiset{partyId},
          log := old(log) + [PlaybackReveal(partyId, id, MeanScore(cast), cast)])
    {
      if !IsHostCall(parties, partyId, participantId) || !HasPlaying(songs, partyId) {
        return None;
      }
      var id :| id in songs && IsPlayingIn(songs, partyId, id);
      songs := songs[id := songs[id].(status := SongStatus.Played)];
      var cast := VotesOf(votes, id);
      log := log + [PlaybackReveal(partyId, id, MeanScore(cast), cast)];
      pendingReveals := pendingReveals + multiset{partyId};
      finished := Some(id);
    }

    /**
     * The reveal delay after a `playback:next` has elapsed: close an ending party with
     * `buildResults`, else start the next queued song, else arm the idle countdown.
     * `fetched` is the order in which the store lists the party's played songs.
     */
    method RevealElapsed(partyId: PartyId, now: int, fetched: seq<SongId>) returns (promoted: Option<SongId>)
      requires Valid()
      requires partyId in pendingReveals
      requires ListsPlayed(songs, partyId, fetched)
      modifies this
      ensures Valid()
      ensures
        var p := old(parties)[partyId];
        var rest := old(pendingReveals) - multiset{partyId};
        if p.status == Ending then
          promoted == None &&
          Snapshot() == old(Snapshot()).(
            parties := old(parties)[partyId := p.(status := Ended)],
            pendingReveals := rest,
            log := old(log) + [PartyEnded(partyId, BuildResults(PlayedSongs(old(songs), old(votes), fetched)))])
        else if HasQueued(old(songs), partyId) then
          promoted.Some? && IsNextQueued(old(songs), partyId, promoted.value) &&
          var row := Started(old(songs)[promoted.value], now);
          Snapshot() == old(Snapshot()).(
            songs := old(songs)[promoted.value := row],
            pendingReveals := rest,
            log := old(log) + [PlaybackStarted(partyId, promoted.value, row, now)])
        else
          promoted == None &&
          var timeoutAt := now + p.idleTimeout * 1000;
          Snapshot() == old(Snapshot()).(
            idleTimers := old(idleTimers)[partyId := timeoutAt],
            pendingReveals := rest,
            log := old(log) + [QueueIdle(partyId, timeoutAt)])
    {
      var p := parties[partyId];
      if p.status == Ending {
        CloseWithResults(partyId, fetched);
        promoted := None;
      } else if HasQueued(songs, partyId) {
        var id := PromoteNext(partyId, now);
        promoted := Some(id);
      } else {
        ArmIdle(partyId, now + p.idleTimeout * 1000);
        promoted := None;
      }
      pendingReveals := pendingReveals - multiset{partyId};
    }

    /** The ending branch of the reveal callback: mark the party `ended` and send it the `buildResults` ranking. */
    method CloseWithResults(partyId: PartyId, fetched: seq<SongId>)
      requires partyId in parties
      requires forall i :: 0 <= i < |fetched| ==> fetched[i] in songs
      modifies this
      ensures Snapshot() == old(Snapshot()).(
        parties := old(parties)[partyId := old(parties)[partyId].(status := Ended)],
        log := old(log) + [PartyEnded(partyId, BuildResults(PlayedSongs(old(songs), old(votes), fetched)))])
    {
      parties := parties[partyId := parties[partyId].(status := Ended)];
      log := log + [PartyEnded(partyId, BuildResults(PlayedSongs(songs, votes, fetched)))];
    }

    /** The reveal callback found a queued song: start the one of least position and announce it. */
    method PromoteNext(partyId: PartyId, now: int) returns (id: SongId)
      requires HasQueued(songs, partyId)
      modifies this
      ensures IsNextQueued(old(songs), partyId, id)
      ensures Snapshot() == old(Snapshot()).(
        songs := old(songs)[id := Started(old(songs)[id], now)],
        log := old(log) + [PlaybackStarted(partyId, id, Started(old(songs)[id], now), now)])
    {
      NextQueuedExists(songs, partyId);
      id :| id in songs && IsNextQueued(songs, partyId, id);
      var row := Started(songs[id], now);
      songs := songs[id := row];
      log := log + [PlaybackStarted(partyId, id, row, now)];
    }

    /** The queue is empty: announce the idle deadline and arm the countdown. */
    method ArmIdle(partyId: PartyId, timeoutAt: int)
      modifies this
      ensures Snapshot() == old(Snapshot()).(
        idleTimers := old(idleTimers)[partyId := timeoutAt],
        log := old(log) + [QueueIdle(partyId, timeoutAt)])
    {
      log := log + [QueueIdle(partyId, timeoutAt)];
      idleTimers := idleTimers[partyId := timeoutAt];
    }

    /** The idle countdown ran out: end the party and rank its played songs by mean score. */
    method IdleFired(partyId: PartyId, fetched: seq<SongId>)
      requires Valid()
      requires partyId in idleTimers
      requires ListsPlayed(songs, partyId, fetched)
      modifies this
      ensures Valid()
      ensures Snapshot() == old(Snapshot()).(
        parties := old(parties)[partyId := old(parties)[partyId].(status := Ended)],
        idleTimers := old(idleTimers) - {partyId},
        log := old(log) + [PartyEndedByScore(partyId, RankByScore(PlayedSongs(old(songs), old(votes), fetched)))])
    {
      parties := parties[partyId := parties[partyId].(status := Ended)];
      log := log + [PartyEndedByScore(partyId, RankByScore(PlayedSongs(songs, votes, fetched)))];
      idleTimers := idleTimers - {partyId};
    }

    /**
     * `song:add`: queue a song at position = current queue length; if the idle countdown
     * is armed, cancel it and start the new song at once. `newId` is the id the store assigns.
     */
    method Add(partyId: PartyId, participantId: ParticipantId, track: Track, newId: SongId, now: int)
      requires Valid()
      requires newId !in songs
      modifies this
      ensures Valid()
      ensures
        var row := SongRow(partyId, track, AddedByName(old(participants), participantId),
                           QueueLength(old(songs), partyId), SongStatus.Queued, None);
        if partyId in old(idleTimers) then
          Snapshot() == old(Snapshot()).(
            songs := old(songs)[newId := Started(row, now)],
            idleTimers := old(idleTimers) - {partyId},
            log := old(log) + [SongAdded(partyId, newId, row), QueueIdleCancel(partyId),
                               PlaybackStarted(partyId, newId, Started(row, now), now)])
        else
          Snapshot() == old(Snapshot()).(
            songs := old(songs)[newId := row],
            log := old(log) + [SongAdded(partyId, newId, row)])
    {
      var row := SongRow(partyId, track, AddedByName(participants, participantId),
                         QueueLength(songs, partyId), SongStatus.Queued, None);
      songs := songs[newId := row];
      log := log + [SongAdded(partyId, newId, row)];
      if partyId in idleTimers {
        CancelIdleAndStart(partyId, newId, now);
      }
    }

    /** A song arrived while the idle countdown was armed: disarm it and start that song at once. */
    method CancelIdleAndStart(partyId: PartyId, id: SongId, now: int)
      requires id in songs
      modifies this
      ensures Snapshot() == old(Snapshot()).(
        songs := old(songs)[id := Started(old(songs)[id], now)],
        idleTimers := old(idleTimers) - {partyId},
        log := old(log) + [QueueIdleCancel(partyId), PlaybackStarted(partyId, id, Started(old(songs)[id], now), now)])
    {
      idleTimers := idleTimers - {partyId};
      log := log + [QueueIdleCancel(partyId)];
      var row := Started(songs[id], now);
      songs := songs[id := row];
      log := log + [PlaybackStarted(partyId, id, row, now)];
    }

    /** `party:end`: the host disarms the idle countdown and marks the party `ending`. */
    method End(partyId: PartyId, participantId: ParticipantId)
      requires Valid()
      modifies this
      ensures Valid()
      ensures !IsHostCall(old(parties), partyId, participantId) ==> Snapshot() == old(Snapshot())
      ensures IsHostCall(old(parties), partyId, participantId) ==>
        Snapshot() == old(Snapshot()).(
          idleTimers := old(idleTimers) - {partyId},
          parties := old(parties)[partyId := old(parties)[partyId].(status := Ending)],
          log := old(log) + [PartyEnding(partyId)])
    {
      if !IsHostCall(parties, partyId, participantId) {
        return;
      }
      idleTimers := idleTimers - {partyId};
      parties := parties[partyId := parties[partyId].(status := Ending)];
      log := log + [PartyEnding(partyId)];
    }

    /** `disconnect`: mark a participant holding this socket offline and tell its room. */
    method Disconnect(socket: SocketId) returns (left: Option<ParticipantId>)
      requires Valid()
      modifies this
      ensures Valid()
      ensures (forall id :: id in old(participants) ==> old(participants)[id].socketId != Some(socket)) ==>
        left == None && Snapshot() == old(Snapshot())
      ensures (exists id :: id in old(participants) && old(participants)[id].socketId == Some(socket)) ==>
        left.Some? && left.value in old(participants) &&
        var p := old(participants)[left.value];
        p.socketId == Some(socket) &&
        Snapshot() == old(Snapshot()).(
          participants := old(participants)[left.value := p.(socketId := None)],
          log := old(log) + [ParticipantLeft(p.partyId, left.value)])
    {
      if !exists id :: id in participants && participants[id].socketId == Some(socket) {
        return None;
      }
      var id :| id in participants && participants[id].socketId == Some(socket);
      var p := participants[id];
      participants := participants[id := p.(socketId := None)];
      log := log + [ParticipantLeft(p.partyId, id)];
      left := Some(id);
    }
  }
}
