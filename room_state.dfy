/**
 * The party page's room state: what the `useParty` hook keeps, and how each socket
 * event the page listens to updates it.
 */
module RoomState {
  import opened Types

  /** A participant as the page holds it. */
  datatype Person = Person(id: ParticipantId, row: ParticipantRow)

  /** A song as the page holds it. */
  datatype SongEntry = SongEntry(id: SongId, row: SongRow)

  /** The party snapshot sent with `party:state`. */
  datatype PartyView = PartyView(id: PartyId, row: PartyRow, participants: seq<Person>, songs: seq<SongEntry>)

  datatype CurrentSong = CurrentSong(songId: SongId, startTime: int)

  datatype Reveal = Reveal(songId: SongId, score: real, votes: seq<Vote>)

  /** The six pieces of hook state (`reveal` is `shownReveal`); each starts out null or empty. */
  datatype Room = Room(
    party: Option<PartyView>,
    participants: seq<Person>,
    songs: seq<SongEntry>,
    currentSong: Option<CurrentSong>,
    shownReveal: Option<Reveal>,
    idleTimeout: Option<int>)

  const Initial: Room := Room(None, [], [], None, None, None)

  /**
   * The events the page handles. A `party:state` whose party is null sets `party` to null
   * and then fails on reading its participants, so the other fields are left as they were.
   */
  datatype Event =
    | PartyState(party: Option<PartyView>)
    | ParticipantJoined(participant: Person)
    | ParticipantLeft(participantId: ParticipantId)
    | SongAdded(song: SongEntry)
    | PlaybackStarted(song: SongEntry, startTime: int)
    | PlaybackReveal(payload: Reveal)
    | QueueIdle(timeoutAt: int)
    | QueueIdleCancel
    | PartyEnded

  predicate HasId(ps: seq<Person>, id: ParticipantId) {
    exists i :: 0 <= i < |ps| && ps[i].id == id
  }

  /** `prev.filter((p) => p.id !== id)`. */
  function Without(ps: seq<Person>, id: ParticipantId): seq<Person> {
    if ps == [] then []
    else if ps[0].id == id then Without(ps[1..], id)
    else [ps[0]] + Without(ps[1..], id)
  }

  /** The state after the page has handled one event. `party:ended` only navigates away. */
  function Apply(room: Room, e: Event): Room {
    match e
    case PartyState(party) =>
      if party.Some? then room.(party := party, participants := party.value.participants, songs := party.value.songs)
      else room.(party := None)
    case ParticipantJoined(p) =>
      if HasId(room.participants, p.id) then room else room.(participants := room.participants + [p])
    case ParticipantLeft(id) => room.(participants := Without(room.participants, id))
    case SongAdded(s) => room.(songs := room.songs + [s])
    case PlaybackStarted(s, startTime) => room.(shownReveal := None, currentSong := Some(CurrentSong(s.id, startTime)))
    case PlaybackReveal(r) => room.(shownReveal := Some(r))
    case QueueIdle(timeoutAt) => room.(idleTimeout := Some(timeoutAt))
    case QueueIdleCancel => room.(idleTimeout := None)
    case PartyEnded => room
  }

  /** The state after a sequence of events, handled in order. */
  function ApplyAll(room: Room, es: seq<Event>): Room
    decreases |es|
  {
    if es == [] then room else ApplyAll(Apply(room, es[0]), es[1..])
  }

  /** No two participants in the list share an id. */
  ghost predicate UniqueIds(ps: seq<Person>) {
    forall i, j :: 0 <= i < j < |ps| ==> ps[i].id != ps[j].id
  }

  // ---------------------------------------------------------------- participants

  /** A join appends the participant exactly when no listed participant has its id. */
  lemma JoinAppendsIffAbsent(room: Room, p: Person)
    ensures HasId(room.participants, p.id) ==> Apply(room, ParticipantJoined(p)) == room
    ensures !HasId(room.participants, p.id) ==>
      Apply(room, ParticipantJoined(p)) == room.(participants := room.participants + [p])
    ensures HasId(Apply(room, ParticipantJoined(p)).participants, p.id)
  {
    if !HasId(room.participants, p.id) {
      var ps := room.participants + [p];
      assert ps[|ps| - 1].id == p.id;
    }
  }

  /** Handling the same join twice leaves the same state as handling it once. */
  lemma JoinIdempotent(room: Room, p: Person)
    ensures Apply(Apply(room, ParticipantJoined(p)), ParticipantJoined(p)) == Apply(room, ParticipantJoined(p))
  {
    JoinAppendsIffAbsent(room, p);
  }

  /** What is left after a leave is exactly the participants with another id. */
  lemma {:induction false} WithoutMembers(ps: seq<Person>, id: ParticipantId, x: Person)
    ensures x in Without(ps, id) <==> x in ps && x.id != id
  {
    if ps != [] {
      WithoutMembers(ps[1..], id, x);
      assert ps == [ps[0]] + ps[1..];
    }
  }

  /** Nobody with the departed id is left. */
  lemma WithoutRemovesAll(ps: seq<Person>, id: ParticipantId)
    ensures !HasId(Without(ps, id), id)
  {
    var r := Without(ps, id);
    forall i | 0 <= i < |r| ensures r[i].id != id {
      WithoutMembers(ps, id, r[i]);
    }
  }

  /** A leave for an id nobody has changes nothing. */
  lemma {:induction false} WithoutAbsent(ps: seq<Person>, id: ParticipantId)
    requires !HasId(ps, id)
    ensures Without(ps, id) == ps
  {
    if ps != [] {
      assert ps[0].id != id;
      assert !HasId(ps[1..], id) by {
        forall i | 0 <= i < |ps[1..]| ensures ps[1..][i].id != id {
          assert ps[1..][i] == ps[i + 1];
        }
      }
      WithoutAbsent(ps[1..], id);
      assert ps == [ps[0]] + ps[1..];
    }
  }

  /**
   * The filter works on each part of a list separately, so the remaining participants
   * keep their relative order.
   */
  lemma {:induction false} WithoutConcat(a: seq<Person>, b: seq<Person>, id: ParticipantId)
    ensures Without(a + b, id) == Without(a, id) + Without(b, id)
  {
    if a == [] {
      assert a + b == b;
    } else {
      assert (a + b)[0] == a[0];
      assert (a + b)[1..] == a[1..] + b;
      WithoutConcat(a[1..], b, id);
    }
  }

  /** Leaving twice is the same as leaving once. */
  lemma WithoutIdempotent(ps: seq<Person>, id: ParticipantId)
    ensures Without(Without(ps, id), id) == Without(ps, id)
  {
    WithoutRemovesAll(ps, id);
    WithoutAbsent(Without(ps, id), id);
  }

  lemma {:induction false} WithoutKeepsUnique(ps: seq<Person>, id: ParticipantId)
    requires UniqueIds(ps)
    ensures UniqueIds(Without(ps, id))
  {
    if ps != [] {
      var tail := ps[1..];
      assert UniqueIds(tail) by {
        forall i, j | 0 <= i < j < |tail| ensures tail[i].id != tail[j].id {
          assert tail[i] == ps[i + 1] && tail[j] == ps[j + 1];
        }
      }
      WithoutKeepsUnique(tail, id);
      if ps[0].id != id {
        var w := Without(tail, id);
        var r := [ps[0]] + w;
        forall i, j | 0 <= i < j < |r| ensures r[i].id != r[j].id {
          if i == 0 {
            WithoutMembers(tail, id, w[j - 1]);
            var k :| 0 <= k < |tail| && tail[k] == w[j - 1];
            assert ps[k + 1] == tail[k];
          } else {
            assert r[i] == w[i - 1] && r[j] == w[j - 1];
          }
        }
      }
    }
  }

  /**
   * Participant ids stay unique through every event, provided any `party:state`
   * snapshot brings unique ids of its own.
   */
  lemma ApplyKeepsUniqueIds(room: Room, e: Event)
    requires UniqueIds(room.participants)
    requires e.PartyState? && e.party.Some? ==> UniqueIds(e.party.value.participants)
    ensures UniqueIds(Apply(room, e).participants)
  {
    match e
    case ParticipantJoined(p) =>
      if !HasId(room.participants, p.id) {
        var ps := room.participants + [p];
        forall i, j | 0 <= i < j < |ps| ensures ps[i].id != ps[j].id {
          if j == |ps| - 1 {
            assert ps[i] == room.participants[i];
          } else {
            assert ps[i] == room.participants[i] && ps[j] == room.participants[j];
          }
        }
      }
    case ParticipantLeft(id) => WithoutKeepsUnique(room.participants, id);
    case _ =>
  }

  // ---------------------------------------------------------------- songs and playback

  /** A `song:added` appends the song last, even if it is already listed. */
  lemma SongAddedAppends(room: Room, s: SongEntry)
    ensures |Apply(room, SongAdded(s)).songs| == |room.songs| + 1
    ensures Apply(room, SongAdded(s)).songs[..|room.songs|] == room.songs
    ensures Apply(room, SongAdded(s)).songs[|room.songs|] == s
  {
    assert (room.songs + [s])[..|room.songs|] == room.songs;
  }

  /** `n` `song:added` events lengthen the list by `n`, with no deduplication. */
  lemma {:induction false} SongsAddedCount(room: Room, ss: seq<SongEntry>, es: seq<Event>)
    requires |es| == |ss|
    requires forall i :: 0 <= i < |es| ==> es[i] == SongAdded(ss[i])
    ensures ApplyAll(room, es).songs == room.songs + ss
    decreases |es|
  {
    if es != [] {
      SongsAddedCount(Apply(room, es[0]), ss[1..], es[1..]);
      assert room.songs + [ss[0]] + ss[1..] == room.songs + ss;
    }
  }

  /** A started song becomes current and hides the previous reveal; a reveal shows its payload. */
  lemma PlaybackEvents(room: Room, s: SongEntry, startTime: int, r: Reveal)
    ensures Apply(room, PlaybackStarted(s, startTime)).shownReveal == None
    ensures Apply(room, PlaybackStarted(s, startTime)).currentSong == Some(CurrentSong(s.id, startTime))
    ensures Apply(room, PlaybackReveal(r)).shownReveal == Some(r)
    ensures Apply(Apply(room, PlaybackReveal(r)), PlaybackStarted(s, startTime)) == Apply(room, PlaybackStarted(s, startTime))
  {
  }

  /** The idle countdown shows the announced deadline until it is cancelled. */
  lemma IdleEvents(room: Room, timeoutAt: int)
    ensures Apply(room, QueueIdle(timeoutAt)).idleTimeout == Some(timeoutAt)
    ensures Apply(room, QueueIdleCancel).idleTimeout == None
    ensures Apply(Apply(room, QueueIdle(timeoutAt)), QueueIdleCancel) == room.(idleTimeout := None)
  {
  }

  /** A snapshot replaces party, participants and songs wholesale, whatever they were. */
  lemma PartyStateReplaces(room: Room, other: Room, p: PartyView)
    requires room.currentSong == other.currentSong && room.shownReveal == other.shownReveal
    requires room.idleTimeout == other.idleTimeout
    ensures Apply(room, PartyState(Some(p))) == Apply(other, PartyState(Some(p)))
    ensures Apply(room, PartyState(Some(p))).participants == p.participants
    ensures Apply(room, PartyState(Some(p))).songs == p.songs
  {
  }

  // ---------------------------------------------------------------- frame

  /** Each event changes only the fields its handler sets; `party:ended` changes nothing. */
  lemma OnlyOwnFieldsChange(room: Room, e: Event)
    ensures !e.PartyState? ==> Apply(room, e).party == room.party
    ensures !(e.PartyState? && e.party.Some?) && !e.ParticipantJoined? && !e.ParticipantLeft? ==>
      Apply(room, e).participants == room.participants
    ensures !(e.PartyState? && e.party.Some?) && !e.SongAdded? ==> Apply(room, e).songs == room.songs
    ensures !e.PlaybackStarted? ==> Apply(room, e).currentSong == room.currentSong
    ensures !e.PlaybackStarted? && !e.PlaybackReveal? ==> Apply(room, e).shownReveal == room.shownReveal
    ensures !e.QueueIdle? && !e.QueueIdleCancel? ==> Apply(room, e).idleTimeout == room.idleTimeout
    ensures e.PartyEnded? ==> Apply(room, e) == room
  {
  }
}
