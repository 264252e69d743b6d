/** Identifiers, statuses and store rows shared by the server and the client. */
module Types {

  datatype Option<+T> = None | Some(value: T)

  type PartyId = string
  type ParticipantId = string
  type SongId = string
  type SocketId = string

  /** The four statuses a party moves through. */
  datatype PartyStatus = Lobby | Playing | Ending | Ended

  /** The three statuses a song moves through. */
  datatype SongStatus = Queued | Playing | Played

  /** The track fields a client sends with `song:add`. */
  datatype Track = Track(itunesId: string, title: string, artist: string, albumArt: string, previewUrl: string)

  /** A party row: only the fields the real-time handlers read or write. */
  datatype PartyRow = PartyRow(status: PartyStatus, hostId: ParticipantId, idleTimeout: int)

  /** A participant row; `socketId` is None while the participant is disconnected. */
  datatype ParticipantRow = ParticipantRow(partyId: PartyId, name: string, isHost: bool, socketId: Option<SocketId>)

  /** A song row; `playedAt` is the epoch-millisecond time playback started. */
  datatype SongRow = SongRow(
    partyId: PartyId,
    track: Track,
    addedByName: string,
    position: int,
    status: SongStatus,
    playedAt: Option<int>)

  /** A vote row. The value is whatever the client sent: it is not checked to be 1 or -1. */
  datatype Vote = Vote(songId: SongId, participantId: ParticipantId, value: int)

  /** A song together with its votes, as the store returns it with `include: { votes: true }`. */
  datatype SongWithVotes = SongWithVotes(id: SongId, row: SongRow, votes: seq<Vote>)
}
