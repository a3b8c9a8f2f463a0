/**
 * The plain data holders of the client and the answers of the external wave
 * backend, which the model receives as values.
 */
module WaveData {
  import opened Base

  /** One line of wave content: its author's address and its text. */
  datatype CWavelet = CWavelet(author: string, text: string)

  /** One inbox row: the wave's id, its digest and whether it has been read. */
  datatype InboxElement = InboxElement(id: string, digest: string, read: bool)

  /** A participant, identified by its address (for example tom@localhost.com). */
  datatype ParticipantId = ParticipantId(address: string)

  /** A wave identifier: the domain and the id within it. */
  datatype WaveId = WaveId(domain: string, id: string)

  /** A wavelet version; only its equality matters here. */
  datatype HashedVersion = HashedVersion(version: nat, historyHash: string)

  /** One entry of the backend's index wave. */
  datatype IndexEntry = IndexEntry(waveId: WaveId, digest: string)

  /** The events a document initialisation cursor delivers. */
  datatype DocEvent =
    | ElementStart(kind: string, attrs: map<string, string>)
    | Characters(chars: string)
    | ElementEnd
    | AnnotationBoundary

  /** The components of a document operation the client builds. */
  datatype DocOpComponent =
    | Retain(count: nat)
    | InsertStart(kind: string, attrs: map<string, string>)
    | InsertEnd
    | InsertCharacters(chars: string)

  /** The wavelet operations the client sends. */
  datatype WaveletOp =
    | AddParticipant(who: ParticipantId)
    | RemoveParticipant(who: ParticipantId)
    | DocumentOperation(documentId: string, components: seq<DocOpComponent>)

  /** A request the client makes of the backend. */
  datatype Request =
    | CreateNewWave
    | CreateConversationRoot(wave: WaveId)
    | SendOperation(wave: WaveId, op: WaveletOp)

  /**
   * What the backend reports about one wave: the version of its conversation
   * root wavelet, whether that wavelet exists, its participants, its documents
   * in the order the backend enumerates them, and the size of its main document
   * (0 when there is none).
   */
  datatype WaveView = WaveView(
    version: HashedVersion,
    hasRoot: bool,
    participants: seq<ParticipantId>,
    documents: seq<seq<DocEvent>>,
    mainDocSize: nat)

  /**
   * The backend's answers during one call: the signed-in user, the index
   * entries in order, and the wave views it can return (`getWave` yields null
   * for an id outside `waves`).
   */
  datatype Backend = Backend(user: ParticipantId, index: seq<IndexEntry>, waves: map<WaveId, WaveView>)

  /** The element type of a line, and the attribute naming its author. */
  const LINE := "line"
  const LINE_AUTHOR := "by"

  /** The id of a wave's main document. */
  const MAIN_DOCUMENT_ID := "main"
}
